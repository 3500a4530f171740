/**
 * The lazily built column-name cache of a statement. A lookup of an unknown
 * name answers 0 and inserts that answer into the cache.
 */
module Columns {
  import opened Types

  datatype Cache = Cache(built: bool, table: map<string, int>)

  /** What the building loop puts in: later columns overwrite earlier ones of the same name. */
  function Scan(cols: seq<string>): map<string, int> {
    if cols == [] then map[] else Scan(cols[..|cols| - 1])[cols[|cols| - 1] := |cols| - 1]
  }

  /** The linear scan: the last column of that name. */
  function LastIndex(cols: seq<string>, name: string): (r: Option<int>)
    ensures r.Some? <==> name in cols
    ensures r.Some? ==> 0 <= r.value < |cols| && cols[r.value] == name && name !in cols[r.value + 1..]
  {
    if cols == [] then None
    else if cols[|cols| - 1] == name then Some(|cols| - 1)
    else
      var front := cols[..|cols| - 1];
      assert cols == front + [cols[|cols| - 1]];
      LastIndex(front, name)
  }

  /** What a lookup answers over columns `cols`: the last match, or 0. */
  function Answer(cols: seq<string>, name: string): int {
    var r := LastIndex(cols, name);
    if r.Some? then r.value else 0
  }

  /** statement::col_index. */
  function Lookup(cols: seq<string>, c: Cache, name: string): (Cache, int) {
    var t := if c.built then c.table else c.table + Scan(cols);
    if name in t then (Cache(true, t), t[name]) else (Cache(true, t[name := 0]), 0)
  }

  /** statement::reset, as far as the cache goes. */
  function Cleared(): Cache { Cache(false, map[]) }

  lemma {:induction false} ScanFindsLast(cols: seq<string>, name: string)
    ensures name in Scan(cols) <==> LastIndex(cols, name).Some?
    ensures name in Scan(cols) ==> Scan(cols)[name] == LastIndex(cols, name).value
  {
    if cols != [] {
      ScanFindsLast(cols[..|cols| - 1], name);
    }
  }

  // ----- runs -----------------------------------------------------------------

  /** A lookup, a reset, or a re-preparation by SQLite that changes the result columns. */
  datatype Op = LookupOp(name: string) | ResetOp | ChangeOp(cols: seq<string>)

  datatype State = State(cols: seq<string>, cache: Cache)

  function Do(s: State, op: Op): State {
    match op
    case LookupOp(name) => s.(cache := Lookup(s.cols, s.cache, name).0)
    case ResetOp => s.(cache := Cleared())
    case ChangeOp(cols) => s.(cols := cols)
  }

  function Run(cols: seq<string>, ops: seq<Op>): State {
    if ops == [] then State(cols, Cleared()) else Do(Run(cols, ops[..|ops| - 1]), ops[|ops| - 1])
  }

  /** The columns at the first lookup since the last reset, if there was one. */
  ghost function Snapshot(cols: seq<string>, ops: seq<Op>): Option<seq<string>> {
    if ops == [] then None
    else
      var prev := Snapshot(cols, ops[..|ops| - 1]);
      match ops[|ops| - 1]
      case LookupOp(_) => if prev.Some? then prev else Some(Run(cols, ops[..|ops| - 1]).cols)
      case ResetOp => None
      case ChangeOp(_) => prev
  }

  /** The table answers for the snapshot, with entries for some of its misses. */
  ghost predicate Answers(c: Cache, snapshot: Option<seq<string>>) {
    match snapshot
    case None => c == Cleared()
    case Some(cols) =>
      c.built
      && (forall name :: name in cols ==> name in c.table)
      && (forall name :: name in c.table ==> c.table[name] == Answer(cols, name))
  }

  lemma LookupAnswers(s: State, snapshot: Option<seq<string>>, name: string)
    requires Answers(s.cache, snapshot)
    ensures var cols := if snapshot.Some? then snapshot.value else s.cols;
            Answers(Lookup(s.cols, s.cache, name).0, Some(cols))
            && Lookup(s.cols, s.cache, name).1 == Answer(cols, name)
  {
    if snapshot.None? {
      forall n ensures n in Scan(s.cols) <==> n in s.cols {
        ScanFindsLast(s.cols, n);
      }
      forall n | n in Scan(s.cols) ensures Scan(s.cols)[n] == Answer(s.cols, n) {
        ScanFindsLast(s.cols, n);
      }
      assert s.cache.table + Scan(s.cols) == Scan(s.cols);
    }
  }

  lemma {:induction false} RunAnswers(cols: seq<string>, ops: seq<Op>)
    ensures Answers(Run(cols, ops).cache, Snapshot(cols, ops))
  {
    if ops != [] {
      var front := ops[..|ops| - 1];
      RunAnswers(cols, front);
      match ops[|ops| - 1] {
        case LookupOp(name) => LookupAnswers(Run(cols, front), Snapshot(cols, front), name);
        case _ =>
      }
    }
  }

  /**
   * After any hits, misses, resets and column changes, a lookup answers with
   * the last column of that name among the columns at the first lookup since
   * the last reset, and with 0 if there is none.
   */
  lemma LookupIsScan(cols: seq<string>, ops: seq<Op>, name: string)
    ensures var s := Run(cols, ops);
            var seen := if Snapshot(cols, ops).Some? then Snapshot(cols, ops).value else s.cols;
            Lookup(s.cols, s.cache, name).1 == Answer(seen, name)
  {
    RunAnswers(cols, ops);
    LookupAnswers(Run(cols, ops), Snapshot(cols, ops), name);
  }

  /** The answer names a column of the snapshot called `name` exactly if there is one. */
  lemma AnswerNamesColumnIff(cols: seq<string>, name: string)
    ensures 0 <= Answer(cols, name) < |cols| && cols[Answer(cols, name)] == name <==> name in cols
  {
    if name in cols {
      assert LastIndex(cols, name).Some?;
    }
  }

  /**
   * What the code's lookup promises after any run: its answer is the index of a
   * current column of that name if and only if the last such column seen at the
   * first lookup since the last reset is still there, or, when none was seen,
   * the name is the first column's now.
   */
  lemma LookupNamesColumnIff(cols: seq<string>, ops: seq<Op>, name: string)
    ensures var s := Run(cols, ops);
            var seen := if Snapshot(cols, ops).Some? then Snapshot(cols, ops).value else s.cols;
            var at := Lookup(s.cols, s.cache, name).1;
            (0 <= at < |s.cols| && s.cols[at] == name) <==>
            (if name in seen then LastIndex(seen, name).value < |s.cols| && s.cols[LastIndex(seen, name).value] == name
             else s.cols != [] && s.cols[0] == name)
  {
    LookupIsScan(cols, ops, name);
  }

  /** While the columns stay the same, that is exactly for the names of columns. */
  lemma FixedLookupNamesColumnIff(cols: seq<string>, ops: seq<Op>, name: string)
    requires forall i :: 0 <= i < |ops| ==> !ops[i].ChangeOp?
    ensures var at := Lookup(cols, Run(cols, ops).cache, name).1;
            0 <= at < |cols| && cols[at] == name <==> name in cols
  {
    FixedColumnsAreSeen(cols, ops);
    LookupNamesColumnIff(cols, ops, name);
  }

  /** Changes of the columns between resets are the only way to a stale answer. */
  lemma {:induction false} FixedColumnsAreSeen(cols: seq<string>, ops: seq<Op>)
    requires forall i :: 0 <= i < |ops| ==> !ops[i].ChangeOp?
    ensures Run(cols, ops).cols == cols
    ensures Snapshot(cols, ops).Some? ==> Snapshot(cols, ops).value == cols
  {
    if ops != [] {
      FixedColumnsAreSeen(cols, ops[..|ops| - 1]);
    }
  }
}
