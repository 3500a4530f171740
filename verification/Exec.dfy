/**
 * connection::exec with a row handler: which rows the handler sees, how the
 * call ends, and what becomes of SQLite's error message.
 */
module Execs {
  import opened Types

  type Row = seq<Value>

  /** What the user's handler does with a row. */
  datatype Verdict = Continue | Stop | Throws(e: Exception)

  /** A handler may keep state: it answers to all the rows it has seen so far. */
  type Handler = seq<Row> -> Verdict

  /** How exec ends. */
  datatype Ending = Fine | SqlError(rv: int) | Rethrown(e: Exception) | NoMemory

  /** What SQLite would do with the SQL text: produce rows, then end with a result code. */
  datatype Script = Script(rows: seq<Row>, rv: int)

  // ----- the reference --------------------------------------------------------

  /** The handler's answer to row `i`, if it gets that far. */
  function VerdictOn(h: Handler, rows: seq<Row>, i: nat): Verdict
    requires i < |rows|
  {
    h(rows[..i + 1])
  }

  /** The handler continues after each of the first `n` rows. */
  ghost predicate ContinuesFor(h: Handler, rows: seq<Row>, n: nat)
    requires n <= |rows|
  {
    forall j: nat :: j < n ==> VerdictOn(h, rows, j).Continue?
  }

  /** `i` is the first row the handler does not continue after. */
  ghost predicate StopsAt(h: Handler, rows: seq<Row>, i: nat) {
    i < |rows| && !VerdictOn(h, rows, i).Continue? && ContinuesFor(h, rows, i)
  }

  ghost predicate NeverStops(h: Handler, rows: seq<Row>) {
    ContinuesFor(h, rows, |rows|)
  }

  /**
   * What a stop at row `i` makes of the call. A code becomes an error object
   * with a copy of the message; `copyOk` says whether that copy can be made.
   */
  ghost predicate EndsAt(h: Handler, rows: seq<Row>, copyOk: bool, i: nat, seen: seq<Row>, e: Ending) {
    StopsAt(h, rows, i) && seen == rows[..i + 1]
    && e == match VerdictOn(h, rows, i)
            case Throws(x) => Rethrown(x)
            case _ => if copyOk then SqlError(SQLITE_ABORT) else NoMemory
  }

  ghost predicate EndsAtSome(h: Handler, rows: seq<Row>, copyOk: bool, seen: seq<Row>, e: Ending) {
    exists i: nat :: EndsAt(h, rows, copyOk, i, seen, e)
  }

  /** The end exec owes its caller after the rows `seen` were delivered. */
  ghost predicate EndsAs(h: Handler, script: Script, copyOk: bool, seen: seq<Row>, e: Ending) {
    || EndsAtSome(h, script.rows, copyOk, seen, e)
    || (NeverStops(h, script.rows) && seen == script.rows
        && e == if script.rv == SQLITE_OK then Fine else if copyOk then SqlError(script.rv) else NoMemory)
  }

  /** The handler throws at a row before which it always continued. */
  ghost predicate ThrowsFirst(h: Handler, rows: seq<Row>) {
    exists i: nat :: StopsAt(h, rows, i) && VerdictOn(h, rows, i).Throws?
  }

  /** The handler asks to stop, without throwing, at a row before which it always continued. */
  ghost predicate StopsFirst(h: Handler, rows: seq<Row>) {
    exists i: nat :: StopsAt(h, rows, i) && VerdictOn(h, rows, i).Stop?
  }

  /** The call fails with a code: the handler stops it, or lets it run and SQLite fails. */
  ghost predicate FailsWithCode(h: Handler, script: Script) {
    StopsFirst(h, script.rows) || (NeverStops(h, script.rows) && script.rv != SQLITE_OK)
  }

  // ----- the code -------------------------------------------------------------

  /** exec_context: the handler, and what it threw. */
  class ExecContext {
    const fun: Handler
    var ex: Option<Exception>
    var seen: seq<Row>

    constructor (fun: Handler)
      ensures this.fun == fun && ex == None && seen == []
    {
      this.fun, ex, seen := fun, None, [];
    }

    /** sqxx_call_exec_handler: nothing thrown crosses into SQLite. */
    method Call(row: Row) returns (abort: bool)
      modifies this
      ensures seen == old(seen) + [row]
      ensures abort == !fun(seen).Continue?
      ensures ex == if fun(seen).Throws? then Some(fun(seen).e) else old(ex)
    {
      seen := seen + [row];
      match fun(seen) {
        case Continue => return false;
        case Stop => return true;
        case Throws(e) =>
          ex := Some(e);
          return true;
      }
    }
  }

  /**
   * sqlite3_exec: a nonzero answer of the callback aborts it, and without a
   * callback it runs to its end. An error comes with an allocated message.
   */
  method SqliteExec(script: Script, ctx: ExecContext?) returns (rv: int, errmsg: bool)
    requires ctx != null ==> ctx.ex == None && ctx.seen == []
    modifies if ctx == null then {} else {ctx}
    ensures errmsg == (rv != SQLITE_OK)
    ensures ctx == null ==> rv == script.rv
    ensures ctx != null && NeverStops(ctx.fun, script.rows) ==>
              ctx.seen == script.rows && ctx.ex == None && rv == script.rv
    ensures ctx != null && !NeverStops(ctx.fun, script.rows) ==>
              rv == SQLITE_ABORT
              && EndsAtSome(ctx.fun, script.rows, true, ctx.seen,
                            if ctx.ex.Some? then Rethrown(ctx.ex.value) else SqlError(rv))
  {
    var i := 0;
    while ctx != null && i < |script.rows|
      invariant 0 <= i <= |script.rows|
      invariant ctx != null ==>
                  ctx.seen == script.rows[..i] && ctx.ex == None && ContinuesFor(ctx.fun, script.rows, i)
    {
      assert script.rows[..i] + [script.rows[i]] == script.rows[..i + 1];
      var abort := ctx.Call(script.rows[i]);
      if abort {
        assert EndsAt(ctx.fun, script.rows, true, i, ctx.seen,
                      if ctx.ex.Some? then Rethrown(ctx.ex.value) else SqlError(SQLITE_ABORT));
        return SQLITE_ABORT, true;
      }
      i := i + 1;
    }
    assert script.rows[..|script.rows|] == script.rows;
    return script.rv, script.rv != SQLITE_OK;
  }

  /** An error object with the message is made, the message is freed and the object thrown. */
  method Finish(rv: int, errmsg: bool, copyOk: bool) returns (ending: Ending, leaked: bool)
    requires errmsg == (rv != SQLITE_OK)
    ensures ending == if rv == SQLITE_OK then Fine else if copyOk then SqlError(rv) else NoMemory
    ensures leaked <==> rv != SQLITE_OK && !copyOk
  {
    leaked := errmsg;
    if rv != SQLITE_OK {
      if !copyOk {
        return NoMemory, leaked;
      }
      leaked := false; // sqlite3_free
      return SqlError(rv), leaked;
    }
    return Fine, leaked;
  }

  /**
   * exec(sql): no rows are delivered. The message of an error leaks if and only
   * if it cannot be copied.
   */
  method ExecPlain(script: Script, copyOk: bool) returns (ending: Ending, leaked: bool)
    ensures script.rv == SQLITE_OK ==> ending == Fine
    ensures script.rv != SQLITE_OK && copyOk ==> ending == SqlError(script.rv)
    ensures script.rv != SQLITE_OK && !copyOk ==> ending == NoMemory
    ensures leaked <==> script.rv != SQLITE_OK && !copyOk
  {
    var rv, errmsg := SqliteExec(script, null);
    ending, leaked := Finish(rv, errmsg, copyOk);
  }

  /**
   * exec(sql, fun) for a non-empty handler. It delivers exactly the rows up to
   * and including the first the handler does not continue after; an exception
   * from the handler reaches the caller unchanged and wins over SQLite's abort
   * code. The error message SQLite allocated leaks if and only if the handler
   * throws at a row it is given, or the message cannot be copied.
   */
  method Exec(script: Script, fun: Handler, copyOk: bool) returns (ending: Ending, seen: seq<Row>, leaked: bool)
    ensures EndsAs(fun, script, copyOk, seen, ending)
    ensures ending.Fine? <==> NeverStops(fun, script.rows) && script.rv == SQLITE_OK
    ensures ending.Rethrown? <==> ThrowsFirst(fun, script.rows)
    ensures ending.Rethrown? ==> fun(seen) == Throws(ending.e)
    ensures NeverStops(fun, script.rows) && script.rv != SQLITE_OK && copyOk ==> ending == SqlError(script.rv)
    ensures StopsFirst(fun, script.rows) && copyOk ==> ending == SqlError(SQLITE_ABORT)
    ensures ending.NoMemory? <==> FailsWithCode(fun, script) && !copyOk
    ensures leaked <==> ThrowsFirst(fun, script.rows) || (FailsWithCode(fun, script) && !copyOk)
  {
    var ctx := new ExecContext(fun);
    var rv, errmsg := SqliteExec(script, ctx);
    seen := ctx.seen;
    if ctx.ex.Some? {
      ending, leaked := Rethrown(ctx.ex.value), errmsg;
    } else {
      ending, leaked := Finish(rv, errmsg, copyOk);
    }
    if !NeverStops(fun, script.rows) {
      StoppedReports(fun, script.rows, copyOk, seen, if ctx.ex.Some? then Rethrown(ctx.ex.value) else SqlError(rv));
    }
    RethrownIff(fun, script, copyOk, seen, ending);
    FailedIff(fun, script, copyOk, seen, ending);
    DeliveredIsPrefix(fun, script, copyOk, seen, ending);
  }

  /** exec(sql, fun) for any handler; an empty one falls back to exec(sql). */
  method ExecAny(script: Script, fun: Option<Handler>, copyOk: bool)
    returns (ending: Ending, seen: seq<Row>, leaked: bool)
    ensures fun.Some? ==>
              EndsAs(fun.value, script, copyOk, seen, ending)
              && (leaked <==> ThrowsFirst(fun.value, script.rows) || (FailsWithCode(fun.value, script) && !copyOk))
    ensures fun.None? ==> seen == [] && (leaked <==> script.rv != SQLITE_OK && !copyOk)
    ensures fun.None? && script.rv == SQLITE_OK ==> ending == Fine
    ensures fun.None? && script.rv != SQLITE_OK && copyOk ==> ending == SqlError(script.rv)
    ensures fun.None? && script.rv != SQLITE_OK && !copyOk ==> ending == NoMemory
  {
    if fun.None? {
      seen := [];
      ending, leaked := ExecPlain(script, copyOk);
      return;
    }
    ending, seen, leaked := Exec(script, fun.value, copyOk);
  }

  /** What a stop amounts to when the message cannot be copied. */
  lemma StoppedReports(h: Handler, rows: seq<Row>, copyOk: bool, seen: seq<Row>, e: Ending)
    requires EndsAtSome(h, rows, true, seen, e)
    ensures EndsAtSome(h, rows, copyOk, seen, if e.SqlError? && !copyOk then NoMemory else e)
  {
    var i: nat :| EndsAt(h, rows, true, i, seen, e);
    assert EndsAt(h, rows, copyOk, i, seen, if e.SqlError? && !copyOk then NoMemory else e);
  }

  // ----- what it means --------------------------------------------------------

  /** Rows and ending are determined by the script, the handler and the copy of the message. */
  lemma EndingUnique(h: Handler, script: Script, copyOk: bool, s1: seq<Row>, e1: Ending, s2: seq<Row>, e2: Ending)
    requires EndsAs(h, script, copyOk, s1, e1) && EndsAs(h, script, copyOk, s2, e2)
    ensures s1 == s2 && e1 == e2
  {
    if !NeverStops(h, script.rows) {
      var i: nat :| EndsAt(h, script.rows, copyOk, i, s1, e1);
      var j: nat :| EndsAt(h, script.rows, copyOk, j, s2, e2);
      assert i == j;
    }
  }

  /** The handler is called on a prefix of the rows; an exception ends the call exactly if its last answer was one. */
  lemma DeliveredIsPrefix(h: Handler, script: Script, copyOk: bool, seen: seq<Row>, e: Ending)
    requires EndsAs(h, script, copyOk, seen, e)
    ensures seen <= script.rows
    ensures seen < script.rows ==> seen != [] && !h(seen).Continue?
    ensures e.Rethrown? <==> seen != [] && h(seen).Throws?
    ensures e.Rethrown? ==> h(seen) == Throws(e.e)
  {
    if EndsAtSome(h, script.rows, copyOk, seen, e) {
      var i: nat :| EndsAt(h, script.rows, copyOk, i, seen, e);
      assert h(seen) == VerdictOn(h, script.rows, i);
    } else if seen != [] {
      assert script.rows[..|seen| - 1 + 1] == seen;
      assert VerdictOn(h, script.rows, |seen| - 1).Continue?;
    }
  }

  /** A call ends by rethrowing if and only if the handler throws before it stops otherwise. */
  lemma RethrownIff(h: Handler, script: Script, copyOk: bool, seen: seq<Row>, e: Ending)
    requires EndsAs(h, script, copyOk, seen, e)
    ensures e.Rethrown? <==> ThrowsFirst(h, script.rows)
  {
    if EndsAtSome(h, script.rows, copyOk, seen, e) {
      var i: nat :| EndsAt(h, script.rows, copyOk, i, seen, e);
      assert VerdictOn(h, script.rows, i).Throws? ==> ThrowsFirst(h, script.rows);
      if ThrowsFirst(h, script.rows) {
        var j: nat :| StopsAt(h, script.rows, j) && VerdictOn(h, script.rows, j).Throws?;
        assert i == j;
      }
    }
  }

  /** And with a code, or without memory to report it, if and only if the handler stops it or SQLite fails. */
  lemma FailedIff(h: Handler, script: Script, copyOk: bool, seen: seq<Row>, e: Ending)
    requires EndsAs(h, script, copyOk, seen, e)
    ensures FailsWithCode(h, script) <==> e.SqlError? || e.NoMemory?
    ensures e.SqlError? ==> copyOk && e.rv == if StopsFirst(h, script.rows) then SQLITE_ABORT else script.rv
    ensures e.NoMemory? ==> !copyOk
  {
    if EndsAtSome(h, script.rows, copyOk, seen, e) {
      var i: nat :| EndsAt(h, script.rows, copyOk, i, seen, e);
      assert VerdictOn(h, script.rows, i).Stop? ==> StopsFirst(h, script.rows);
      if StopsFirst(h, script.rows) {
        var j: nat :| StopsAt(h, script.rows, j) && VerdictOn(h, script.rows, j).Stop?;
        assert i == j;
      }
    }
  }
}
