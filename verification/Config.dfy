/**
 * The process-wide log handlers: a C++ table of owners next to the pointers in
 * SQLite's global configuration, changed by calls that SQLite may refuse.
 */
module Configs {
  import opened Types
  import opened Ledgers

  datatype Kind = Log | SqlLog

  datatype Handler = Handler(kind: Kind, fn: int)

  /** The heap, config_callbacks, the pointers SQLite has, and a setter's local unique_ptr. */
  datatype State = State(
    ledger: Ledger<Handler>,
    owned: map<Kind, Addr>,
    installed: map<Kind, Addr>,
    local: Option<Addr>)

  function Initial(): State { State(Ledgers.Empty(), map[], map[], None) }

  // ----- statements -----------------------------------------------------------

  function MakeLocal(s: State, k: Kind, fn: int): State {
    s.(ledger := New(s.ledger, Handler(k, fn)), local := Some(|s.ledger.objects|))
  }

  function Install(s: State, k: Kind): State {
    if s.local.Some? then s.(installed := s.installed[k := s.local.value]) else s
  }

  function DropLocal(s: State): State {
    if s.local.Some? then s.(ledger := Delete(s.ledger, s.local.value), local := None) else s
  }

  function MoveLocal(s: State, k: Kind): State {
    if s.local.None? then s
    else s.(owned := s.owned[k := s.local.value], local := None,
            ledger := if k in s.owned then Delete(s.ledger, s.owned[k]) else s.ledger)
  }

  function Uninstall(s: State, k: Kind): State { s.(installed := s.installed - {k}) }

  // ----- calls ----------------------------------------------------------------

  /** config_log and config_sqllog, setting or clearing; `ok` is SQLite's answer. */
  datatype Op = Set(k: Kind, fn: int, ok: bool) | Clear(k: Kind, ok: bool)

  /** The states before, between and after the statements of a call. */
  function Points(s: State, op: Op): (r: seq<State>)
    ensures |r| > 0 && r[0] == s
  {
    match op
    case Set(k, fn, ok) =>
      var s1 := MakeLocal(s, k, fn);
      if ok then [s, s1, Install(s1, k), MoveLocal(Install(s1, k), k)] else [s, s1, s1, DropLocal(s1)]
    case Clear(k, ok) => [s, if ok then Uninstall(s, k) else s]
  }

  function Do(s: State, op: Op): State { Points(s, op)[|Points(s, op)| - 1] }

  function Run(ops: seq<Op>): State {
    if ops == [] then Initial() else Do(Run(ops[..|ops| - 1]), ops[|ops| - 1])
  }

  // ----- safety ---------------------------------------------------------------

  ghost predicate OwnedOk(s: State, a: Addr, k: Kind) {
    a in s.ledger.live && a < |s.ledger.objects| && s.ledger.objects[a].kind == k
  }

  ghost predicate Safe(s: State) {
    && Exact(s.ledger)
    && (forall k :: k in s.owned ==> OwnedOk(s, s.owned[k], k) && s.local != Some(s.owned[k]))
    && (s.local.Some? ==> s.local.value in s.ledger.live)
    && (forall a :: a in s.ledger.live ==>
          s.local == Some(a) || (s.ledger.objects[a].kind in s.owned && s.owned[s.ledger.objects[a].kind] == a))
    && (forall k :: k in s.installed ==>
          OwnedOk(s, s.installed[k], k)
          && ((k in s.owned && s.owned[k] == s.installed[k]) || s.local == Some(s.installed[k])))
  }

  lemma MakeLocalSafe(s: State, k: Kind, fn: int)
    requires Safe(s) && s.local.None?
    ensures Safe(MakeLocal(s, k, fn))
    ensures forall j :: j in s.installed ==> MakeLocal(s, k, fn).local != Some(s.installed[j])
  {
  }

  lemma InstallSafe(s: State, k: Kind)
    requires Safe(s) && s.local.Some? && OwnedOk(s, s.local.value, k)
    ensures Safe(Install(s, k))
  {
  }

  /** The replaced handler is freed after SQLite's pointer left it. */
  lemma MoveLocalSafe(s: State, k: Kind)
    requires Safe(s) && s.local.Some? && OwnedOk(s, s.local.value, k)
    requires k in s.installed && s.installed[k] == s.local.value
    ensures Safe(MoveLocal(s, k))
  {
    var t := MoveLocal(s, k);
    if k in s.owned {
      DeleteKeepsExact(s.ledger, s.owned[k]);
    }
    forall j | j in s.owned && j != k ensures OwnedOk(t, s.owned[j], j) {
      assert OwnedOk(s, s.owned[j], j);
    }
  }

  lemma DropLocalSafe(s: State)
    requires Safe(s) && s.local.Some? && forall j :: j in s.installed ==> s.local != Some(s.installed[j])
    ensures Safe(DropLocal(s))
  {
  }

  lemma UninstallSafe(s: State, k: Kind)
    requires Safe(s)
    ensures Safe(Uninstall(s, k))
  {
  }

  ghost predicate AllSafe(points: seq<State>) {
    forall j :: 0 <= j < |points| ==> Safe(points[j])
  }

  /** Every statement of a call keeps the pointers and the ownership sound. */
  lemma PointsSafe(s: State, op: Op)
    requires Safe(s) && s.local.None?
    ensures AllSafe(Points(s, op)) && Safe(Do(s, op)) && Do(s, op).local.None?
  {
    match op
    case Set(k, fn, ok) =>
      var s1 := MakeLocal(s, k, fn);
      MakeLocalSafe(s, k, fn);
      if ok {
        InstallSafe(s1, k);
        MoveLocalSafe(Install(s1, k), k);
      } else {
        DropLocalSafe(s1);
      }
    case Clear(k, ok) => UninstallSafe(s, k);
  }

  lemma DoSets(s: State, op: Op, k: Kind)
    requires Safe(s) && s.local.None?
    ensures Callee(Do(s, op), k) ==
            if op.k != k || !op.ok then Callee(s, k) else if op.Set? then Some(op.fn) else None
  {
  }

  /** Who SQLite would call. */
  function Callee(s: State, k: Kind): Option<int> {
    if k in s.installed && s.installed[k] < |s.ledger.objects| then Some(s.ledger.objects[s.installed[k]].fn) else None
  }

  /** The last successful call for `k`. */
  ghost function LastSet(ops: seq<Op>, k: Kind): Option<int> {
    if ops == [] then None
    else
      var op := ops[|ops| - 1];
      if op.k != k || !op.ok then LastSet(ops[..|ops| - 1], k)
      else if op.Set? then Some(op.fn) else None
  }

  lemma {:induction false} RunSafe(ops: seq<Op>)
    ensures Safe(Run(ops)) && Run(ops).local.None?
  {
    if ops != [] {
      RunSafe(ops[..|ops| - 1]);
      PointsSafe(Run(ops[..|ops| - 1]), ops[|ops| - 1]);
    }
  }

  /**
   * In every run of setting, failing to set and clearing, at every program
   * point, SQLite's pointers are to live handlers of their kind owned by the
   * table or the running setter, and no handler leaks or is freed twice.
   */
  lemma EveryPointSafe(ops: seq<Op>, next: Op)
    ensures AllSafe(Points(Run(ops), next))
  {
    RunSafe(ops);
    PointsSafe(Run(ops), next);
  }

  /** An event runs the handler of the last successful set that was not cleared since. */
  lemma {:induction false} CalleeIsLastSet(ops: seq<Op>, k: Kind)
    ensures Callee(Run(ops), k) == LastSet(ops, k)
  {
    if ops != [] {
      CalleeIsLastSet(ops[..|ops| - 1], k);
      RunSafe(ops[..|ops| - 1]);
      DoSets(Run(ops[..|ops| - 1]), ops[|ops| - 1], k);
    }
  }

  /** The handler the table owns. */
  function Kept(s: State, k: Kind): Option<int> {
    if k in s.owned && s.owned[k] < |s.ledger.objects| then Some(s.ledger.objects[s.owned[k]].fn) else None
  }

  /** The last successful set for `k`, cleared since or not. */
  ghost function LastKept(ops: seq<Op>, k: Kind): Option<int> {
    if ops == [] then None
    else
      var op := ops[|ops| - 1];
      if op.Set? && op.k == k && op.ok then Some(op.fn) else LastKept(ops[..|ops| - 1], k)
  }

  /** The table owns the handler set last; a clear does not free it. */
  lemma {:induction false} TableKeepsLastSet(ops: seq<Op>, k: Kind)
    ensures Kept(Run(ops), k) == LastKept(ops, k)
  {
    if ops != [] {
      TableKeepsLastSet(ops[..|ops| - 1], k);
      RunSafe(ops[..|ops| - 1]);
      DoKeeps(Run(ops[..|ops| - 1]), ops[|ops| - 1], k);
    }
  }

  lemma DoKeeps(s: State, op: Op, k: Kind)
    requires Safe(s) && s.local.None?
    ensures Kept(Do(s, op), k) == if op.Set? && op.k == k && op.ok then Some(op.fn) else Kept(s, k)
  {
  }

  /** A refused set changes nothing: the handler that was there stays installed and alive. */
  lemma RefusedSetKeepsHandler(s: State, k: Kind, fn: int)
    requires Safe(s) && s.local.None?
    ensures var t := Do(s, Set(k, fn, false));
            t.installed == s.installed && t.owned == s.owned && t.ledger.live == s.ledger.live
            && forall j :: Callee(t, j) == Callee(s, j)
  {
    PointsSafe(s, Set(k, fn, false));
  }

  /** The table's destructor at process exit. */
  function DestroyTable(s: State): State {
    s.(ledger := DeleteAll(s.ledger, s.owned.Values), owned := map[])
  }

  ghost predicate NoneDangles(s: State) {
    forall k :: k in s.installed ==> s.installed[k] in s.ledger.live
  }

  /**
   * At process exit the table is destroyed but SQLite's configuration is not
   * changed: no pointer of SQLite dangles then if and only if no handler was
   * left installed.
   */
  lemma ExitSafeIff(ops: seq<Op>)
    ensures NoneDangles(DestroyTable(Run(ops))) <==> forall k :: LastSet(ops, k) == None
  {
    RunSafe(ops);
    var s := Run(ops);
    InstalledDies(s);
    forall k ensures Callee(s, k) == LastSet(ops, k) {
      CalleeIsLastSet(ops, k);
    }
    CalleesDecide(s, ops);
  }

  lemma CalleesDecide(s: State, ops: seq<Op>)
    requires forall k :: k in s.installed <==> Callee(s, k).Some?
    requires forall k :: Callee(s, k) == LastSet(ops, k)
    ensures (forall k :: k !in s.installed) <==> forall k :: LastSet(ops, k) == None
  {
    if k: Kind :| k in s.installed {
      assert LastSet(ops, k) == Callee(s, k);
    } else {
      forall k ensures LastSet(ops, k) == None {
        assert Callee(s, k) == LastSet(ops, k) && k !in s.installed;
      }
    }
  }

  lemma InstalledDies(s: State)
    requires Safe(s) && s.local.None?
    ensures NoneDangles(DestroyTable(s)) <==> forall k :: k !in s.installed
    ensures forall k :: k in s.installed <==> Callee(s, k).Some?
  {
    forall k | k in s.installed ensures s.installed[k] !in DestroyTable(s).ledger.live {
      assert s.installed[k] in s.owned.Values;
    }
  }

  // ----- the functions --------------------------------------------------------

  /** The globals of config.cpp with the heap and SQLite's configuration. */
  class Configuration {
    var ledger: Ledger<Handler>
    var owned: map<Kind, Addr>
    var installed: map<Kind, Addr>

    constructor ()
      ensures View() == Initial()
    {
      ledger, owned, installed := Ledgers.Empty(), map[], map[];
    }

    function View(): State
      reads this
    {
      State(ledger, owned, installed, None)
    }

    /** sqlite3_config with a handler pointer, or without. */
    method Config(k: Kind, data: Option<Addr>, rv: int)
      modifies this`installed
      ensures installed == if rv != SQLITE_OK then old(installed)
                           else if data.Some? then old(installed)[k := data.value] else old(installed) - {k}
    {
      if rv == SQLITE_OK {
        installed := if data.Some? then installed[k := data.value] else installed - {k};
      }
    }

    /** config_log(fun) and config_sqllog(fun); an empty function is a clear. */
    method SetLog(k: Kind, fun: Option<int>, rv: int) returns (thrown: Option<Exception>)
      requires Safe(View())
      modifies this
      ensures View() == Do(old(View()), if fun.Some? then Set(k, fun.value, rv == SQLITE_OK)
                                        else Clear(k, rv == SQLITE_OK))
      ensures Safe(View()) && thrown == if rv != SQLITE_OK then Some(SqxxError(rv)) else None
    {
      if fun.None? {
        thrown := ClearLog(k, rv);
        return;
      }
      PointsSafe(View(), Set(k, fun.value, rv == SQLITE_OK));
      var cb := |ledger.objects|;
      ledger := New(ledger, Handler(k, fun.value));
      Config(k, Some(cb), rv);
      if rv != SQLITE_OK {
        ledger := Delete(ledger, cb);
        return Some(SqxxError(rv));
      }
      var prev := if k in owned then Some(owned[k]) else None;
      owned := owned[k := cb];
      if prev.Some? {
        ledger := Delete(ledger, prev.value);
      }
      return None;
    }

    /** config_log() and config_sqllog(): the table keeps the handler. */
    method ClearLog(k: Kind, rv: int) returns (thrown: Option<Exception>)
      requires Safe(View())
      modifies this`installed
      ensures View() == Do(old(View()), Clear(k, rv == SQLITE_OK))
      ensures Safe(View()) && thrown == if rv != SQLITE_OK then Some(SqxxError(rv)) else None
    {
      PointsSafe(View(), Clear(k, rv == SQLITE_OK));
      Config(k, None, rv);
      return if rv != SQLITE_OK then Some(SqxxError(rv)) else None;
    }
  }
}
