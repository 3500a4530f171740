/**
 * What SQLite will call, after any run: the state machine refines a map from
 * places to callees, and that map is read off the list of calls alone.
 */
module Dispatch {
  import opened Types
  import opened Worlds
  import opened Safety
  import opened Runs

  /** What runs when SQLite calls out from a place. */
  datatype Callee<!S> = Nobody | User(payload: Payload<S>) | PlainFunction(fn: int) | SqliteOwn(n: int)

  function CalleeOf<S>(w: World<S>, b: Binding): Callee<S> {
    match b
    case Unbound => Nobody
    case Heap(a) => if a < |w.ledger.objects| then User(w.ledger.objects[a].payload) else Nobody
    case Static(fn) => PlainFunction(fn)
    case BuiltIn(n) => SqliteOwn(n)
  }

  function CalleeAt<S>(w: World<S>, h: Home): Callee<S> { CalleeOf(w, Bound(w, h)) }

  function OwnOrNobody<S>(n: int): Callee<S> {
    if n > 0 then SqliteOwn(n) else Nobody
  }

  /** What a call sets at `h`, if it sets anything there. */
  function Effect<S>(op: Op<S>, h: Home): Option<Callee<S>> {
    match op
    case SetHandler(k, n, fn, newOk, _) =>
      if newOk && h == HookHome(k) then Some(if k.Progress? && n < 1 then Nobody else User(Callable(fn))) else None
    case ClearHandler(k) => if h == HookHome(k) then Some(Nobody) else None
    case BusyTimeout(ms, ok) => if ok && h == HookHome(Busy) then Some(OwnOrNobody(ms)) else None
    case WalAutocheckpoint(frames, ok) => if ok && h == HookHome(Wal) then Some(OwnOrNobody(frames)) else None
    case CreateFunction(g, payload, newOk, ok) => if newOk && ok && h == g then Some(User(payload)) else None
    case CreateStaticFunction(g, fn, ok) => if ok && h == g then Some(PlainFunction(fn)) else None
    case RemoveFunction(g, ok) => if ok && h == g then Some(Nobody) else None
    case CreateCollation(g, fn, newOk, ok) => if newOk && ok && h == g then Some(User(Callable(fn))) else None
    case CreateStaticCollation(g, fn, ok) => if ok && h == g then Some(PlainFunction(fn)) else None
    case RemoveCollation(g, ok) => if ok && h == g then Some(Nobody) else None
    case Open(r) => if r.OpenOk? && h == HookHome(Wal) then Some(SqliteOwn(DefaultAutocheckpoint)) else None
    case Close => Some(Nobody)
    case CloseSync(ok) => if ok then Some(Nobody) else None
    case Destruct => Some(Nobody)
    case Sqlite(_) => None
  }

  /** The most recent call that set something at `h`. */
  ghost function LastCallee<S>(ops: seq<Op<S>>, h: Home): Callee<S> {
    if ops == [] then Nobody
    else
      var e := Effect(ops[|ops| - 1], h);
      if e.Some? then e.value else LastCallee(ops[..|ops| - 1], h)
  }

  ghost predicate Sets<S>(w: World<S>, v: World<S>, op: Op<S>, h: Home) {
    CalleeAt(v, h) == if Effect(op, h).Some? then Effect(op, h).value else CalleeAt(w, h)
  }

  /** Bindings survive anything that only adds objects. */
  lemma SameBinding<S>(w: World<S>, v: World<S>, h: Home)
    requires Inv(w) && Bound(v, h) == Bound(w, h) && w.ledger.objects <= v.ledger.objects
    ensures CalleeAt(v, h) == CalleeAt(w, h)
  {
    BoundIsLive(w);
  }

  /** `v` differs from `w` in what SQLite has at `g`, and has more objects at most. */
  ghost predicate Rebound<S>(w: World<S>, v: World<S>, g: Home, b: Binding) {
    v.bound == w.bound[g := b] && w.ledger.objects <= v.ledger.objects
  }

  lemma ReboundSets<S>(w: World<S>, v: World<S>, g: Home, b: Binding, h: Home)
    requires Inv(w) && Rebound(w, v, g, b)
    ensures CalleeAt(v, h) == if h == g then CalleeOf(v, b) else CalleeAt(w, h)
  {
    if h != g {
      SameBinding(w, v, h);
    }
  }

  /** What a setter whose allocations succeed leaves. */
  lemma SetHandlerResult<S>(w: World<S>, k: Hook, n: int, fn: int)
    ensures var a := |w.ledger.objects|;
            var first := NewLocal(Object(HookHome(k), Callable(fn)));
            var v := Exec(w, [first, SetHook(k, n), SetupCallbacks, MoveLocalToSlot(k)]);
            Rebound(w, v, HookHome(k), if k.Progress? && n < 1 then Unbound else Heap(a))
            && v.ledger.objects == w.ledger.objects + [Object(HookHome(k), Callable(fn))] && Slot(v, k) == Some(a)
            && v.handle == w.handle
            && v.ledger.live == w.ledger.live + {a} - (if Slot(w, k).Some? then {Slot(w, k).value} else {})
  {
    Exec4(w, NewLocal(Object(HookHome(k), Callable(fn))), SetHook(k, n), SetupCallbacks, MoveLocalToSlot(k));
    InstallResult(Step(w, NewLocal(Object(HookHome(k), Callable(fn)))), k, n);
  }

  lemma InstallResult<S>(w: World<S>, k: Hook, n: int)
    requires w.local.Some?
    ensures var v := Step(Step(Step(w, SetHook(k, n)), SetupCallbacks), MoveLocalToSlot(k));
            v.bound == w.bound[HookHome(k) := if k.Progress? && n < 1 then Unbound else Heap(w.local.value)]
            && v.ledger.objects == w.ledger.objects && Slot(v, k) == w.local && v.handle == w.handle
            && v.ledger.live == w.ledger.live - (if Slot(w, k).Some? then {Slot(w, k).value} else {})
  {
    var w1 := Step(w, SetHook(k, n));
    assert w1.local == w.local && w1.ledger == w.ledger;
    var w2 := Step(w1, SetupCallbacks);
    assert w2.local == w.local && w2.ledger == w.ledger && w2.bound == w1.bound;
    assert w2.table.Some? && w2.handle == w.handle;
    assert Slot(w2, k) == Slot(w, k);
    MoveResult(w2, k);
  }

  lemma MoveResult<S>(w: World<S>, k: Hook)
    requires w.table.Some? && w.local.Some?
    ensures var v := Step(w, MoveLocalToSlot(k));
            v.bound == w.bound && v.ledger.objects == w.ledger.objects && Slot(v, k) == w.local && v.handle == w.handle
            && v.ledger.live == w.ledger.live - (if Slot(w, k).Some? then {Slot(w, k).value} else {})
  {
  }

  lemma SetHandlerSets<S>(w: World<S>, op: Op<S>, h: Home)
    requires op.SetHandler? && Resting(w) && Permitted(w, op)
    ensures Sets(w, Do(w, op), op, h)
  {
    if op.newOk {
      var o := Object(HookHome(op.k), Callable(op.fn));
      SetHandlerResult(w, op.k, op.n, op.fn);
      assert Program(w, op) == [NewLocal(o), SetHook(op.k, op.n), SetupCallbacks, MoveLocalToSlot(op.k)];
      ReboundSets(w, Do(w, op), HookHome(op.k),
                  if op.k.Progress? && op.n < 1 then Unbound else Heap(|w.ledger.objects|), h);
    }
  }

  lemma ClearResult<S>(w: World<S>, k: Hook, s: Statement<S>)
    requires s == ClearHook(k) || (s.SetBuiltIn? && s.k == k)
    ensures Rebound(w, Exec(w, [s, ResetSlot(k)]), HookHome(k),
                    if s.SetBuiltIn? && s.n > 0 then BuiltIn(s.n) else Unbound)
    ensures Exec(w, [s, ResetSlot(k)]).ledger.live ==
            w.ledger.live - (if Slot(w, k).Some? then {Slot(w, k).value} else {})
  {
    ClearDoes(w, k, s);
    ResetResult(Rebind(w, HookHome(k), if s.SetBuiltIn? && s.n > 0 then BuiltIn(s.n) else Unbound), k);
  }

  /** The statements that clear a handler, or displace it with SQLite's own. */
  lemma ClearDoes<S>(w: World<S>, k: Hook, s: Statement<S>)
    requires s == ClearHook(k) || (s.SetBuiltIn? && s.k == k)
    ensures Exec(w, [s, ResetSlot(k)]) ==
            Reset(Rebind(w, HookHome(k), if s.SetBuiltIn? && s.n > 0 then BuiltIn(s.n) else Unbound), k)
  {
    Exec2(w, s, ResetSlot(k));
  }

  lemma ResetResult<S>(w: World<S>, k: Hook)
    ensures Reset(w, k).bound == w.bound && Reset(w, k).ledger.objects == w.ledger.objects
    ensures Reset(w, k).ledger.live == w.ledger.live - (if Slot(w, k).Some? then {Slot(w, k).value} else {})
  {
  }

  lemma HookOpSets<S>(w: World<S>, op: Op<S>, h: Home)
    requires op.ClearHandler? || op.BusyTimeout? || op.WalAutocheckpoint?
    requires Resting(w) && Permitted(w, op)
    ensures Sets(w, Do(w, op), op, h)
  {
    var v := Do(w, op);
    match op
    case ClearHandler(k) =>
      ClearResult(w, k, ClearHook(k));
      ReboundSets(w, v, HookHome(k), Unbound, h);
    case BusyTimeout(ms, ok) =>
      if ok {
        ClearResult(w, Busy, SetBuiltIn(Busy, ms));
        ReboundSets(w, v, HookHome(Busy), if ms > 0 then BuiltIn(ms) else Unbound, h);
      }
    case WalAutocheckpoint(frames, ok) =>
      if ok {
        ClearResult(w, Wal, SetBuiltIn(Wal, frames));
        ReboundSets(w, v, HookHome(Wal), if frames > 0 then BuiltIn(frames) else Unbound, h);
      }
  }

  lemma CreateFunctionSets<S>(w: World<S>, op: Op<S>, h: Home)
    requires op.CreateFunction? && Resting(w) && Permitted(w, op)
    ensures Sets(w, Do(w, op), op, h)
  {
    if op.newOk {
      CreateFunctionResult(w, Object(op.h, op.payload), op.h, op.ok);
      if op.ok {
        ReboundSets(w, Do(w, op), op.h, Heap(|w.ledger.objects|), h);
      } else {
        SameBinding(w, Do(w, op), h);
      }
    }
  }

  lemma CreateFunctionResult<S>(w: World<S>, o: Object<S>, h: Home, ok: bool)
    ensures var v := Exec(w, [NewLocal(o), CreateFunctionV2(h, Local, ok)]);
            v.ledger.objects == w.ledger.objects + [o]
            && v.bound == if ok then w.bound[h := Heap(|w.ledger.objects|)] else w.bound
  {
    Exec2(w, NewLocal(o), CreateFunctionV2(h, Local, ok));
    RegisterLocalResult(Step(w, NewLocal(o)), h, ok);
  }

  lemma RegisterLocalResult<S>(w: World<S>, h: Home, ok: bool)
    requires w.local.Some?
    ensures var v := Step(w, CreateFunctionV2(h, Local, ok));
            v.ledger.objects == w.ledger.objects && v.bound == if ok then w.bound[h := Heap(w.local.value)] else w.bound
  {
  }

  lemma CreateCollationSets<S>(w: World<S>, op: Op<S>, h: Home)
    requires op.CreateCollation? && Resting(w) && Permitted(w, op)
    ensures Sets(w, Do(w, op), op, h)
  {
    if op.newOk {
      var o := Object(op.h, Callable(op.fn));
      if op.ok {
        assert Program(w, op) == [NewLocal(o), CreateCollationV2(op.h, Local, true)];
        Exec2(w, NewLocal(o), CreateCollationV2(op.h, Local, true));
        ReboundSets(w, Do(w, op), op.h, Heap(|w.ledger.objects|), h);
      } else {
        RefusedCollationResult(w, o, op.h);
        assert Program(w, op) == [NewLocal(o), CreateCollationV2(op.h, Local, false), DeleteLocal];
        SameBinding(w, Do(w, op), h);
      }
    }
  }

  lemma RefusedCollationResult<S>(w: World<S>, o: Object<S>, h: Home)
    ensures var v := Exec(w, [NewLocal(o), CreateCollationV2(h, Local, false), DeleteLocal]);
            v.bound == w.bound && v.ledger.objects == w.ledger.objects + [o]
  {
    Exec3(w, NewLocal(o), CreateCollationV2(h, Local, false), DeleteLocal);
  }

  /** A registration without user data of its own. */
  lemma RegisterResult<S>(w: World<S>, s: Statement<S>, h: Home, data: Data, ok: bool)
    requires s == CreateFunctionV2(h, data, ok) || s == CreateCollationV2(h, data, ok)
    requires !data.Local?
    ensures var v := Exec(w, [s]);
            v.ledger.objects == w.ledger.objects && v.bound == if ok then w.bound[h := Incoming(w, data)] else w.bound
  {
    Exec1(w, s);
  }

  lemma RegisterSets<S>(w: World<S>, op: Op<S>, h: Home)
    requires op.CreateStaticFunction? || op.RemoveFunction? || op.CreateStaticCollation? || op.RemoveCollation?
    requires Resting(w) && Permitted(w, op)
    ensures Sets(w, Do(w, op), op, h)
  {
    var s := Program(w, op)[0];
    RegisterResult(w, s, op.h, s.data, op.ok);
    if op.ok {
      ReboundSets(w, Do(w, op), op.h, Incoming(w, s.data), h);
    } else {
      SameBinding(w, Do(w, op), h);
    }
  }

  lemma OpenSets<S>(w: World<S>, r: OpenResult, h: Home)
    requires Resting(w) && Permitted(w, Open(r))
    ensures Sets(w, Do(w, Open(r)), Open(r), h)
  {
    assert w.db.Closed? && Bound(w, h) == Unbound;
    OpenProgram(w, r);
  }

  lemma CloseSets<S>(w: World<S>, op: Op<S>, h: Home)
    requires op.Close? || op.CloseSync? || op.Destruct?
    requires Resting(w) && Permitted(w, op)
    ensures Sets(w, Do(w, op), op, h)
  {
    OpRests(w, op);
    if op.Destruct? {
      DestructReady(w);
    } else if Program(w, op) != [] {
      assert Program(w, op) == [CloseV2, NullHandle];
      Exec2(w, CloseV2, NullHandle);
    }
    assert Do(w, op).db.Closed? ==> Bound(Do(w, op), h) == Unbound;
  }

  lemma EventSets<S>(w: World<S>, e: Event, h: Home)
    requires Resting(w) && Permitted(w, Sqlite(e))
    ensures Sets(w, Do(w, Sqlite(e)), Sqlite(e), h)
  {
    DoEvent(w, e);
    EventChangesNothing(w, e);
    SameBinding(w, StepEvent(w, e), h);
  }

  lemma EventChangesNothing<S>(w: World<S>, e: Event)
    ensures var v := StepEvent(w, e); v.bound == w.bound && v.ledger == w.ledger && v.table == w.table
  {
  }

  /** One call changes exactly what its effect says, and nothing anywhere else. */
  lemma OpSets<S>(w: World<S>, op: Op<S>, h: Home)
    requires Resting(w) && Permitted(w, op)
    ensures Sets(w, Do(w, op), op, h)
  {
    if op.SetHandler? {
      SetHandlerSets(w, op, h);
    } else if op.ClearHandler? || op.BusyTimeout? || op.WalAutocheckpoint? {
      HookOpSets(w, op, h);
    } else if op.CreateFunction? {
      CreateFunctionSets(w, op, h);
    } else if op.CreateCollation? {
      CreateCollationSets(w, op, h);
    } else if op.Open? {
      OpenSets(w, op.result, h);
    } else if op.Close? || op.CloseSync? || op.Destruct? {
      CloseSets(w, op, h);
    } else if op.Sqlite? {
      EventSets(w, op.e, h);
    } else {
      RegisterSets(w, op, h);
    }
  }

  /**
   * After any run, what SQLite calls at any hook, function or collation is what
   * the most recent successful call of that place put there.
   */
  lemma {:induction false} CalleeIsLastSet<S>(ops: seq<Op<S>>, h: Home)
    requires PermittedRun(ops)
    ensures CalleeAt(Run(Initial<S>(), ops), h) == LastCallee(ops, h)
  {
    if ops != [] {
      var front, op := ops[..|ops| - 1], ops[|ops| - 1];
      CalleeIsLastSet(front, h);
      RunRests(front);
      OpSets(Run(Initial<S>(), front), op, h);
    }
  }

  lemma CalleesAreLastSet<S>(ops: seq<Op<S>>)
    requires PermittedRun(ops)
    ensures forall h :: CalleeAt(Run(Initial<S>(), ops), h) == LastCallee(ops, h)
  {
    forall h ensures CalleeAt(Run(Initial<S>(), ops), h) == LastCallee(ops, h) { CalleeIsLastSet(ops, h); }
  }

  /** An event runs the handler or function most recently set for its place. */
  lemma EventRunsLastSet<S>(ops: seq<Op<S>>, h: Home, st: nat)
    requires PermittedRun(ops) && Permitted(Run(Initial<S>(), ops), Sqlite(Enter(h, st)))
    ensures var v := Do(Run(Initial<S>(), ops), Sqlite(Enter(h, st)));
            v.frames != [] && CalleeOf(v, v.frames[|v.frames| - 1].binding) == LastCallee(ops, h)
            && LastCallee(ops, h) != Nobody
  {
    var w := Run(Initial<S>(), ops);
    RunRests(ops);
    CalleeIsLastSet(ops, h);
    DoEvent(w, Enter(h, st));
    BoundIsLive(w);
  }

  // ----- what the callback table keeps ----------------------------------------

  /** The handler the table owns for a hook. */
  function KeptAt<S>(w: World<S>, k: Hook): Option<Payload<S>> {
    var a := Slot(w, k);
    if a.Some? && a.value < |w.ledger.objects| then Some(w.ledger.objects[a.value].payload) else None
  }

  /** What a call makes the table own for hook `k`, if it changes that. */
  function KeptEffect<S>(op: Op<S>, k: Hook): Option<Option<Payload<S>>> {
    match op
    case SetHandler(j, _, fn, newOk, _) => if newOk && j == k then Some(Some(Callable(fn))) else None
    case ClearHandler(j) => if j == k then Some(None) else None
    case BusyTimeout(_, ok) => if ok && k == Busy then Some(None) else None
    case WalAutocheckpoint(_, ok) => if ok && k == Wal then Some(None) else None
    case Destruct => Some(None)
    case _ => None
  }

  ghost function LastKept<S>(ops: seq<Op<S>>, k: Hook): Option<Payload<S>> {
    if ops == [] then None
    else
      var e := KeptEffect(ops[|ops| - 1], k);
      if e.Some? then e.value else LastKept(ops[..|ops| - 1], k)
  }

  lemma SameSlot<S>(w: World<S>, v: World<S>, k: Hook)
    requires Inv(w) && Slot(v, k) == Slot(w, k) && w.ledger.objects <= v.ledger.objects
    ensures KeptAt(v, k) == KeptAt(w, k)
  {
    assert OwnedAt(w, HookHome(k)) == Slot(w, k);
  }

  lemma StatementKeepsTable<S>(w: World<S>, s: Statement<S>)
    requires !s.SetupCallbacks? && !s.MoveLocalToSlot? && !s.ResetSlot? && !s.FreeTable?
    ensures Step(w, s).table == w.table
  {
    match s
    case CreateFunctionV2(h, data, _) => RegistrationKeepsTable(w, h, data);
    case CreateCollationV2(h, data, _) => RegistrationKeepsTable(w, h, data);
    case Environment(e) => EventChangesNothing(w, e);
    case _ => SmallStatementKeepsTable(w, s);
  }

  lemma RegistrationKeepsTable<S>(w: World<S>, h: Home, data: Data)
    ensures Register(w, h, data).table == w.table && ReleaseLocal(w).table == w.table
  {
  }

  lemma SmallStatementKeepsTable<S>(w: World<S>, s: Statement<S>)
    requires s.NewLocal? || s.SetHook? || s.ClearHook? || s.SetBuiltIn? || s.DeleteLocal? || s.OpenV2?
             || s.CloseV2? || s.NullHandle?
    ensures Step(w, s).table == w.table
  {
  }

  lemma {:induction false} ProgramKeepsTable<S>(w: World<S>, prog: seq<Statement<S>>)
    requires forall i :: 0 <= i < |prog| ==>
               !prog[i].SetupCallbacks? && !prog[i].MoveLocalToSlot? && !prog[i].ResetSlot? && !prog[i].FreeTable?
    ensures Exec(w, prog).table == w.table
    decreases |prog|
  {
    if prog != [] {
      StatementKeepsTable(w, prog[0]);
      ProgramKeepsTable(Step(w, prog[0]), prog[1..]);
    }
  }

  ghost predicate Keeps<S>(w: World<S>, v: World<S>, op: Op<S>, k: Hook) {
    KeptAt(v, k) == if KeptEffect(op, k).Some? then KeptEffect(op, k).value else KeptAt(w, k)
  }

  lemma SetHandlerKeeps<S>(w: World<S>, op: Op<S>, k: Hook)
    requires op.SetHandler? && Resting(w) && Permitted(w, op)
    ensures Keeps(w, Do(w, op), op, k)
  {
    if op.newOk {
      SetterProgram(w, op.k, op.n, op.fn, op.tableOk);
      SetterSlots(w, op.k, op.n, op.fn, k);
      if k != op.k {
        SameSlot(w, Do(w, op), k);
      }
    }
  }

  lemma SetterSlots<S>(w: World<S>, k: Hook, n: int, fn: int, j: Hook)
    ensures var v := MoveLocal(Setup(Repointed(w, k, n, fn)), k);
            v.ledger.objects == w.ledger.objects + [Object(HookHome(k), Callable(fn))]
            && Slot(v, j) == if j == k then Some(|w.ledger.objects|) else Slot(w, j)
  {
    var u := Setup(Repointed(w, k, n, fn));
    assert u.local == Some(|w.ledger.objects|) && Slot(u, j) == Slot(w, j);
    MoveSlots(u, k, j);
  }

  lemma MoveSlots<S>(w: World<S>, k: Hook, j: Hook)
    requires w.table.Some? && w.local.Some?
    ensures Slot(MoveLocal(w, k), j) == if j == k then w.local else Slot(w, j)
    ensures MoveLocal(w, k).ledger.objects == w.ledger.objects
  {
  }

  lemma ResetEmptiesSlot<S>(w: World<S>, k: Hook, j: Hook)
    ensures Slot(Reset(w, k), j) == if j == k then None else Slot(w, j)
    ensures Reset(w, k).ledger.objects == w.ledger.objects
  {
  }

  /** Clearing a handler, and displacing the busy or WAL handler, empties just its slot. */
  lemma ClearKeeps<S>(w: World<S>, op: Op<S>, j: Hook, k: Hook)
    requires Empties(op, j) && Resting(w)
    ensures Keeps(w, Do(w, op), op, k)
  {
    var s := Program(w, op)[0];
    var b := if s.SetBuiltIn? && s.n > 0 then BuiltIn(s.n) else Unbound;
    assert Program(w, op) == [s, ResetSlot(j)];
    ClearDoes(w, j, s);
    ClearEmptiesSlot(w, b, j, k);
    if k != j {
      SameSlot(w, Do(w, op), k);
    }
  }

  lemma ClearEmptiesSlot<S>(w: World<S>, b: Binding, j: Hook, k: Hook)
    ensures var v := Reset(Rebind(w, HookHome(j), b), j);
            Slot(v, k) == (if k == j then None else Slot(w, k)) && v.ledger.objects == w.ledger.objects
  {
    ResetEmptiesSlot(Rebind(w, HookHome(j), b), j, k);
    assert Slot(Rebind(w, HookHome(j), b), k) == Slot(w, k);
  }

  lemma OtherKeeps<S>(w: World<S>, op: Op<S>, k: Hook)
    requires !op.SetHandler? && !op.ClearHandler? && !op.Destruct? && !op.Sqlite?
    requires (op.BusyTimeout? || op.WalAutocheckpoint?) ==> !op.ok
    requires Resting(w)
    ensures Keeps(w, Do(w, op), op, k)
  {
    ProgramKeepsTable(w, Program(w, op));
    CallKeepsRecords(w, op);
    SameSlot(w, Do(w, op), k);
  }

  lemma OpKeepsSlots<S>(w: World<S>, op: Op<S>, k: Hook)
    requires Resting(w) && Permitted(w, op)
    ensures Keeps(w, Do(w, op), op, k)
  {
    match op
    case SetHandler(_, _, _, _, _) => SetHandlerKeeps(w, op, k);
    case ClearHandler(j) => ClearKeeps(w, op, j, k);
    case BusyTimeout(_, ok) => if ok { ClearKeeps(w, op, Busy, k); } else { OtherKeeps(w, op, k); }
    case WalAutocheckpoint(_, ok) => if ok { ClearKeeps(w, op, Wal, k); } else { OtherKeeps(w, op, k); }
    case Destruct => DestructReady(w);
    case Sqlite(e) =>
      DoEvent(w, e);
      EventChangesNothing(w, e);
      SameSlot(w, StepEvent(w, e), k);
    case _ => OtherKeeps(w, op, k);
  }

  /**
   * After any run, the table owns for each hook the handler set last, unless it
   * was cleared, displaced by SQLite's own or destroyed with the connection
   * since. Closing the connection does not free it.
   */
  lemma {:induction false} TableKeepsLastSet<S>(ops: seq<Op<S>>, k: Hook)
    requires PermittedRun(ops)
    ensures KeptAt(Run(Initial<S>(), ops), k) == LastKept(ops, k)
  {
    if ops != [] {
      var front, op := ops[..|ops| - 1], ops[|ops| - 1];
      TableKeepsLastSet(front, k);
      RunRests(front);
      OpKeepsSlots(Run(Initial<S>(), front), op, k);
    }
  }

  // ----- exact conditions -----------------------------------------------------

  /**
   * Setting a non-empty handler makes it the callee of its hook, except for the
   * progress handler with an interval below one: then SQLite calls nobody,
   * although the table keeps the new handler.
   */
  lemma SetHandlerTakesEffectIff<S>(w: World<S>, k: Hook, n: int, fn: int)
    requires Resting(w) && Permitted(w, SetHandler(k, n, fn, true, true))
    ensures var v := Do(w, SetHandler(k, n, fn, true, true));
            (CalleeAt(v, HookHome(k)) == User(Callable(fn)) <==> !(k.Progress? && n < 1))
            && Slot(v, k) == Some(|w.ledger.objects|)
            && v.ledger.objects == w.ledger.objects + [Object(HookHome(k), Callable(fn))]
  {
    var op := SetHandler(k, n, fn, true, true);
    SetHandlerSets(w, op, HookHome(k));
    SetHandlerResult(w, k, n, fn);
  }

  /**
   * The callback table is allocated only after the hook was installed. A setter
   * leaves every hook pointing to live handlers if and only if the table is
   * there, its allocation succeeds, the handler could not be allocated either,
   * or the hook was not really installed.
   */
  lemma SetHandlerSafeIff<S>(w: World<S>, k: Hook, n: int, fn: int, newOk: bool, tableOk: bool)
    requires Resting(w) && w.handle && NotRunning(w, HookHome(k))
    ensures AliasesLive(Do(w, SetHandler(k, n, fn, newOk, tableOk)))
            <==> (w.table.Some? || tableOk || !newOk || (k.Progress? && n < 1))
  {
    var op := SetHandler(k, n, fn, newOk, tableOk);
    if w.table.Some? || tableOk || !newOk {
      if newOk {
        OpKeeps(w, op);
      }
    } else {
      var o := Object(HookHome(k), Callable(fn));
      assert Program(w, op) == [NewLocal(o), SetHook(k, n), DeleteLocal];
      Exec3(w, NewLocal(o), SetHook(k, n), DeleteLocal);
      var v := Do(w, op);
      assert Bound(v, HookHome(k)) == if k.Progress? && n < 1 then Unbound else Heap(|w.ledger.objects|);
      forall j ensures Slot(v, j) == None && (j != k ==> Bound(v, HookHome(j)) == Bound(w, HookHome(j))) {}
      forall j ensures !Bound(w, HookHome(j)).Heap? {
        assert Slot(w, j) == None;
      }
    }
  }

  ghost predicate FramesAlive<S>(w: World<S>) {
    forall i :: 0 <= i < |w.frames| && w.frames[i].binding.Heap? ==> w.frames[i].binding.a in w.ledger.live
  }

  /**
   * Setting a handler, from inside a callback or not, leaves every callback on
   * the stack alive if and only if no handler of that kind is running.
   */
  lemma SetHandlerKeepsRunningIff<S>(w: World<S>, k: Hook, n: int, fn: int)
    requires Resting(w) && w.handle
    ensures FramesAlive(Do(w, SetHandler(k, n, fn, true, true))) <==> NotRunning(w, HookHome(k))
  {
    SetHandlerResult(w, k, n, fn);
    CallKeepsRecords(w, SetHandler(k, n, fn, true, true));
    SlotFreedIff(w, Do(w, SetHandler(k, n, fn, true, true)), k);
  }

  /** The calls that empty the slot of `k`: a clear, and what makes room for a handler of SQLite's own. */
  ghost predicate Empties<S>(op: Op<S>, k: Hook) {
    op == ClearHandler(k) || (op.BusyTimeout? && op.ok && k == Busy) || (op.WalAutocheckpoint? && op.ok && k == Wal)
  }

  /** The same for clearing a handler, and for displacing the busy or WAL handler. */
  lemma ClearKeepsRunningIff<S>(w: World<S>, op: Op<S>, k: Hook)
    requires Resting(w) && w.handle && Empties(op, k)
    ensures FramesAlive(Do(w, op)) <==> NotRunning(w, HookHome(k))
  {
    var s := Program(w, op)[0];
    ClearResult(w, k, s);
    assert Program(w, op) == [s, ResetSlot(k)];
    CallKeepsRecords(w, op);
    SlotFreedIff(w, Do(w, op), k);
  }

  /** When just the handler in the slot of `k` has died, the callbacks that died are the running ones of kind `k`. */
  lemma SlotFreedIff<S>(w: World<S>, v: World<S>, k: Hook)
    requires Resting(w) && v.frames == w.frames
    requires forall a :: a in w.ledger.live ==> (a in v.ledger.live <==> Slot(w, k) != Some(a))
    ensures FramesAlive(v) <==> NotRunning(w, HookHome(k))
  {
    forall i | 0 <= i < |w.frames| ensures w.frames[i].home.HookHome? ==> w.frames[i].binding.Heap? {
      assert FrameOk(w, w.frames[i]);
    }
    forall i | 0 <= i < |w.frames| && w.frames[i].binding.Heap?
      ensures w.frames[i].binding.a in v.ledger.live <==> w.frames[i].home != HookHome(k)
    {
      RunningIsOwned(w, i);
      assert OwnedAt(w, HookHome(k)) == Slot(w, k);
    }
  }

  /** The user data of a callback on the stack is the one its place owns. */
  lemma RunningIsOwned<S>(w: World<S>, i: nat)
    requires Resting(w) && i < |w.frames| && w.frames[i].binding.Heap?
    ensures MadeFor(w, w.frames[i].binding.a, w.frames[i].home)
    ensures OwnedAt(w, w.frames[i].home) == Some(w.frames[i].binding.a)
  {
    assert FrameOk(w, w.frames[i]);
    BoundIsLive(w);
  }

  /**
   * Destroying a connection object while statements are left: SQLite keeps the
   * connection, and with it the hooks, while the table is freed. No hook
   * dangles if and only if there are no statements or no sqxx handler is
   * installed.
   */
  lemma DestructSafeIff<S>(w: World<S>)
    requires Resting(w) && w.frames == []
    ensures (forall k :: Bound(Do(w, Destruct), HookHome(k)).Heap? ==>
                           Bound(Do(w, Destruct), HookHome(k)).a in Do(w, Destruct).ledger.live)
            <==> (w.prepared == {} || forall k :: !Bound(w, HookHome(k)).Heap?)
  {
    var v := Do(w, Destruct);
    if w.prepared == {} {
      DestructReady(w);
      OpKeeps(w, Destruct);
    } else {
      assert w.handle;
      DestructProgram(w);
      Exec3(w, CloseV2, NullHandle, FreeTable);
      forall k ensures Bound(v, HookHome(k)) == Bound(w, HookHome(k)) {}
      forall k | Bound(w, HookHome(k)).Heap? ensures Bound(w, HookHome(k)).a !in v.ledger.live {
        assert Slot(w, k) == Some(Bound(w, HookHome(k)).a);
      }
    }
  }
}
