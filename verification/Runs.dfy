/**
 * Whole runs of a connection: any sequence of calls and SQLite events that
 * keeps to the callers' obligations and to SQLite's contract.
 */
module Runs {
  import opened Types
  import opened Worlds
  import opened Safety

  // ----- what is assumed ------------------------------------------------------

  /** What the code needs from its callers and does not check. */
  ghost predicate CallerOk<S>(w: World<S>, op: Op<S>) {
    match op
    case SetHandler(k, n, fn, newOk, tableOk) =>
      // no handler replaces itself while it runs; the callback table can be allocated
      w.handle && NotRunning(w, HookHome(k)) && (tableOk || w.table.Some?)
    case ClearHandler(k) => w.handle && NotRunning(w, HookHome(k))
    case BusyTimeout(ms, ok) => w.handle && NotRunning(w, HookHome(Busy))
    case WalAutocheckpoint(frames, ok) => w.handle && NotRunning(w, HookHome(Wal))
    case CreateFunction(h, _, _, _) => w.handle && h.FunctionHome?
    case CreateStaticFunction(h, _, _) => w.handle && h.FunctionHome?
    case RemoveFunction(h, _) => w.handle && h.FunctionHome?
    case CreateCollation(h, _, _, _) => w.handle && h.CollationHome?
    case CreateStaticCollation(h, _, _) => w.handle && h.CollationHome?
    case RemoveCollation(h, _) => w.handle && h.CollationHome?
    case Open(_) => !w.handle
    // statements are destroyed before their connection, and not from inside a callback
    case Close => w.prepared == {} && w.frames == []
    case CloseSync(_) => w.frames == []
    case Destruct => w.prepared == {} && w.frames == []
    case Sqlite(_) => true
  }

  /** SQLite refuses to redefine what exists while a statement is running; otherwise it may still fail. */
  ghost predicate MayRegister<S>(w: World<S>, h: Home, ok: bool) {
    ok ==> w.active == {} || Bound(w, h) == Unbound
  }

  /** SQLite's contract. */
  ghost predicate SqliteOk<S>(w: World<S>, op: Op<S>) {
    match op
    case CreateFunction(h, _, _, ok) => MayRegister(w, h, ok)
    case CreateStaticFunction(h, _, ok) => MayRegister(w, h, ok)
    case RemoveFunction(h, ok) => MayRegister(w, h, ok)
    case CreateCollation(h, _, _, ok) => MayRegister(w, h, ok)
    case CreateStaticCollation(h, _, ok) => MayRegister(w, h, ok)
    case RemoveCollation(h, ok) => MayRegister(w, h, ok)
    case CloseSync(ok) => ok ==> w.prepared == {}
    case Sqlite(e) => EventOk(w, e)
    case _ => true
  }

  ghost predicate Permitted<S>(w: World<S>, op: Op<S>) {
    CallerOk(w, op) && SqliteOk(w, op)
  }

  ghost predicate PermittedRun<S>(ops: seq<Op<S>>) {
    ops == [] || (PermittedRun(ops[..|ops| - 1]) && Permitted(Run(Initial(), ops[..|ops| - 1]), ops[|ops| - 1]))
  }

  // ----- one call -------------------------------------------------------------

  /** Every statement of a program is run where it is ready. */
  ghost predicate ReadyAll<S>(w: World<S>, prog: seq<Statement<S>>)
    decreases |prog|
  {
    prog == [] || (Ready(w, prog[0]) && ReadyAll(Step(w, prog[0]), prog[1..]))
  }

  lemma {:induction false} ReadyAllKeeps<S>(w: World<S>, prog: seq<Statement<S>>)
    requires Inv(w) && ReadyAll(w, prog)
    ensures Inv(Exec(w, prog))
    ensures forall j :: 0 <= j < |Points(w, prog)| ==> Inv(Points(w, prog)[j])
    decreases |prog|
  {
    if prog != [] {
      StepKeeps(w, prog[0]);
      ReadyAllKeeps(Step(w, prog[0]), prog[1..]);
    }
  }

  lemma Exec1<S>(w: World<S>, a: Statement<S>)
    ensures Exec(w, [a]) == Step(w, a) && ReadyAll(w, [a]) == Ready(w, a)
  {
    assert [a][1..] == [];
  }

  lemma Exec2<S>(w: World<S>, a: Statement<S>, b: Statement<S>)
    ensures Exec(w, [a, b]) == Step(Step(w, a), b)
    ensures ReadyAll(w, [a, b]) == (Ready(w, a) && Ready(Step(w, a), b))
  {
    assert [a, b][1..] == [b];
    Exec1(Step(w, a), b);
  }

  lemma Exec3<S>(w: World<S>, a: Statement<S>, b: Statement<S>, c: Statement<S>)
    ensures Exec(w, [a, b, c]) == Step(Step(Step(w, a), b), c)
    ensures ReadyAll(w, [a, b, c]) == (Ready(w, a) && Ready(Step(w, a), b) && Ready(Step(Step(w, a), b), c))
  {
    assert [a, b, c][1..] == [b, c];
    Exec2(Step(w, a), b, c);
  }

  lemma Exec4<S>(w: World<S>, a: Statement<S>, b: Statement<S>, c: Statement<S>, d: Statement<S>)
    ensures Exec(w, [a, b, c, d]) == Step(Step(Step(Step(w, a), b), c), d)
    ensures ReadyAll(w, [a, b, c, d]) ==
            (Ready(w, a) && Ready(Step(w, a), b) && Ready(Step(Step(w, a), b), c)
             && Ready(Step(Step(Step(w, a), b), c), d))
  {
    assert [a, b, c, d][1..] == [b, c, d];
    Exec3(Step(w, a), b, c, d);
  }

  // ----- what calls leave alone -----------------------------------------------

  /** What SQLite is running is as in `w`, and no object was forgotten. */
  ghost predicate SameRecords<S>(w: World<S>, v: World<S>) {
    && v.computations == w.computations && v.finals == w.finals
    && v.prepared == w.prepared && v.active == w.active && v.frames == w.frames
    && w.ledger.objects <= v.ledger.objects
  }

  lemma StatementKeepsRecords<S>(w: World<S>, s: Statement<S>)
    requires !s.Environment?
    ensures SameRecords(w, Step(w, s))
  {
    match s
    case MoveLocalToSlot(k) => MoveKeepsRecords(w, k);
    case ResetSlot(k) => ResetKeepsRecords(w, k);
    case CreateFunctionV2(h, data, ok) => RegistrationKeepsRecords(w, h, data);
    case CreateCollationV2(h, data, ok) => RegistrationKeepsRecords(w, h, data);
    case CloseV2 => CloseKeepsRecords(w);
    case FreeTable => DropTableKeepsRecords(w);
    case _ => SmallStatementKeepsRecords(w, s);
  }

  lemma MoveKeepsRecords<S>(w: World<S>, k: Hook)
    ensures SameRecords(w, MoveLocal(w, k))
  {
  }

  lemma ResetKeepsRecords<S>(w: World<S>, k: Hook)
    ensures SameRecords(w, Reset(w, k))
  {
  }

  lemma RegistrationKeepsRecords<S>(w: World<S>, h: Home, data: Data)
    ensures SameRecords(w, Register(w, h, data)) && SameRecords(w, ReleaseLocal(w))
  {
  }

  lemma CloseKeepsRecords<S>(w: World<S>)
    ensures SameRecords(w, CloseDb(w))
  {
  }

  lemma DropTableKeepsRecords<S>(w: World<S>)
    ensures SameRecords(w, DropTable(w))
  {
  }

  lemma SmallStatementKeepsRecords<S>(w: World<S>, s: Statement<S>)
    requires s.NewLocal? || s.SetHook? || s.ClearHook? || s.SetBuiltIn? || s.SetupCallbacks? || s.DeleteLocal?
             || s.OpenV2? || s.NullHandle?
    ensures SameRecords(w, Step(w, s))
  {
  }

  lemma {:induction false} ProgramKeepsRecords<S>(w: World<S>, prog: seq<Statement<S>>)
    requires forall i :: 0 <= i < |prog| ==> !prog[i].Environment?
    ensures SameRecords(w, Exec(w, prog))
    decreases |prog|
  {
    if prog != [] {
      StatementKeepsRecords(w, prog[0]);
      ProgramKeepsRecords(Step(w, prog[0]), prog[1..]);
    }
  }

  /** No call of the class contains a step of SQLite's own. */
  lemma CallKeepsRecords<S>(w: World<S>, op: Op<S>)
    requires !op.Sqlite?
    ensures SameRecords(w, Do(w, op))
  {
    NoEventInCall(w, op);
    ProgramKeepsRecords(w, Program(w, op));
  }

  lemma NoEventInCall<S>(w: World<S>, op: Op<S>)
    requires !op.Sqlite?
    ensures forall i :: 0 <= i < |Program(w, op)| ==> !Program(w, op)[i].Environment?
  {
  }

  /** The state of a connection between two calls. */
  ghost predicate Resting<S>(w: World<S>) {
    Inv(w) && Quiet(w)
  }

  /** The state in a setter after the hook was repointed to the new handler. */
  function Repointed<S>(w: World<S>, k: Hook, n: int, fn: int): World<S> {
    var v := Allocate(w, Object(HookHome(k), Callable(fn)));
    Rebind(v, HookHome(k), Installed(v, k, n))
  }

  /** The statements of a setter whose handler could be allocated. */
  lemma SetterProgram<S>(w: World<S>, k: Hook, n: int, fn: int, tableOk: bool)
    ensures var v := Repointed(w, k, n, fn);
            Do(w, SetHandler(k, n, fn, true, tableOk)) ==
            if w.table.None? && !tableOk then ReleaseLocal(v) else MoveLocal(Setup(v), k)
  {
    var o := Object(HookHome(k), Callable(fn));
    if w.table.None? && !tableOk {
      Exec3(w, NewLocal(o), SetHook(k, n), DeleteLocal);
    } else {
      Exec4(w, NewLocal(o), SetHook(k, n), SetupCallbacks, MoveLocalToSlot(k));
    }
  }

  lemma SetHandlerReady<S>(w: World<S>, op: Op<S>)
    requires op.SetHandler? && Resting(w) && Permitted(w, op)
    ensures ReadyAll(w, Program(w, op)) && Quiet(Do(w, op))
  {
    if op.newOk {
      var o := Object(HookHome(op.k), Callable(op.fn));
      assert Program(w, op) == [NewLocal(o), SetHook(op.k, op.n), SetupCallbacks, MoveLocalToSlot(op.k)];
      Exec4(w, NewLocal(o), SetHook(op.k, op.n), SetupCallbacks, MoveLocalToSlot(op.k));
      RepointedReady(w, op.k, op.n, op.fn);
    }
  }

  lemma RepointedReady<S>(w: World<S>, k: Hook, n: int, fn: int)
    requires Resting(w) && w.handle && NotRunning(w, HookHome(k))
    ensures var u := Allocate(w, Object(HookHome(k), Callable(fn)));
            Ready(u, SetHook(k, n)) && Ready(Setup(Repointed(w, k, n, fn)), MoveLocalToSlot(k))
    ensures Quiet(MoveLocal(Setup(Repointed(w, k, n, fn)), k))
  {
    var v := Repointed(w, k, n, fn);
    assert LocalFor(Setup(v), HookHome(k));
    assert Bound(Setup(v), HookHome(k)) == Bound(v, HookHome(k));
  }

  lemma HookOpReady<S>(w: World<S>, op: Op<S>)
    requires op.ClearHandler? || op.BusyTimeout? || op.WalAutocheckpoint?
    requires Resting(w) && Permitted(w, op)
    ensures ReadyAll(w, Program(w, op)) && Quiet(Do(w, op))
  {
    var p := Program(w, op);
    if p != [] {
      assert p == [p[0], p[1]];
      Exec2(w, p[0], p[1]);
    }
  }

  /** What SQLite lets a call redefine is not in use by any callback or aggregate computation. */
  lemma RegisterIdle<S>(w: World<S>, h: Home)
    requires Inv(w) && !h.HookHome? && MayRegister(w, h, true)
    ensures Idle(w, h)
  {
    forall i | 0 <= i < |w.frames| ensures w.frames[i].home != h {
      assert FrameOk(w, w.frames[i]);
    }
    forall c | c in w.computations ensures w.computations[c].home != h {
      assert ComputationOk(w, w.computations[c]);
    }
  }

  lemma NewLocalIsNew<S>(w: World<S>, h: Home, payload: Payload<S>)
    requires Inv(w) && w.local.None?
    ensures var w1 := Step(w, NewLocal(Object(h, payload)));
            LocalFor(w1, h) && (forall g :: Bound(w1, g) == Bound(w, g) && Bound(w1, g) != Heap(w1.local.value))
  {
    var w1 := Step(w, NewLocal(Object(h, payload)));
    BoundIsLive(w);
    forall g ensures Bound(w1, g) == Bound(w, g) {}
  }

  lemma CreateFunctionReady<S>(w: World<S>, op: Op<S>)
    requires op.CreateFunction? && Resting(w) && Permitted(w, op)
    ensures ReadyAll(w, Program(w, op)) && Quiet(Do(w, op))
  {
    var p := Program(w, op);
    if op.newOk {
      if op.ok {
        RegisterIdle(w, op.h);
      }
      NewLocalIsNew(w, op.h, op.payload);
      Exec2(w, p[0], p[1]);
    }
  }

  lemma CreateCollationReady<S>(w: World<S>, op: Op<S>)
    requires op.CreateCollation? && Resting(w) && Permitted(w, op)
    ensures ReadyAll(w, Program(w, op)) && Quiet(Do(w, op))
  {
    var p := Program(w, op);
    if op.newOk {
      NewLocalIsNew(w, op.h, Callable(op.fn));
      if op.ok {
        RegisterIdle(w, op.h);
        assert p == [p[0], p[1]];
        Exec2(w, p[0], p[1]);
      } else {
        assert p == [p[0], p[1], p[2]];
        Exec3(w, p[0], p[1], p[2]);
      }
    }
  }

  lemma RegisterReady<S>(w: World<S>, op: Op<S>)
    requires op.CreateStaticFunction? || op.RemoveFunction? || op.CreateStaticCollation? || op.RemoveCollation?
    requires Resting(w) && Permitted(w, op)
    ensures ReadyAll(w, Program(w, op)) && Quiet(Do(w, op))
  {
    if op.ok {
      RegisterIdle(w, op.h);
    }
    Exec1(w, Program(w, op)[0]);
  }

  lemma OpenReady<S>(w: World<S>, r: OpenResult)
    requires Resting(w) && Permitted(w, Open(r))
    ensures ReadyAll(w, Program(w, Open(r))) && Quiet(Do(w, Open(r)))
  {
    OpenProgram(w, r);
  }

  /** The statements of open. */
  lemma OpenProgram<S>(w: World<S>, r: OpenResult)
    ensures var v := OpenDb(w, r);
            Do(w, Open(r)) == (if r.OpenFailedWithHandle? then CloseDb(v).(handle := false) else v)
            && ReadyAll(w, Program(w, Open(r))) == (w.db.Closed? && (r.OpenFailedWithHandle? ==> Ready(v, CloseV2)))
  {
    if r.OpenFailedWithHandle? {
      assert Program(w, Open(r)) == [OpenV2(r), CloseV2, NullHandle];
      OpenThenClose(w, r);
    } else {
      assert Program(w, Open(r)) == [OpenV2(r)];
      Exec1(w, OpenV2(r));
    }
  }

  lemma OpenThenClose<S>(w: World<S>, r: OpenResult)
    ensures var v, prog := OpenDb(w, r), [OpenV2(r), CloseV2, NullHandle];
            Exec(w, prog) == CloseDb(v).(handle := false)
            && ReadyAll(w, prog) == (w.db.Closed? && Ready(v, CloseV2))
  {
    Exec3(w, OpenV2(r), CloseV2, NullHandle);
  }

  lemma FailedOpen<S>(w: World<S>, r: OpenResult)
    requires Resting(w) && !w.handle && !r.OpenOk?
    ensures !Do(w, Open(r)).handle && Do(w, Open(r)).db.Closed?
  {
    OpenProgram(w, r);
  }

  lemma CloseReady<S>(w: World<S>, op: Op<S>)
    requires op.Close? || op.CloseSync?
    requires Resting(w) && Permitted(w, op)
    ensures ReadyAll(w, Program(w, op)) && Quiet(Do(w, op))
  {
    var p := Program(w, op);
    if p != [] {
      assert p == [p[0], p[1]];
      Exec2(w, p[0], p[1]);
    }
  }

  /** Closing an open connection without statements leaves SQLite with no alias at all. */
  lemma CloseLetsGo<S>(w: World<S>)
    requires Resting(w) && w.handle && w.prepared == {}
    ensures var v := Step(Step(w, CloseV2), NullHandle);
            v.bound == map[] && v.db.Closed? && !v.handle && v.local == None && v.table == w.table
  {
  }

  /** The destructor: SQLite lets go of every alias before the table frees a handler. */
  lemma DestructReady<S>(w: World<S>)
    requires Resting(w) && w.prepared == {} && w.frames == []
    ensures ReadyAll(w, Program(w, Destruct)) && Quiet(Do(w, Destruct))
    ensures Do(w, Destruct).db.Closed? && Do(w, Destruct).table.None?
  {
    DestructProgram(w);
    if w.handle { DestructOpenReady(w); } else { DestructClosedReady(w); }
  }

  lemma DestructProgram<S>(w: World<S>)
    ensures Program(w, Destruct) == if w.handle then [CloseV2, NullHandle, FreeTable] else [FreeTable]
  {
  }

  /** The statements of the destructor. */
  lemma DestructDoes<S>(w: World<S>)
    ensures Do(w, Destruct) == if w.handle then DropTable(CloseDb(w).(handle := false)) else DropTable(w)
  {
    DestructProgram(w);
    if w.handle {
      Exec3(w, CloseV2, NullHandle, FreeTable);
    } else {
      Exec1(w, FreeTable);
    }
  }

  lemma DestructOpenReady<S>(w: World<S>)
    requires Resting(w) && w.handle && w.prepared == {} && w.frames == []
    ensures var prog := [CloseV2, NullHandle, FreeTable];
            ReadyAll(w, prog) && Quiet(Exec(w, prog)) && Exec(w, prog).db.Closed? && Exec(w, prog).table.None?
  {
    CloseLetsGo(w);
    Exec3(w, CloseV2, NullHandle, FreeTable);
    FreeTableLast(Step(Step(w, CloseV2), NullHandle));
  }

  lemma DestructClosedReady<S>(w: World<S>)
    requires Resting(w) && !w.handle
    ensures ReadyAll(w, [FreeTable]) && Quiet(Exec(w, [FreeTable]))
    ensures Exec(w, [FreeTable]).db.Closed? && Exec(w, [FreeTable]).table.None?
  {
    assert forall k :: Bound(w, HookHome(k)) == Unbound;
    Exec1(w, FreeTable);
    FreeTableLast(w);
  }

  lemma FreeTableLast<S>(w: World<S>)
    ensures var v := Step(w, FreeTable);
            v.table.None? && v.db == w.db && v.handle == w.handle && v.local == w.local && v.bound == w.bound
  {
  }

  lemma DoEvent<S>(w: World<S>, e: Event)
    ensures Do(w, Sqlite(e)) == StepEvent(w, e)
    ensures ReadyAll(w, Program(w, Sqlite(e))) == EventOk(w, e)
  {
    Exec1(w, Environment(e));
  }

  lemma EventReady<S>(w: World<S>, e: Event)
    requires Resting(w) && Permitted(w, Sqlite(e))
    ensures ReadyAll(w, Program(w, Sqlite(e))) && Quiet(Do(w, Sqlite(e)))
  {
    DoEvent(w, e);
  }

  lemma OpReady<S>(w: World<S>, op: Op<S>)
    requires Resting(w) && Permitted(w, op)
    ensures ReadyAll(w, Program(w, op)) && Quiet(Do(w, op))
  {
    if op.SetHandler? {
      SetHandlerReady(w, op);
    } else if op.ClearHandler? || op.BusyTimeout? || op.WalAutocheckpoint? {
      HookOpReady(w, op);
    } else if op.CreateFunction? {
      CreateFunctionReady(w, op);
    } else if op.CreateCollation? {
      CreateCollationReady(w, op);
    } else if op.Open? {
      OpenReady(w, op.result);
    } else if op.Close? || op.CloseSync? {
      CloseReady(w, op);
    } else if op.Destruct? {
      DestructReady(w);
    } else if op.Sqlite? {
      EventReady(w, op.e);
    } else {
      RegisterReady(w, op);
    }
  }

  /** Every permitted call of a resting connection keeps the invariant at each of its points and rests again. */
  lemma OpKeeps<S>(w: World<S>, op: Op<S>)
    requires Resting(w) && Permitted(w, op)
    ensures Resting(Do(w, op))
    ensures forall j :: 0 <= j < |Points(w, Program(w, op))| ==> Inv(Points(w, Program(w, op))[j])
  {
    OpReady(w, op);
    ReadyAllKeeps(w, Program(w, op));
  }

  /** In particular it rests again. */
  lemma OpRests<S>(w: World<S>, op: Op<S>)
    requires Resting(w) && Permitted(w, op)
    ensures Resting(Do(w, op))
  {
    OpKeeps(w, op);
  }

  // ----- whole runs -----------------------------------------------------------

  lemma {:induction false} RunRests<S>(ops: seq<Op<S>>)
    requires PermittedRun(ops)
    ensures Resting(Run(Initial<S>(), ops))
  {
    if ops == [] {
      var w := Initial<S>();
      assert forall h :: OwnedAt(w, h) == None && Bound(w, h) == Unbound;
    } else {
      RunRests(ops[..|ops| - 1]);
      OpRests(Run(Initial(), ops[..|ops| - 1]), ops[|ops| - 1]);
    }
  }

  lemma {:induction false} PrefixPermitted<S>(ops: seq<Op<S>>, i: nat)
    requires PermittedRun(ops) && i <= |ops|
    ensures PermittedRun(ops[..i])
    ensures i < |ops| ==> Permitted(Run(Initial(), ops[..i]), ops[i])
  {
    if i == |ops| {
      assert ops[..i] == ops;
    } else {
      var front := ops[..|ops| - 1];
      if i < |front| {
        PrefixPermitted(front, i);
        assert front[..i] == ops[..i];
      }
    }
  }

  /** The states between the statements of call `i` of a run. */
  function PointsOf<S>(ops: seq<Op<S>>, i: nat): seq<World<S>>
    requires i < |ops|
  {
    var w := Run(Initial(), ops[..i]);
    Points(w, Program(w, ops[i]))
  }

  /** The system invariant holds at every program point of every run. */
  lemma EveryPointSafe<S>(ops: seq<Op<S>>, i: nat, j: nat)
    requires PermittedRun(ops) && i < |ops| && j < |PointsOf(ops, i)|
    ensures Inv(PointsOf(ops, i)[j])
  {
    PrefixPermitted(ops, i);
    RunRests(ops[..i]);
    OpKeeps(Run(Initial<S>(), ops[..i]), ops[i]);
  }
}
