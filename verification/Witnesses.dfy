/**
 * Concrete runs: the assumptions on runs can be met, and the
 * exceptions that the exact conditions name do occur.
 */
module Witnesses {
  import opened Types
  import opened Worlds
  import opened Safety
  import opened Runs
  import opened Dispatch
  import P = AggregateProtocol
  import E = Execs
  import G = Configs
  import C = Columns

  lemma Extend<S>(ops: seq<Op<S>>, op: Op<S>)
    requires PermittedRun(ops) && Permitted(Run(Initial<S>(), ops), op)
    ensures PermittedRun(ops + [op]) && Run(Initial<S>(), ops + [op]) == Do(Run(Initial<S>(), ops), op)
  {
    assert (ops + [op])[..|ops + [op]| - 1] == ops;
  }

  lemma ExtendByEvent<S>(ops: seq<Op<S>>, e: Event)
    requires PermittedRun(ops) && EventOk(Run(Initial<S>(), ops), e)
    ensures PermittedRun(ops + [Sqlite(e)])
    ensures Run(Initial<S>(), ops + [Sqlite(e)]) == StepEvent(Run(Initial<S>(), ops), e)
  {
    Extend(ops, Sqlite(e));
    DoEvent(Run(Initial<S>(), ops), e);
  }

  lemma OpenedRun<S>()
    ensures PermittedRun<S>([Open(OpenOk)])
    ensures var w := Run(Initial<S>(), [Open(OpenOk)]);
            w == Initial<S>().(handle := true, db := Opened,
                               bound := map[HookHome(Wal) := BuiltIn(DefaultAutocheckpoint)])
            && Resting(w)
  {
    var none: seq<Op<S>> := [];
    Extend(none, Open(OpenOk));
    assert none + [Open(OpenOk)] == [Open(OpenOk)];
    Exec1(Initial<S>(), OpenV2(OpenOk));
    RunRests<S>([Open(OpenOk)]);
  }

  /** A progress handler set with interval 0 is owned by the table, and nobody is called. */
  lemma ProgressHandlerIgnored()
    ensures var w := Run(Initial<int>(), [Open(OpenOk)]);
            CalleeAt(Do(w, SetHandler(Progress, 0, 7, true, true)), HookHome(Progress)) == Nobody
  {
    OpenedRun<int>();
    var w := Run(Initial<int>(), [Open(OpenOk)]);
    SetHandlerTakesEffectIff(w, Progress, 0, 7);
    SetHandlerSets(w, SetHandler(Progress, 0, 7, true, true), HookHome(Progress));
  }

  /** The first handler of a connection, set when the callback table cannot be allocated, leaves a dangling hook. */
  lemma FailedTableAllocationDangles()
    ensures var w := Run(Initial<int>(), [Open(OpenOk)]);
            !AliasesLive(Do(w, SetHandler(Commit, 0, 7, true, false)))
  {
    OpenedRun<int>();
    SetHandlerSafeIff(Run(Initial<int>(), [Open(OpenOk)]), Commit, 0, 7, true, false);
  }

  /** A connection with a commit handler. */
  lemma CommitHandlerRun()
    ensures PermittedRun<int>([Open(OpenOk), SetHandler(Commit, 0, 7, true, true)])
    ensures var w := Run(Initial<int>(), [Open(OpenOk), SetHandler(Commit, 0, 7, true, true)]);
            w.db.Opened? && w.handle && w.prepared == {} && w.frames == [] && Bound(w, HookHome(Commit)).Heap?
  {
    OpenedRun<int>();
    var ops: seq<Op<int>> := [Open(OpenOk)];
    var setCommit := SetHandler(Commit, 0, 7, true, true);
    var w := Run(Initial<int>(), ops);
    Extend(ops, setCommit);
    SetHandlerResult(w, Commit, 0, 7);
    CallKeepsRecords(w, setCommit);
    assert ops + [setCommit] == [Open(OpenOk), setCommit];
    RunRests([Open(OpenOk), setCommit]);
  }

  /** And with a statement that was not destroyed. */
  lemma OneStatementRun()
    ensures PermittedRun<int>([Open(OpenOk), SetHandler(Commit, 0, 7, true, true), Sqlite(Prepare(0))])
    ensures var w := Run(Initial<int>(), [Open(OpenOk), SetHandler(Commit, 0, 7, true, true), Sqlite(Prepare(0))]);
            w.prepared == {0} && w.frames == [] && Bound(w, HookHome(Commit)).Heap?
  {
    CommitHandlerRun();
    var ops: seq<Op<int>> := [Open(OpenOk), SetHandler(Commit, 0, 7, true, true)];
    ExtendByEvent(ops, Prepare(0));
    assert ops + [Sqlite(Prepare(0))] == [Open(OpenOk), SetHandler(Commit, 0, 7, true, true), Sqlite(Prepare(0))];
  }

  /** And while that handler is running. */
  lemma RunningHandlerRun()
    ensures PermittedRun<int>([Open(OpenOk), SetHandler(Commit, 0, 7, true, true),
                               Sqlite(Enter(HookHome(Commit), 0))])
    ensures var w := Run(Initial<int>(), [Open(OpenOk), SetHandler(Commit, 0, 7, true, true),
                                          Sqlite(Enter(HookHome(Commit), 0))]);
            Resting(w) && w.handle && !NotRunning(w, HookHome(Commit))
  {
    CommitHandlerRun();
    var ops: seq<Op<int>> := [Open(OpenOk), SetHandler(Commit, 0, 7, true, true)];
    var enter := Enter(HookHome(Commit), 0);
    ExtendByEvent(ops, enter);
    assert ops + [Sqlite(enter)] == [Open(OpenOk), SetHandler(Commit, 0, 7, true, true), Sqlite(enter)];
    RunRests(ops + [Sqlite(enter)]);
    var w := Run(Initial<int>(), ops + [Sqlite(enter)]);
    assert w.frames[0].home == HookHome(Commit);
  }

  /** A commit handler that replaces or clears itself dies while it runs. */
  lemma SelfReplacementKillsHandler()
    ensures var w := Run(Initial<int>(), [Open(OpenOk), SetHandler(Commit, 0, 7, true, true),
                                          Sqlite(Enter(HookHome(Commit), 0))]);
            !FramesAlive(Do(w, SetHandler(Commit, 0, 8, true, true))) && !FramesAlive(Do(w, ClearHandler(Commit)))
  {
    RunningHandlerRun();
    var w := Run(Initial<int>(), [Open(OpenOk), SetHandler(Commit, 0, 7, true, true),
                                  Sqlite(Enter(HookHome(Commit), 0))]);
    SetHandlerKeepsRunningIff(w, Commit, 0, 8);
    ClearKeepsRunningIff(w, ClearHandler(Commit), Commit);
  }

  /** Destroyed in that state, it leaves its commit hook dangling. */
  lemma StatementOutlivesConnection()
    ensures var w := Run(Initial<int>(), [Open(OpenOk), SetHandler(Commit, 0, 7, true, true), Sqlite(Prepare(0))]);
            exists k :: Bound(Do(w, Destruct), HookHome(k)).Heap?
                        && Bound(Do(w, Destruct), HookHome(k)).a !in Do(w, Destruct).ledger.live
  {
    OneStatementRun();
    var ops: seq<Op<int>> := [Open(OpenOk), SetHandler(Commit, 0, 7, true, true), Sqlite(Prepare(0))];
    RunRests(ops);
    DestructSafeIff(Run(Initial<int>(), ops));
  }

  // ----- aggregates -----------------------------------------------------------

  /** sum(x) over integers. */
  function SumOf(): P.Aggregate<int> {
    P.Aggregate(
      1, 0,
      (s: int, args: seq<Value>) => (if |args| == 1 && args[0].Integer? then s + args[0].i else s, None),
      s => Returned(Integer(s)))
  }

  const SumHome: Home := FunctionHome("sum", 1)

  function SumRow(i: int): P.Call { P.Call([Integer(i)], false, None) }

  function RegisterSum(): seq<Op<int>> {
    [Open(OpenOk)] + [CreateFunction(SumHome, Aggregator(SumOf()), true, true)]
  }

  lemma SumRegistered()
    ensures PermittedRun(RegisterSum())
    ensures var w := Run(Initial<int>(), RegisterSum());
            AggregateAt(w, SumHome) == Some(SumOf()) && w.db.Opened? && w.prepared == {} && w.active == {}
            && w.computations == map[] && w.finals == map[]
  {
    OpenedRun<int>();
    var w := Run(Initial<int>(), [Open(OpenOk)]);
    var create := CreateFunction(SumHome, Aggregator(SumOf()), true, true);
    Extend([Open(OpenOk)], create);
    CreateFunctionResult(w, Object(SumHome, Aggregator(SumOf())), SumHome, true);
    CallKeepsRecords(w, create);
    RunRests(RegisterSum());
    BoundIsLive(Run(Initial<int>(), RegisterSum()));
  }

  function BeginSum(): seq<Op<int>> {
    RegisterSum() + [Sqlite(Prepare(0))] + [Sqlite(Activate(0))] + [Sqlite(AggregateOpen(0, 0, SumHome))]
  }

  lemma SumBegun()
    ensures PermittedRun(BeginSum())
    ensures var w := Run(Initial<int>(), BeginSum());
            w.db.Opened? && AggregateAt(w, SumHome) == Some(SumOf()) && 0 in w.computations
            && w.computations[0].home == SumHome && w.computations[0].core == P.Fresh()
  {
    SumRegistered();
    ExtendByEvent(RegisterSum(), Prepare(0));
    ExtendByEvent(RegisterSum() + [Sqlite(Prepare(0))], Activate(0));
    ExtendByEvent(RegisterSum() + [Sqlite(Prepare(0))] + [Sqlite(Activate(0))], AggregateOpen(0, 0, SumHome));
  }

  lemma SumStepped()
    ensures PermittedRun(BeginSum() + [Sqlite(AggregateStep(0, SumRow(5)))])
    ensures var w := Run(Initial<int>(), BeginSum() + [Sqlite(AggregateStep(0, SumRow(5)))]);
            w.db.Opened? && AggregateAt(w, SumHome) == Some(SumOf()) && 0 in w.computations
            && w.computations[0].home == SumHome
            && w.computations[0].core == P.Context(P.Block(true, P.Built(5)), 1, 0, 0)
  {
    SumBegun();
    ExtendByEvent(BeginSum(), AggregateStep(0, SumRow(5)));
    SumOfFive();
  }

  lemma SumOfFive()
    ensures P.StepCall(SumOf(), P.Fresh(), SumRow(5)).0 == P.Context(P.Block(true, P.Built(5)), 1, 0, 0)
  {
  }

  /** A permitted run with a finished computation: select sum(x) over one row. */
  lemma FinishedComputationRun()
    ensures var ops := BeginSum() + [Sqlite(AggregateStep(0, SumRow(5)))] + [Sqlite(AggregateFinal(0))];
            PermittedRun(ops)
            && var w := Run(Initial<int>(), ops);
               0 in w.finals && w.finals[0].reply == Result(Integer(5)) && w.finals[0].core.destroyed == 1
  {
    SumStepped();
    ExtendByEvent(BeginSum() + [Sqlite(AggregateStep(0, SumRow(5)))], AggregateFinal(0));
  }

  /** A computation whose first call cannot copy the zero state: its final call uses what was never constructed. */
  lemma FailedCopyFaults()
    ensures var calls := [P.Call([Integer(5)], false, Some(BadAlloc))];
            P.CopyFails(SumOf(), calls) && P.FinalCall(SumOf(), P.Replay(SumOf(), calls)).0.faults == 1
  {
    var calls := [P.Call([Integer(5)], false, Some(BadAlloc))];
    assert calls[..0] == [];
    assert P.Served(SumOf(), calls) == calls;
    P.CopyFailurePoisons(SumOf(), calls);
  }

  // ----- the other parts ------------------------------------------------------

  /** In a permitted run too: the first call of the sum cannot copy its zero state. */
  lemma FailedCopyRun()
    ensures var call := P.Call([Integer(5)], false, Some(BadAlloc));
            var ops := BeginSum() + [Sqlite(AggregateStep(0, call))] + [Sqlite(AggregateFinal(0))];
            PermittedRun(ops)
            && var w := Run(Initial<int>(), ops); 0 in w.finals && w.finals[0].core.faults == 1
  {
    var call := P.Call([Integer(5)], false, Some(BadAlloc));
    FailedCopyStepped(call);
    ExtendByEvent(BeginSum() + [Sqlite(AggregateStep(0, call))], AggregateFinal(0));
  }

  lemma FailedCopyStepped(call: P.Call)
    requires |call.args| == 1 && !call.oom && call.copyThrows.Some?
    ensures PermittedRun(BeginSum() + [Sqlite(AggregateStep(0, call))])
    ensures var w := Run(Initial<int>(), BeginSum() + [Sqlite(AggregateStep(0, call))]);
            w.db.Opened? && AggregateAt(w, SumHome) == Some(SumOf()) && 0 in w.computations
            && w.computations[0].home == SumHome
            && w.computations[0].core == P.Context(P.Block(true, P.Raw), 0, 0, 0)
  {
    SumBegun();
    ExtendByEvent(BeginSum(), AggregateStep(0, call));
  }

  /** A handler that throws at the only row leaks SQLite's error message. */
  lemma ThrowingHandlerLeaks(row: E.Row)
    ensures E.ThrowsFirst(seen => E.Throws(Unknown), [row])
  {
    assert E.StopsAt(seen => E.Throws(Unknown), [row], 0);
  }

  /** A log handler that was set and never cleared is left to dangle at exit. */
  lemma LogHandlerDanglesAtExit()
    ensures !G.NoneDangles(G.DestroyTable(G.Run([G.Set(G.Log, 7, true)])))
  {
    var ops := [G.Set(G.Log, 7, true)];
    G.ExitSafeIff(ops);
    assert G.LastSet(ops, G.Log) == Some(7);
  }

  /** A name that is no column is answered with the first column. */
  lemma UnknownNameIsFirstColumn()
    ensures C.Lookup(["id"], C.Cleared(), "name").1 == 0 && "name" !in ["id"]
  {
    C.LookupAnswers(C.State(["id"], C.Cleared()), None, "name");
  }

  /** The columns changed after the first lookup: the name is still a column's, and another one is answered. */
  lemma StaleAnswerIsOtherColumn()
    ensures var ops := [C.LookupOp("a"), C.ChangeOp(["b", "a"])];
            var s := C.Run(["a"], ops);
            "a" in s.cols && C.Lookup(s.cols, s.cache, "a").1 == 0 && s.cols[0] == "b"
  {
    var ops := [C.LookupOp("a"), C.ChangeOp(["b", "a"])];
    var none: seq<C.Op> := [];
    assert ops[..1] == [C.LookupOp("a")] && [C.LookupOp("a")][..0] == none;
    assert C.Run(["a"], [C.LookupOp("a")]).cols == ["a"];
    assert C.Snapshot(["a"], ops) == Some(["a"]);
    C.LookupIsScan(["a"], ops, "a");
    assert C.LastIndex(["a"], "a") == Some(0);
  }
}
