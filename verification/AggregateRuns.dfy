/**
 * Aggregates inside whole runs: whatever else happens on the connection in
 * between, each computation answers with the fold of its own calls by the
 * aggregate that was registered when it began.
 */
module AggregateRuns {
  import opened Types
  import opened Ledgers
  import opened Worlds
  import opened Safety
  import opened Runs
  import D = Dispatch
  import P = AggregateProtocol

  /** The step calls of computation `c`, in order, picked out of the run. */
  ghost function CallsOf<S>(ops: seq<Op<S>>, c: nat): seq<P.Call> {
    if ops == [] then []
    else
      var prev, op := CallsOf(ops[..|ops| - 1], c), ops[|ops| - 1];
      if op.Sqlite? && op.e.AggregateStep? && op.e.c == c then prev + [op.e.call] else prev
  }

  /** What was registered under the aggregate's name when computation `c` began. */
  ghost function BegunWith<S>(ops: seq<Op<S>>, c: nat): D.Callee<S> {
    if ops == [] then D.Nobody
    else
      var front, op := ops[..|ops| - 1], ops[|ops| - 1];
      if op.Sqlite? && op.e.AggregateOpen? && op.e.c == c then D.LastCallee(front, op.e.home) else BegunWith(front, c)
  }

  /** A record of computation `c` agrees with the run. */
  ghost predicate Recorded<S>(ops: seq<Op<S>>, w: World<S>, c: nat, owner: Addr, calls: seq<P.Call>) {
    && owner < |w.ledger.objects|
    && calls == CallsOf(ops, c)
    && BegunWith(ops, c) == D.User(w.ledger.objects[owner].payload)
  }

  ghost predicate Traced<S>(ops: seq<Op<S>>, w: World<S>) {
    && (forall c :: c in w.computations ==> Recorded(ops, w, c, w.computations[c].owner, w.computations[c].calls))
    && (forall c :: c in w.finals ==> Recorded(ops, w, c, w.finals[c].owner, w.finals[c].calls))
    && (forall c: nat :: c !in w.computations && c !in w.finals ==> CallsOf(ops, c) == [])
    && w.computations.Keys !! w.finals.Keys
  }

  /** Calls that are no step, begin or end of a computation leave the trace functions alone. */
  lemma SameRecordsTraced<S>(ops: seq<Op<S>>, op: Op<S>, w: World<S>, v: World<S>)
    requires Traced(ops, w)
    requires v.computations == w.computations && v.finals == w.finals && w.ledger.objects <= v.ledger.objects
    requires op.Sqlite? ==> !op.e.AggregateOpen? && !op.e.AggregateStep? && !op.e.AggregateFinal?
    ensures Traced(ops + [op], v)
  {
    var all := ops + [op];
    assert all[..|all| - 1] == ops;
    forall c ensures CallsOf(all, c) == CallsOf(ops, c) && BegunWith(all, c) == BegunWith(ops, c) {}
    forall c | c in w.computations ensures Recorded(all, v, c, v.computations[c].owner, v.computations[c].calls) {
      assert Recorded(ops, w, c, w.computations[c].owner, w.computations[c].calls);
    }
    forall c | c in w.finals ensures Recorded(all, v, c, v.finals[c].owner, v.finals[c].calls) {
      assert Recorded(ops, w, c, w.finals[c].owner, w.finals[c].calls);
    }
  }

  /** Events of computation `c` are no calls of another one. */
  lemma OtherCalls<S>(ops: seq<Op<S>>, e: Event, c: nat)
    requires (e.AggregateOpen? || e.AggregateStep? || e.AggregateFinal?) && c != e.c
    ensures CallsOf(ops + [Sqlite(e)], c) == CallsOf(ops, c)
    ensures BegunWith(ops + [Sqlite(e)], c) == BegunWith(ops, c)
  {
    var all := ops + [Sqlite(e)];
    assert all[..|all| - 1] == ops;
  }

  /** A record is as good after an event of another computation. */
  lemma OtherRecorded<S>(ops: seq<Op<S>>, e: Event, w: World<S>, v: World<S>, c: nat, owner: Addr, calls: seq<P.Call>)
    requires Recorded(ops, w, c, owner, calls) && v.ledger == w.ledger
    requires (e.AggregateOpen? || e.AggregateStep? || e.AggregateFinal?) && c != e.c
    ensures Recorded(ops + [Sqlite(e)], v, c, owner, calls)
  {
    OtherCalls(ops, e, c);
  }

  lemma SameOthers<T>(a: map<nat, T>, b: map<nat, T>, k: nat)
    requires b - {k} == a - {k}
    ensures forall c :: c != k ==> (c in b <==> c in a) && (c in b ==> b[c] == a[c])
  {
    forall c | c != k ensures (c in b <==> c in a) && (c in b ==> b[c] == a[c]) {
      assert c in b - {k} <==> c in a - {k};
      assert c in b ==> (b - {k})[c] == (a - {k})[c];
    }
  }

  /** Records of other computations are not touched by an event of computation `c`. */
  lemma OthersTraced<S>(ops: seq<Op<S>>, e: Event, w: World<S>, v: World<S>)
    requires Traced(ops, w) && v.ledger == w.ledger
    requires e.AggregateOpen? || e.AggregateStep? || e.AggregateFinal?
    requires v.computations - {e.c} == w.computations - {e.c} && v.finals - {e.c} == w.finals - {e.c}
    requires e.c in v.computations ==>
               Recorded(ops + [Sqlite(e)], v, e.c, v.computations[e.c].owner, v.computations[e.c].calls)
    requires e.c in v.finals ==> Recorded(ops + [Sqlite(e)], v, e.c, v.finals[e.c].owner, v.finals[e.c].calls)
    requires (e.c in v.computations) != (e.c in v.finals)
    ensures Traced(ops + [Sqlite(e)], v)
  {
    var all := ops + [Sqlite(e)];
    SameOthers(w.computations, v.computations, e.c);
    SameOthers(w.finals, v.finals, e.c);
    forall c: nat | c != e.c ensures CallsOf(all, c) == CallsOf(ops, c) {
      OtherCalls(ops, e, c);
    }
    forall c | c in v.computations && c != e.c
      ensures Recorded(all, v, c, v.computations[c].owner, v.computations[c].calls)
    {
      OtherRecorded(ops, e, w, v, c, w.computations[c].owner, w.computations[c].calls);
    }
    forall c | c in v.finals && c != e.c ensures Recorded(all, v, c, v.finals[c].owner, v.finals[c].calls) {
      OtherRecorded(ops, e, w, v, c, w.finals[c].owner, w.finals[c].calls);
    }
  }

  lemma OpenTraced<S>(ops: seq<Op<S>>, c: nat, st: nat, h: Home, w: World<S>)
    requires Traced(ops, w) && EventOk(w, AggregateOpen(c, st, h)) && D.CalleeAt(w, h) == D.LastCallee(ops, h)
    ensures Traced(ops + [Sqlite(AggregateOpen(c, st, h))], StepEvent(w, AggregateOpen(c, st, h)))
  {
    var all := ops + [Sqlite(AggregateOpen(c, st, h))];
    assert all[..|all| - 1] == ops;
    OthersTraced(ops, AggregateOpen(c, st, h), w, StepEvent(w, AggregateOpen(c, st, h)));
  }

  lemma StepTraced<S>(ops: seq<Op<S>>, c: nat, call: P.Call, w: World<S>)
    requires Traced(ops, w) && c in w.computations && AggregateAt(w, w.computations[c].home).Some?
    ensures Traced(ops + [Sqlite(AggregateStep(c, call))], StepComputation(w, c, call))
  {
    var all := ops + [Sqlite(AggregateStep(c, call))];
    assert all[..|all| - 1] == ops;
    assert Recorded(ops, w, c, w.computations[c].owner, w.computations[c].calls);
    OthersTraced(ops, AggregateStep(c, call), w, StepComputation(w, c, call));
  }

  lemma FinalTraced<S>(ops: seq<Op<S>>, c: nat, w: World<S>)
    requires Traced(ops, w) && c in w.computations && AggregateAt(w, w.computations[c].home).Some?
    ensures Traced(ops + [Sqlite(AggregateFinal(c))], FinishComputation(w, c))
  {
    var all := ops + [Sqlite(AggregateFinal(c))];
    assert all[..|all| - 1] == ops;
    assert Recorded(ops, w, c, w.computations[c].owner, w.computations[c].calls);
    OthersTraced(ops, AggregateFinal(c), w, FinishComputation(w, c));
  }

  lemma EventTraced<S>(ops: seq<Op<S>>, e: Event, w: World<S>)
    requires Traced(ops, w) && Inv(w) && EventOk(w, e)
    requires forall h :: D.CalleeAt(w, h) == D.LastCallee(ops, h)
    ensures Traced(ops + [Sqlite(e)], StepEvent(w, e))
  {
    match e
    case AggregateOpen(c, st, h) => OpenTraced(ops, c, st, h, w);
    case AggregateStep(c, call) =>
      ComputationFindsOwner(w, c);
      StepTraced(ops, c, call, w);
    case AggregateFinal(c) =>
      ComputationFindsOwner(w, c);
      FinalTraced(ops, c, w);
    case _ => SameRecordsTraced(ops, Sqlite(e), w, StepEvent(w, e));
  }

  lemma CallTraced<S>(ops: seq<Op<S>>, op: Op<S>, w: World<S>)
    requires Traced(ops, w) && !op.Sqlite?
    ensures Traced(ops + [op], Do(w, op))
  {
    CallKeepsRecords(w, op);
    SameRecordsTraced(ops, op, w, Do(w, op));
  }

  lemma EventOpTraced<S>(ops: seq<Op<S>>, e: Event)
    requires PermittedRun(ops) && Permitted(Run(Initial<S>(), ops), Sqlite(e)) && Traced(ops, Run(Initial<S>(), ops))
    ensures Traced(ops + [Sqlite(e)], Do(Run(Initial<S>(), ops), Sqlite(e)))
  {
    RunRests(ops);
    D.CalleesAreLastSet(ops);
    DoEvent(Run(Initial<S>(), ops), e);
    EventTraced(ops, e, Run(Initial<S>(), ops));
  }

  lemma {:induction false} RunTraced<S>(ops: seq<Op<S>>)
    requires PermittedRun(ops)
    ensures Traced(ops, Run(Initial<S>(), ops))
  {
    if ops != [] {
      var front, op := ops[..|ops| - 1], ops[|ops| - 1];
      var w := Run(Initial<S>(), front);
      RunTraced(front);
      assert ops == front + [op];
      if op.Sqlite? {
        EventOpTraced(front, op.e);
      } else {
        CallTraced(front, op, w);
      }
    }
  }

  /** What a finished computation did: its own calls and the final one, on the aggregate it began with. */
  lemma FinishedIsReplayed<S>(ops: seq<Op<S>>, c: nat)
    requires PermittedRun(ops) && c in Run(Initial<S>(), ops).finals
    ensures var begun := BegunWith(ops, c);
            begun.User? && begun.payload.Aggregator?
            && var agg, f := begun.payload.agg, Run(Initial<S>(), ops).finals[c];
            (f.core, f.reply) == P.FinalCall(agg, P.Replay(agg, CallsOf(ops, c)))
  {
    RunTraced(ops);
    RunRests(ops);
    var w := Run(Initial<S>(), ops);
    assert FinalOk(w, w.finals[c]);
  }

  /**
   * For every run, however the calls of the computations are interleaved with
   * each other and with anything else done to the connection, and whatever
   * fails in other computations: a finished computation began with a
   * registered aggregate, and unless the copy of the zero state failed, its
   * answer is that aggregate's final function of the left fold of exactly its
   * own calls. Its state was then constructed at most once, exactly if a call
   * was served, and destroyed exactly as often.
   */
  lemma AnswersAreFolds<S>(ops: seq<Op<S>>, c: nat)
    requires PermittedRun(ops) && c in Run(Initial<S>(), ops).finals
    ensures var begun := BegunWith(ops, c);
            begun.User? && begun.payload.Aggregator?
            && var agg, f := begun.payload.agg, Run(Initial<S>(), ops).finals[c];
            var o := agg.final(P.Fold(agg, P.Served(agg, CallsOf(ops, c))));
            !P.CopyFails(agg, CallsOf(ops, c)) ==>
              (if o.Returned? then f.reply == Result(o.value)
               else
                 f.reply == match o.exception
                            case SqxxError(c) => ErrorCode(c)
                            case BadAlloc => ErrorNoMem
                            case StdException(w) => ErrorMessage(w)
                            case Unknown => ErrorCode(21))
              && f.core.faults == 0 && f.core.destroyed == f.core.built <= 1
              && (f.core.built == 1 <==> P.Served(agg, CallsOf(ops, c)) != [])
  {
    FinishedIsReplayed(ops, c);
    var agg := BegunWith(ops, c).payload.agg;
    if !P.CopyFails(agg, CallsOf(ops, c)) {
      P.FinalIsFold(agg, CallsOf(ops, c));
    }
  }

  /** A running computation's memory is the replay of its own calls alone. */
  lemma ComputationsAreIndependent<S>(ops: seq<Op<S>>, c: nat)
    requires PermittedRun(ops) && c in Run(Initial<S>(), ops).computations
    ensures var begun := BegunWith(ops, c);
            begun.User? && begun.payload.Aggregator?
            && Run(Initial<S>(), ops).computations[c].core == P.Replay(begun.payload.agg, CallsOf(ops, c))
  {
    RunTraced(ops);
    RunRests(ops);
    var w := Run(Initial<S>(), ops);
    assert ComputationOk(w, w.computations[c]);
  }

  /** Copying the zero state threw in computation `c`. */
  ghost predicate CopyFailed<S>(ops: seq<Op<S>>, c: nat) {
    var begun := BegunWith(ops, c);
    begun.User? && begun.payload.Aggregator? && P.CopyFails(begun.payload.agg, CallsOf(ops, c))
  }

  /** A call after that failure reached the state: the final call, or a step call that was served. */
  ghost predicate UsedAfterwards<S>(ops: seq<Op<S>>, c: nat) {
    var begun := BegunWith(ops, c);
    begun.User? && begun.payload.Aggregator?
    && (c in Run(Initial<S>(), ops).finals || |P.Served(begun.payload.agg, CallsOf(ops, c))| > 1)
  }

  /** No call in any computation, running or finished, touched a state that was not constructed. */
  ghost predicate OnlyBuiltStates<S>(w: World<S>) {
    && (forall c :: c in w.computations ==> w.computations[c].core.faults == 0)
    && (forall c :: c in w.finals ==> w.finals[c].core.faults == 0)
  }

  /**
   * The exact condition for whole runs: all computations touch only
   * constructed states if and only if none is used again after the copy of its
   * zero state failed.
   */
  lemma OnlyBuiltStatesIff<S>(ops: seq<Op<S>>)
    requires PermittedRun(ops)
    ensures OnlyBuiltStates(Run(Initial<S>(), ops)) <==> forall c: nat :: CopyFailed(ops, c) ==> !UsedAfterwards(ops, c)
  {
    var w := Run(Initial<S>(), ops);
    forall c | c in w.computations
      ensures w.computations[c].core.faults == 0 <==> !(CopyFailed(ops, c) && UsedAfterwards(ops, c))
    {
      RunningFaultIff(ops, c);
    }
    forall c | c in w.finals
      ensures w.finals[c].core.faults == 0 <==> !(CopyFailed(ops, c) && UsedAfterwards(ops, c))
    {
      FinishedFaultIff(ops, c);
    }
    forall c: nat | CopyFailed(ops, c) ensures c in w.computations || c in w.finals {
      RunTraced(ops);
    }
  }

  lemma RunningFaultIff<S>(ops: seq<Op<S>>, c: nat)
    requires PermittedRun(ops) && c in Run(Initial<S>(), ops).computations
    ensures Run(Initial<S>(), ops).computations[c].core.faults == 0 <==> !(CopyFailed(ops, c) && UsedAfterwards(ops, c))
  {
    RunTraced(ops);
    ComputationsAreIndependent(ops, c);
    var agg := BegunWith(ops, c).payload.agg;
    if P.CopyFails(agg, CallsOf(ops, c)) {
      P.CopyFailurePoisons(agg, CallsOf(ops, c));
    } else {
      P.ReplayIsFold(agg, CallsOf(ops, c));
    }
  }

  lemma FinishedFaultIff<S>(ops: seq<Op<S>>, c: nat)
    requires PermittedRun(ops) && c in Run(Initial<S>(), ops).finals
    ensures Run(Initial<S>(), ops).finals[c].core.faults == 0 <==> !(CopyFailed(ops, c) && UsedAfterwards(ops, c))
  {
    FinishedIsReplayed(ops, c);
    P.LifecycleSafeIff(BegunWith(ops, c).payload.agg, CallsOf(ops, c));
  }
}
