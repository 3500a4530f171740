/**
 * The aggregate invocation protocol on values: what one xStep and one xFinal
 * call do to the memory SQLite keeps for one aggregate context.
 *
 * The memory is modelled as C++ sees it: absent, or a block whose
 * `initialized` byte can be read at any time and whose state member is raw
 * storage, a constructed object or a destroyed one.
 */
module AggregateProtocol {
  import opened Types

  /** An aggregate_data object: the zero state and the two user callables. */
  datatype Aggregate<!S> = Aggregate(
    nargs: nat,
    zero: S,
    step: (S, seq<Value>) -> (S, Option<Exception>),  // the state left behind, and what was thrown
    final: S -> Outcome<Value>)

  datatype Storage<+S> = Raw | Built(value: S) | Dead

  datatype Memory<+S> = NoMemory | Block(initialized: bool, state: Storage<S>)

  /**
   * One aggregate context. `built` and `destroyed` count constructor and
   * destructor runs on its state; `faults` counts uses or destructions of a
   * state that is not constructed.
   */
  datatype Context<+S> = Context(memory: Memory<S>, built: nat, destroyed: nat, faults: nat)

  /**
   * One xStep invocation. `oom` says that SQLite cannot allocate the block if
   * it has to; `copyThrows` says what copying the zero state throws if it has
   * to be copied.
   */
  datatype Call = Call(args: seq<Value>, oom: bool, copyThrows: Option<Exception>)

  function Fresh<S>(): Context<S> { Context(NoMemory, 0, 0, 0) }

  // ----- the code -------------------------------------------------------------

  /** sqlite3_aggregate_context with a positive size: zeroed memory on first use. */
  function Acquire<S>(m: Memory<S>, oom: bool): Memory<S> {
    if m.NoMemory? && !oom then Block(false, Raw) else m
  }

  /** Placement new: the constructor sets the flag before it copies the state. */
  function Construct<S>(agg: Aggregate<S>, c: Context<S>, copyThrows: Option<Exception>): Context<S> {
    if copyThrows.Some? then c.(memory := Block(true, Raw))
    else c.(memory := Block(true, Built(agg.zero)), built := c.built + 1)
  }

  /** aggregate_data::step_call inside aggregate_call_step. */
  function StepCall<S>(agg: Aggregate<S>, c: Context<S>, call: Call): (Context<S>, Reply) {
    if |call.args| != agg.nargs then (c, ErrorCode(SQLITE_MISUSE))
    else
      var m := Acquire(c.memory, call.oom);
      if m.NoMemory? then (c, Caught(BadAlloc))
      else if !m.initialized && call.copyThrows.Some? then
        (Construct(agg, c, call.copyThrows), Caught(call.copyThrows.value))
      else
        var d := if m.initialized then c else Construct(agg, c, None);
        ApplyStep(agg, d, call.args)
  }

  /** The call of the user's step function on the state in the block. */
  function ApplyStep<S>(agg: Aggregate<S>, c: Context<S>, args: seq<Value>): (Context<S>, Reply) {
    if c.memory.Block? && c.memory.state.Built? then
      var (s, thrown) := agg.step(c.memory.state.value, args);
      (c.(memory := c.memory.(state := Built(s))), if thrown.Some? then Caught(thrown.value) else NoReply)
    else (c.(faults := c.faults + 1), NoReply)
  }

  /** aggregate_data::final_call inside aggregate_call_final. */
  function FinalCall<S>(agg: Aggregate<S>, c: Context<S>): (Context<S>, Reply) {
    match c.memory
    case NoMemory => (c, ReplyOf(agg.final(agg.zero)))
    case Block(_, Built(s)) =>
      (c.(memory := c.memory.(state := Dead), destroyed := c.destroyed + 1), ReplyOf(agg.final(s)))
    case Block(_, _) =>
      (c.(memory := c.memory.(state := Dead), destroyed := c.destroyed + 1, faults := c.faults + 1), NoReply)
  }

  /** The context after a sequence of step calls on a fresh one. */
  function Replay<S>(agg: Aggregate<S>, calls: seq<Call>): Context<S> {
    if calls == [] then Fresh()
    else StepCall(agg, Replay(agg, calls[..|calls| - 1]), calls[|calls| - 1]).0
  }

  // ----- the reference --------------------------------------------------------

  /** The calls that reach the user's step function: well formed, and not before memory was granted. */
  ghost function Served<S>(agg: Aggregate<S>, calls: seq<Call>): seq<Call> {
    if calls == [] then []
    else
      var prev := Served(agg, calls[..|calls| - 1]);
      var last := calls[|calls| - 1];
      if |last.args| == agg.nargs && (prev != [] || !last.oom) then prev + [last] else prev
  }

  /** An independent left fold over the served rows. */
  ghost function Fold<S>(agg: Aggregate<S>, calls: seq<Call>): S {
    if calls == [] then agg.zero
    else agg.step(Fold(agg, calls[..|calls| - 1]), calls[|calls| - 1].args).0
  }

  /** Copying the zero state throws at the one call that has to copy it. */
  ghost predicate CopyFails<S>(agg: Aggregate<S>, calls: seq<Call>) {
    Served(agg, calls) != [] && Served(agg, calls)[0].copyThrows.Some?
  }

  // ----- the theorems ---------------------------------------------------------

  /**
   * As long as the copy of the zero state does not throw, the block holds the
   * fold of the served rows, the state was constructed exactly when a call was
   * served, and nothing was destroyed or touched while not constructed.
   */
  lemma {:induction false} ReplayIsFold<S>(agg: Aggregate<S>, calls: seq<Call>)
    requires !CopyFails(agg, calls)
    ensures Replay(agg, calls) ==
            if Served(agg, calls) == [] then Fresh()
            else Context(Block(true, Built(Fold(agg, Served(agg, calls)))), 1, 0, 0)
  {
    if calls != [] {
      var prev, last := calls[..|calls| - 1], calls[|calls| - 1];
      ReplayIsFold(agg, prev);
      if Served(agg, calls) != Served(agg, prev) {
        assert Served(agg, calls)[..|Served(agg, calls)| - 1] == Served(agg, prev);
      }
    }
  }

  /** A well-formed call on a constructed state is answered by what the step function throws, if it throws. */
  lemma StepOnBuilt<S>(agg: Aggregate<S>, c: Context<S>, call: Call)
    requires |call.args| == agg.nargs && c.memory.Block? && c.memory.initialized && c.memory.state.Built?
    ensures var thrown := agg.step(c.memory.state.value, call.args).1;
            var reply := StepCall(agg, c, call).1;
            if thrown.None? then reply.NoReply? else !reply.NoReply? && reply == Caught(thrown.value)
  {
  }

  /**
   * What each step call answers SQLite: nothing, unless its arguments are
   * wrong, there is no memory for the first state, or the step function throws
   * on the fold of the rows so far; an exception is told apart by its kind.
   */
  lemma StepReplies<S>(agg: Aggregate<S>, calls: seq<Call>, call: Call)
    requires !CopyFails(agg, calls + [call])
    ensures var reply := StepCall(agg, Replay(agg, calls), call).1;
            var thrown := agg.step(Fold(agg, Served(agg, calls)), call.args).1;
            if |call.args| != agg.nargs then reply == ErrorCode(21)
            else if Served(agg, calls) == [] && call.oom then reply == ErrorNoMem
            else if thrown.None? then reply == NoReply
            else
              reply == match thrown.value
                       case SqxxError(c) => ErrorCode(c)
                       case BadAlloc => ErrorNoMem
                       case StdException(w) => ErrorMessage(w)
                       case Unknown => ErrorCode(21)
  {
    var all := calls + [call];
    assert all[..|all| - 1] == calls;
    ReplayIsFold(agg, calls);
  }

  /** And the call at which copying the zero state throws. */
  lemma FailedCopyReplies<S>(agg: Aggregate<S>, calls: seq<Call>, call: Call)
    requires !CopyFails(agg, calls) && CopyFails(agg, calls + [call])
    ensures StepCall(agg, Replay(agg, calls), call).1 ==
            match call.copyThrows.value
            case SqxxError(c) => ErrorCode(c)
            case BadAlloc => ErrorNoMem
            case StdException(w) => ErrorMessage(w)
            case Unknown => ErrorCode(21)
  {
    var all := calls + [call];
    assert all[..|all| - 1] == calls;
    ReplayIsFold(agg, calls);
  }

  /**
   * The one final call answers with the value of the final function on that
   * fold (on the zero state when no row was served), or with what it throws,
   * and destroys the state exactly if it was constructed.
   */
  lemma FinalIsFold<S>(agg: Aggregate<S>, calls: seq<Call>)
    requires !CopyFails(agg, calls)
    ensures var o, reply := agg.final(Fold(agg, Served(agg, calls))), FinalCall(agg, Replay(agg, calls)).1;
            if o.Returned? then reply == Result(o.value)
            else
              reply == match o.exception
                       case SqxxError(c) => ErrorCode(c)
                       case BadAlloc => ErrorNoMem
                       case StdException(w) => ErrorMessage(w)
                       case Unknown => ErrorCode(21)
    ensures var c := FinalCall(agg, Replay(agg, calls)).0;
            c.faults == 0 && c.destroyed == c.built <= 1 && (c.built == 1 <==> Served(agg, calls) != [])
            && !(c.memory.Block? && c.memory.state.Built?)
  {
    ReplayIsFold(agg, calls);
  }

  /** A run in which the copy failed leaves a set flag over raw storage. */
  lemma {:induction false} CopyFailurePoisons<S>(agg: Aggregate<S>, calls: seq<Call>)
    requires CopyFails(agg, calls)
    ensures Replay(agg, calls) == Context(Block(true, Raw), 0, 0, |Served(agg, calls)| - 1)
  {
    var prev, last := calls[..|calls| - 1], calls[|calls| - 1];
    if Served(agg, prev) == [] {
      ReplayIsFold(agg, prev);
    } else {
      CopyFailurePoisons(agg, prev);
    }
  }

  /**
   * The exact condition of the lifecycle: a context that is stepped and then
   * finalised touches only a constructed state if and only if the one copy of
   * the zero state does not throw.
   */
  lemma LifecycleSafeIff<S>(agg: Aggregate<S>, calls: seq<Call>)
    ensures FinalCall(agg, Replay(agg, calls)).0.faults == 0 <==> !CopyFails(agg, calls)
  {
    if CopyFails(agg, calls) {
      CopyFailurePoisons(agg, calls);
    } else {
      FinalIsFold(agg, calls);
    }
  }

  // ----- the documented case --------------------------------------------------

  ghost function FoldLeft<S>(f: (S, seq<Value>) -> S, zero: S, rows: seq<seq<Value>>): S {
    if rows == [] then zero
    else f(FoldLeft(f, zero, rows[..|rows| - 1]), rows[|rows| - 1])
  }

  /** Well-formed calls with these rows and no failure of SQLite's making. */
  ghost function PlainCalls(rows: seq<seq<Value>>): (calls: seq<Call>)
    ensures |calls| == |rows|
  {
    if rows == [] then []
    else PlainCalls(rows[..|rows| - 1]) + [Call(rows[|rows| - 1], false, None)]
  }

  /**
   * With a step function that never throws and no shortage of memory, the
   * answer is finalfun(foldl(stepfun, zero, rows)), whatever the rows.
   */
  lemma PlainRunsFoldLeft<S(!new)>(agg: Aggregate<S>, f: (S, seq<Value>) -> S, rows: seq<seq<Value>>)
    requires forall s: S, a: seq<Value> :: agg.step(s, a) == (f(s, a), None)
    requires forall i :: 0 <= i < |rows| ==> |rows[i]| == agg.nargs
    ensures var o, reply := agg.final(FoldLeft(f, agg.zero, rows)), FinalCall(agg, Replay(agg, PlainCalls(rows))).1;
            if o.Returned? then reply == Result(o.value)
            else
              reply == match o.exception
                       case SqxxError(c) => ErrorCode(c)
                       case BadAlloc => ErrorNoMem
                       case StdException(w) => ErrorMessage(w)
                       case Unknown => ErrorCode(21)
  {
    PlainRunsServed(agg, f, rows);
    FinalIsFold(agg, PlainCalls(rows));
  }

  lemma {:induction false} PlainRunsServed<S(!new)>(agg: Aggregate<S>, f: (S, seq<Value>) -> S, rows: seq<seq<Value>>)
    requires forall s: S, a: seq<Value> :: agg.step(s, a) == (f(s, a), None)
    requires forall i :: 0 <= i < |rows| ==> |rows[i]| == agg.nargs
    ensures Served(agg, PlainCalls(rows)) == PlainCalls(rows)
    ensures Fold(agg, PlainCalls(rows)) == FoldLeft(f, agg.zero, rows)
    ensures !CopyFails(agg, PlainCalls(rows))
  {
    if rows != [] {
      var calls, front := PlainCalls(rows), rows[..|rows| - 1];
      PlainRunsServed(agg, f, front);
      assert calls[..|calls| - 1] == PlainCalls(front);
      assert forall i :: 0 <= i < |PlainCalls(front)| ==> calls[i] == PlainCalls(front)[i];
    }
  }
}
