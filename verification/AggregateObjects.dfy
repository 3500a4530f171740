/**
 * The objects behind create_aggregate: the shared aggregate_data, the memory
 * block SQLite keeps per context, and the two C trampolines. The methods
 * follow the code statement by statement and are proved against
 * AggregateProtocol.
 */
module AggregateObjects {
  import opened Types
  import P = AggregateProtocol

  /** SQLite's side of one aggregate context. */
  class SqliteContext<S> {
    var memory: P.Memory<S>
    var reply: Reply
    ghost var built: nat
    ghost var destroyed: nat
    ghost var faults: nat

    constructor ()
      ensures View() == P.Fresh() && reply == NoReply
    {
      memory, reply := P.NoMemory, NoReply;
      built, destroyed, faults := 0, 0, 0;
    }

    ghost function View(): P.Context<S>
      reads this
    {
      P.Context(memory, built, destroyed, faults)
    }

    /** sqlite3_aggregate_context; false stands for a null pointer. */
    method AggregateContext(size: nat, oom: bool) returns (found: bool)
      modifies this`memory
      ensures memory == if size > 0 then P.Acquire(old(memory), oom) else old(memory)
      ensures found == memory.Block?
    {
      if size > 0 && memory.NoMemory? && !oom {
        memory := P.Block(false, P.Raw);
      }
      found := memory.Block?;
    }
  }

  class AggregateData<S> {
    const nargs: nat
    const stateZero: S
    const stepfun: (S, seq<Value>) -> (S, Option<Exception>)
    const finalfun: S -> Outcome<Value>

    constructor (nargs: nat, zero: S, step: (S, seq<Value>) -> (S, Option<Exception>), final: S -> Outcome<Value>)
      ensures Spec() == P.Aggregate(nargs, zero, step, final)
    {
      this.nargs, stateZero, stepfun, finalfun := nargs, zero, step, final;
    }

    function Spec(): P.Aggregate<S> {
      P.Aggregate(nargs, stateZero, stepfun, finalfun)
    }

    /** The state, created on first use; an exception stands for leaving by throw. */
    method GetStateCreate(ctx: SqliteContext<S>, oom: bool, copyThrows: Option<Exception>)
      returns (thrown: Option<Exception>)
      modifies ctx`memory, ctx`built
      ensures var m := P.Acquire(old(ctx.memory), oom);
              if m.NoMemory? then thrown == Some(BadAlloc) && ctx.View() == old(ctx.View())
              else if m.initialized then thrown == None && ctx.View() == old(ctx.View())
              else thrown == copyThrows && ctx.View() == P.Construct(Spec(), old(ctx.View()), copyThrows)
    {
      var found := ctx.AggregateContext(1, oom);
      if !found {
        return Some(BadAlloc);
      }
      if !ctx.memory.initialized {
        // aggregate_invocation_data(zero): the flag first, then the copied state
        ctx.memory := P.Block(true, P.Raw);
        if copyThrows.Some? {
          return copyThrows;
        }
        ctx.memory := ctx.memory.(state := P.Built(stateZero));
        ctx.built := ctx.built + 1;
      }
      return None;
    }

    /** The state if there is any memory. */
    method GetStateExisting(ctx: SqliteContext<S>) returns (found: bool)
      modifies ctx`memory
      ensures ctx.memory == old(ctx.memory) && found == ctx.memory.Block?
    {
      found := ctx.AggregateContext(0, false);
    }

    method StepCall(ctx: SqliteContext<S>, call: P.Call) returns (thrown: Option<Exception>)
      modifies ctx
      ensures var (c, r) := P.StepCall(Spec(), old(ctx.View()), call);
              ctx.View() == c && (if thrown.Some? then r == Caught(thrown.value) && ctx.reply == old(ctx.reply)
                                  else ctx.reply == if r.NoReply? then old(ctx.reply) else r)
    {
      if |call.args| != nargs {
        ctx.reply := ErrorCode(SQLITE_MISUSE);
        return None;
      }
      thrown := GetStateCreate(ctx, call.oom, call.copyThrows);
      if thrown.Some? {
        return;
      }
      match ctx.memory.state {
        case Built(s) =>
          var (s', e) := stepfun(s, call.args);
          ctx.memory := ctx.memory.(state := P.Built(s'));
          thrown := e;
        case _ =>
          ctx.faults := ctx.faults + 1;
      }
    }

    /** The owning pointer destroys the state on every way out and never frees the block. */
    method FinalCall(ctx: SqliteContext<S>) returns (thrown: Option<Exception>)
      modifies ctx
      ensures var (c, r) := P.FinalCall(Spec(), old(ctx.View()));
              ctx.View() == c && (if thrown.Some? then r == Caught(thrown.value) && ctx.reply == old(ctx.reply)
                                  else ctx.reply == if r.NoReply? then old(ctx.reply) else r)
    {
      thrown := None;
      var found := GetStateExisting(ctx);
      if found {
        if ctx.memory.state.Built? {
          match finalfun(ctx.memory.state.value) {
            case Returned(v) => ctx.reply := Result(v);
            case Raised(e) => thrown := Some(e);
          }
        } else {
          ctx.faults := ctx.faults + 1;
        }
        // destruct_only, run by the unique_ptr
        ctx.memory := ctx.memory.(state := P.Dead);
        ctx.destroyed := ctx.destroyed + 1;
      } else {
        match finalfun(stateZero) {
          case Returned(v) => ctx.reply := Result(v);
          case Raised(e) => thrown := Some(e);
        }
      }
    }
  }

  /** aggregate_call_step: nothing thrown crosses into SQLite. */
  method AggregateCallStep<S>(data: AggregateData<S>, ctx: SqliteContext<S>, call: P.Call)
    modifies ctx
    ensures var (c, r) := P.StepCall(data.Spec(), old(ctx.View()), call);
            ctx.View() == c && ctx.reply == if r.NoReply? then old(ctx.reply) else r
    ensures |call.args| != data.nargs ==> ctx.reply == ErrorCode(21)
    ensures |call.args| == data.nargs && old(ctx.memory).Block? && old(ctx.memory).initialized
            && old(ctx.memory).state.Built? ==>
              var (s, thrown) := data.stepfun(old(ctx.memory).state.value, call.args);
              ctx.memory == P.Block(true, P.Built(s))
              && if thrown.None? then ctx.reply == old(ctx.reply)
                 else
                   ctx.reply == match thrown.value
                                case SqxxError(c) => ErrorCode(c)
                                case BadAlloc => ErrorNoMem
                                case StdException(w) => ErrorMessage(w)
                                case Unknown => ErrorCode(21)
  {
    ghost var before := ctx.View();
    var thrown := data.StepCall(ctx, call);
    if |call.args| == data.nargs && before.memory.Block? && before.memory.initialized && before.memory.state.Built? {
      P.StepOnBuilt(data.Spec(), before, call);
    }
    if thrown.Some? {
      ctx.reply := Caught(thrown.value);
    }
  }

  /** aggregate_call_final. */
  method AggregateCallFinal<S>(data: AggregateData<S>, ctx: SqliteContext<S>)
    modifies ctx
    ensures var (c, r) := P.FinalCall(data.Spec(), old(ctx.View()));
            ctx.View() == c && ctx.reply == if r.NoReply? then old(ctx.reply) else r
    ensures old(ctx.memory).NoMemory? || old(ctx.memory).state.Built? ==>
              var o := data.finalfun(if old(ctx.memory).NoMemory? then data.stateZero else old(ctx.memory).state.value);
              if o.Returned? then ctx.reply == Result(o.value)
              else
                ctx.reply == match o.exception
                             case SqxxError(c) => ErrorCode(c)
                             case BadAlloc => ErrorNoMem
                             case StdException(w) => ErrorMessage(w)
                             case Unknown => ErrorCode(21)
  {
    var thrown := data.FinalCall(ctx);
    if thrown.Some? {
      ctx.reply := Caught(thrown.value);
    }
  }
}
