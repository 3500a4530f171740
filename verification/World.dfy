/**
 * A connection object together with the part of SQLite it relies on, as a
 * state machine over C++ statements.
 *
 * A state holds the C++ heap, the connection's two members, the in-flight
 * local of the running member function, and SQLite's side: what is bound to
 * every hook, function name and collation name, the statements, the aggregate
 * contexts and the user callbacks now on the stack. `Step` is one C++
 * statement, `Program` the statements of one call, `Exec` their effect.
 */
module Worlds {
  import opened Types
  import opened Ledgers
  import P = AggregateProtocol

  datatype Hook =
    | Commit | Rollback | Update | Trace | Profile | Authorize
    | Busy | Progress | Wal | CollationNeeded

  /**
   * A place SQLite can call out from; aggregates are functions for SQLite.
   * Names stand for what SQLite takes to be one name: it ignores their case.
   */
  datatype Home = HookHome(hook: Hook) | FunctionHome(name: string, argc: int) | CollationHome(name: string)

  datatype Payload<!S> = Callable(fn: int) | Aggregator(agg: P.Aggregate<S>)

  /** A heap object with the place it was made for. */
  datatype Object<!S> = Object(home: Home, payload: Payload<S>)

  /** What SQLite has at a place: nothing, sqxx user data, a plain function, or its own handler. */
  datatype Binding = Unbound | Heap(a: Addr) | Static(fn: int) | BuiltIn(n: int)

  /** A user callback on the stack, called from `home` by statement `st`. */
  datatype Frame = Frame(home: Home, st: nat, binding: Binding)

  /** An aggregate computation of statement `st`; `owner` is the aggregate_data it began with. */
  datatype Computation<+S> = Computation(home: Home, st: nat, owner: Addr, calls: seq<P.Call>, core: P.Context<S>)

  /** A finished computation and the answer it gave. */
  datatype Final<+S> = Final(owner: Addr, calls: seq<P.Call>, core: P.Context<S>, reply: Reply)

  /** Zombie: closed by sqlite3_close_v2 while statements were left. */
  datatype Db = Closed | Opened | Zombie

  datatype World<!S> = World(
    ledger: Ledger<Object<S>>,
    handle: bool,                          // connection::handle is not null
    table: Option<map<Hook, Addr>>,        // connection::callbacks and its unique_ptr members
    local: Option<Addr>,                   // the running function's unique_ptr or raw new
    db: Db,
    bound: map<Home, Binding>,
    prepared: set<nat>,
    active: set<nat>,
    computations: map<nat, Computation<S>>,
    finals: map<nat, Final<S>>,
    frames: seq<Frame>,
    fault: bool)                           // a callback was entered through a dead object

  function Initial<S>(): World<S> {
    World(Ledgers.Empty(), false, None, None, Closed, map[], {}, {}, map[], map[], [], false)
  }

  function Bound<S>(w: World<S>, h: Home): Binding {
    if h in w.bound then w.bound[h] else Unbound
  }

  function Slot<S>(w: World<S>, k: Hook): Option<Addr> {
    if w.table.Some? && k in w.table.value then Some(w.table.value[k]) else None
  }

  // ----- C++ statements -------------------------------------------------------

  /** What is passed as user data to a registration. */
  datatype Data = Local | Function(fn: int) | NullData

  /** The number of WAL frames at which a fresh connection checkpoints by itself. */
  const DefaultAutocheckpoint: int := 1000

  datatype OpenResult = OpenOk | OpenFailedWithHandle | OpenFailedNoHandle

  datatype Event =
    | Prepare(st: nat) | Activate(st: nat) | Deactivate(st: nat) | Finalize(st: nat)
    | Enter(home: Home, st: nat) | Leave
    | AggregateOpen(c: nat, st: nat, home: Home) | AggregateStep(c: nat, call: P.Call) | AggregateFinal(c: nat)

  datatype Statement<!S> =
    | NewLocal(o: Object<S>)
    | SetHook(k: Hook, n: int)
    | ClearHook(k: Hook)
    | SetBuiltIn(k: Hook, n: int)
    | SetupCallbacks
    | MoveLocalToSlot(k: Hook)
    | ResetSlot(k: Hook)
    | DeleteLocal
    | CreateFunctionV2(h: Home, data: Data, ok: bool)
    | CreateCollationV2(h: Home, data: Data, ok: bool)
    | OpenV2(result: OpenResult)
    | CloseV2
    | NullHandle
    | FreeTable
    | Environment(e: Event)

  /** Calls the destroy callback on user data that SQLite drops. */
  function Destroy<O>(l: Ledger<O>, b: Binding): Ledger<O> {
    if b.Heap? then Delete(l, b.a) else l
  }

  function Incoming<S>(w: World<S>, data: Data): Binding {
    match data
    case Local => if w.local.Some? then Heap(w.local.value) else Unbound
    case Function(fn) => Static(fn)
    case NullData => Unbound
  }

  /** A successful registration: the old user data is destroyed, the new one is SQLite's. */
  function Register<S>(w: World<S>, h: Home, data: Data): World<S> {
    w.(ledger := Destroy(w.ledger, Bound(w, h)), bound := w.bound[h := Incoming(w, data)],
       local := if data.Local? then None else w.local)
  }

  function ReleaseLocal<S>(w: World<S>): World<S> {
    if w.local.Some? then w.(ledger := Delete(w.ledger, w.local.value), local := None) else w
  }

  /** The addresses of the user data SQLite owns. */
  function UserData<S>(w: World<S>): set<Addr> {
    set h | h in w.bound && !h.HookHome? && w.bound[h].Heap? :: w.bound[h].a
  }

  /** The new handler becomes the slot's; the one it displaces is deleted. */
  function MoveLocal<S>(w: World<S>, k: Hook): World<S> {
    if w.table.Some? && w.local.Some? then
      var prev := Slot(w, k);
      w.(table := Some(w.table.value[k := w.local.value]), local := None,
         ledger := if prev.Some? then Delete(w.ledger, prev.value) else w.ledger)
    else w
  }

  function Reset<S>(w: World<S>, k: Hook): World<S> {
    if Slot(w, k).Some? then
      w.(table := Some(w.table.value - {k}), ledger := Delete(w.ledger, Slot(w, k).value))
    else w
  }

  /** What SQLite has at a hook after it was pointed at the local; a progress interval below one disables the hook. */
  function Installed<S>(w: World<S>, k: Hook, n: int): Binding {
    if k.Progress? && n < 1 then Unbound else Incoming(w, Local)
  }

  /** A connection is opened with SQLite's own WAL hook. */
  function OpenDb<S>(w: World<S>, r: OpenResult): World<S> {
    if r.OpenFailedNoHandle? then w.(handle := false)
    else w.(handle := true, db := Opened, bound := w.bound[HookHome(Wal) := BuiltIn(DefaultAutocheckpoint)])
  }

  function CloseDb<S>(w: World<S>): World<S> {
    if !w.handle then w
    else if w.prepared != {} then w.(db := Zombie)
    else w.(db := Closed, ledger := DeleteAll(w.ledger, UserData(w)), bound := map[])
  }

  function DropTable<S>(w: World<S>): World<S> {
    if w.table.Some? then w.(table := None, ledger := DeleteAll(w.ledger, w.table.value.Values)) else w
  }

  function Rebind<S>(w: World<S>, h: Home, b: Binding): World<S> { w.(bound := w.bound[h := b]) }

  function Allocate<S>(w: World<S>, o: Object<S>): World<S> {
    w.(ledger := New(w.ledger, o), local := Some(|w.ledger.objects|))
  }

  function Setup<S>(w: World<S>): World<S> { if w.table.None? then w.(table := Some(map[])) else w }

  function Step<S>(w: World<S>, s: Statement<S>): World<S> {
    match s
    case NewLocal(o) => Allocate(w, o)
    case SetHook(k, n) => Rebind(w, HookHome(k), Installed(w, k, n))
    case ClearHook(k) => Rebind(w, HookHome(k), Unbound)
    case SetBuiltIn(k, n) => Rebind(w, HookHome(k), if n > 0 then BuiltIn(n) else Unbound)
    case SetupCallbacks => Setup(w)
    case MoveLocalToSlot(k) => MoveLocal(w, k)
    case ResetSlot(k) => Reset(w, k)
    case DeleteLocal => ReleaseLocal(w)
    case CreateFunctionV2(h, data, ok) =>
      // on failure SQLite runs the destroy callback itself
      if ok then Register(w, h, data) else if data.Local? then ReleaseLocal(w) else w
    case CreateCollationV2(h, data, ok) =>
      // on failure SQLite does not touch the user data
      if ok then Register(w, h, data) else w
    case OpenV2(r) => OpenDb(w, r)
    case CloseV2 => CloseDb(w)
    case NullHandle => w.(handle := false)
    case FreeTable => DropTable(w)
    case Environment(e) => StepEvent(w, e)
  }

  // ----- what SQLite does by itself -------------------------------------------

  /** What the aggregate trampolines get from sqlite3_user_data: the aggregate_data behind `h`, if it is alive. */
  function AggregateAt<S>(w: World<S>, h: Home): Option<P.Aggregate<S>> {
    var b := Bound(w, h);
    if b.Heap? && b.a in w.ledger.live && b.a < |w.ledger.objects| && w.ledger.objects[b.a].payload.Aggregator?
    then Some(w.ledger.objects[b.a].payload.agg) else None
  }

  function StepEvent<S>(w: World<S>, e: Event): World<S> {
    match e
    case Prepare(st) => w.(prepared := w.prepared + {st})
    case Activate(st) => w.(active := w.active + {st})
    case Deactivate(st) => w.(active := w.active - {st})
    case Finalize(st) => w.(prepared := w.prepared - {st})
    case Enter(h, st) =>
      var b := Bound(w, h);
      w.(frames := w.frames + [Frame(h, st, b)], fault := w.fault || (b.Heap? && b.a !in w.ledger.live))
    case Leave => if w.frames == [] then w else w.(frames := w.frames[..|w.frames| - 1])
    case AggregateOpen(c, st, h) =>
      var b := Bound(w, h);
      if b.Heap? then w.(computations := w.computations[c := Computation(h, st, b.a, [], P.Fresh())]) else w
    case AggregateStep(c, call) => if c in w.computations then StepComputation(w, c, call) else w
    case AggregateFinal(c) => if c in w.computations then FinishComputation(w, c) else w
  }

  /** aggregate_call_step for computation `c`. */
  function StepComputation<S>(w: World<S>, c: nat, call: P.Call): World<S>
    requires c in w.computations
  {
    var k := w.computations[c];
    var agg := AggregateAt(w, k.home);
    if agg.None? then w.(fault := true)
    else
      var core := P.StepCall(agg.value, k.core, call).0;
      w.(computations := w.computations[c := k.(calls := k.calls + [call], core := core)])
  }

  /** aggregate_call_final for computation `c`. */
  function FinishComputation<S>(w: World<S>, c: nat): World<S>
    requires c in w.computations
  {
    var k := w.computations[c];
    var agg := AggregateAt(w, k.home);
    if agg.None? then w.(fault := true)
    else
      var (core, reply) := P.FinalCall(agg.value, k.core);
      w.(computations := w.computations - {c}, finals := w.finals[c := Final(k.owner, k.calls, core, reply)])
  }

  // ----- calls ----------------------------------------------------------------

  /**
   * A call of the connection class, or one thing SQLite does. The flags are
   * choices of the environment: newOk, the allocation of the callback object;
   * tableOk, the allocation of the callback table if it is attempted; ok, the
   * return code of the SQLite function.
   */
  datatype Op<!S> =
    | SetHandler(k: Hook, n: int, fn: int, newOk: bool, tableOk: bool)
    | ClearHandler(k: Hook)
    | BusyTimeout(ms: int, ok: bool)
    | WalAutocheckpoint(frames: int, ok: bool)
    | CreateFunction(h: Home, payload: Payload<S>, newOk: bool, ok: bool)
    | CreateStaticFunction(h: Home, fn: int, ok: bool)
    | RemoveFunction(h: Home, ok: bool)
    | CreateCollation(h: Home, fn: int, newOk: bool, ok: bool)
    | CreateStaticCollation(h: Home, fn: int, ok: bool)
    | RemoveCollation(h: Home, ok: bool)
    | Open(result: OpenResult)
    | Close
    | CloseSync(ok: bool)
    | Destruct
    | Sqlite(e: Event)

  function Program<S>(w: World<S>, op: Op<S>): seq<Statement<S>> {
    match op
    case SetHandler(k, n, fn, newOk, tableOk) =>
      if !newOk then []
      else if w.table.None? && !tableOk then
        // leaving by exception: the local unique_ptr frees the handler
        [NewLocal(Object(HookHome(k), Callable(fn))), SetHook(k, n), DeleteLocal]
      else
        [NewLocal(Object(HookHome(k), Callable(fn))), SetHook(k, n), SetupCallbacks, MoveLocalToSlot(k)]
    case ClearHandler(k) => [ClearHook(k), ResetSlot(k)]
    case BusyTimeout(ms, ok) => if ok then [SetBuiltIn(Busy, ms), ResetSlot(Busy)] else []
    case WalAutocheckpoint(frames, ok) => if ok then [SetBuiltIn(Wal, frames), ResetSlot(Wal)] else []
    case CreateFunction(h, payload, newOk, ok) =>
      if newOk then [NewLocal(Object(h, payload)), CreateFunctionV2(h, Local, ok)] else []
    case CreateStaticFunction(h, fn, ok) => [CreateFunctionV2(h, Function(fn), ok)]
    case RemoveFunction(h, ok) => [CreateFunctionV2(h, NullData, ok)]
    case CreateCollation(h, fn, newOk, ok) =>
      if !newOk then []
      else [NewLocal(Object(h, Callable(fn))), CreateCollationV2(h, Local, ok)] + (if ok then [] else [DeleteLocal])
    case CreateStaticCollation(h, fn, ok) => [CreateCollationV2(h, Function(fn), ok)]
    case RemoveCollation(h, ok) => [CreateCollationV2(h, NullData, ok)]
    case Open(r) => [OpenV2(r)] + (if r.OpenFailedWithHandle? then [CloseV2, NullHandle] else [])
    case Close => [CloseV2, NullHandle]
    case CloseSync(ok) => if ok then [CloseV2, NullHandle] else []
    case Destruct => (if w.handle then [CloseV2, NullHandle] else []) + [FreeTable]
    case Sqlite(e) => [Environment(e)]
  }

  function Exec<S>(w: World<S>, prog: seq<Statement<S>>): World<S>
    decreases |prog|
  {
    if prog == [] then w else Exec(Step(w, prog[0]), prog[1..])
  }

  /** The state at every program point: before, between and after the statements. */
  function Points<S>(w: World<S>, prog: seq<Statement<S>>): seq<World<S>>
    decreases |prog|
  {
    if prog == [] then [w] else [w] + Points(Step(w, prog[0]), prog[1..])
  }

  function Do<S>(w: World<S>, op: Op<S>): World<S> { Exec(w, Program(w, op)) }

  function Run<S>(w: World<S>, ops: seq<Op<S>>): World<S> {
    if ops == [] then w else Do(Run(w, ops[..|ops| - 1]), ops[|ops| - 1])
  }
}
