/**
 * The system invariant and its preservation by every C++ statement.
 */
module Safety {
  import opened Types
  import opened Ledgers
  import opened Worlds
  import P = AggregateProtocol

  // ----- the invariant --------------------------------------------------------

  /** The owner of user data at a place: the table for hooks, SQLite for the rest. */
  function OwnedAt<S>(w: World<S>, h: Home): Option<Addr> {
    if h.HookHome? then Slot(w, h.hook)
    else if Bound(w, h).Heap? then Some(Bound(w, h).a) else None
  }

  ghost predicate MadeFor<S>(w: World<S>, a: Addr, h: Home) {
    a in w.ledger.live && a < |w.ledger.objects| && w.ledger.objects[a].home == h
  }

  /** The live objects are exactly the owned ones plus the one in flight, each with one owner. */
  ghost predicate Ownership<S>(w: World<S>) {
    && Exact(w.ledger)
    && (forall h :: OwnedAt(w, h).Some? ==> MadeFor(w, OwnedAt(w, h).value, h) && OwnedAt(w, h) != w.local)
    && (w.local.Some? ==> w.local.value in w.ledger.live)
    && (forall a :: a in w.ledger.live ==> OwnedAt(w, w.ledger.objects[a].home) == Some(a) || w.local == Some(a))
  }

  /** Every pointer a hook holds for sqxx is a live handler of the matching slot, or the setter's local. */
  ghost predicate AliasesLive<S>(w: World<S>) {
    forall k :: Bound(w, HookHome(k)).Heap? ==>
      MadeFor(w, Bound(w, HookHome(k)).a, HookHome(k))
      && (Slot(w, k) == Some(Bound(w, HookHome(k)).a) || w.local == Some(Bound(w, HookHome(k)).a))
  }

  /** SQLite has nothing when there is no connection, and only prepared statements run. */
  ghost predicate Statements<S>(w: World<S>) {
    && !w.db.Zombie?
    && w.active <= w.prepared
    && (w.db.Closed? ==> w.prepared == {} && w.frames == [] && forall h :: Bound(w, h) == Unbound)
  }

  /** A callback on the stack is still the one bound to its place. */
  ghost predicate FrameOk<S>(w: World<S>, f: Frame) {
    Bound(w, f.home) == f.binding
    && if f.home.HookHome? then f.binding.Heap? else f.st in w.active && f.binding != Unbound
  }

  ghost predicate FramesOk<S>(w: World<S>) {
    forall i :: 0 <= i < |w.frames| ==> FrameOk(w, w.frames[i])
  }

  /** A computation belongs to a running statement and still finds the aggregate_data it began with. */
  ghost predicate ComputationOk<S>(w: World<S>, k: Computation<S>) {
    && k.st in w.active
    && k.home.FunctionHome?
    && Bound(w, k.home) == Heap(k.owner)
    && k.owner < |w.ledger.objects|
    && w.ledger.objects[k.owner].payload.Aggregator?
    && k.core == P.Replay(w.ledger.objects[k.owner].payload.agg, k.calls)
  }

  ghost predicate ComputationsOk<S>(w: World<S>) {
    forall c :: c in w.computations ==> ComputationOk(w, w.computations[c])
  }

  /** A finished computation went through its own calls and the final one, and nothing else. */
  ghost predicate FinalOk<S>(w: World<S>, f: Final<S>) {
    && f.owner < |w.ledger.objects|
    && w.ledger.objects[f.owner].payload.Aggregator?
    && var agg := w.ledger.objects[f.owner].payload.agg;
       (f.core, f.reply) == P.FinalCall(agg, P.Replay(agg, f.calls))
  }

  ghost predicate FinalsOk<S>(w: World<S>) {
    forall c :: c in w.finals ==> FinalOk(w, w.finals[c])
  }

  ghost predicate Inv<S>(w: World<S>) {
    Ownership(w) && AliasesLive(w) && Statements(w) && FramesOk(w) && ComputationsOk(w) && FinalsOk(w) && !w.fault
  }

  /** Between calls nothing is in flight and the handle tells the truth. */
  ghost predicate Quiet<S>(w: World<S>) {
    w.local.None? && (w.handle <==> w.db.Opened?)
  }

  // ----- what one statement needs ---------------------------------------------

  ghost predicate NotRunning<S>(w: World<S>, h: Home) {
    forall i :: 0 <= i < |w.frames| ==> w.frames[i].home != h
  }

  /** No callback of this place is on the stack and no aggregate computation uses it. */
  ghost predicate Idle<S>(w: World<S>, h: Home) {
    NotRunning(w, h) && forall c :: c in w.computations ==> w.computations[c].home != h
  }

  ghost predicate LocalFor<S>(w: World<S>, h: Home) {
    w.local.Some? && MadeFor(w, w.local.value, h)
  }

  /** What SQLite guarantees about the things it does by itself. */
  ghost predicate EventOk<S>(w: World<S>, e: Event) {
    && w.db.Opened?
    && match e
       case Prepare(st) => st !in w.prepared
       case Activate(st) => st in w.prepared
       case Deactivate(st) =>
         && (forall i :: 0 <= i < |w.frames| && !w.frames[i].home.HookHome? ==> w.frames[i].st != st)
         && (forall c :: c in w.computations ==> w.computations[c].st != st)
       case Finalize(st) => st !in w.active
       case Enter(h, st) => if h.HookHome? then Bound(w, h).Heap? else st in w.active && Bound(w, h) != Unbound
       case Leave => true
       case AggregateOpen(c, st, h) =>
         st in w.active && h.FunctionHome? && AggregateAt(w, h).Some? && c !in w.computations && c !in w.finals
       case AggregateStep(c, call) => c in w.computations
       case AggregateFinal(c) => c in w.computations
  }

  ghost predicate Ready<S>(w: World<S>, s: Statement<S>) {
    match s
    case NewLocal(o) => w.local.None?
    case SetHook(k, n) => LocalFor(w, HookHome(k)) && NotRunning(w, HookHome(k)) && w.db.Opened?
    case ClearHook(k) => NotRunning(w, HookHome(k)) && w.db.Opened?
    case SetBuiltIn(k, n) => NotRunning(w, HookHome(k)) && w.db.Opened?
    case SetupCallbacks => true
    case MoveLocalToSlot(k) =>
      w.table.Some? && LocalFor(w, HookHome(k))
      && (Bound(w, HookHome(k)).Heap? ==> Some(Bound(w, HookHome(k)).a) == w.local)
    case ResetSlot(k) => !Bound(w, HookHome(k)).Heap?
    case DeleteLocal => w.local.Some? && forall h :: Bound(w, h) != Heap(w.local.value)
    case CreateFunctionV2(h, data, ok) =>
      h.FunctionHome? && w.db.Opened? && (data.Local? ==> LocalFor(w, h)) && (ok ==> Idle(w, h))
    case CreateCollationV2(h, data, ok) =>
      h.CollationHome? && w.db.Opened? && (data.Local? ==> LocalFor(w, h)) && (ok ==> Idle(w, h))
    case OpenV2(r) => w.db.Closed?
    case CloseV2 => w.prepared == {} && w.frames == [] && w.local.None?
    case NullHandle => true
    case FreeTable => forall k :: !Bound(w, HookHome(k)).Heap?
    case Environment(e) => EventOk(w, e)
  }

  // ----- SQLite's side of the invariant ---------------------------------------

  ghost predicate SqliteSide<S>(w: World<S>) {
    Statements(w) && FramesOk(w) && ComputationsOk(w) && FinalsOk(w) && !w.fault
  }

  /** `v` is `w` with possibly more objects and what SQLite has at `h` replaced. */
  ghost predicate RebindsAtMost<S>(w: World<S>, v: World<S>, h: Home) {
    && w.ledger.objects <= v.ledger.objects
    && v.(ledger := w.ledger, handle := w.handle, table := w.table, local := w.local, bound := w.bound) == w
    && (forall g :: g != h ==> Bound(v, g) == Bound(w, g))
  }

  lemma RebindKeepsSqliteSide<S>(w: World<S>, v: World<S>, h: Home)
    requires SqliteSide(w) && RebindsAtMost(w, v, h)
    requires Bound(v, h) == Bound(w, h) || (Idle(w, h) && w.db.Opened?)
    ensures SqliteSide(v)
  {
    forall i | 0 <= i < |v.frames| ensures FrameOk(v, v.frames[i]) {
      assert FrameOk(w, w.frames[i]);
    }
    forall c | c in v.computations ensures ComputationOk(v, v.computations[c]) {
      assert ComputationOk(w, w.computations[c]);
    }
    forall c | c in v.finals ensures FinalOk(v, v.finals[c]) {
      assert FinalOk(w, w.finals[c]);
    }
    assert w.db.Closed? ==> forall g :: Bound(v, g) == Bound(w, g);
  }

  lemma SameOwnershipKeeps<S>(w: World<S>, v: World<S>)
    requires Ownership(w) && v.ledger == w.ledger && v.local == w.local
    requires forall h :: OwnedAt(v, h) == OwnedAt(w, h)
    ensures Ownership(v)
  {
  }

  /** The heap, the owners and the hooks are as before. */
  lemma SameOwnersKeep<S>(w: World<S>, v: World<S>)
    requires Ownership(w) && AliasesLive(w)
    requires v.ledger == w.ledger && v.local == w.local && v.bound == w.bound
    requires v.table == w.table || (w.table == None && v.table == Some(map[]))
    ensures Ownership(v) && AliasesLive(v)
  {
    forall h ensures OwnedAt(v, h) == OwnedAt(w, h) {}
    SameOwnershipKeeps(w, v);
    forall k ensures Slot(v, k) == Slot(w, k) && Bound(v, HookHome(k)) == Bound(w, HookHome(k)) {}
  }

  // ----- every statement keeps the invariant ----------------------------------

  lemma NewLocalKeeps<S>(w: World<S>, o: Object<S>)
    requires Inv(w) && Ready(w, NewLocal(o))
    ensures Inv(Allocate(w, o))
  {
    var v := Allocate(w, o);
    forall h ensures OwnedAt(v, h) == OwnedAt(w, h) && Bound(v, h) == Bound(w, h) {}
    RebindKeepsSqliteSide(w, v, o.home);
  }

  lemma HookIsIdle<S>(w: World<S>, k: Hook)
    requires ComputationsOk(w) && NotRunning(w, HookHome(k))
    ensures Idle(w, HookHome(k))
  {
    forall c | c in w.computations ensures w.computations[c].home != HookHome(k) {
      assert ComputationOk(w, w.computations[c]);
    }
  }

  /** Pointing a hook elsewhere, at nothing, at SQLite's own handler or at the local. */
  lemma HookKeeps<S>(w: World<S>, k: Hook, b: Binding)
    requires Inv(w) && w.db.Opened? && NotRunning(w, HookHome(k))
    requires b.Heap? ==> w.local == Some(b.a) && LocalFor(w, HookHome(k))
    ensures Inv(w.(bound := w.bound[HookHome(k) := b]))
  {
    var v := w.(bound := w.bound[HookHome(k) := b]);
    forall h ensures OwnedAt(v, h) == OwnedAt(w, h) {}
    SameOwnershipKeeps(w, v);
    forall j | j != k ensures Bound(v, HookHome(j)) == Bound(w, HookHome(j)) && Slot(v, j) == Slot(w, j) {}
    HookIsIdle(w, k);
    RebindKeepsSqliteSide(w, v, HookHome(k));
  }

  lemma SetupKeeps<S>(w: World<S>)
    requires Inv(w)
    ensures Inv(Setup(w))
  {
    var v := Setup(w);
    SameOwnersKeep(w, v);
    forall h ensures Bound(v, h) == Bound(w, h) {}
    RebindKeepsSqliteSide(w, v, HookHome(Commit));
  }

  lemma NullHandleKeeps<S>(w: World<S>)
    requires Inv(w)
    ensures Inv(Step(w, NullHandle))
  {
    var v := Step(w, NullHandle);
    SameOwnersKeep(w, v);
    forall h ensures Bound(v, h) == Bound(w, h) {}
    RebindKeepsSqliteSide(w, v, HookHome(Commit));
  }

  /** Ownership is local: only the owner at `h` changed, and only objects made for `h` died. */
  lemma OwnershipFromHome<S>(w: World<S>, v: World<S>, h: Home)
    requires Ownership(w) && Exact(v.ledger) && v.ledger.objects == w.ledger.objects && v.ledger.live <= w.ledger.live
    requires forall g :: g != h ==> OwnedAt(v, g) == OwnedAt(w, g)
    requires OwnedAt(v, h).Some? ==> MadeFor(v, OwnedAt(v, h).value, h) && OwnedAt(v, h) != v.local
    requires forall a :: a in w.ledger.live && w.ledger.objects[a].home != h ==> a in v.ledger.live
    requires forall a :: a in v.ledger.live && v.ledger.objects[a].home == h ==>
               OwnedAt(v, h) == Some(a) || v.local == Some(a)
    requires v.local == w.local || (v.local == None && MadeFor(w, w.local.value, h))
    requires v.local.Some? ==> v.local.value in v.ledger.live
    ensures Ownership(v)
  {
    forall g | g != h && OwnedAt(v, g).Some? ensures MadeFor(v, OwnedAt(v, g).value, g) && OwnedAt(v, g) != v.local {
      assert OwnedAt(w, g).Some? && MadeFor(w, OwnedAt(w, g).value, g);
    }
    forall a | a in v.ledger.live && v.ledger.objects[a].home != h
      ensures OwnedAt(v, v.ledger.objects[a].home) == Some(a) || v.local == Some(a)
    {
      assert OwnedAt(w, w.ledger.objects[a].home) == Some(a) || w.local == Some(a);
    }
  }

  /** The local becomes the slot's; the handler it displaces is freed after the hook was repointed. */
  lemma MoveKeeps<S>(w: World<S>, k: Hook)
    requires Inv(w) && Ready(w, MoveLocalToSlot(k))
    ensures Inv(MoveLocal(w, k))
  {
    var v := MoveLocal(w, k);
    forall h ensures Bound(v, h) == Bound(w, h) {}
    RebindKeepsSqliteSide(w, v, HookHome(k));
    MoveKeepsOwnership(w, k);
    MoveKeepsAliases(w, k);
  }

  lemma MoveKeepsOwnership<S>(w: World<S>, k: Hook)
    requires Ownership(w) && w.table.Some? && LocalFor(w, HookHome(k))
    ensures Ownership(MoveLocal(w, k))
  {
    var v, h := MoveLocal(w, k), HookHome(k);
    assert OwnedAt(w, h) == Slot(w, k) && OwnedAt(v, h) == w.local;
    forall g | g != h ensures OwnedAt(v, g) == OwnedAt(w, g) {}
    OwnershipFromHome(w, v, h);
  }

  lemma MoveKeepsAliases<S>(w: World<S>, k: Hook)
    requires Ownership(w) && AliasesLive(w) && Ready(w, MoveLocalToSlot(k))
    ensures AliasesLive(MoveLocal(w, k))
  {
    var v := MoveLocal(w, k);
    assert OwnedAt(w, HookHome(k)) == Slot(w, k);
    forall j ensures Bound(v, HookHome(j)) == Bound(w, HookHome(j)) {}
    forall j | j != k ensures Slot(v, j) == Slot(w, j) {}
  }

  /** A slot is emptied after the hook was repointed. */
  lemma ResetKeeps<S>(w: World<S>, k: Hook)
    requires Inv(w) && Ready(w, ResetSlot(k))
    ensures Inv(Reset(w, k))
  {
    var v := Reset(w, k);
    forall h ensures Bound(v, h) == Bound(w, h) {}
    RebindKeepsSqliteSide(w, v, HookHome(k));
    ResetKeepsOwnership(w, k);
    ResetKeepsAliases(w, k);
  }

  lemma ResetKeepsAliases<S>(w: World<S>, k: Hook)
    requires Ownership(w) && AliasesLive(w) && Ready(w, ResetSlot(k))
    ensures AliasesLive(Reset(w, k))
  {
    var v := Reset(w, k);
    assert OwnedAt(w, HookHome(k)) == Slot(w, k);
    forall j ensures Bound(v, HookHome(j)) == Bound(w, HookHome(j)) {}
    forall j | j != k ensures Slot(v, j) == Slot(w, j) {}
  }

  lemma ResetKeepsOwnership<S>(w: World<S>, k: Hook)
    requires Ownership(w)
    ensures Ownership(Reset(w, k))
  {
    var v, h := Reset(w, k), HookHome(k);
    assert OwnedAt(w, h) == Slot(w, k) && OwnedAt(v, h) == None;
    forall g | g != h ensures OwnedAt(v, g) == OwnedAt(w, g) {}
    OwnershipFromHome(w, v, h);
  }

  lemma FreeTableKeeps<S>(w: World<S>)
    requires Inv(w) && Ready(w, FreeTable)
    ensures Inv(DropTable(w)) && DropTable(w).table.None?
  {
    var v := DropTable(w);
    forall h ensures Bound(v, h) == Bound(w, h) {}
    RebindKeepsSqliteSide(w, v, HookHome(Commit));
    FreeTableKeepsOwnership(w);
  }

  lemma FreeTableKeepsOwnership<S>(w: World<S>)
    requires Ownership(w)
    ensures Ownership(DropTable(w))
  {
    var v := DropTable(w);
    forall k ensures OwnedAt(w, HookHome(k)) == Slot(w, k) && OwnedAt(v, HookHome(k)) == None {}
    forall h: Home | !h.HookHome? ensures OwnedAt(v, h) == OwnedAt(w, h) {}
    if w.table.Some? {
      forall a | a in w.table.value.Values
        ensures a in w.ledger.live && w.local != Some(a) && w.ledger.objects[a].home.HookHome?
      {
        var k :| k in w.table.value && w.table.value[k] == a;
        assert Slot(w, k) == Some(a);
      }
    }
  }

  lemma DeleteLocalKeeps<S>(w: World<S>)
    requires Inv(w) && Ready(w, DeleteLocal)
    ensures Inv(ReleaseLocal(w))
  {
    var v := ReleaseLocal(w);
    forall h ensures OwnedAt(v, h) == OwnedAt(w, h) && Bound(v, h) == Bound(w, h) {}
    RebindKeepsSqliteSide(w, v, HookHome(Commit));
  }

  lemma RegisterKeeps<S>(w: World<S>, h: Home, data: Data)
    requires Inv(w) && !h.HookHome? && w.db.Opened? && (data.Local? ==> LocalFor(w, h)) && Idle(w, h)
    ensures Inv(Register(w, h, data))
  {
    var v := Register(w, h, data);
    assert Bound(w, h).Heap? ==> OwnedAt(w, h) == Some(Bound(w, h).a);
    forall g | g != h ensures OwnedAt(v, g) == OwnedAt(w, g) && Bound(v, g) == Bound(w, g) {}
    RebindKeepsSqliteSide(w, v, h);
  }

  lemma ComputationsNeedStatements<S>(w: World<S>)
    requires ComputationsOk(w) && Statements(w)
    ensures w.computations != map[] ==> w.prepared != {}
  {
    if w.computations != map[] {
      var c :| c in w.computations;
      assert w.computations[c].st in w.prepared;
    }
  }

  lemma CloseKeeps<S>(w: World<S>)
    requires Inv(w) && Ready(w, CloseV2)
    ensures Inv(CloseDb(w))
    ensures CloseDb(w).db.Closed? || !w.handle
  {
    if w.handle {
      var v := CloseDb(w);
      forall a | a in UserData(w) ensures exists h: Home :: !h.HookHome? && OwnedAt(w, h) == Some(a) {
        var h :| h in w.bound && !h.HookHome? && w.bound[h].Heap? && w.bound[h].a == a;
        assert OwnedAt(w, h) == Some(a);
      }
      forall h: Home | !h.HookHome? && OwnedAt(w, h).Some? ensures OwnedAt(w, h).value in UserData(w) {}
      forall k ensures OwnedAt(v, HookHome(k)) == OwnedAt(w, HookHome(k)) {}
      ComputationsNeedStatements(w);
      forall c | c in v.finals ensures FinalOk(v, v.finals[c]) {
        assert FinalOk(w, w.finals[c]);
      }
    }
  }

  lemma OpenKeeps<S>(w: World<S>, r: OpenResult)
    requires Inv(w) && Ready(w, OpenV2(r))
    ensures Inv(OpenDb(w, r))
  {
    var v := OpenDb(w, r);
    forall h ensures OwnedAt(v, h) == OwnedAt(w, h) && (h != HookHome(Wal) ==> Bound(v, h) == Bound(w, h)) {}
    SameOwnershipKeeps(w, v);
    ComputationsNeedStatements(w);
    forall c | c in v.finals ensures FinalOk(v, v.finals[c]) {
      assert FinalOk(w, w.finals[c]);
    }
  }

  // ----- what SQLite does keeps the invariant ---------------------------------

  lemma FinalsKeep<S>(w: World<S>, v: World<S>)
    requires FinalsOk(w) && v.ledger == w.ledger
    ensures forall c :: c in w.finals ==> FinalOk(v, w.finals[c])
  {
    forall c | c in w.finals ensures FinalOk(v, w.finals[c]) {
      assert FinalOk(w, w.finals[c]);
    }
  }

  lemma ComputationsKeep<S>(w: World<S>, v: World<S>)
    requires ComputationsOk(w) && v.ledger == w.ledger && v.bound == w.bound
    requires forall c :: c in w.computations ==> w.computations[c].st in v.active
    ensures forall c :: c in w.computations ==> ComputationOk(v, w.computations[c])
  {
    forall c | c in w.computations ensures ComputationOk(v, w.computations[c]) {
      assert ComputationOk(w, w.computations[c]);
      assert Bound(v, w.computations[c].home) == Bound(w, w.computations[c].home);
    }
  }

  lemma StatementEventKeeps<S>(w: World<S>, e: Event)
    requires e.Prepare? || e.Activate? || e.Deactivate? || e.Finalize?
    requires Inv(w) && EventOk(w, e)
    ensures Inv(StepEvent(w, e))
  {
    var v := StepEvent(w, e);
    SameOwnersKeep(w, v);
    FinalsKeep(w, v);
    forall c | c in w.computations ensures w.computations[c].st in v.active {
      assert ComputationOk(w, w.computations[c]);
    }
    ComputationsKeep(w, v);
    forall i | 0 <= i < |v.frames| ensures FrameOk(v, v.frames[i]) {
      assert FrameOk(w, w.frames[i]) && Bound(v, w.frames[i].home) == Bound(w, w.frames[i].home);
    }
  }

  /** Entering dereferences live user data; leaving pops it. */
  lemma FrameEventKeeps<S>(w: World<S>, e: Event)
    requires e.Enter? || e.Leave?
    requires Inv(w) && EventOk(w, e)
    ensures Inv(StepEvent(w, e))
  {
    var v := StepEvent(w, e);
    SameOwnersKeep(w, v);
    FinalsKeep(w, v);
    ComputationsKeepAll(w, v);
    forall i | 0 <= i < |v.frames| ensures FrameOk(v, v.frames[i]) {
      if i < |w.frames| {
        assert FrameOk(w, w.frames[i]) && Bound(v, w.frames[i].home) == Bound(w, w.frames[i].home);
      }
    }
    BoundIsLive(w);
  }

  /** Everything SQLite could call is live. */
  lemma BoundIsLive<S>(w: World<S>)
    requires Inv(w)
    ensures forall h :: Bound(w, h).Heap? ==> MadeFor(w, Bound(w, h).a, h)
  {
    forall h | Bound(w, h).Heap? ensures MadeFor(w, Bound(w, h).a, h) {
      if !h.HookHome? {
        assert OwnedAt(w, h) == Some(Bound(w, h).a);
      } else {
        assert Bound(w, HookHome(h.hook)).Heap?;
      }
    }
  }

  lemma ComputationsKeepAll<S>(w: World<S>, v: World<S>)
    requires ComputationsOk(w) && v.ledger == w.ledger && v.bound == w.bound && v.active == w.active
    ensures forall c :: c in w.computations ==> ComputationOk(v, w.computations[c])
  {
    forall c | c in w.computations ensures w.computations[c].st in v.active {
      assert ComputationOk(w, w.computations[c]);
    }
    ComputationsKeep(w, v);
  }

  /** The aggregate trampolines find the aggregate_data the computation began with, and it is live. */
  lemma ComputationFindsOwner<S>(w: World<S>, c: nat)
    requires Inv(w) && c in w.computations
    ensures var k := w.computations[c];
            ComputationOk(w, k) && k.owner in w.ledger.live
            && AggregateAt(w, k.home) == Some(w.ledger.objects[k.owner].payload.agg)
  {
    BoundIsLive(w);
    assert ComputationOk(w, w.computations[c]);
  }

  lemma OpenComputationKeeps<S>(w: World<S>, c: nat, st: nat, h: Home)
    requires Inv(w) && EventOk(w, AggregateOpen(c, st, h))
    ensures Inv(StepEvent(w, AggregateOpen(c, st, h)))
  {
    var v := StepEvent(w, AggregateOpen(c, st, h));
    SameOwnersKeep(w, v);
    SameFramesKeep(w, v);
    FinalsKeep(w, v);
    ComputationsKeepAll(w, v);
  }

  lemma StepComputationKeeps<S>(w: World<S>, c: nat, call: P.Call)
    requires Inv(w) && c in w.computations
    ensures Inv(StepComputation(w, c, call))
  {
    var v := StepComputation(w, c, call);
    ComputationFindsOwner(w, c);
    var k := w.computations[c];
    StepExtendsReplay(w.ledger.objects[k.owner].payload.agg, k.calls, call);
    SameOwnersKeep(w, v);
    SameFramesKeep(w, v);
    FinalsKeep(w, v);
    ComputationsKeepAll(w, v);
  }

  lemma FinishComputationKeeps<S>(w: World<S>, c: nat)
    requires Inv(w) && c in w.computations
    ensures Inv(FinishComputation(w, c))
  {
    var v := FinishComputation(w, c);
    ComputationFindsOwner(w, c);
    SameOwnersKeep(w, v);
    SameFramesKeep(w, v);
    FinalsKeep(w, v);
    ComputationsKeepAll(w, v);
  }

  lemma SameFramesKeep<S>(w: World<S>, v: World<S>)
    requires Statements(w) && FramesOk(w)
    requires v.bound == w.bound && v.frames == w.frames && v.active == w.active
    requires v.prepared == w.prepared && v.db == w.db
    ensures Statements(v) && FramesOk(v)
  {
    forall i | 0 <= i < |v.frames| ensures FrameOk(v, v.frames[i]) {
      assert FrameOk(w, w.frames[i]) && Bound(v, w.frames[i].home) == Bound(w, w.frames[i].home);
    }
    forall h ensures Bound(v, h) == Bound(w, h) {}
  }

  lemma StepExtendsReplay<S>(agg: P.Aggregate<S>, calls: seq<P.Call>, call: P.Call)
    ensures P.StepCall(agg, P.Replay(agg, calls), call).0 == P.Replay(agg, calls + [call])
  {
    assert (calls + [call])[..|calls|] == calls;
  }

  /** The invariant holds after every C++ statement that is run where the code runs it. */
  lemma StepKeeps<S>(w: World<S>, s: Statement<S>)
    requires Inv(w) && Ready(w, s)
    ensures Inv(Step(w, s))
  {
    match s
    case NewLocal(o) => NewLocalKeeps(w, o);
    case SetHook(k, n) => HookKeeps(w, k, if k.Progress? && n < 1 then Unbound else Incoming(w, Local));
    case ClearHook(k) => HookKeeps(w, k, Unbound);
    case SetBuiltIn(k, n) => HookKeeps(w, k, if n > 0 then BuiltIn(n) else Unbound);
    case SetupCallbacks => SetupKeeps(w);
    case MoveLocalToSlot(k) => MoveKeeps(w, k);
    case ResetSlot(k) => ResetKeeps(w, k);
    case DeleteLocal => DeleteLocalKeeps(w);
    case CreateFunctionV2(h, data, ok) =>
      if ok { RegisterKeeps(w, h, data); } else if data.Local? { RefusedFunctionKeeps(w, h); }
    case CreateCollationV2(h, data, ok) =>
      if ok { RegisterKeeps(w, h, data); }
    case OpenV2(r) => OpenKeeps(w, r);
    case CloseV2 => CloseKeeps(w);
    case NullHandle => NullHandleKeeps(w);
    case FreeTable => FreeTableKeeps(w);
    case Environment(e) => EventKeeps(w, e);
  }

  /** SQLite destroys the user data of a refused function: nothing else refers to it. */
  lemma RefusedFunctionKeeps<S>(w: World<S>, h: Home)
    requires Inv(w) && h.FunctionHome? && LocalFor(w, h)
    ensures Inv(ReleaseLocal(w))
  {
    forall g ensures Bound(w, g) != Heap(w.local.value) {
      BoundIsLive(w);
      assert g == h ==> OwnedAt(w, h) != w.local;
    }
    DeleteLocalKeeps(w);
  }

  lemma EventKeeps<S>(w: World<S>, e: Event)
    requires Inv(w) && EventOk(w, e)
    ensures Inv(StepEvent(w, e))
  {
    match e
    case Prepare(_) => StatementEventKeeps(w, e);
    case Activate(_) => StatementEventKeeps(w, e);
    case Deactivate(_) => StatementEventKeeps(w, e);
    case Finalize(_) => StatementEventKeeps(w, e);
    case Enter(_, _) => FrameEventKeeps(w, e);
    case Leave => FrameEventKeeps(w, e);
    case AggregateOpen(c, st, h) => OpenComputationKeeps(w, c, st, h);
    case AggregateStep(c, call) => StepComputationKeeps(w, c, call);
    case AggregateFinal(c) => FinishComputationKeeps(w, c);
  }
}
