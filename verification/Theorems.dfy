/**
 * What the invariant means for the user of a connection, over every run.
 */
module Theorems {
  import opened Types
  import opened Ledgers
  import opened Worlds
  import opened Safety
  import opened Runs

  // ----- ownership ------------------------------------------------------------

  /** The callables and handlers somebody owns. */
  function Owned<S>(w: World<S>): set<Addr> {
    UserData(w) + (if w.table.Some? then w.table.value.Values else {}) + (if w.local.Some? then {w.local.value} else {})
  }

  /** Conservation in one state: live is owned, and what is dead was deleted exactly once. */
  lemma InvMeansConserved<S>(w: World<S>)
    requires Inv(w)
    ensures w.ledger.live == Owned(w)
    ensures forall a: Addr :: w.ledger.deletions[a] == if a < |w.ledger.objects| && a !in Owned(w) then 1 else 0
  {
    forall a | a in w.ledger.live ensures a in Owned(w) {
      var h := w.ledger.objects[a].home;
      assert OwnedAt(w, h) == Some(a) || w.local == Some(a);
    }
    forall a | a in Owned(w) ensures a in w.ledger.live {
      if a in UserData(w) {
        var h :| h in w.bound && !h.HookHome? && w.bound[h].Heap? && w.bound[h].a == a;
        assert OwnedAt(w, h) == Some(a);
      } else if w.local != Some(a) {
        var k :| k in w.table.value && w.table.value[k] == a;
        assert OwnedAt(w, HookHome(k)) == Some(a);
      }
    }
  }

  /**
   * At every program point of every run, the live objects are exactly those in
   * the callback table, those SQLite holds as user data and the one in flight;
   * every other object ever allocated was deleted exactly once.
   */
  lemma UserDataConserved<S>(ops: seq<Op<S>>, i: nat, j: nat)
    requires PermittedRun(ops) && i < |ops| && j < |PointsOf(ops, i)|
    ensures var w := PointsOf(ops, i)[j];
            w.ledger.live == Owned(w)
            && forall a: Addr :: w.ledger.deletions[a] == if a < |w.ledger.objects| && a !in Owned(w) then 1 else 0
  {
    EveryPointSafe(ops, i, j);
    InvMeansConserved(PointsOf(ops, i)[j]);
  }

  /**
   * At every program point of every run, a hook that points to sqxx points to
   * a live handler of its kind, owned by the matching slot of the table or by
   * the local of the setter that is running.
   */
  lemma HooksNeverDangle<S>(ops: seq<Op<S>>, i: nat, j: nat, k: Hook)
    requires PermittedRun(ops) && i < |ops| && j < |PointsOf(ops, i)|
    requires Bound(PointsOf(ops, i)[j], HookHome(k)).Heap?
    ensures var w := PointsOf(ops, i)[j];
            var a := Bound(w, HookHome(k)).a;
            a in w.ledger.live && a < |w.ledger.objects| && w.ledger.objects[a].home == HookHome(k)
            && (Slot(w, k) == Some(a) || w.local == Some(a))
  {
    EveryPointSafe(ops, i, j);
  }

  /**
   * No trampoline is ever entered through a dead object, and every callback on
   * the stack, at any nesting depth, is alive and still bound where it was
   * called from, whatever its nested calls did.
   */
  lemma CallbacksStayAlive<S>(ops: seq<Op<S>>, i: nat, j: nat)
    requires PermittedRun(ops) && i < |ops| && j < |PointsOf(ops, i)|
    ensures var w := PointsOf(ops, i)[j];
            !w.fault && forall n :: 0 <= n < |w.frames| ==>
              Bound(w, w.frames[n].home) == w.frames[n].binding
              && (w.frames[n].binding.Heap? ==> w.frames[n].binding.a in w.ledger.live)
  {
    EveryPointSafe(ops, i, j);
    var w := PointsOf(ops, i)[j];
    BoundIsLive(w);
    forall n | 0 <= n < |w.frames|
      ensures Bound(w, w.frames[n].home) == w.frames[n].binding
              && (w.frames[n].binding.Heap? ==> w.frames[n].binding.a in w.ledger.live)
    {
      assert FrameOk(w, w.frames[n]);
    }
  }

  ghost predicate CollationCalls<S>(ops: seq<Op<S>>) {
    forall i :: 0 <= i < |ops| ==> ops[i].CreateCollation? || ops[i].CreateStaticCollation? || ops[i].RemoveCollation?
  }

  /**
   * Re-entrant registration: a collation-needed handler that calls back into
   * its connection any number of times, successfully or not, is still alive,
   * still on top of the stack and still SQLite's handler, and everything live
   * is owned.
   */
  lemma NestedRegistrationsSafe<S>(ops: seq<Op<S>>, st: nat, nested: seq<Op<S>>)
    requires CollationCalls(nested)
    requires PermittedRun(ops + [Sqlite(Enter(HookHome(CollationNeeded), st))] + nested)
    ensures var w := Run(Initial<S>(), ops + [Sqlite(Enter(HookHome(CollationNeeded), st))] + nested);
            w.ledger.live == Owned(w) && w.frames != []
            && var f := w.frames[|w.frames| - 1];
               f.home == HookHome(CollationNeeded) && Bound(w, f.home) == f.binding
               && (f.binding.Heap? ==> f.binding.a in w.ledger.live)
  {
    var inside := ops + [Sqlite(Enter(HookHome(CollationNeeded), st))];
    EnterPushes(ops, HookHome(CollationNeeded), st);
    NestedKeepsFrames(inside, nested);
    RunRests(inside + nested);
    var w := Run(Initial<S>(), inside + nested);
    InvMeansConserved(w);
    TopFrameOk(w);
  }

  lemma EnterPushes<S>(ops: seq<Op<S>>, h: Home, st: nat)
    ensures var w := Run(Initial<S>(), ops + [Sqlite(Enter(h, st))]);
            w.frames != [] && w.frames[|w.frames| - 1].home == h
  {
    assert (ops + [Sqlite(Enter(h, st))])[..|ops|] == ops;
    DoEvent(Run(Initial<S>(), ops), Enter(h, st));
  }

  lemma TopFrameOk<S>(w: World<S>)
    requires Inv(w) && w.frames != []
    ensures var f := w.frames[|w.frames| - 1];
            Bound(w, f.home) == f.binding && (f.binding.Heap? ==> f.binding.a in w.ledger.live)
  {
    assert FrameOk(w, w.frames[|w.frames| - 1]);
    BoundIsLive(w);
  }

  lemma {:induction false} NestedKeepsFrames<S>(ops: seq<Op<S>>, nested: seq<Op<S>>)
    requires CollationCalls(nested)
    ensures Run(Initial<S>(), ops + nested).frames == Run(Initial<S>(), ops).frames
  {
    if nested == [] {
      assert ops + nested == ops;
    } else {
      var front := nested[..|nested| - 1];
      NestedKeepsFrames(ops, front);
      assert (ops + nested)[..|ops + nested| - 1] == ops + front;
      var w := Run(Initial<S>(), ops + front);
      CallKeepsRecords(w, nested[|nested| - 1]);
    }
  }

  /** The aggregate_data a computation began with outlives it and stays the one its calls find. */
  lemma AggregateOutlivesComputations<S>(ops: seq<Op<S>>, i: nat, j: nat, c: nat)
    requires PermittedRun(ops) && i < |ops| && j < |PointsOf(ops, i)|
    requires c in PointsOf(ops, i)[j].computations
    ensures var w := PointsOf(ops, i)[j];
            var k := w.computations[c];
            k.owner in w.ledger.live && Bound(w, k.home) == Heap(k.owner)
  {
    EveryPointSafe(ops, i, j);
    ComputationFindsOwner(PointsOf(ops, i)[j], c);
  }

  ghost predicate NothingBound<S>(w: World<S>) {
    forall h :: Bound(w, h) == Unbound
  }

  /**
   * Destroying a connection after any run: the last statement frees the table,
   * and when it starts SQLite holds no alias any more.
   */
  lemma DestructorReleasesFirst<S>(ops: seq<Op<S>>)
    requires PermittedRun(ops) && Permitted(Run(Initial(), ops), Destruct)
    ensures var w := Run(Initial<S>(), ops);
            var prog := Program(w, Destruct);
            |prog| > 0 && |Points(w, prog)| == |prog| + 1 && prog[|prog| - 1] == FreeTable
            && NothingBound(Points(w, prog)[|prog| - 1])
  {
    RunRests(ops);
    DestructPoints(Run(Initial<S>(), ops));
  }

  /** And in the end nothing is live and every object ever allocated was deleted exactly once. */
  lemma DestructorFreesEverything<S>(ops: seq<Op<S>>)
    requires PermittedRun(ops) && Permitted(Run(Initial(), ops), Destruct)
    ensures var v := Do(Run(Initial<S>(), ops), Destruct);
            v.ledger.live == {} && !v.handle && v.db.Closed?
            && forall a: Addr :: v.ledger.deletions[a] == if a < |v.ledger.objects| then 1 else 0
  {
    RunRests(ops);
    DestructReady(Run(Initial<S>(), ops));
    OpKeeps(Run(Initial<S>(), ops), Destruct);
    ClosedOwnsNothing(Do(Run(Initial<S>(), ops), Destruct));
  }

  lemma ClosedOwnsNothing<S>(w: World<S>)
    requires Resting(w) && w.db.Closed? && w.table.None?
    ensures w.ledger.live == {}
    ensures forall a: Addr :: w.ledger.deletions[a] == if a < |w.ledger.objects| then 1 else 0
  {
    InvMeansConserved(w);
    assert UserData(w) == {} by {
      forall h ensures Bound(w, h) == Unbound {}
    }
  }

  lemma DestructPoints<S>(w: World<S>)
    requires Resting(w) && w.prepared == {} && w.frames == []
    ensures var prog := Program(w, Destruct);
            |prog| > 0 && |Points(w, prog)| == |prog| + 1 && prog[|prog| - 1] == FreeTable
            && NothingBound(Points(w, prog)[|prog| - 1])
  {
    DestructProgram(w);
    if w.handle {
      CloseLetsGo(w);
      Points3(w, CloseV2, NullHandle, FreeTable);
    } else {
      Points1(w, FreeTable);
    }
  }

  lemma Points1<S>(w: World<S>, a: Statement<S>)
    ensures Points(w, [a]) == [w, Step(w, a)]
  {
    assert [a][1..] == [];
  }

  lemma Points3<S>(w: World<S>, a: Statement<S>, b: Statement<S>, c: Statement<S>)
    ensures Points(w, [a, b, c]) == [w, Step(w, a), Step(Step(w, a), b), Step(Step(Step(w, a), b), c)]
  {
    assert [a, b, c][1..] == [b, c] && [b, c][1..] == [c];
    Points1(Step(Step(w, a), b), c);
  }

  /** A failed open leaves no live handle on either side, whatever happened before. */
  lemma FailedOpenLeavesNoHandle<S>(ops: seq<Op<S>>, r: OpenResult)
    requires PermittedRun(ops) && Permitted(Run(Initial<S>(), ops), Open(r)) && !r.OpenOk?
    ensures var w := Do(Run(Initial<S>(), ops), Open(r)); !w.handle && w.db.Closed?
  {
    RunRests(ops);
    FailedOpen(Run(Initial<S>(), ops), r);
  }
}
