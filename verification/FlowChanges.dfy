/** Creation, cancellation and delegation seen by the orchestrator, and the repair of an arbitrary
    state after a crash. */
module FlowChanges {
  import opened Basics
  import opened StateMachine
  import opened Records
  import opened StoreSpec
  import opened Flow
  import opened FlowKeeps

  // ---- createMission ----

  /** activateMissionRoots: PENDING subtasks of the mission without dependencies become READY. */
  ghost function Activated(subs: map<string, Subtask>, m: string): map<string, Subtask> {
    map id | id in subs :: if IdleRoot(subs, m, id) then Moving(subs[id], Ready) else subs[id]
  }

  ghost predicate IdleRoot(subs: map<string, Subtask>, m: string, id: string) {
    InMission(subs, m, id) && subs[id].state == Pending && subs[id].spec.deps == []
  }

  /** A new ACTIVE mission whose subtasks depend only on each other, acyclically, roots READY. */
  ghost predicate Created(a: Board, b: Board, m: string, rank: map<string, nat>) {
    && m !in a.missions && b.missions.Keys == a.missions.Keys + {m} && b.missions[m].status == Active
    && (forall n :: n in a.missions ==> b.missions[n].status == a.missions[n].status)
    && (forall id :: id in a.subs ==> id in b.subs && b.subs[id] == a.subs[id])
    && (forall id :: id in b.subs && id !in a.subs ==>
          && b.subs[id].spec.mission == m && id in rank
          && b.subs[id].state == if b.subs[id].spec.deps == [] then Ready else Pending)
    && (forall id, d :: Dep(b.subs, id, d) ==>
          (id !in a.subs ==> d in b.subs && d !in a.subs && d in rank && rank[d] < rank[id]))
  }

  lemma OldDeps(a: Board, b: Board, m: string, rank: map<string, nat>)
    requires Wired(a) && Created(a, b, m, rank)
    ensures forall id, d :: Dep(b.subs, id, d) && id in a.subs ==> Dep(a.subs, id, d) && d in a.subs
    ensures forall id :: id in a.subs ==> b.subs[id].spec.mission != m
  {
    forall id, d | Dep(b.subs, id, d) && id in a.subs ensures Dep(a.subs, id, d) && d in a.subs {
      assert Dep(a.subs, id, d);
    }
  }

  lemma CreatedWired(a: Board, b: Board, m: string, rank: map<string, nat>)
    requires Wired(a) && Created(a, b, m, rank)
    ensures Wired(b)
  {
    OldDeps(a, b, m, rank);
    forall id, d | Dep(b.subs, id, d) ensures d in b.subs && b.subs[d].spec.mission == b.subs[id].spec.mission {
      if id in a.subs {
        assert Dep(a.subs, id, d);
      }
    }
  }

  lemma CreatedAcyclic(a: Board, b: Board, m: string, rank: map<string, nat>)
    requires Wired(a) && Acyclic(a.subs) && Created(a, b, m, rank)
    ensures Acyclic(b.subs)
  {
    OldDeps(a, b, m, rank);
    var before :| RankedBy(a.subs, before);
    var both := map id | id in b.subs :: if id in a.subs then before[id] else rank[id];
    forall id, d | Dep(b.subs, id, d) ensures d in both && both[d] < both[id] {
      if id in a.subs {
        assert Dep(a.subs, id, d);
      }
    }
    assert RankedBy(b.subs, both);
  }

  lemma CreatedOrder(a: Board, b: Board, m: string, rank: map<string, nat>)
    requires Wired(a) && InOrder(a.subs) && Waits(a.subs, {}) && Reachable(a.subs, {}) && Created(a, b, m, rank)
    ensures InOrder(b.subs) && Waits(b.subs, {}) && Reachable(b.subs, {})
  {
    OldDeps(a, b, m, rank);
    forall id, d | Dep(b.subs, id, d)
      ensures b.subs[id].state == Pending || b.subs[id].state == Cancelled || (d in b.subs && b.subs[d].state == Succeeded)
      ensures b.subs[id].state == Pending && d in b.subs ==> !Dead(b.subs[d].state)
    {
      if id in a.subs {
        assert Dep(a.subs, id, d);
      }
    }
    forall id | id in b.subs && b.subs[id].state == Pending ensures Awaits(b.subs, id) {
      if id in a.subs {
        assert Awaits(a.subs, id);
        var d :| Dep(a.subs, id, d) && d in a.subs && a.subs[d].state != Succeeded;
        assert Dep(b.subs, id, d);
      } else {
        assert Dep(b.subs, id, b.subs[id].spec.deps[0]);
      }
    }
  }

  /** Missions that a change leaves alone keep their set of states. */
  lemma OtherStates(a: map<string, Subtask>, b: map<string, Subtask>, n: string)
    requires forall id :: InMission(a, n, id) <==> InMission(b, n, id)
    requires forall id :: InMission(a, n, id) && id in b ==> b[id].state == a[id].state
    ensures StatesOf(a, n) == StatesOf(b, n) && (Finished(a, n) <==> Finished(b, n))
  {
    assert forall s :: s in StatesOf(a, n) ==> exists id :: InMission(a, n, id) && a[id].state == s;
    assert forall s :: s in StatesOf(b, n) ==> exists id :: InMission(b, n, id) && b[id].state == s;
    assert forall id :: InMission(a, n, id) ==> a[id].state in StatesOf(a, n);
    assert forall id :: InMission(b, n, id) ==> b[id].state in StatesOf(b, n);
  }

  /** Closed and Open can be checked mission by mission. */
  lemma StatusKeeps(a: Board, b: Board, m: string)
    requires Closed(a) && Open(a, {})
    requires forall n :: n in b.missions && n != m ==> n in a.missions && b.missions[n].status == a.missions[n].status
    requires forall n, id :: n != m ==> (InMission(a.subs, n, id) <==> InMission(b.subs, n, id))
    requires forall n, id :: n != m && InMission(a.subs, n, id) && id in b.subs ==> b.subs[id].state == a.subs[id].state
    requires m in b.missions && b.missions[m].status != Active ==> Finished(b.subs, m) && b.missions[m].status == MCancelled
    requires m in b.missions && b.missions[m].status == Active ==> !Finished(b.subs, m) || forall id :: !InMission(b.subs, m, id)
    ensures Closed(b) && Open(b, {})
  {
    hide StatusOf, StatesOf, Finished;
    forall n | n in b.missions && n != m
      ensures StatesOf(a.subs, n) == StatesOf(b.subs, n) && (Finished(a.subs, n) <==> Finished(b.subs, n))
    {
      OtherStates(a.subs, b.subs, n);
    }
    forall n, id | n in b.missions && InMission(b.subs, n, id) && b.missions[n].status == Active
      ensures !Finished(b.subs, n)
    {
      if n != m {
        assert InMission(a.subs, n, id);
      }
    }
  }

  lemma CreatedStatus(a: Board, b: Board, m: string, rank: map<string, nat>)
    requires Wired(a) && Closed(a) && Open(a, {}) && Created(a, b, m, rank)
    ensures Closed(b) && Open(b, {})
  {
    OldDeps(a, b, m, rank);
    if id :| InMission(b.subs, m, id) {
      assert id !in a.subs;
      assert !b.subs[id].state.Terminal();
      assert !Finished(b.subs, m);
    }
    StatusKeeps(a, b, m);
  }

  lemma CreationKeeps(a: Board, b: Board, m: string, rank: map<string, nat>)
    requires Stable(a) && Created(a, b, m, rank)
    ensures Stable(b)
  {
    hide Wired, Acyclic, InOrder, Waits, Reachable, Closed, Open, Created;
    CreatedWired(a, b, m, rank);
    CreatedAcyclic(a, b, m, rank);
    CreatedOrder(a, b, m, rank);
    CreatedStatus(a, b, m, rank);
  }

  // ---- CancelMissionAs ----

  /** Every unfinished subtask of the mission is cancelled, whatever the mission's status was. */
  ghost predicate MissionCancelled(a: Board, b: Board, m: string) {
    && SameShape(a.subs, b.subs) && b.missions.Keys == a.missions.Keys
    && (forall id :: id in a.subs ==>
          b.subs[id].state == if a.subs[id].spec.mission == m && !a.subs[id].state.Terminal() then Cancelled
                              else a.subs[id].state)
    && (forall n :: n in a.missions ==> b.missions[n].status == if n == m then MCancelled else a.missions[n].status)
  }

  lemma CancellationKeeps(a: Board, b: Board, m: string)
    requires Stable(a) && MissionCancelled(a, b, m)
    ensures Stable(b)
  {
    CancelledReachable(a, b, m);
    CancelledStatus(a, b, m);
    hide Wired, Acyclic, InOrder, Waits, Reachable, Closed, Open;
    ShapeKeeps(a, b);
    InOrderKeeps(a.subs, b.subs);
    WiredDeps(a);
    WaitsKeeps(a.subs, b.subs, {});
  }

  lemma CancelledReachable(a: Board, b: Board, m: string)
    requires Wired(a) && Reachable(a.subs, {}) && MissionCancelled(a, b, m)
    ensures Reachable(b.subs, {})
  {
    forall id, d | Dep(b.subs, id, d) && b.subs[id].state == Pending && d in b.subs ensures !Dead(b.subs[d].state) {
      assert Dep(a.subs, id, d);
    }
  }

  lemma CancelledStatus(a: Board, b: Board, m: string)
    requires Closed(a) && Open(a, {}) && MissionCancelled(a, b, m)
    ensures Closed(b) && Open(b, {})
  {
    forall id | InMission(b.subs, m, id) ensures b.subs[id].state.Terminal() {
      assert id in a.subs;
    }
    StatusKeeps(a, b, m);
  }

  // ---- delegation ----

  /** A READY child without dependencies appears in an ACTIVE mission. */
  ghost predicate ChildAdded(a: Board, b: Board, m: string, child: string) {
    && child !in a.subs && b.subs.Keys == a.subs.Keys + {child}
    && (forall id :: id in a.subs ==> b.subs[id] == a.subs[id])
    && b.subs[child].spec.mission == m && b.subs[child].spec.deps == [] && b.subs[child].state == Ready
    && b.missions == a.missions && m in a.missions && a.missions[m].status == Active
  }

  lemma ChildDeps(a: Board, b: Board, m: string, child: string)
    requires Wired(a) && ChildAdded(a, b, m, child)
    ensures forall id, d :: Dep(b.subs, id, d) <==> Dep(a.subs, id, d)
    ensures forall id, d :: Dep(b.subs, id, d) ==> id in a.subs && d in a.subs
    ensures Wired(b)
  {
    forall id, d ensures Dep(b.subs, id, d) <==> Dep(a.subs, id, d) {}
    forall id, d | Dep(b.subs, id, d) ensures id in a.subs && d in a.subs {
      assert Dep(a.subs, id, d);
    }
  }

  lemma ChildAcyclic(a: Board, b: Board, m: string, child: string)
    requires Wired(a) && Acyclic(a.subs) && ChildAdded(a, b, m, child)
    ensures Acyclic(b.subs)
  {
    ChildDeps(a, b, m, child);
    var rank :| RankedBy(a.subs, rank);
    var more := rank[child := 0];
    forall id, d | Dep(b.subs, id, d) ensures d in more && more[d] < more[id] {
      assert Dep(a.subs, id, d);
    }
    assert RankedBy(b.subs, more);
  }

  lemma ChildOrder(a: Board, b: Board, m: string, child: string)
    requires Wired(a) && InOrder(a.subs) && Waits(a.subs, {}) && Reachable(a.subs, {}) && ChildAdded(a, b, m, child)
    ensures InOrder(b.subs) && Waits(b.subs, {}) && Reachable(b.subs, {})
  {
    ChildDeps(a, b, m, child);
    hide Wired;
    forall id | id in b.subs && b.subs[id].state == Pending ensures Awaits(b.subs, id) {
      assert Awaits(a.subs, id);
      var d :| Dep(a.subs, id, d) && d in a.subs && a.subs[d].state != Succeeded;
      assert Dep(b.subs, id, d);
    }
    forall id, d | Dep(b.subs, id, d)
      ensures b.subs[id].state == Pending || b.subs[id].state == Cancelled || (d in b.subs && b.subs[d].state == Succeeded)
      ensures b.subs[id].state == Pending && d in b.subs ==> !Dead(b.subs[d].state)
    {
      assert Dep(a.subs, id, d);
    }
  }

  lemma ChildStatus(a: Board, b: Board, m: string, child: string)
    requires Closed(a) && Open(a, {}) && ChildAdded(a, b, m, child)
    ensures Closed(b) && Open(b, {})
  {
    assert InMission(b.subs, m, child) && !b.subs[child].state.Terminal();
    assert !Finished(b.subs, m);
    StatusKeeps(a, b, m);
  }

  lemma DelegationKeeps(a: Board, b: Board, m: string, child: string)
    requires Stable(a) && ChildAdded(a, b, m, child)
    ensures Stable(b)
  {
    ChildDeps(a, b, m, child);
    hide Wired, Acyclic, InOrder, Waits, Reachable, Closed, Open, ChildAdded;
    ChildAcyclic(a, b, m, child);
    ChildOrder(a, b, m, child);
    ChildStatus(a, b, m, child);
  }

  // ---- repair after a crash ----

  /** reconcilePendingRoots: PENDING subtasks without dependencies become READY, in every mission. */
  ghost function RootsReadied(subs: map<string, Subtask>): map<string, Subtask> {
    map id | id in subs :: if LostRoot(subs, id) then Moving(subs[id], Ready) else subs[id]
  }

  ghost predicate LostRoot(subs: map<string, Subtask>, id: string) {
    id in subs && subs[id].state == Pending && subs[id].spec.deps == []
  }

  /** reconcileSucceeded: one propagation for every SUCCEEDED subtask. */
  ghost function PropagateAll(b: Board, ms: seq<string>): Board {
    if ms == [] then b else Propagate(PropagateAll(b, ms[..|ms| - 1]), ms[|ms| - 1])
  }

  /** The missions with a SUCCEEDED subtask. */
  ghost function Successful(subs: map<string, Subtask>): set<string> {
    set id | id in subs && subs[id].state == Succeeded :: subs[id].spec.mission
  }

  /** A propagation in m was done, with no such change since. */
  ghost predicate Propagated(b: Board, m: string) {
    && (forall id :: !Unblocked(b.subs, m, id))
    && (m in b.missions && b.missions[m].status == Active ==> StatusOf(StatesOf(b.subs, m)) == Active)
  }

  /** Only PENDING subtasks with all dependencies done have become READY, nothing else has moved. */
  ghost predicate OnlyReadied(a: map<string, Subtask>, b: map<string, Subtask>) {
    && SameShape(a, b)
    && forall id :: id in a && id in b ==>
         b[id] == a[id]
         || (a[id].state == Pending && b[id] == Moving(a[id], Ready) && Done(a, a[id].spec.mission, a[id].spec.deps))
  }

  lemma OnlyReadiedDone(a: map<string, Subtask>, b: map<string, Subtask>, m: string, deps: seq<string>)
    requires OnlyReadied(a, b)
    ensures Done(a, m, deps) <==> Done(b, m, deps)
  {}

  lemma OnlyReadiedThen(a: map<string, Subtask>, b: map<string, Subtask>, c: map<string, Subtask>)
    requires OnlyReadied(a, b) && OnlyReadied(b, c)
    ensures OnlyReadied(a, c)
  {
    forall id | id in a && id in c
      ensures c[id] == a[id]
        || (a[id].state == Pending && c[id] == Moving(a[id], Ready) && Done(a, a[id].spec.mission, a[id].spec.deps))
    {
      OnlyReadiedDone(a, b, a[id].spec.mission, a[id].spec.deps);
      assert id in b;
    }
  }

  lemma ReadiedOnly(subs: map<string, Subtask>, m: string)
    ensures OnlyReadied(subs, Readied(subs, m)) && OnlyReadied(subs, RootsReadied(subs))
  {}

  /** An idle mission is a fixed point of propagation. */
  lemma PropagatedIsFixed(b: Board, m: string)
    ensures Propagate(b, m) == b <==> Propagated(b, m)
  {
    if forall id :: !Unblocked(b.subs, m, id) {
      assert Readied(b.subs, m) == b.subs;
    } else {
      var id :| Unblocked(b.subs, m, id);
      assert Readied(b.subs, m)[id] != b.subs[id];
    }
  }

  lemma PropagateIdles(b: Board, m: string)
    ensures Propagated(Propagate(b, m), m)
  {
    var subs := Readied(b.subs, m);
    ReadiedOnly(b.subs, m);
    forall id ensures !Unblocked(subs, m, id) {
      if id in subs && InMission(subs, m, id) {
        OnlyReadiedDone(b.subs, subs, m, b.subs[id].spec.deps);
        assert subs[id] == if Unblocked(b.subs, m, id) then Moving(b.subs[id], Ready) else b.subs[id];
      }
    }
  }

  /** A propagation elsewhere does not disturb an idle mission. */
  lemma IdleStays(b: Board, m: string, n: string)
    requires Propagated(b, m)
    ensures Propagated(Propagate(b, n), m)
  {
    if m == n {
      PropagateIdles(b, m);
    } else {
      ElsewhereReadied(b.subs, m, n);
      hide StatusOf, StatesOf, Readied;
    }
  }

  lemma ElsewhereReadied(subs: map<string, Subtask>, m: string, n: string)
    requires m != n && forall id :: !Unblocked(subs, m, id)
    ensures StatesOf(Readied(subs, n), m) == StatesOf(subs, m)
    ensures forall id :: !Unblocked(Readied(subs, n), m, id)
  {
    var after := Readied(subs, n);
    assert forall id :: InMission(subs, m, id) <==> InMission(after, m, id);
    assert forall id :: InMission(subs, m, id) ==> after[id] == subs[id];
    OtherStates(subs, after, m);
    ReadiedOnly(subs, n);
    forall id ensures !Unblocked(after, m, id) {
      if InMission(after, m, id) {
        OnlyReadiedDone(subs, after, m, subs[id].spec.deps);
        assert !Unblocked(subs, m, id);
      }
    }
  }

  lemma {:induction false} PropagateAllIdles(b: Board, ms: seq<string>)
    ensures OnlyReadied(b.subs, PropagateAll(b, ms).subs)
    ensures forall m :: m in ms ==> Propagated(PropagateAll(b, ms), m)
  {
    hide Propagated, Propagate, OnlyReadied;
    if ms == [] {
      OnlyReadiedSame(b.subs);
    } else {
      var init, last := ms[..|ms| - 1], ms[|ms| - 1];
      PropagateAllIdles(b, init);
      var mid := PropagateAll(b, init);
      PropagateSubs(mid, last);
      OnlyReadiedThen(b.subs, mid.subs, Propagate(mid, last).subs);
      PropagateIdles(mid, last);
      forall m | m in ms ensures Propagated(Propagate(mid, last), m) {
        if m != last {
          assert m in init by { assert ms == init + [last]; }
          IdleStays(mid, m, last);
        }
      }
    }
  }

  lemma OnlyReadiedSame(subs: map<string, Subtask>)
    ensures OnlyReadied(subs, subs)
  {}

  lemma PropagateSubs(b: Board, m: string)
    ensures OnlyReadied(b.subs, Propagate(b, m).subs)
  {
    ReadiedOnly(b.subs, m);
  }

  /** From any state whatever, one pass of reconcilePendingRoots and reconcileSucceeded leaves no
      PENDING subtask whose dependencies are done, has readied only subtasks whose dependencies are
      done, and leaves no mission with a SUCCEEDED subtask short of its derived status. */
  lemma ReconcileRepairs(b: Board, ms: seq<string>)
    requires Elements(ms) == Successful(RootsReadied(b.subs))
    ensures var c := PropagateAll(b.(subs := RootsReadied(b.subs)), ms);
      && OnlyReadied(b.subs, c.subs)
      && (forall id :: id in c.subs && c.subs[id].state == Pending ==>
            !Done(c.subs, c.subs[id].spec.mission, c.subs[id].spec.deps))
      && (forall m :: m in Successful(b.subs) ==> Propagated(c, m))
  {
    hide Propagated, PropagateAll, OnlyReadied;
    var roots := b.(subs := RootsReadied(b.subs));
    var c := PropagateAll(roots, ms);
    ReadiedOnly(b.subs, "");
    PropagateAllIdles(roots, ms);
    OnlyReadiedThen(b.subs, roots.subs, c.subs);
    SuccessfulSame(b.subs, roots.subs);
    SuccessfulSame(roots.subs, c.subs);
    NoLostRoots(b.subs, c.subs);
    forall m | m in Successful(b.subs) ensures Propagated(c, m) {
      assert m in Elements(ms);
    }
    forall id | id in c.subs && c.subs[id].state == Pending
      ensures !Done(c.subs, c.subs[id].spec.mission, c.subs[id].spec.deps)
    {
      NotLeftBehind(c, id);
    }
  }

  lemma SuccessfulSame(a: map<string, Subtask>, b: map<string, Subtask>)
    requires OnlyReadied(a, b)
    ensures Successful(a) == Successful(b)
  {
    forall m ensures m in Successful(a) <==> m in Successful(b) {
      if m in Successful(a) {
        var id :| id in a && a[id].state == Succeeded && a[id].spec.mission == m;
        assert id in b && b[id].state == Succeeded;
      }
      if m in Successful(b) {
        var id :| id in b && b[id].state == Succeeded && b[id].spec.mission == m;
        assert id in a && a[id].state == Succeeded;
      }
    }
  }

  lemma NoLostRoots(base: map<string, Subtask>, after: map<string, Subtask>)
    requires OnlyReadied(RootsReadied(base), after)
    ensures forall id :: !LostRoot(after, id)
  {
    var roots := RootsReadied(base);
    forall id | id in after ensures !LostRoot(after, id) {
      assert id in roots && !LostRoot(roots, id);
    }
  }

  lemma NotLeftBehind(c: Board, id: string)
    requires id in c.subs && c.subs[id].state == Pending && !LostRoot(c.subs, id)
    requires forall m :: m in Successful(c.subs) ==> Propagated(c, m)
    ensures !Done(c.subs, c.subs[id].spec.mission, c.subs[id].spec.deps)
  {
    var m, deps := c.subs[id].spec.mission, c.subs[id].spec.deps;
    if m in Successful(c.subs) {
      assert !Unblocked(c.subs, m, id);
    } else {
      assert deps[0] in deps;
    }
  }

  /** A second pass changes nothing. */
  lemma ReconcileIsIdempotent(b: Board, ms: seq<string>)
    requires Elements(ms) == Successful(RootsReadied(b.subs))
    ensures var c := PropagateAll(b.(subs := RootsReadied(b.subs)), ms);
      RootsReadied(c.subs) == c.subs && forall m :: m in Successful(c.subs) ==> Propagate(c, m) == c
  {
    ReconcileRepairs(b, ms);
    hide PropagateAll, Propagated, Propagate;
    var c := PropagateAll(b.(subs := RootsReadied(b.subs)), ms);
    SuccessfulSame(b.subs, c.subs);
    forall m | m in Successful(c.subs) ensures Propagate(c, m) == c {
      PropagatedIsFixed(c, m);
    }
    var roots := b.(subs := RootsReadied(b.subs));
    PropagateAllIdles(roots, ms);
    NoLostRoots(b.subs, c.subs);
  }
}
