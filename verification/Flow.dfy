/** The orchestrator's view of the store: which subtask is in which state, and each mission's status.
    The effects of propagate, cancelUnreachable and deriveMissionStatus (internal/core/service.go) in
    closed form, and the invariant that rules out orchestration deadlock. */
module Flow {
  import opened StateMachine
  import opened Records
  import opened StoreSpec

  datatype Board = Board(subs: map<string, Subtask>, missions: map<string, Mission>)

  /** Neither finished nor waiting for dependencies: somebody or some sweeper can act on it. */
  predicate Live(s: State) { !s.Terminal() && s != Pending }

  predicate Dead(s: State) { s == Failed || s == Cancelled }

  // ---- closed forms ----

  ghost predicate Done(subs: map<string, Subtask>, m: string, deps: seq<string>) {
    forall d :: d in deps ==> d in subs && subs[d].spec.mission == m && subs[d].state == Succeeded
  }

  ghost predicate Unblocked(subs: map<string, Subtask>, m: string, id: string) {
    id in subs && subs[id].spec.mission == m && subs[id].state == Pending && Done(subs, m, subs[id].spec.deps)
  }

  /** propagate: every PENDING subtask of the mission whose dependencies are done becomes READY. */
  ghost function Readied(subs: map<string, Subtask>, m: string): map<string, Subtask> {
    map id | id in subs :: if Unblocked(subs, m, id) then Moving(subs[id], Ready) else subs[id]
  }

  /** A chain of PENDING subtasks of the mission, the first depending on `source`, each on the one
      before. */
  ghost predicate DoomPath(subs: map<string, Subtask>, m: string, source: string, path: seq<string>) {
    && path != []
    && (forall i :: 0 <= i < |path| ==>
          path[i] in subs && subs[path[i]].spec.mission == m && subs[path[i]].state == Pending)
    && source in subs[path[0]].spec.deps
    && (forall i :: 0 < i < |path| ==> path[i - 1] in subs[path[i]].spec.deps)
  }

  /** The subtask transitively depends on `source` through PENDING subtasks. */
  ghost predicate Doomed(subs: map<string, Subtask>, m: string, source: string, id: string) {
    exists path :: DoomPath(subs, m, source, path) && path[|path| - 1] == id
  }

  /** cancelUnreachable: exactly the doomed subtasks are cancelled. */
  ghost function Culled(subs: map<string, Subtask>, m: string, source: string): map<string, Subtask> {
    map id | id in subs :: if Doomed(subs, m, source, id) then Moving(subs[id], Cancelled) else subs[id]
  }

  ghost function StatesOf(subs: map<string, Subtask>, m: string): set<State> {
    set id | id in subs && subs[id].spec.mission == m :: subs[id].state
  }

  /** deriveMissionStatus: an ACTIVE mission whose subtasks are all finished gets its final status. */
  ghost function Derive(b: Board, m: string): Board {
    if StatusOf(StatesOf(b.subs, m)) == Active || m !in b.missions || b.missions[m].status != Active then b
    else b.(missions := b.missions[m := b.missions[m].(status := StatusOf(StatesOf(b.subs, m)),
                                                       version := b.missions[m].version + 1)])
  }

  ghost function Propagate(b: Board, m: string): Board {
    Derive(b.(subs := Readied(b.subs, m)), m)
  }

  ghost function Cascade(b: Board, source: string): Board {
    if source !in b.subs then b
    else
      var m := b.subs[source].spec.mission;
      Derive(b.(subs := Culled(b.subs, m, source)), m)
  }

  /** The wake sweep cascades for each failed subtask in turn. */
  ghost function CascadeAll(b: Board, sources: seq<string>): Board {
    if sources == [] then b
    else Cascade(CascadeAll(b, sources[..|sources| - 1]), sources[|sources| - 1])
  }

  // ---- the doomed set is the least fixpoint ----

  ghost predicate Touched(subs: map<string, Subtask>, m: string, source: string, id: string) {
    && id in subs && subs[id].spec.mission == m && subs[id].state == Pending
    && exists d :: Dep(subs, id, d) && (d == source || Doomed(subs, m, source, d))
  }

  lemma DoomedIsTouched(subs: map<string, Subtask>, m: string, source: string, path: seq<string>)
    requires DoomPath(subs, m, source, path)
    ensures Touched(subs, m, source, path[|path| - 1])
  {
    var id := path[|path| - 1];
    if |path| == 1 {
      assert Dep(subs, id, source);
    } else {
      var init := path[..|path| - 1];
      assert DoomPath(subs, m, source, init);
      assert init[|init| - 1] == path[|path| - 2];
      assert Dep(subs, id, path[|path| - 2]);
    }
  }

  lemma TouchedIsDoomed(subs: map<string, Subtask>, m: string, source: string, id: string)
    requires Touched(subs, m, source, id)
    ensures Doomed(subs, m, source, id)
  {
    var d :| Dep(subs, id, d) && (d == source || Doomed(subs, m, source, d));
    if d == source {
      assert DoomPath(subs, m, source, [id]) && [id][|[id]| - 1] == id;
    } else {
      var path :| DoomPath(subs, m, source, path) && path[|path| - 1] == d;
      var longer := path + [id];
      assert DoomPath(subs, m, source, longer) && longer[|longer| - 1] == id;
    }
  }

  lemma DoomedIsFixpoint(subs: map<string, Subtask>, m: string, source: string, id: string)
    ensures Doomed(subs, m, source, id) <==> Touched(subs, m, source, id)
  {
    hide Touched;
    if Doomed(subs, m, source, id) {
      var path :| DoomPath(subs, m, source, path) && path[|path| - 1] == id;
      DoomedIsTouched(subs, m, source, path);
    } else if Touched(subs, m, source, id) {
      TouchedIsDoomed(subs, m, source, id);
    }
  }

  /** Every set that contains what is PENDING and depends on the source or on a member. */
  ghost predicate ClosedUnder(subs: map<string, Subtask>, m: string, source: string, s: set<string>) {
    forall id, d :: Dep(subs, id, d) ==>
      (subs[id].spec.mission == m && subs[id].state == Pending && (d == source || d in s) ==> id in s)
  }

  lemma {:induction false} DoomedIsLeast(subs: map<string, Subtask>, m: string, source: string, s: set<string>,
                                         path: seq<string>)
    requires ClosedUnder(subs, m, source, s) && DoomPath(subs, m, source, path)
    ensures path[|path| - 1] in s
  {
    var last := path[|path| - 1];
    if |path| == 1 {
      assert Dep(subs, last, source);
    } else {
      var init := path[..|path| - 1];
      assert DoomPath(subs, m, source, init);
      DoomedIsLeast(subs, m, source, s, init);
      assert Dep(subs, last, path[|path| - 2]);
    }
  }

  lemma DoomedWithin(subs: map<string, Subtask>, m: string, source: string, s: set<string>)
    requires ClosedUnder(subs, m, source, s)
    ensures forall id :: Doomed(subs, m, source, id) ==> id in s
  {
    forall id | Doomed(subs, m, source, id) ensures id in s {
      var path :| DoomPath(subs, m, source, path) && path[|path| - 1] == id;
      DoomedIsLeast(subs, m, source, s, path);
    }
  }

  // ---- the invariant ----

  /** `id` declares the dependency `d`. */
  ghost predicate Dep(subs: map<string, Subtask>, id: string, d: string) {
    id in subs && d in subs[id].spec.deps
  }

  ghost predicate InMission(subs: map<string, Subtask>, m: string, id: string) {
    id in subs && subs[id].spec.mission == m
  }

  /** Missions exist, and dependencies exist in the same mission. */
  ghost predicate Wired(b: Board) {
    && (forall id :: id in b.subs ==> b.subs[id].spec.mission in b.missions)
    && (forall id, d :: Dep(b.subs, id, d) ==> d in b.subs && b.subs[d].spec.mission == b.subs[id].spec.mission)
  }

  /** A topological numbering of the dependency relation. */
  ghost predicate RankedBy(subs: map<string, Subtask>, rank: map<string, nat>) {
    && (forall id :: id in subs ==> id in rank)
    && (forall id, d :: Dep(subs, id, d) ==> d in rank && rank[d] < rank[id])
  }

  ghost predicate Acyclic(subs: map<string, Subtask>) { exists rank :: RankedBy(subs, rank) }

  /** Work past PENDING and not cancelled has all its dependencies SUCCEEDED. */
  ghost predicate InOrder(subs: map<string, Subtask>) {
    forall id, d :: Dep(subs, id, d) ==>
      (subs[id].state == Pending || subs[id].state == Cancelled || (d in subs && subs[d].state == Succeeded))
  }

  ghost predicate Awaits(subs: map<string, Subtask>, id: string) {
    exists d :: Dep(subs, id, d) && d in subs && subs[d].state != Succeeded
  }

  /** Outside the missions of P, what is PENDING still waits for something. */
  ghost predicate Waits(subs: map<string, Subtask>, P: set<string>) {
    forall id :: id in subs ==> (subs[id].state == Pending && subs[id].spec.mission !in P ==> Awaits(subs, id))
  }

  /** What is PENDING depends on nothing dead, except on the sources in F whose cascade is due. */
  ghost predicate Reachable(subs: map<string, Subtask>, F: set<string>) {
    forall id, d :: Dep(subs, id, d) ==>
      (subs[id].state == Pending && d in subs && Dead(subs[d].state) ==> d in F)
  }

  ghost predicate Finished(subs: map<string, Subtask>, m: string) {
    forall id :: InMission(subs, m, id) ==> subs[id].state.Terminal()
  }

  /** A mission that is no longer ACTIVE has only finished subtasks, and its status is the derived one
      unless it was cancelled. */
  ghost predicate Closed(b: Board) {
    forall m :: m in b.missions ==> (b.missions[m].status != Active ==>
      && Finished(b.subs, m)
      && (b.missions[m].status == MCancelled || b.missions[m].status == StatusOf(StatesOf(b.subs, m))))
  }

  /** Outside M, a mission with subtasks stays ACTIVE only while one of them is unfinished. */
  ghost predicate Open(b: Board, M: set<string>) {
    forall m, id :: m in b.missions && InMission(b.subs, m, id) ==>
      (m !in M && b.missions[m].status == Active ==> !Finished(b.subs, m))
  }

  ghost predicate Weak(b: Board, F: set<string>, P: set<string>, M: set<string>) {
    Wired(b) && Acyclic(b.subs) && InOrder(b.subs) && Waits(b.subs, P) && Reachable(b.subs, F) && Closed(b) && Open(b,
                                                                                                                    M)
  }

  ghost predicate Stable(b: Board) { Weak(b, {}, {}, {}) }

  // ---- no deadlock ----

  /** From a PENDING subtask, following unfinished dependencies reaches one that can be acted on. */
  lemma {:induction false} PendingLeadsToLive(b: Board, id: string, rank: map<string, nat>)
    requires Wired(b) && Waits(b.subs, {}) && Reachable(b.subs, {})
    requires RankedBy(b.subs, rank) && id in b.subs && b.subs[id].state == Pending
    ensures exists x :: InMission(b.subs, b.subs[id].spec.mission, x) && Live(b.subs[x].state)
    decreases rank[id]
  {
    assert Awaits(b.subs, id);
    var d :| Dep(b.subs, id, d) && d in b.subs && b.subs[d].state != Succeeded;
    if b.subs[d].state == Pending {
      PendingLeadsToLive(b, d, rank);
    } else {
      assert InMission(b.subs, b.subs[id].spec.mission, d) && Live(b.subs[d].state);
    }
  }

  /** A mission with subtasks is ACTIVE exactly while some subtask is unfinished, and then exactly
      while some subtask can be acted on: never only PENDING and finished ones. */
  lemma NoDeadlock(b: Board, m: string, id: string)
    requires Stable(b) && m in b.missions && InMission(b.subs, m, id)
    ensures b.missions[m].status == Active <==> !Finished(b.subs, m)
    ensures b.missions[m].status == Active <==> exists x :: InMission(b.subs, m, x) && Live(b.subs[x].state)
  {
    if b.missions[m].status == Active {
      assert !Finished(b.subs, m);
      var x :| InMission(b.subs, m, x) && !b.subs[x].state.Terminal();
      if b.subs[x].state == Pending {
        var rank :| RankedBy(b.subs, rank);
        PendingLeadsToLive(b, x, rank);
      } else {
        assert Live(b.subs[x].state);
      }
    } else {
      assert Finished(b.subs, m);
    }
  }
}
