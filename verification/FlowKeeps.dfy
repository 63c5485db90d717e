/** What every kind of orchestration step does to the invariant of Flow. */
module FlowKeeps {
  import opened Basics
  import opened StateMachine
  import opened Records
  import opened Flow

  // ---- steps that keep the declared part of every subtask ----

  ghost predicate SameShape(a: map<string, Subtask>, b: map<string, Subtask>) {
    a.Keys == b.Keys && forall id :: id in a ==> b[id].spec == a[id].spec
  }

  ghost predicate SameStatus(a: map<string, Mission>, b: map<string, Mission>) {
    a.Keys == b.Keys && forall m :: m in a ==> b[m].status == a[m].status
  }

  ghost predicate FinalStays(a: map<string, Subtask>, b: map<string, Subtask>) {
    forall id :: id in a && id in b ==> (a[id].state.Terminal() ==> b[id].state == a[id].state)
  }

  lemma ShapeKeeps(a: Board, b: Board)
    requires SameShape(a.subs, b.subs) && a.missions.Keys == b.missions.Keys && Wired(a) && Acyclic(a.subs)
    ensures Wired(b) && Acyclic(b.subs)
  {
    forall id, d | Dep(b.subs, id, d) ensures d in b.subs && b.subs[d].spec.mission == b.subs[id].spec.mission {
      assert Dep(a.subs, id, d);
    }
    var rank :| RankedBy(a.subs, rank);
    assert RankedBy(b.subs, rank) by {
      forall id, d | Dep(b.subs, id, d) ensures d in rank && rank[d] < rank[id] {
        assert Dep(a.subs, id, d);
      }
    }
  }

  predicate Untouchable(s: State) { s == Pending || s == Cancelled }

  lemma InOrderKeeps(a: map<string, Subtask>, b: map<string, Subtask>)
    requires SameShape(a, b) && FinalStays(a, b) && InOrder(a)
    requires forall id :: id in a && Untouchable(a[id].state) && !Untouchable(b[id].state) ==> Done(a, a[id].spec.mission, a[id].spec.deps)
    ensures InOrder(b)
  {
    forall id, d | Dep(b, id, d) ensures Untouchable(b[id].state) || (d in b && b[d].state == Succeeded) {
      assert Dep(a, id, d);
    }
  }

  lemma WaitsKeeps(a: map<string, Subtask>, b: map<string, Subtask>, P: set<string>)
    requires SameShape(a, b) && Waits(a, P)
    requires forall id :: id in a && b[id].state == Pending ==> a[id].state == Pending
    requires forall id :: id in a && a[id].spec.mission !in P && b[id].state == Succeeded ==> a[id].state == Succeeded
    requires forall id, d :: Dep(a, id, d) ==> d in a && a[d].spec.mission == a[id].spec.mission
    ensures Waits(b, P)
  {
    forall id | id in b && b[id].state == Pending && b[id].spec.mission !in P ensures Awaits(b, id) {
      assert Awaits(a, id);
      var d :| Dep(a, id, d) && d in a && a[d].state != Succeeded;
      assert Dep(b, id, d);
    }
  }

  lemma ReachableKeeps(a: map<string, Subtask>, b: map<string, Subtask>, F: set<string>, F': set<string>)
    requires SameShape(a, b) && Reachable(a, F) && F <= F'
    requires forall id :: id in a && b[id].state == Pending ==> a[id].state == Pending
    requires forall id :: id in a && Dead(b[id].state) ==> Dead(a[id].state) || id in F'
    ensures Reachable(b, F')
  {
    forall id, d | Dep(b, id, d) && b[id].state == Pending && d in b && Dead(b[d].state) ensures d in F' {
      assert Dep(a, id, d);
    }
  }

  lemma StatesKeep(a: map<string, Subtask>, b: map<string, Subtask>, m: string)
    requires SameShape(a, b) && FinalStays(a, b) && Finished(a, m)
    ensures StatesOf(a, m) == StatesOf(b, m)
  {
    assert forall id :: InMission(a, m, id) <==> InMission(b, m, id);
    forall s ensures s in StatesOf(a, m) <==> s in StatesOf(b, m) {
      if s in StatesOf(a, m) {
        var id :| id in a && a[id].spec.mission == m && a[id].state == s;
        assert InMission(a, m, id);
        assert b[id].state == s;
      }
      if s in StatesOf(b, m) {
        var id :| id in b && b[id].spec.mission == m && b[id].state == s;
        assert InMission(a, m, id);
        assert a[id].state == s;
      }
    }
  }

  lemma ClosedKeeps(a: Board, b: Board)
    requires SameShape(a.subs, b.subs) && SameStatus(a.missions, b.missions) && FinalStays(a.subs, b.subs) && Closed(a)
    ensures Closed(b)
  {
    hide StatesOf, StatusOf;
    forall m | m in b.missions && b.missions[m].status != Active
      ensures Finished(b.subs, m)
      ensures b.missions[m].status == MCancelled || b.missions[m].status == StatusOf(StatesOf(b.subs, m))
    {
      StatesKeep(a.subs, b.subs, m);
      forall id | InMission(b.subs, m, id) ensures b.subs[id].state.Terminal() {
        assert InMission(a.subs, m, id);
      }
    }
  }

  lemma OpenKeeps(a: Board, b: Board, M: set<string>, M': set<string>)
    requires SameShape(a.subs, b.subs) && SameStatus(a.missions, b.missions) && Open(a, M) && M <= M'
    requires forall id :: id in a.subs && a.subs[id].spec.mission !in M' && b.subs[id].state.Terminal() ==>
      a.subs[id].state.Terminal()
    ensures Open(b, M')
  {
    forall m, id | m in b.missions && InMission(b.subs, m, id) && m !in M' && b.missions[m].status == Active
      ensures !Finished(b.subs, m)
    {
      assert InMission(a.subs, m, id);
      var x :| InMission(a.subs, m, x) && !a.subs[x].state.Terminal();
      assert InMission(b.subs, m, x);
    }
  }

  /** Nothing enters or leaves the live states. */
  ghost predicate Quiet(a: Board, b: Board) {
    && SameShape(a.subs, b.subs) && SameStatus(a.missions, b.missions)
    && forall id :: id in a.subs && id in b.subs ==>
         b.subs[id].state == a.subs[id].state || (Live(a.subs[id].state) && Live(b.subs[id].state))
  }

  lemma QuietKeeps(a: Board, b: Board, F: set<string>, P: set<string>, M: set<string>)
    requires Weak(a, F, P, M) && Quiet(a, b)
    ensures Weak(b, F, P, M)
  {
    hide Wired, Acyclic, InOrder, Waits, Reachable, Closed, Open;
    ShapeKeeps(a, b);
    InOrderKeeps(a.subs, b.subs);
    WiredDeps(a);
    WaitsKeeps(a.subs, b.subs, P);
    ReachableKeeps(a.subs, b.subs, F, F);
    ClosedKeeps(a, b);
    OpenKeeps(a, b, M, M);
  }

  lemma WiredDeps(a: Board)
    requires Wired(a)
    ensures forall id, d :: Dep(a.subs, id, d) ==> d in a.subs && a.subs[d].spec.mission == a.subs[id].spec.mission
  {}

  lemma QuietTransitive(a: Board, b: Board, c: Board)
    requires Quiet(a, b) && Quiet(b, c)
    ensures Quiet(a, c)
  {
    assert forall id :: id in a.subs ==> id in b.subs && id in c.subs;
  }

  /** One live subtask finishes, everything else stays. */
  ghost predicate Lands(a: Board, b: Board, ids: set<string>, final: State) {
    && SameShape(a.subs, b.subs) && SameStatus(a.missions, b.missions)
    && forall id :: id in a.subs && id in b.subs ==>
         if id in ids then Live(a.subs[id].state) && b.subs[id].state == final else b.subs[id].state == a.subs[id].state
  }

  ghost function MissionsOf(subs: map<string, Subtask>, ids: set<string>): set<string> {
    set id | id in ids && id in subs :: subs[id].spec.mission
  }

  /** A success suspends two clauses for its mission until the propagation is done. */
  lemma SuccessKeeps(a: Board, b: Board, id: string)
    requires Stable(a) && Lands(a, b, {id}, Succeeded) && id in a.subs
    ensures var m := a.subs[id].spec.mission; Weak(b, {}, {m}, {m})
  {
    var m := a.subs[id].spec.mission;
    hide Wired, Acyclic, InOrder, Waits, Reachable, Closed, Open;
    ShapeKeeps(a, b);
    InOrderKeeps(a.subs, b.subs);
    WiredDeps(a);
    WaitsMore(a.subs, {}, {m});
    WaitsKeeps(a.subs, b.subs, {m});
    ReachableKeeps(a.subs, b.subs, {}, {});
    ClosedKeeps(a, b);
    OpenKeeps(a, b, {}, {m});
  }

  lemma WaitsMore(a: map<string, Subtask>, P: set<string>, P': set<string>)
    requires Waits(a, P) && P <= P'
    ensures Waits(a, P')
  {}

  /** Failures suspend reachability until their cascades are done. */
  lemma FailuresKeep(a: Board, b: Board, ids: set<string>)
    requires Stable(a) && Lands(a, b, ids, Failed)
    ensures Weak(b, ids, {}, MissionsOf(a.subs, ids))
  {
    hide Wired, Acyclic, InOrder, Waits, Reachable, Closed, Open;
    ShapeKeeps(a, b);
    InOrderKeeps(a.subs, b.subs);
    WiredDeps(a);
    WaitsKeeps(a.subs, b.subs, {});
    ReachableKeeps(a.subs, b.subs, {}, ids);
    ClosedKeeps(a, b);
    OpenKeeps(a, b, {}, MissionsOf(a.subs, ids));
  }

  // ---- propagate ----

  lemma ReadiedStates(subs: map<string, Subtask>, m: string)
    ensures var b := Readied(subs, m);
      && SameShape(subs, b) && FinalStays(subs, b)
      && (forall id :: id in subs ==> (Unblocked(subs, m, id) ==> subs[id].state == Pending && b[id].state == Ready))
      && (forall id :: id in subs ==> (!Unblocked(subs, m, id) ==> b[id] == subs[id]))
  {}

  lemma ReadiedInOrder(a: Board, m: string)
    requires Wired(a) && InOrder(a.subs)
    ensures InOrder(Readied(a.subs, m))
  {
    var b := Readied(a.subs, m);
    ReadiedStates(a.subs, m);
    forall id | id in a.subs && Untouchable(a.subs[id].state) && !Untouchable(b[id].state)
      ensures Done(a.subs, a.subs[id].spec.mission, a.subs[id].spec.deps)
    {
      assert Unblocked(a.subs, m, id);
    }
    hide Readied, Unblocked;
    InOrderKeeps(a.subs, b);
  }

  /** After the propagation what is still PENDING in the mission waits for something. */
  lemma ReadiedWaits(a: Board, m: string, P: set<string>)
    requires Wired(a) && Waits(a.subs, P)
    ensures Waits(Readied(a.subs, m), P - {m})
  {
    var b := Readied(a.subs, m);
    ReadiedStates(a.subs, m);
    hide Readied;
    forall id | id in b && b[id].state == Pending && b[id].spec.mission !in P - {m} ensures Awaits(b, id) {
      assert !Unblocked(a.subs, m, id);
      if b[id].spec.mission == m {
        var d :| d in a.subs[id].spec.deps && !(d in a.subs && a.subs[d].spec.mission == m && a.subs[d].state == Succeeded);
        assert Dep(a.subs, id, d);
        assert Dep(b, id, d) && b[d].state != Succeeded;
      } else {
        assert Awaits(a.subs, id);
        var d :| Dep(a.subs, id, d) && d in a.subs && a.subs[d].state != Succeeded;
        assert Dep(b, id, d) && b[d].state != Succeeded;
      }
    }
  }

  lemma ReadiedKeeps(a: Board, m: string, F: set<string>, P: set<string>, M: set<string>)
    requires Weak(a, F, P, M)
    ensures Weak(a.(subs := Readied(a.subs, m)), F, P - {m}, M)
  {
    var b := a.(subs := Readied(a.subs, m));
    ReadiedInOrder(a, m);
    ReadiedWaits(a, m, P);
    ReadiedStates(a.subs, m);
    hide Wired, Acyclic, InOrder, Waits, Reachable, Closed, Open, Readied, Unblocked;
    ShapeKeeps(a, b);
    ReachableKeeps(a.subs, b.subs, F, F);
    ClosedKeeps(a, b);
    OpenKeeps(a, b, M, M);
  }

  // ---- cancelUnreachable ----

  lemma CulledStates(subs: map<string, Subtask>, m: string, source: string)
    ensures var b := Culled(subs, m, source);
      && SameShape(subs, b) && FinalStays(subs, b)
      && (forall id :: id in subs ==> (Doomed(subs, m, source, id) ==>
            subs[id].state == Pending && subs[id].spec.mission == m && b[id].state == Cancelled))
      && (forall id :: id in subs ==> (!Doomed(subs, m, source, id) ==> b[id] == subs[id]))
  {
    forall id | Doomed(subs, m, source, id) ensures id in subs && subs[id].state == Pending && subs[id].spec.mission == m {
      DoomedIsFixpoint(subs, m, source, id);
    }
  }

  /** The source is discharged: whatever is still PENDING does not depend on it, nor on anything that
      was cancelled with it. */
  lemma CulledReachable(a: Board, source: string, F: set<string>)
    requires Wired(a) && Reachable(a.subs, F) && source in a.subs
    ensures Reachable(Culled(a.subs, a.subs[source].spec.mission, source), F - {source})
  {
    var m := a.subs[source].spec.mission;
    var b := Culled(a.subs, m, source);
    hide Culled, Wired;
    forall id, d | Dep(b, id, d) && b[id].state == Pending && d in b && Dead(b[d].state) ensures d in F - {source} {
      CulledPair(a, source, F, id, d);
    }
  }

  lemma CulledPair(a: Board, source: string, F: set<string>, id: string, d: string)
    requires Wired(a) && Reachable(a.subs, F) && source in a.subs
    requires var b := Culled(a.subs, a.subs[source].spec.mission, source);
      Dep(b, id, d) && b[id].state == Pending && d in b && Dead(b[d].state)
    ensures d in F && d != source
  {
    var m := a.subs[source].spec.mission;
    CulledStates(a.subs, m, source);
    hide Culled, Doomed, FinalStays;
    assert Dep(a.subs, id, d) && !Doomed(a.subs, m, source, id);
    if a.subs[id].spec.mission == m {
      SparedIsFree(a.subs, m, source, id, d);
    }
  }

  /** What is PENDING and spared depends neither on the source nor on anything cancelled with it. */
  lemma SparedIsFree(subs: map<string, Subtask>, m: string, source: string, id: string, d: string)
    requires Dep(subs, id, d) && subs[id].spec.mission == m && subs[id].state == Pending && !Doomed(subs, m, source, id)
    ensures d != source && !Doomed(subs, m, source, d)
  {
    hide Doomed;
    DoomedIsFixpoint(subs, m, source, id);
  }

  lemma CulledKeeps(a: Board, source: string, F: set<string>, P: set<string>, M: set<string>)
    requires Weak(a, F, P, M) && source in a.subs
    ensures var m := a.subs[source].spec.mission;
      Weak(a.(subs := Culled(a.subs, m, source)), F - {source}, P, M + {m})
  {
    var m := a.subs[source].spec.mission;
    var b := a.(subs := Culled(a.subs, m, source));
    CulledReachable(a, source, F);
    CulledStates(a.subs, m, source);
    hide Wired, Acyclic, InOrder, Waits, Reachable, Closed, Open, Culled, Doomed;
    ShapeKeeps(a, b);
    InOrderKeeps(a.subs, b.subs);
    WiredDeps(a);
    WaitsKeeps(a.subs, b.subs, P);
    ClosedKeeps(a, b);
    OpenKeeps(a, b, M, M + {m});
  }

  // ---- deriveMissionStatus ----

  /** A status that is not ACTIVE means that there are subtasks and all are finished. */
  lemma FinalStatus(subs: map<string, Subtask>, m: string)
    ensures StatusOf(StatesOf(subs, m)) != Active <==> Finished(subs, m) && StatesOf(subs, m) != {}
  {
    if Finished(subs, m) {
      forall s | s in StatesOf(subs, m) ensures s.Terminal() {
        var id :| id in subs && subs[id].spec.mission == m && subs[id].state == s;
        assert InMission(subs, m, id);
      }
    } else {
      var id :| InMission(subs, m, id) && !subs[id].state.Terminal();
      assert subs[id].state in StatesOf(subs, m);
    }
  }

  lemma DeriveKeeps(a: Board, m: string, F: set<string>, P: set<string>, M: set<string>)
    requires Weak(a, F, P, M)
    ensures Weak(Derive(a, m), F, P, M - {m})
  {
    var b := Derive(a, m);
    FinalStatus(a.subs, m);
    hide StatusOf, StatesOf, Acyclic, InOrder, Waits, Reachable, Finished;
    assert b.subs == a.subs && b.missions.Keys == a.missions.Keys;
    assert Closed(b);
    assert Open(b, M - {m}) by {
      forall n, id | n in b.missions && InMission(b.subs, n, id) && n !in M - {m} && b.missions[n].status == Active
        ensures !Finished(b.subs, n)
      {
        if n == m {
          MissionStates(a.subs, m, id);
        }
      }
    }
  }

  lemma MissionStates(subs: map<string, Subtask>, m: string, id: string)
    requires InMission(subs, m, id)
    ensures StatesOf(subs, m) != {}
  {
    assert subs[id].state in StatesOf(subs, m);
  }

  // ---- the composed steps ----

  lemma PropagateKeeps(a: Board, m: string, F: set<string>, P: set<string>, M: set<string>)
    requires Weak(a, F, P, M)
    ensures Weak(Propagate(a, m), F, P - {m}, M - {m})
  {
    hide Weak, Readied, Derive;
    ReadiedKeeps(a, m, F, P, M);
    DeriveKeeps(a.(subs := Readied(a.subs, m)), m, F, P - {m}, M);
  }

  lemma CascadeKeeps(a: Board, source: string, F: set<string>, P: set<string>, M: set<string>)
    requires Weak(a, F, P, M) && source in a.subs
    ensures Weak(Cascade(a, source), F - {source}, P, M - {a.subs[source].spec.mission})
  {
    hide Weak, Culled, Derive;
    var m := a.subs[source].spec.mission;
    CulledKeeps(a, source, F, P, M);
    DeriveKeeps(a.(subs := Culled(a.subs, m, source)), m, F - {source}, P, M + {m});
    assert M + {m} - {m} == M - {m};
  }

  lemma CascadeShape(a: Board, source: string)
    ensures SameShape(a.subs, Cascade(a, source).subs)
  {
    if source in a.subs {
      CulledStates(a.subs, a.subs[source].spec.mission, source);
    }
  }

  lemma {:induction false} CascadeAllKeeps(a: Board, sources: seq<string>, F: set<string>, M: set<string>)
    requires Weak(a, F, {}, M) && forall i :: 0 <= i < |sources| ==> sources[i] in a.subs
    ensures SameShape(a.subs, CascadeAll(a, sources).subs)
    ensures Weak(CascadeAll(a, sources), F - Elements(sources), {}, M - MissionsOf(a.subs, Elements(sources)))
  {
    hide Weak, Cascade;
    if sources == [] {
      assert F - Elements(sources) == F && M - MissionsOf(a.subs, Elements(sources)) == M;
    } else {
      var init, last := sources[..|sources| - 1], sources[|sources| - 1];
      CascadeAllKeeps(a, init, F, M);
      var b := CascadeAll(a, init);
      CascadeShape(b, last);
      var before, all := Elements(init), Elements(sources);
      assert all == before + {last} by {
        assert sources == init + [last];
      }
      CascadeKeeps(b, last, F - before, {}, M - MissionsOf(a.subs, before));
      assert F - before - {last} == F - all;
      assert MissionsOf(a.subs, all) == MissionsOf(a.subs, before) + {a.subs[last].spec.mission};
      assert M - MissionsOf(a.subs, before) - {a.subs[last].spec.mission} == M - MissionsOf(a.subs, all);
    }
  }

  /** Completion and propagation in one step. */
  lemma CompletionKeeps(a: Board, b: Board, id: string)
    requires Stable(a) && Lands(a, b, {id}, Succeeded) && id in a.subs
    ensures Stable(Propagate(b, a.subs[id].spec.mission))
  {
    hide Weak, Propagate;
    var m := a.subs[id].spec.mission;
    SuccessKeeps(a, b, id);
    PropagateKeeps(b, m, {}, {m}, {m});
    assert {m} - {m} == {};
  }

  /** Failures followed by the cascade of each of them. */
  lemma FailureKeeps(a: Board, b: Board, sources: seq<string>)
    requires Stable(a) && Lands(a, b, Elements(sources), Failed)
    requires forall i :: 0 <= i < |sources| ==> sources[i] in a.subs
    ensures Stable(CascadeAll(b, sources))
  {
    hide Weak, CascadeAll;
    var ids := Elements(sources);
    FailuresKeep(a, b, ids);
    assert MissionsOf(b.subs, ids) == MissionsOf(a.subs, ids);
    CascadeAllKeeps(b, sources, ids, MissionsOf(a.subs, ids));
    assert ids - ids == {} && MissionsOf(a.subs, ids) - MissionsOf(a.subs, ids) == {};
  }
}
