/** internal/core/service.go, hitl.go and trigger.go: the service's loops over the store, proved to take
    exactly the steps of Orchestrator. */
module ServiceLayer {
  import opened Basics
  import opened StateMachine
  import opened Records
  import opened StoreSpec
  import opened Invariants
  import opened StoreOps
  import opened StoreRuns
  import opened ReadyQueue
  import opened MemoryStore
  import opened Flow
  import opened FlowKeeps
  import opened FlowChanges
  import opened Orchestrator
  import opened ServiceRuns
  import opened Permissions
  import opened Dag
  import opened Plans
  import opened Delegation
  import opened CallFrames
  import opened Intents
  import opened Triggers
  import Conditions
  import ConditionWakes
  import opened ConditionSweeps
  import Charges
  import Outcomes

  /** `base` after the listed subtasks have each made one move to the state `to`. */
  ghost function PartMoved(base: map<string, Subtask>, moved: set<string>, to: State): map<string, Subtask> {
    map id | id in base :: if id in moved then Moving(base[id], to) else base[id]
  }

  lemma NothingMoved(base: map<string, Subtask>, to: State)
    ensures PartMoved(base, {}, to) == base
  {}

  lemma OneMoved(base: map<string, Subtask>, moved: set<string>, to: State, id: string)
    requires id in base && id !in moved
    ensures id in PartMoved(base, moved, to) && PartMoved(base, moved, to)[id] == base[id]
    ensures PartMoved(base, moved + {id}, to) == PartMoved(base, moved, to)[id := Moving(base[id], to)]
  {}

  lemma AllReadied(base: map<string, Subtask>, m: string, moved: set<string>)
    requires forall id :: id in moved <==> Unblocked(base, m, id)
    ensures PartMoved(base, moved, Ready) == Readied(base, m)
    ensures Readied(base, m) == base ==> moved == {}
  {
    if id :| id in moved {
      assert Readied(base, m)[id] != base[id];
    }
  }

  lemma AllActivated(base: map<string, Subtask>, m: string, moved: set<string>)
    requires forall id :: id in moved <==> IdleRoot(base, m, id)
    ensures PartMoved(base, moved, Ready) == Activated(base, m)
  {}

  lemma AllRoots(base: map<string, Subtask>, moved: set<string>)
    requires forall id :: id in moved <==> LostRoot(base, id)
    ensures PartMoved(base, moved, Ready) == RootsReadied(base)
    ensures RootsReadied(base) == base ==> moved == {}
  {
    if id :| id in moved {
      assert RootsReadied(base)[id] != base[id];
    }
  }

  lemma AllCulled(base: map<string, Subtask>, m: string, source: string, culled: set<string>)
    requires forall id :: id in culled <==> Doomed(base, m, source, id)
    ensures PartMoved(base, culled, Cancelled) == Culled(base, m, source)
  {}

  /** Exactly the subtasks in `moved` have made one move to `to`, by one event each. */
  ghost predicate Progress(db: DB, d: DB, moved: set<string>, to: State) {
    && Advanced(db, d) && moved <= db.subtasks.Keys
    && d.subtasks == PartMoved(db.subtasks, moved, to) && d.eventSeq == db.eventSeq + |moved|
  }

  lemma ProgressStarts(db: DB, to: State)
    requires Inv(db)
    ensures Progress(db, db, {}, to)
  {
    hide Inv, Advanced;
    AdvancedRefl(db);
    NothingMoved(db.subtasks, to);
  }

  /** Without a move nothing at all has changed. */
  lemma NoProgress(db: DB, d: DB, to: State)
    requires Progress(db, d, {}, to) && Inv(db)
    ensures d == db
  {
    hide PartMoved, Inv;
    NothingMoved(db.subtasks, to);
    Sequences(db);
    Sequences(d);
    assert d.events == db.events;
  }

  /** The loops change subtasks and the log only. */
  ghost predicate Advanced(a: DB, b: DB) { Sound(a, b) && Reaches(a, b) && OnlyFlow(a, b) && b.missions == a.missions }

  lemma AdvancedRefl(a: DB)
    requires Inv(a)
    ensures Advanced(a, a)
  {
    ReachesItself(a);
    Unchanged(a);
  }

  lemma AdvancedThen(a: DB, b: DB, c: DB)
    requires Advanced(a, b) && Advanced(b, c)
    ensures Advanced(a, c)
  {
    hide Inv, Grows, Reaches;
    SoundThen(a, b, c);
    ReachesThen(a, b, c);
  }

  lemma TransitionAdvances(db: DB, sub: Subtask, ev: EventType, actor: Actor, extra: Json0, now: int)
    requires Inv(db) && sub.id in db.subtasks && db.subtasks[sub.id] == sub
    requires ServiceEvent(ev) && Apply(sub.state, ev).Some?
    ensures var r := Transition(db, sub.id, ev, sub.version, actor, extra, now, NoMutation);
      && r.1.Ok? && Advanced(db, r.0) && r.0.eventSeq == db.eventSeq + 1
      && r.0.subtasks == db.subtasks[sub.id := Moving(sub, Apply(sub.state, ev).value)]
  {
    hide Inv, Grows, Apply, ServiceEvent, Reaches;
    TransitionKeeps(db, sub.id, ev, sub.version, actor, extra, now, NoMutation);
    TransitionReaches(db, sub.id, ev, sub.version, actor, extra, now, NoMutation);
  }

  class Service {
    const st: Store

    constructor (st: Store)
      ensures this.st == st
    {
      this.st := st;
    }

    /** One legal move of a listed record whose version is still current. */
    method Shift(sub: Subtask, ev: EventType, actor: Actor, extra: Json0, now: int)
      requires Inv(st.Db()) && sub.id in st.subtasks && st.subtasks[sub.id] == sub
      requires ServiceEvent(ev) && Apply(sub.state, ev).Some?
      modifies st
      ensures Advanced(old(st.Db()), st.Db()) && st.eventSeq == old(st.eventSeq) + 1
      ensures st.subtasks == old(st.subtasks)[sub.id := Moving(sub, Apply(sub.state, ev).value)]
    {
      hide Inv, Apply, Transition, Advanced, ServiceEvent;
      TransitionAdvances(st.Db(), sub, ev, actor, extra, now);
      var r := st.TransitionSubtask(sub.id, ev, sub.version, actor, extra, now, NoMutation);
    }

    // ---- propagate ----

    method DepsSucceeded(byId: map<string, Subtask>, deps: seq<string>) returns (ready: bool)
      ensures ready <==> forall d :: d in deps ==> d in byId && byId[d].state == Succeeded
    {
      ready := true;
      for i := 0 to |deps|
        invariant forall j :: 0 <= j < i ==> deps[j] in byId && byId[deps[j]].state == Succeeded
      {
        if deps[i] !in byId || byId[deps[i]].state != Succeeded {
          assert deps[i] in deps;
          return false;
        }
      }
    }

    method IndexById(subs: seq<Subtask>, ghost base: map<string, Subtask>, ghost m: string)
      returns (byId: map<string, Subtask>)
      requires Listing(subs, base, m)
      ensures forall id :: id in byId <==> InMission(base, m, id)
      ensures forall id :: id in byId ==> id in base && byId[id] == base[id]
    {
      byId := map[];
      for i := 0 to |subs|
        invariant forall id :: id in byId ==> InMission(base, m, id) && byId[id] == base[id]
        invariant forall j :: 0 <= j < i ==> subs[j].id in byId
      {
        byId := byId[subs[i].id := subs[i]];
      }
      forall id | InMission(base, m, id) ensures id in byId {
        assert Names(subs, id);
      }
    }

    /** A listed record that has not moved since the listing makes its move. */
    method Step(sub: Subtask, ev: EventType, actor: Actor, extra: Json0, now: int, ghost db: DB,
                ghost moved: set<string>,
                ghost to: State)
      requires Progress(db, st.Db(), moved, to) && sub.id in db.subtasks && db.subtasks[sub.id] == sub
      requires sub.id !in moved
      requires ServiceEvent(ev) && Apply(sub.state, ev) == Some(to)
      modifies st
      ensures Progress(db, st.Db(), moved + {sub.id}, to)
    {
      hide Inv, Apply, Advanced, PartMoved;
      ghost var before := st.Db();
      OneMoved(db.subtasks, moved, to, sub.id);
      AdvancedInv(db, before);
      Shift(sub, ev, actor, extra, now);
      AdvancedThen(db, before, st.Db());
    }

    /** The loop of propagate: what becomes ready is decided on the listing taken at the start. */
    method ReadyDownstream(m: string, now: int)
      requires Inv(st.Db())
      modifies st
      ensures Advanced(old(st.Db()), st.Db()) && st.subtasks == Readied(old(st.subtasks), m)
      ensures Readied(old(st.subtasks), m) == old(st.subtasks) ==> st.Db() == old(st.Db())
    {
      hide Inv, Apply, Progress, Readied, Advanced, PartMoved;
      ghost var db := st.Db();
      InvOwnKeys(db);
      var subs := st.ListSubtasks(m);
      var byId := IndexById(subs, db.subtasks, m);
      ghost var moved: set<string> := {};
      ProgressStarts(db, Ready);
      for i := 0 to |subs|
        invariant Progress(db, st.Db(), moved, Ready)
        invariant forall id :: id in moved <==> id in IdsOf(subs[..i]) && Unblocked(db.subtasks, m, id)
      {
        var sub := subs[i];
        FreshId(subs, i);
        if sub.state == Pending {
          var ready := DepsSucceeded(byId, sub.spec.deps);
          assert ready <==> Unblocked(db.subtasks, m, sub.id);
          if ready {
            CompletionEvent(Pending);
            Step(sub, EvDepsSatisfied, Orchestrating, map[], now, db, moved, Ready);
            moved := moved + {sub.id};
          }
        }
      }
      AllIds(subs, db.subtasks, m);
      AllReadied(db.subtasks, m, moved);
      ProgressParts(db, st.Db(), moved, Ready);
    }

    /** activateMissionRoots. A version conflict, possible only under concurrent writers, is skipped. */
    method ActivateMissionRoots(m: string, actor: Actor, now: int)
      requires Inv(st.Db())
      modifies st
      ensures Advanced(old(st.Db()), st.Db()) && st.subtasks == Activated(old(st.subtasks), m)
    {
      hide Inv, Apply, Progress, Activated, Advanced, PartMoved;
      ghost var db := st.Db();
      InvOwnKeys(db);
      var subs := st.ListSubtasks(m);
      ghost var moved: set<string> := {};
      ProgressStarts(db, Ready);
      for i := 0 to |subs|
        invariant Progress(db, st.Db(), moved, Ready)
        invariant forall id :: id in moved <==> id in IdsOf(subs[..i]) && IdleRoot(db.subtasks, m, id)
      {
        var sub := subs[i];
        FreshId(subs, i);
        if sub.state == Pending && |sub.spec.deps| == 0 {
          CompletionEvent(Pending);
          Step(sub, EvDepsSatisfied, actor, map[], now, db, moved, Ready);
          moved := moved + {sub.id};
        }
      }
      AllIds(subs, db.subtasks, m);
      AllActivated(db.subtasks, m, moved);
      ProgressParts(db, st.Db(), moved, Ready);
    }

    method ReconcilePendingRoots(now: int)
      requires Inv(st.Db())
      modifies st
      ensures Advanced(old(st.Db()), st.Db()) && Settles(old(st.Db()), st.Db(), RootsBoard(old(st.Db())))
    {
      hide Inv, Apply, Progress, RootsReadied, Sound, PartMoved, Reaches;
      ghost var db := st.Db();
      InvOwnKeys(db);
      var subs := st.ListSubtasksByState(Pending);
      ghost var moved: set<string> := {};
      ProgressStarts(db, Ready);
      for i := 0 to |subs|
        invariant Progress(db, st.Db(), moved, Ready)
        invariant forall id :: id in moved <==> id in IdsOf(subs[..i]) && LostRoot(db.subtasks, id)
      {
        var sub := subs[i];
        FreshId(subs, i);
        if |sub.spec.deps| == 0 {
          CompletionEvent(Pending);
          Step(sub, EvDepsSatisfied, System("reconciler"), map[], now, db, moved, Ready);
          moved := moved + {sub.id};
        }
      }
      AllIdsBy(subs, db.subtasks, Pending);
      AllRoots(db.subtasks, moved);
      ProgressParts(db, st.Db(), moved, Ready);
    }

    /** One propagation for each SUCCEEDED subtask; `ms` are their missions in listing order. When every
        such propagation is idle, nothing at all is written. */
    method ReconcileSucceeded(now: int) returns (ghost ms: seq<string>)
      requires Inv(st.Db())
      modifies st
      ensures Elements(ms) == Successful(old(st.subtasks))
      ensures Becomes(old(st.Db()), st.Db(), PropagateAll(BoardOf(old(st.Db())), ms))
      ensures (forall m :: m in Successful(old(st.subtasks)) ==>
                 Flow.Propagate(BoardOf(old(st.Db())), m) == BoardOf(old(st.Db()))) ==> st.Db() == old(st.Db())
    {
      hide Inv, Flow.Propagate, Becomes, Successful, Sound, PropagateAll, BoardOf, OwnKeys;
      ghost var db := st.Db();
      ms := [];
      PropagatedMore(BoardOf(db), [], "");
      InvOwnKeys(db);
      var subs := st.ListSubtasksByState(Succeeded);
      ghost var idle := forall m :: m in Successful(db.subtasks) ==> Flow.Propagate(BoardOf(db), m) == BoardOf(db);
      BecomesSame(db);
      for i := 0 to |subs|
        invariant |ms| == i && forall k :: 0 <= k < i ==> ms[k] == subs[k].spec.mission
        invariant Becomes(db, st.Db(), PropagateAll(BoardOf(db), ms))
        invariant idle ==> st.Db() == db
      {
        ghost var before := st.Db();
        BecomesInv(db, before, PropagateAll(BoardOf(db), ms));
        SuccessMission(db.subtasks, subs[i]);
        Propagate(subs[i].spec.mission, now);
        ghost var prior := ms;
        ms := ms + [subs[i].spec.mission];
        PropagatedMore(BoardOf(db), prior, subs[i].spec.mission);
        BecomesThen(db, before, st.Db(), PropagateAll(BoardOf(db), prior), PropagateAll(BoardOf(db), ms));
      }
      SuccessfulListed(db.subtasks, subs, ms);
    }

    /** The status that the mission's subtasks imply. */
    method StatusFromSubtasks(m: string) returns (status: MissionStatus)
      requires OwnKeys(st.subtasks)
      ensures status == StatusOf(StatesOf(st.subtasks, m))
    {
      hide StatesOf, StatusOf;
      var subs := st.ListSubtasks(m);
      var states := [];
      for i := 0 to |subs|
        invariant |states| == i && forall j :: 0 <= j < i ==> states[j] == subs[j].state
      {
        states := states + [subs[i].state];
      }
      ListedStates(subs, st.subtasks, m, states);
      status := MissionStatusOf(states);
    }

    /** deriveMissionStatus: an error exactly for finished subtasks of a mission that is not stored, which the
        store invariant rules out (FinishedIsStored). */
    method DeriveMissionStatus(m: string, now: int) returns (e: Option<Error>)
      requires Inv(st.Db())
      modifies st
      ensures Settles(old(st.Db()), st.Db(), Derive(BoardOf(old(st.Db())), m))
      ensures e == if m in old(st.missions) || StatusOf(StatesOf(old(st.subtasks), m)) == Active then None
                   else Some(NotFound)
    {
      hide Inv, StatesOf, StatusOf, Reaches, StoreSpec.SetMissionStatus;
      ghost var db := st.Db();
      InvOwnKeys(db);
      ReachesItself(db);
      var status := StatusFromSubtasks(m);
      if status == Active {
        return None;
      }
      if m !in st.missions {
        return Some(NotFound);
      }
      var mission := st.missions[m];
      if mission.status != Active {
        return None;
      }
      SetStatusBoard(db, m, status, Orchestrating, now);
      StepReaches(db, Call(OpSetStatus(m, status, mission.version), Orchestrating, now));
      var r := st.SetMissionStatus(m, status, mission.version, Orchestrating, now);
      e := match r
        case Ok(_) => None
        case Err(x) => if x == Conflict then None else Some(x);
    }

    method Propagate(m: string, now: int)
      requires Inv(st.Db())
      modifies st
      ensures Settles(old(st.Db()), st.Db(), Flow.Propagate(BoardOf(old(st.Db())), m))
    {
      hide Inv, Readied, Derive, Sound, Reaches, OnlyFlow;
      ghost var db := st.Db();
      IdleParts(BoardOf(db), m);
      ReadyDownstream(m, now);
      ghost var mid := st.Db();
      AdvancedInv(db, mid);
      FinishedIsStored(mid, m);
      var e := DeriveMissionStatus(m, now);
      assert e.None?;
      ThenBecomes(db, mid, st.Db(), Derive(BoardOf(mid), m));
    }

    // ---- cancelUnreachable ----

    /** Does the record depend on something dead? */
    method DependsOnDead(sub: Subtask, dead: set<string>) returns (hit: bool)
      ensures hit <==> exists d :: d in sub.spec.deps && d in dead
    {
      hit := false;
      for i := 0 to |sub.spec.deps|
        invariant forall j :: 0 <= j < i ==> sub.spec.deps[j] !in dead
      {
        if sub.spec.deps[i] in dead {
          assert sub.spec.deps[i] in sub.spec.deps;
          return true;
        }
      }
    }

    /** One record of a pass: cancelled when a dependency is dead, otherwise spared. */
    method CullOne(sub: Subtask, before: set<string>, source: string, m: string, actor: Actor, now: int,
                   ghost db: DB, ghost culled: set<string>)
      returns (dead: set<string>, ghost all: set<string>, hit: bool)
      requires Culling(db, st.Db(), source, m, culled, before)
      requires InMission(db.subtasks, m, sub.id) && db.subtasks[sub.id] == sub
      modifies st
      ensures Culling(db, st.Db(), source, m, all, dead)
      ensures if hit then culled < all else all == culled && dead == before && Spared(sub, before)
    {
      hide Inv, Apply, Progress, Doomed;
      dead, all, hit := before, culled, false;
      if sub.state != Pending || sub.id in before {
        return;
      }
      hit := DependsOnDead(sub, before);
      if hit {
        HitIsDoomed(db.subtasks, m, source, culled, sub);
        CompletionEvent(Pending);
        Step(sub, EvCancelled, actor, map["reason" := JStr("upstream failed: " + source)], now, db, culled, Cancelled);
        dead, all := before + {sub.id}, culled + {sub.id};
      }
    }

    /** One pass over the listing. */
    method CullPass(subs: seq<Subtask>, before: set<string>, source: string, m: string, actor: Actor, now: int,
                    ghost db: DB, ghost culled: set<string>)
      returns (dead: set<string>, ghost all: set<string>, changed: bool)
      requires Culling(db, st.Db(), source, m, culled, before) && Listing(subs, db.subtasks, m)
      modifies st
      ensures Culling(db, st.Db(), source, m, all, dead)
      ensures if changed then culled < all
              else all == culled && dead == before && forall j :: 0 <= j < |subs| ==> Spared(subs[j], before)
    {
      hide Culling, Spared;
      dead, all, changed := before, culled, false;
      for i := 0 to |subs|
        invariant Culling(db, st.Db(), source, m, all, dead)
        invariant if changed then culled < all
                  else all == culled && dead == before && forall j :: 0 <= j < i ==> Spared(subs[j], before)
      {
        var hit;
        dead, all, hit := CullOne(subs[i], dead, source, m, actor, now, db, all);
        changed := changed || hit;
      }
    }

    /** The loop computes the least fixpoint: the doomed subtasks and nothing else are cancelled, each
        by one event. */
    method CancelUnreachable(failed: Subtask, actor: Actor, now: int)
      requires Inv(st.Db()) && failed.id in st.subtasks && st.subtasks[failed.id].state != Pending
      modifies st
      ensures Advanced(old(st.Db()), st.Db())
      ensures st.subtasks == Culled(old(st.subtasks), failed.spec.mission, failed.id)
      ensures st.eventSeq == old(st.eventSeq)
                + |set id | id in old(st.subtasks) && Doomed(old(st.subtasks), failed.spec.mission, failed.id, id)|
    {
      hide Inv, Culling, Spared, Listing, Culled, Advanced, Doomed;
      ghost var db := st.Db();
      var m := failed.spec.mission;
      InvOwnKeys(db);
      var subs := st.ListSubtasks(m);
      var dead := {failed.id};
      ghost var culled: set<string> := {};
      CullingStarts(db, failed.id, m);
      var changed := true;
      while changed
        invariant Culling(db, st.Db(), failed.id, m, culled, dead)
        invariant !changed ==> forall j :: 0 <= j < |subs| ==> Spared(subs[j], dead)
        decreases |db.subtasks.Keys - culled|, changed
      {
        ghost var all;
        dead, all, changed := CullPass(subs, dead, failed.id, m, actor, now, db, culled);
        CullingWithin(db, st.Db(), failed.id, m, all, dead);
        SmallerRest(db.subtasks.Keys, culled, all);
        culled := all;
      }
      CullingEnds(db, st.Db(), failed.id, m, culled, dead, subs);
    }

    /** cancelUnreachable, then deriveMissionStatus: what follows every final failure. */
    method CascadeFrom(failed: Subtask, actor: Actor, now: int)
      requires Inv(st.Db()) && failed.id in st.subtasks && st.subtasks[failed.id].spec == failed.spec
      requires st.subtasks[failed.id].state != Pending
      modifies st
      ensures Becomes(old(st.Db()), st.Db(), Cascade(BoardOf(old(st.Db())), failed.id))
    {
      hide Inv, Culled, Derive, Sound, Reaches, OnlyFlow;
      ghost var db := st.Db();
      CancelUnreachable(failed, actor, now);
      ghost var mid := st.Db();
      AdvancedInv(db, mid);
      FinishedIsStored(mid, failed.spec.mission);
      var e := DeriveMissionStatus(failed.spec.mission, now);
      assert e.None?;
      ThenBecomes(db, mid, st.Db(), Derive(BoardOf(mid), failed.spec.mission));
    }

    // ---- the service calls ----

    /** authorizeSubtaskLeaseOwner: the caller holds the lease the subtask names. */
    method AuthorizeOwner(id: string, token: int, agent: string, active: bool) returns (e: Option<Error>)
      ensures e.None? <==> Owns(st.Db(), id, token, agent, active)
      ensures id !in st.subtasks ==> e == Some(NotFound)
      ensures e == Some(Forbidden) ==> id in st.subtasks && var l := st.subtasks[id].lease;
        agent == "" || (l in st.leases && (st.leases[l].agent != agent || st.leases[l].subtask != id))
      ensures e == Some(Fenced) ==> id in st.subtasks && var l := st.subtasks[id].lease;
        l == "" || (l in st.leases && (st.leases[l].token != token || st.leases[l].state != LActive))
    {
      if id !in st.subtasks {
        return Some(NotFound);
      }
      var l := st.subtasks[id].lease;
      if l == "" {
        return Some(Fenced);
      }
      if agent == "" {
        return Some(Forbidden);
      }
      if l !in st.leases {
        return Some(NotFound);
      }
      if st.leases[l].agent != agent || st.leases[l].subtask != id {
        return Some(Forbidden);
      }
      if st.leases[l].token != token || (active && st.leases[l].state != LActive) {
        return Some(Fenced);
      }
      e := None;
    }

    method CompleteSubtask(id: string, token: int, key: string, ref: string, usage: int, expected: int, agent: string,
                           now: int) returns (r: Result<Subtask>)
      requires Inv(st.Db())
      modifies st
      ensures if usage >= 0 && Owns(old(st.Db()), id, token, agent, false)
              then CompleteStep(old(st.Db()), id, token, key, ref, usage, expected, Actor("agent", agent), now, st.Db())
              else st.Db() == old(st.Db()) && r.Err?
      ensures r.Ok? <==> usage >= 0 && AtWorkFor(old(st.Db()), id, token, expected, agent) && key !in old(st.idem)
                         && Charges.Affordable(old(st.Db()), id, usage)
      ensures r.Duplicate? <==> usage >= 0 && Owns(old(st.Db()), id, token, agent, false) && key in old(st.idem)
      ensures CompletionReply(old(st.Db()), st.Db(), id, key, ref, r)
    {
      hide Inv, Flow.Propagate, Becomes, StoreSpec.CompleteSubtask, Owns, AtWorkFor, Charges.Affordable, CompletionReply;
      ghost var db := st.Db();
      CompletionAnswers(db, id, token, key, ref, usage, expected, agent, now);
      RefusalReply(db, id, key, ref);
      if usage < 0 {
        return Err(Invalid);
      }
      var e := AuthorizeOwner(id, token, agent, false);
      if e.Some? {
        return Err(e.value);
      }
      var actor := Actor("agent", agent);
      CompleteSubtaskKeeps(db, id, token, key, ref, usage, expected, actor, now);
      CompleteRejected(db, id, token, key, ref, usage, expected, actor, now);
      r := st.CompleteSubtask(id, token, key, ref, usage, expected, actor, now);
      SoundInv(db, st.Db());
      if r.Duplicate? && r.value.state == Succeeded {
        Propagate(r.value.spec.mission, now);
        CompletionReplied(db, id, token, key, ref, usage, expected, actor, now, st.Db());
        return;
      }
      if !r.Ok? {
        CompletionReplied(db, id, token, key, ref, usage, expected, actor, now, st.Db());
        return;
      }
      Propagate(r.value.spec.mission, now);
      CompletionReplied(db, id, token, key, ref, usage, expected, actor, now, st.Db());
    }

    /** A failure is retried, or final and cascaded. */
    method FailSubtask(id: string, token: int, reason: string, expected: int, agent: string, now: int)
      returns (r: Result<Subtask>)
      requires Inv(st.Db())
      modifies st
      ensures if Owns(old(st.Db()), id, token, agent, true)
              then FailStep(old(st.Db()), id, token, reason, expected, Actor("agent", agent), now, st.Db())
              else st.Db() == old(st.Db()) && r.Err?
      ensures r.Ok? <==> AtWorkFor(old(st.Db()), id, token, expected, agent)
      ensures FailureReply(old(st.Db()), st.Db(), id, r)
    {
      hide Inv, Cascade, Becomes, StoreSpec.FailSubtask, Transition, Owns, AtWorkFor, FailStep, FailureReply;
      ghost var before := st.Db();
      FailureAnswers(before, id, token, reason, expected, agent, now);
      RefusalReply(before, id, "", "");
      var e := AuthorizeOwner(id, token, agent, true);
      if e.Some? {
        return Err(e.value);
      }
      var actor := Actor("agent", agent);
      ghost var db := st.Db();
      FailSubtaskKeeps(db, id, token, reason, expected, actor, now);
      FailRejected(db, id, token, reason, expected, actor, now);
      r := st.FailSubtask(id, token, reason, expected, actor, now);
      if !r.Ok? {
        FailureRefused(db, id, token, reason, expected, actor, now);
        return;
      }
      SoundInv(db, st.Db());
      FailMoves(db, id, token, reason, expected, actor, now);
      var failed := r.value;
      if failed.attempt < failed.spec.maxAttempts {
        RetryAnswers(st.Db(), id, reason, now);
        r := st.TransitionSubtask(id, EvRetried, failed.version, Orchestrating, map["reason" := JStr(reason)], now,
                                  RetryMutation);
        FailureRetried(db, id, token, reason, expected, actor, now, st.Db());
        return;
      }
      CascadeFrom(failed, actor, now);
      FailureFinal(db, id, token, reason, expected, actor, now, st.Db());
    }

    /** applyDecisionOutcome for a decision that is already resolved. */
    method ApplyDecisionOutcome(decision: string, now: int) returns (e: Option<Error>)
      requires Inv(st.Db()) && decision in st.decisions && st.decisions[decision].status == DResolved
      modifies st
      ensures OutcomeStep(old(st.Db()), decision, now, st.Db())
      ensures e == if InMission(old(st.subtasks), old(st.decisions)[decision].mission, old(st.decisions)[decision].subtask)
                   then None else Some(NotFound)
    {
      hide Inv, RejectStep, ApproveStep;
      var dec := st.decisions[decision];
      InvOwnKeys(st.Db());
      var subs := st.ListSubtasks(dec.mission);
      var found := FindById(subs, st.subtasks, dec.mission, dec.subtask);
      if found.None? {
        return Some(NotFound);
      }
      e := None;
      if found.value.state != Blocked {
        return;
      }
      if dec.choice == REJECT {
        Reject(dec, found.value, now);
      } else {
        Approve(dec, found.value, now);
      }
    }

    method FindById(subs: seq<Subtask>, ghost base: map<string, Subtask>, ghost m: string, id: string)
      returns (found: Option<Subtask>)
      requires Listing(subs, base, m)
      ensures found == if InMission(base, m, id) then Some(base[id]) else None
    {
      for i := 0 to |subs|
        invariant forall j :: 0 <= j < i ==> subs[j].id != id
      {
        if subs[i].id == id {
          return Some(subs[i]);
        }
      }
      assert InMission(base, m, id) ==> Names(subs, id);
      found := None;
    }

    method Reject(dec: Decision, sub: Subtask, now: int)
      requires Inv(st.Db()) && Awaiting(st.Db(), dec) && st.subtasks[dec.subtask] == sub
      modifies st
      ensures RejectStep(old(st.Db()), dec, sub.version, now, st.Db())
    {
      hide Inv, Transition, Cascade, Becomes, Apply;
      var actor := Actor("human", dec.decider);
      ghost var db := st.Db();
      CompletionEvent(Blocked);
      TransitionKeeps(db, dec.subtask, EvDecisionRejected, sub.version, actor, OutcomePayload(dec), now, NoMutation);
      TransitionOk(db, dec.subtask, EvDecisionRejected, sub.version, actor, OutcomePayload(dec), now, NoMutation);
      TransitionMoves(db, dec.subtask, EvDecisionRejected, sub.version, actor, OutcomePayload(dec), now, NoMutation);
      var r := st.TransitionSubtask(dec.subtask, EvDecisionRejected, sub.version, actor, OutcomePayload(dec), now, NoMutation);
      SoundInv(db, st.Db());
      CascadeFrom(st.subtasks[dec.subtask], actor, now);
    }

    method Approve(dec: Decision, sub: Subtask, now: int)
      requires Inv(st.Db()) && Awaiting(st.Db(), dec) && st.subtasks[dec.subtask] == sub
      modifies st
      ensures ApproveStep(old(st.Db()), dec, sub.version, sub.spec.kind.Human(), now, st.Db())
    {
      hide Inv, Transition, HumanStep, Apply;
      var actor := Actor("human", dec.decider);
      ghost var db := st.Db();
      CompletionEvent(Blocked);
      TransitionKeeps(db, dec.subtask, EvDecisionApproved, sub.version, actor, OutcomePayload(dec), now, NoMutation);
      TransitionOk(db, dec.subtask, EvDecisionApproved, sub.version, actor, OutcomePayload(dec), now, NoMutation);
      TransitionMoves(db, dec.subtask, EvDecisionApproved, sub.version, actor, OutcomePayload(dec), now, NoMutation);
      var r := st.TransitionSubtask(dec.subtask, EvDecisionApproved, sub.version, actor, OutcomePayload(dec), now, NoMutation);
      SoundInv(db, st.Db());
      if sub.spec.kind.Human() {
        CompleteHuman(dec, sub.version + 1, now);
      }
    }

    method CompleteHuman(dec: Decision, version: int, now: int)
      requires Inv(st.Db())
      modifies st
      ensures HumanStep(old(st.Db()), dec, version, now, st.Db())
    {
      hide Inv, Transition, Flow.Propagate, Becomes, Apply;
      ghost var db := st.Db();
      var actor := Actor("human", dec.decider);
      var extra, mut := map["via" := JStr("human_decision")], ResultMutation("decision://" + dec.id);
      TransitionKeeps(db, dec.subtask, EvCompleted, version, actor, extra, now, mut);
      var r := st.TransitionSubtask(dec.subtask, EvCompleted, version, actor, extra, now, mut);
      SoundInv(db, st.Db());
      Propagate(dec.mission, now);
    }

    /** The end of sweepWakes: overdue waits fail, and each failure is cascaded in turn. */
    method SweepOverdueWakes(now: int) returns (ghost order: seq<string>, failed: seq<string>)
      requires Inv(st.Db())
      modifies st
      ensures SweepStep(old(st.Db()), order, failed, now, st.Db())
    {
      hide Inv, Becomes, StoreSpec.ExpireWakes, CascadeAll, Cascade, ExpiredWakes, Lists;
      ghost var db := st.Db();
      InvOwnKeys(db);
      failed, order := st.ExpireWakes(now);
      ExpireWakesKeeps(db, order, now);
      ghost var base := st.Db();
      SoundInv(db, base);
      SweptFailed(db, order, failed, now);
      BecomesSame(base);
      CascadeAllGrows(BoardOf(base), failed, 0);
      for i := 0 to |failed|
        invariant Becomes(base, st.Db(), CascadeAll(BoardOf(base), failed[..i]))
      {
        ghost var before := st.Db();
        BecomesInv(base, before, CascadeAll(BoardOf(base), failed[..i]));
        CascadeAllLeaves(BoardOf(base), failed[..i], failed[i]);
        InvOwnKeys(before);
        CascadeFrom(st.subtasks[failed[i]], System("sweeper"), now);
        CascadeAllGrows(BoardOf(base), failed, i);
        BecomesThen(base, before, st.Db(), CascadeAll(BoardOf(base), failed[..i]),
                    CascadeAll(BoardOf(base), failed[..i + 1]));
      }
      assert failed[..|failed|] == failed;
      ListsElements(failed, ExpiredWakes(db, now));
    }

    /** evalEventWakes: every WAITING registration of kind event is scanned page by page, and woken on a
        hit; `subs` are the registrations in listing order. Nobody else moves, whatever pattern it carries. */
    method EvalEventWakes(size: int, now: int) returns (ghost subs: seq<Subtask>)
      requires Inv(st.Db()) && size >= 1
      modifies st
      ensures ListingWaiting(subs, old(st.subtasks), WEvent)
      ensures Sound(old(st.Db()), st.Db()) && st.Db() == WakeAll(old(st.Db()), subs, now)
      ensures TurnsTaken(old(st.Db()), st.Db(), subs, now)
      ensures forall id :: id in old(st.subtasks) && !AwaitsEvent(old(st.subtasks)[id]) ==>
        id in st.subtasks && st.subtasks[id] == old(st.subtasks)[id]
    {
      hide Inv, WakeReady, Hit, Sound, WakeIfHit, WakeAll, TurnsTaken, AwaitsEvent;
      ghost var db := st.Db();
      InvOwnKeys(db);
      var waiting := st.ListWaiting(WEvent);
      subs := waiting;
      WaitersAwait(db.subtasks, waiting);
      WakeAllGrows(db, waiting, 0, now);
      for i := 0 to |waiting|
        invariant st.Db() == WakeAll(db, waiting[..i], now)
      {
        WakePrefix(db, waiting, i, now);
        EvalOneWake(waiting[i], size, now);
        WakeAllGrows(db, waiting, i, now);
      }
      assert waiting[..|waiting|] == waiting;
      NoLostWakeup(db, waiting, now);
      OthersUnmoved(db, st.Db(), waiting, now);
    }

    method EvalOneWake(sub: Subtask, size: int, now: int)
      requires Inv(st.Db()) && size >= 1 && AwaitsEvent(sub)
      modifies st
      ensures st.Db() == WakeIfHit(old(st.Db()), sub, now)
    {
      hide Inv, Hit, StoreSpec.WakeSubtask;
      if sub.wake.value.event.None? {
        return;
      }
      if Overdue(sub, now) {
        return;
      }
      LogTracks(st.Db(), sub.id);
      var hit := PagedScan(st.events, sub.spec.mission, sub.wake.value.event.value, size);
      if hit {
        var r := st.WakeSubtask(sub.id, sub.version, System("trigger"), now);
      }
    }

    /** evalConditionWakes: registrations in scope are woken, by one event each, and none that is overdue. They
        are exactly those whose condition holds, when mission ids hold no slash and keys are not empty. An
        expression that does not compile, which validation keeps out, ends the loop with an error. */
    method EvalConditionWakes(scope: Option<(string, string)>, mean: Meaning, now: int)
      returns (e: Option<Error>, ghost woken: set<string>)
      requires Inv(st.Db())
      modifies st
      ensures SweepState(old(st.Db()), st.Db(), woken) && LookedAt(old(st.Db()), woken, scope, now)
      ensures PlainStore(old(st.Db())) ==> woken <= Fired(old(st.Db()), scope, now, mean)
      ensures PlainStore(old(st.Db())) && e.None? ==> woken == Fired(old(st.Db()), scope, now, mean)
      ensures e.Some? ==> SomeUnevaluable(old(st.Db()), scope, now)
    {
      hide Inv, FiredAmong, Fired, SweepState, Waking, PlainStore, LookedAt, SomeUnevaluable, Evaluated, Unevaluable;
      hide OwnKeys, ListingWaiting, InScope, Fires;
      ghost var db := st.Db();
      InvOwnKeys(db);
      var waiting := st.ListWaiting(WCondition);
      e, woken := None, {};
      WakingStarts(db, waiting, scope, now, mean);
      for i := 0 to |waiting|
        invariant e.None? && Waking(db, st.Db(), waiting, i, woken, scope, now, mean)
      {
        ghost var before := st.Db();
        WakingAt(db, before, waiting, i, woken, scope, now, mean);
        var woke;
        e, woke := EvalOneCondition(waiting[i], scope, mean, now, db, woken);
        if e.Some? {
          return;
        }
        WakingNext(db, before, st.Db(), waiting, i, woken, scope, now, mean, woke);
        woken := woken + (if woke then {waiting[i].id} else {});
      }
      WakingEnds(db, st.Db(), waiting, woken, scope, now, mean);
    }

    method EvalOneCondition(sub: Subtask, scope: Option<(string, string)>, mean: Meaning, now: int, ghost db: DB,
                            ghost woken: set<string>) returns (e: Option<Error>, woke: bool)
      requires SweepState(db, st.Db(), woken) && Inv(db)
      requires sub.id in db.subtasks && db.subtasks[sub.id] == sub && sub.id !in woken && sub.spec.mission in db.missions
      requires WaitsFor(sub, WCondition)
      modifies st
      ensures e.Some? ==> Unevaluable(sub) && st.Db() == old(st.Db())
      ensures e.Some? || woke ==> Evaluated(sub, scope, now)
      ensures PlainStore(db) && e.None? ==> (woke <==> InScope(sub, scope) && Fires(db, sub, now, mean))
      ensures e.None? ==> SweepState(db, st.Db(), woken + (if woke then {sub.id} else {}))
    {
      hide SweepState, ConditionWakes.Holds, ConditionWakes.RefsChanged, PlainStore, Overdue, Inv;
      hide StoreSpec.WakeSubtask;
      e, woke := None, false;
      assert woken + {} == woken;
      if sub.wake.value.condition.None? || Overdue(sub, now) {
        return;
      }
      var c := sub.wake.value.condition.value;
      if scope.Some? {
        var touched := ConditionWakes.ConditionRefsChanged(c, scope.value.1);
        if sub.spec.mission != scope.value.0 || !touched {
          return;
        }
      }
      SweepParts(db, st.Db(), woken);
      InvBoard(db);
      PlainHere(db, sub.spec.mission);
      var m := st.missions[sub.spec.mission];
      var ok := EvalCondition(st, sub.spec.mission, c, mean, mean.env(m, sub, now));
      if ok.None? {
        return Some(Invalid), false;
      }
      if ok.value {
        woke := true;
        RouseStep(db, st.Db(), woken, sub, now);
        var r := st.WakeSubtask(sub.id, sub.version, System("trigger"), now);
      }
    }

    /** BoardPut: the write, then the incremental evaluation, whose error is ignored. */
    method BoardPut(entry: BoardEntry, expected: int, mean: Meaning, now: int)
      returns (r: Result<BoardEntry>, ghost woken: set<string>)
      requires Inv(st.Db())
      modifies st
      ensures entry.ns == "" || entry.key == "" ==> r.Err? && st.Db() == old(st.Db())
      ensures entry.ns != "" && entry.key != "" ==>
        var put := StoreSpec.BoardPut(old(st.Db()), entry, expected);
        && r == put.1
        && if !r.Ok? then st.Db() == put.0
           else
             && SweepState(put.0, st.Db(), woken)
             && AfterWrite(put.0, (entry.mission, ConditionWakes.NameOf(entry.ns, entry.key)), now, mean, woken)
             && (PlainStore(old(st.Db())) && Conditions.NoSlash(entry.mission) ==> PlainStore(put.0))
    {
      hide Inv, Fired, SweepState, SomeUnevaluable, StoreSpec.BoardPut, LookedAt, PlainStore, Conditions.NoSlash;
      woken := {};
      if entry.ns == "" || entry.key == "" {
        r := Err(Invalid);
        return;
      }
      ghost var db := st.Db();
      BoardPutKeeps(db, entry, expected);
      if PlainStore(db) && Conditions.NoSlash(entry.mission) {
        PlainAfterPut(db, entry, expected);
      }
      r := st.BoardPut(entry, expected);
      if !r.Ok? {
        return;
      }
      SoundInv(db, st.Db());
      var ignored;
      ignored, woken := EvalConditionWakes(Some((entry.mission, ConditionWakes.NameOf(entry.ns, entry.key))), mean, now);
    }

    /** Suspend: the watermark of an event registration is the log's length at this moment. */
    method Suspend(id: string, token: int, version: int, agent: string, wake: WakeSpec, checkpoint: string, now: int)
      returns (r: Result<Subtask>)
      requires Inv(st.Db())
      modifies st
      ensures var db := old(st.Db());
        if ValidWake(wake) && Owns(db, id, token, agent, true) && |checkpoint| <= MAX_CHECKPOINT
        then (st.Db(), r) == SuspendSubtask(db, id, token, version, Marked(wake, |db.events|, now), checkpoint,
                                            Actor("agent", agent), now)
        else r.Err? && st.Db() == db
      ensures r.Ok? ==> EndsSomehow(r.value, |old(st.events)|)
    {
      hide SuspendSubtask, Owns, EndsSomehow;
      if !ValidWake(wake) {
        return Err(Invalid);
      }
      var e := AuthorizeOwner(id, token, agent, true);
      if e.Some? {
        return Err(e.value);
      }
      if |checkpoint| > MAX_CHECKPOINT {
        return Err(Invalid);
      }
      Sequences(st.Db());
      hide Inv;
      SuspendAnswers(st.Db(), id, token, version, wake, st.eventSeq, checkpoint, Actor("agent", agent), now);
      r := st.SuspendSubtask(id, token, version, Marked(wake, st.eventSeq, now), checkpoint, Actor("agent", agent), now);
    }

    /** RequestDecision: a running agent asks a person; its lease is kept. `id` is the fresh order id. */
    method RequestDecision(id: string, sub: string, token: int, version: int, agent: string, question: string,
                           options: seq<string>, now: int) returns (r: Result<Decision>)
      requires Inv(st.Db())
      modifies st
      ensures var db := old(st.Db());
        if sub in db.subtasks && db.subtasks[sub].state == Running && Owns(db, sub, token, agent, true)
        then
          var d := RequestOf(id, db.subtasks[sub], question, options);
          var asked := CreateDecisionAndBlock(db, d, version, Some(token), Actor("agent", agent), now);
          st.Db() == asked.0 && (r.Ok? <==> asked.1.Ok?) && (if r.Ok? then r.value == d else r.Err? && st.Db() == db)
        else r.Err? && st.Db() == db
    {
      hide Inv, CreateDecisionAndBlock, Owns;
      if sub !in st.subtasks || st.subtasks[sub].state != Running {
        return Err(NotFound);
      }
      var e := AuthorizeOwner(sub, token, agent, true);
      if e.Some? {
        return Err(e.value);
      }
      StoredUnder(st.Db(), sub);
      var d := RequestOf(id, st.subtasks[sub], question, options);
      AskAnswers(st.Db(), d, version, Some(token), Actor("agent", agent), now);
      var asked := st.CreateDecisionAndBlock(d, version, Some(token), Actor("agent", agent), now);
      r := if asked.Ok? then Ok(d) else Err(asked.error);
    }

    /** OpenHumanDecisions: every READY human node gets a pending work order under a fresh id and is
        BLOCKED; nothing else moves. */
    method OpenHumanDecisions(ids: seq<string>, now: int) returns (n: nat)
      requires Inv(st.Db()) && |ids| == |st.subtasks| && Distinct(ids) && forall i :: 0 <= i < |ids| ==> ids[i] !in st.decisions
      modifies st
      ensures Sound(old(st.Db()), st.Db()) && st.missions == old(st.missions)
      ensures var human := set id | id in old(st.subtasks) && AwaitsHuman(old(st.subtasks)[id]);
        && n == |human| && st.subtasks == PartMoved(old(st.subtasks), human, Blocked)
        && forall id :: id in human ==> HasOrder(st.decisions, id)
    {
      hide Inv, Opening, PartMoved, HasOrder, Sound, AwaitsHuman, Asked;
      ghost var db := st.Db();
      InvOwnKeys(db);
      var ready := st.ListSubtasksByState(Ready);
      ghost var human: set<string> := {};
      n := 0;
      OpeningStarts(db);
      AskedStarts(db, ready, ids);
      for i := 0 to |ready|
        invariant |ready| <= |ids| && Opening(db, st.Db(), human, ids[..i]) && Asked(db, ready, ids, i, human) && n == |human|
      {
        AskedNext(db, st.Db(), ready, ids, i, human);
        var asked := OpenDecision(ready[i], ids[i], now, db, human, ids[..i]);
        if asked {
          human := human + {ready[i].id};
          n := n + 1;
        }
      }
      OpeningEnds(db, st.Db(), human, ids[..|ready|]);
      AskedEnds(db, ready, ids, human);
    }

    /** One READY node of the scan. */
    method OpenDecision(sub: Subtask, id: string, now: int, ghost db: DB, ghost human: set<string>,
                        ghost used: seq<string>)
      returns (asked: bool)
      requires Opening(db, st.Db(), human, used) && sub.id in db.subtasks && db.subtasks[sub.id] == sub
      requires sub.state == Ready
      requires sub.id !in human && id !in st.decisions
      modifies st
      ensures asked <==> AwaitsHuman(sub)
      ensures Opening(db, st.Db(), if asked then human + {sub.id} else human, used + [id])
    {
      hide Inv, Opening, StoreSpec.CreateDecisionAndBlock;
      asked := sub.spec.kind.Human();
      if asked {
        var d := WorkOrder(id, sub);
        OpenOne(db, st.Db(), human, used, sub, d, now);
        var r := st.CreateDecisionAndBlock(d, sub.version, None, System("hitl"), now);
      } else {
        OpenNone(db, st.Db(), human, used, id);
      }
    }

    /** CancelMissionAs: unfinished subtasks are cancelled one by one, then the mission, whatever its
        status was. */
    method CancelMission(m: string, actor: Actor, now: int) returns (r: Result<()>)
      requires Inv(st.Db())
      modifies st
      ensures Sound(old(st.Db()), st.Db()) && Reaches(old(st.Db()), st.Db())
      ensures BoardOf(st.Db()) == CancelledBoard(BoardOf(old(st.Db())), m)
      ensures r.Ok? <==> m in old(st.missions)
      ensures Freed(old(st.Db()), st.Db(), set id | id in old(st.subtasks) && Unfinished(old(st.subtasks), m, id))
    {
      hide Inv, Sound, Reaches, CancelledBoard, Cancelling, Freed;
      ghost var db := st.Db();
      InvOwnKeys(db);
      var subs := st.ListSubtasks(m);
      ghost var handled: set<string> := {};
      CancellingStarts(db, m);
      for i := 0 to |subs|
        invariant Cancelling(db, st.Db(), m, handled) && handled == IdsOf(subs[..i])
      {
        var sub := subs[i];
        FreshId(subs, i);
        ghost var before := st.Db();
        if !sub.state.Terminal() {
          CancelOne(db, before, m, handled, sub, actor, now);
          var c := st.CancelSubtask(sub.id, sub.version, actor, now);
        } else {
          CancelNone(db, before, m, handled, sub);
        }
        handled := handled + {sub.id};
      }
      AllIds(subs, db.subtasks, m);
      CancellingEnds(db, st.Db(), m, handled);
      if m !in st.missions {
        return Err(NotFound);
      }
      ghost var mid := st.Db();
      var version := st.missions[m].version;
      SoundInv(db, mid);
      SetMissionStatusKeeps(mid, m, MCancelled, version, actor, now);
      SetStatusBoard(mid, m, MCancelled, actor, now);
      StatusKeepsFreed(db, mid, m, MCancelled, version, actor, now);
      r := st.SetMissionStatus(m, MCancelled, version, actor, now);
      SoundThen(db, mid, st.Db());
      StepReaches(mid, Call(OpSetStatus(m, MCancelled, version), actor, now));
      ReachesThen(db, mid, st.Db());
    }

    /** createMission: validation, one store call, roots. Nothing is written unless the task list is a
        valid DAG with valid grants and the budget is not negative. */
    method CreateMission(id: string, owner: string, goal: string, budget: int, tasks: seq<Task>, actor: Actor, now: int)
      returns (r: Result<Mission>)
      requires Inv(st.Db()) && |id| >= 4 && (id !in st.missions ==> FreshMission(st.subtasks, id))
      modifies st
      ensures r.Ok? <==> budget >= 0 && ValidGrants(tasks) && ValidDag(tasks) && id !in old(st.missions)
      ensures !r.Ok? ==> r.Err? && st.Db() == old(st.Db())
      ensures r.Ok? ==> r.value == Mission(id, owner, goal, budget, Active, 0)
      ensures r.Ok? ==> exists rank :: CreateStep(old(st.Db()), r.value, PlanOf(id, tasks), rank, actor, now, st.Db())
      ensures r.Ok? ==> forall i :: 0 <= i < |tasks| ==> AsDeclared(st.subtasks, id, tasks[i])
    {
      hide AsDeclared;
      hide Inv, Becomes, Activated, StoreSpec.CreateMission, ValidDag, ValidGrants, ValidPlan, NewRoots, Ordered;
      if budget < 0 {
        return Err(Invalid);
      }
      var e;
      ghost var order;
      e, order := ValidateDag(tasks);
      if e.Some? {
        return Err(e.value);
      }
      var m := Mission(id, owner, goal, budget, Active, 0);
      DagParts(tasks);
      var subs := PlanOf(id, tasks);
      ghost var db, rank := st.Db(), RankOf(id, order);
      if id !in st.missions {
        PlanIsNew(db.subtasks, id, tasks);
        PlanIsValid(m, tasks, order);
      }
      CreateMissionKeeps(db, m, subs, actor, now);
      CreateAnswers(db, m, subs, actor, now);
      var c := st.CreateMission(m, subs, actor, now);
      if c.Err? {
        return Err(c.error);
      }
      SoundInv(db, st.Db());
      ghost var mid := st.Db();
      ActivateMissionRoots(id, actor, now);
      r := Ok(m);
      AdvancedBecomes(mid, st.Db());
      assert CreateStep(db, m, subs, rank, actor, now, st.Db());
      DeclaredAsStored(db, m, tasks, rank, actor, now, st.Db());
    }

    /** intentCreateMission, uninterrupted: the submissions of one key end in the same mission, stored and
        with no root left PENDING. */
    method IntentCreateMission(key: string, s: Submission, now: int) returns (r: Result<string>)
      requires Inv(st.Db()) && |s.id| >= 4 && s.id !in st.missions && FreshMission(st.subtasks, s.id)
      requires IntentKey(key) in st.idem ==>
        var m := st.idem[IntentKey(key)]; |m| >= 4 && (m !in st.missions ==> FreshMission(st.subtasks, m))
      modifies st
      ensures r.Err? <==> key == "" || s.owner == "" || s.goal == "" || s.tasks == [] || s.budget < 0
                          || !ValidGrants(s.tasks) || !ValidDag(s.tasks)
      ensures r.Err? ==> st.Db() == old(st.Db())
      ensures !r.Err? ==>
        && Bound(IntentKey(key), st.Db(), r.value) && r.value in st.missions
        && (forall id :: !IdleRoot(st.subtasks, r.value, id))
        && (if IntentKey(key) in old(st.idem) then r == Duplicate(old(st.idem)[IntentKey(key)]) else r == Ok(s.id))
    {
      hide Inv, ValidDag, ValidGrants, FreshMission, CreateStep, Sound, IdleRoot, SubId, PlanOf, IntentKey;
      if key == "" || s.owner == "" || s.goal == "" || |s.tasks| == 0 || s.budget < 0 {
        return Err(Invalid);
      }
      var e;
      ghost var order;
      e, order := ValidateDag(s.tasks);
      if e.Some? {
        return Err(e.value);
      }
      ghost var db := st.Db();
      PutIdempotentKeeps(db, IntentKey(key), s.id);
      var put := st.PutIdempotent(IntentKey(key), s.id);
      ghost var keyed := st.Db();
      SoundInv(db, keyed);
      Unchanged(keyed);
      var m := s.id;
      if put.Duplicate? {
        m := put.value;
      }
      if m !in st.missions {
        var c := CreateMission(m, s.owner, s.goal, s.budget, s.tasks, s.source, now);
        CreatedFully(keyed, c.value, PlanOf(m, s.tasks), s.source, now, st.Db());
      }
      ghost var created := st.Db();
      SoundInv(keyed, created);
      if put.Duplicate? {
        ActivateMissionRoots(m, s.source, now);
        ActivatedFully(created, st.Db(), m);
        SoundThen(keyed, created, st.Db());
        r := Duplicate(m);
      } else {
        r := Ok(m);
      }
      SoundKey(keyed, st.Db(), IntentKey(key));
    }

    // ---- delegation ----

    /** intentDelegate. `childId` is the fresh id, or the one derived from the task's name. The checks that
        come before the store call change nothing when they fail. */
    method Delegate(key: string, parentId: string, token: int, version: int, childId: string, task: DelegateSpec,
                    source: Actor, limits: Limits, now: int) returns (r: Result<string>)
      requires Inv(st.Db()) && WellFounded(st.subtasks) && childId != ""
      modifies st
      ensures var db := old(st.Db());
        if DelegateAllowed(db, key, parentId, token, task, source, limits)
        then
          var child := ChildOf(db.subtasks[parentId], childId, task);
          var spawned := SpawnSubtask(db, "intent-delegate-" + key, parentId, token, version, child, source, now).1;
          && DelegateStep(db, "intent-delegate-" + key, parentId, token, version, child, limits, source, now, st.Db())
          && r == if spawned.Ok? then Ok(childId) else spawned
        else r.Err? && st.Db() == db
      ensures r.Ok? ==> childId !in old(st.subtasks) && ChildAsDeclared(st.subtasks, parentId, childId, task)
    {
      hide ChildAsDeclared;
      hide Inv, WithinLimits, Normalize, Permissions.Subset, StoreSpec.SpawnSubtask, WellFounded, Owns;
      if key == "" || parentId == "" {
        return Err(Invalid);
      }
      if source.kind != "agent" {
        return Err(Forbidden);
      }
      if task.tokens < 0 || Normalize(task.grants).None? {
        return Err(Invalid);
      }
      if parentId !in st.subtasks || st.subtasks[parentId].state != Running {
        return Err(NotFound);
      }
      var parent := st.subtasks[parentId];
      var e := AuthorizeOwner(parentId, token, source.id, true);
      if e.Some? {
        return Err(e.value);
      }
      if parent.spec.mission !in st.missions || st.missions[parent.spec.mission].status != Active {
        return Err(NotFound);
      }
      var within := PermissionEnvelopeSubset(parent.spec.grants, Normalize(task.grants).value);
      if !within {
        return Err(PermissionExceeded);
      }
      StoredIds(st.Db(), parentId);
      var fanout := st.CountChildren(parentId);
      var ok := CheckDelegateLimits(st.subtasks, parentId, task.reworkOf, fanout, limits);
      if !ok {
        return Err(Invalid);
      }
      ChildIsNew(st.Db(), parentId, childId, task);
      ChildDeclaredAsStored(st.Db(), "intent-delegate-" + key, parentId, token, version, childId, task, source, now);
      r := st.SpawnSubtask("intent-delegate-" + key, parentId, token, version, ChildOf(parent, childId, task), source, now);
      if r.Ok? {
        r := Ok(childId);
      }
    }

    /** Both reconcilers after a crash, on every state that satisfies the store invariant: afterwards no PENDING subtask has all
        its dependencies done, only such subtasks were readied, and no mission with a SUCCEEDED subtask
        lacks its derived status. On a state left by an earlier pass nothing is written. */
    method Reconcile(now: int)
      requires Inv(st.Db())
      modifies st
      ensures Sound(old(st.Db()), st.Db()) && OnlyReadied(old(st.subtasks), st.subtasks)
      ensures forall id :: id in st.subtasks && st.subtasks[id].state == Pending ==>
        !Done(st.subtasks, st.subtasks[id].spec.mission, st.subtasks[id].spec.deps)
      ensures forall m :: m in Successful(old(st.subtasks)) ==> Propagated(BoardOf(st.Db()), m)
      ensures Repaired(BoardOf(st.Db()))
      ensures Repaired(BoardOf(old(st.Db()))) ==> st.Db() == old(st.Db())
    {
      hide Inv, Advanced, Becomes, Settles, Sound, Successful, RootsReadied, PropagateAll, Flow.Propagate, Propagated,
        OnlyReadied, Done;
      ghost var db := st.Db();
      ReconcilePendingRoots(now);
      ghost var mid := st.Db();
      AdvancedParts(db, mid);
      RootsParts(db, mid);
      ghost var ms := ReconcileSucceeded(now);
      BecomesSound(mid, st.Db(), PropagateAll(BoardOf(mid), ms));
      ReconcileRepairs(BoardOf(db), ms);
      ReconcileIsIdempotent(BoardOf(db), ms);
      assert BoardOf(mid) == BoardOf(db).(subs := RootsReadied(db.subtasks));
      SoundThen(db, mid, st.Db());
    }
  }

  // ---- helpers about listings ----

  ghost function IdsOf(subs: seq<Subtask>): set<string> { set i | 0 <= i < |subs| :: subs[i].id }

  lemma FreshId(subs: seq<Subtask>, i: nat)
    requires i < |subs| && forall i, j :: 0 <= i < j < |subs| ==> subs[i].id != subs[j].id
    ensures subs[i].id !in IdsOf(subs[..i]) && IdsOf(subs[..i + 1]) == IdsOf(subs[..i]) + {subs[i].id}
  {
    assert subs[..i + 1] == subs[..i] + [subs[i]];
    forall id ensures id in IdsOf(subs[..i + 1]) <==> id in IdsOf(subs[..i]) + {subs[i].id} {
      if id in IdsOf(subs[..i]) {
        var j :| 0 <= j < i && subs[..i][j].id == id;
        assert subs[..i + 1][j].id == id;
      }
      assert subs[..i + 1][i].id == subs[i].id;
    }
  }

  lemma IdsListed(subs: seq<Subtask>, id: string)
    requires Names(subs, id)
    ensures id in IdsOf(subs)
  {}

  lemma AllIds(subs: seq<Subtask>, base: map<string, Subtask>, m: string)
    requires Listing(subs, base, m)
    ensures subs[..|subs|] == subs && forall id :: InMission(base, m, id) ==> id in IdsOf(subs)
  {
    forall id | InMission(base, m, id) ensures id in IdsOf(subs) {
      assert Names(subs, id);
      IdsListed(subs, id);
    }
  }

  lemma AllIdsBy(subs: seq<Subtask>, base: map<string, Subtask>, state: State)
    requires ListingBy(subs, base, state)
    ensures subs[..|subs|] == subs && forall id :: id in base && base[id].state == state ==> id in IdsOf(subs)
  {
    forall id | id in base && base[id].state == state ensures id in IdsOf(subs) {
      assert Names(subs, id);
      IdsListed(subs, id);
    }
  }

  lemma ProgressParts(db: DB, d: DB, moved: set<string>, to: State)
    requires Progress(db, d, moved, to) && Inv(db)
    ensures Advanced(db, d) && d.subtasks == PartMoved(db.subtasks, moved, to)
    ensures moved == {} ==> d == db
  {
    hide Inv, Advanced, PartMoved;
    if moved == {} {
      NoProgress(db, d, to);
    }
  }

  lemma RootsParts(db: DB, d: DB)
    requires Settles(db, d, RootsBoard(db))
    ensures d.subtasks == RootsReadied(db.subtasks) && d.missions == db.missions
    ensures RootsReadied(db.subtasks) == db.subtasks ==> d == db
  {
    hide Reaches, RootsReadied;
  }

  lemma PropagatedMore(b: Board, ms: seq<string>, m: string)
    ensures PropagateAll(b, []) == b
    ensures PropagateAll(b, ms + [m]) == Flow.Propagate(PropagateAll(b, ms), m)
  {
    assert (ms + [m])[..|ms|] == ms;
  }

  lemma SuccessMission(base: map<string, Subtask>, sub: Subtask)
    requires sub.id in base && base[sub.id] == sub && sub.state == Succeeded
    ensures sub.spec.mission in Successful(base)
  {}

  lemma SuccessfulListed(base: map<string, Subtask>, subs: seq<Subtask>, ms: seq<string>)
    requires ListingBy(subs, base, Succeeded) && |ms| == |subs|
    requires forall k :: 0 <= k < |subs| ==> ms[k] == subs[k].spec.mission
    ensures Elements(ms) == Successful(base)
  {
    forall m | m in Successful(base) ensures m in ms {
      var id :| id in base && base[id].state == Succeeded && base[id].spec.mission == m;
      assert Names(subs, id);
      var k :| 0 <= k < |subs| && subs[k].id == id;
      assert ms[k] == m;
    }
    forall m | m in ms ensures m in Successful(base) {
      var k :| 0 <= k < |ms| && ms[k] == m;
      SuccessMission(base, subs[k]);
    }
  }

  lemma BecomesSame(db: DB)
    ensures Becomes(db, db, BoardOf(db))
  {
    ReachesItself(db);
  }

  lemma BecomesInv(db: DB, d: DB, b: Board)
    requires Inv(db) && Becomes(db, d, b)
    ensures Inv(d) && BoardOf(d) == b
  {
    hide Inv;
    BecomesSound(db, d, b);
  }

  lemma BecomesThen(db: DB, mid: DB, d: DB, b: Board, c: Board)
    requires Becomes(db, mid, b) && Becomes(mid, d, c)
    ensures Becomes(db, d, c)
  {
    hide Reaches;
    ReachesThen(db, mid, d);
  }

  lemma IdleParts(b: Board, m: string)
    ensures Flow.Propagate(b, m) == b ==> Readied(b.subs, m) == b.subs && Derive(b, m) == b
  {
    if Flow.Propagate(b, m) == b {
      assert b.(subs := Readied(b.subs, m)).subs == b.subs;
      assert b.(subs := Readied(b.subs, m)) == b;
    }
  }

  // ---- helpers about wake-ups ----

  lemma WakeAllGrows(db: DB, subs: seq<Subtask>, i: nat, now: int)
    ensures WakeAll(db, subs[..0], now) == db
    ensures i < |subs| ==> WakeAll(db, subs[..i + 1], now) == WakeIfHit(WakeAll(db, subs[..i], now), subs[i], now)
  {
    if i < |subs| {
      assert subs[..i + 1][..i] == subs[..i];
    }
  }

  lemma WakePrefix(db: DB, subs: seq<Subtask>, i: nat, now: int)
    requires Inv(db) && i <= |subs| && ListingWaiting(subs, db.subtasks, WEvent)
    ensures Inv(WakeAll(db, subs[..i], now))
  {
    hide Inv, Grows, WakeReady, WakeAll;
    NoLostWakeup(db, subs[..i], now);
  }

  lemma WaitersAwait(base: map<string, Subtask>, subs: seq<Subtask>)
    requires ListingWaiting(subs, base, WEvent)
    ensures forall i :: 0 <= i < |subs| ==> AwaitsEvent(subs[i])
  {}

  lemma OthersUnmoved(db: DB, d: DB, subs: seq<Subtask>, now: int)
    requires ListingWaiting(subs, db.subtasks, WEvent) && TurnsTaken(db, d, subs, now)
    ensures Sound(db, d)
    ensures forall id :: id in db.subtasks && !AwaitsEvent(db.subtasks[id]) ==>
      id in d.subtasks && d.subtasks[id] == db.subtasks[id]
  {
    hide Sound, TurnTaken;
  }

  /** A condition registration whose expression does not compile. */
  ghost predicate Unevaluable(sub: Subtask) {
    AwaitsCondition(sub) && sub.wake.value.condition.value.formula == Some(Uncompilable)
  }

  lemma InvBoard(db: DB)
    requires Inv(db)
    ensures BoardInv(db.board)
  {}

  lemma SweepParts(db: DB, d: DB, woken: set<string>)
    requires SweepState(db, d, woken)
    ensures Sound(db, d) && Inv(d) && d.board == db.board && d.missions == db.missions
    ensures d.subtasks == RousedAll(db.subtasks, woken) && d.eventSeq == db.eventSeq + |woken|
  {
    hide Inv, Grows, RousedAll;
  }

  /** Mission ids hold no slash and board keys are not empty, as the service ensures. */
  ghost predicate PlainStore(db: DB) {
    && ConditionWakes.PlainMissions(db.board)
    && (forall k :: k in db.board ==> db.board[k].key != "")
    && (forall m :: m in db.missions ==> Conditions.NoSlash(m))
  }

  lemma PlainAfterPut(db: DB, e: BoardEntry, expected: int)
    requires PlainStore(db) && Conditions.NoSlash(e.mission) && e.key != ""
    ensures PlainStore(StoreSpec.BoardPut(db, e, expected).0)
  {
    hide Conditions.NoSlash, BoardKey;
  }

  lemma PlainHere(db: DB, m: string)
    requires m in db.missions
    ensures PlainStore(db) ==> PlainBoard(db.board, m)
  {}

  /** The sweep looks at the condition of this registration. */
  ghost predicate Evaluated(sub: Subtask, scope: Option<(string, string)>, now: int) {
    InScope(sub, scope) && !Overdue(sub, now)
  }

  ghost predicate LookedAt(db: DB, ids: set<string>, scope: Option<(string, string)>, now: int) {
    forall id :: id in ids ==> id in db.subtasks && Evaluated(db.subtasks[id], scope, now)
  }

  ghost predicate SomeUnevaluable(db: DB, scope: Option<(string, string)>, now: int) {
    exists id :: id in db.subtasks && Unevaluable(db.subtasks[id]) && Evaluated(db.subtasks[id], scope, now)
  }

  /** The loop of the condition sweep after the first `i` registrations. */
  ghost predicate Waking(db: DB, d: DB, subs: seq<Subtask>, i: nat, woken: set<string>, scope: Option<(string, string)>,
                           now: int, mean: Meaning)
  {
    && Inv(db) && ListingWaiting(subs, db.subtasks, WCondition) && i <= |subs|
    && SweepState(db, d, woken) && LookedAt(db, woken, scope, now)
    && (forall id :: id in woken ==> Names(subs[..i], id))
    && (PlainStore(db) ==> woken == FiredAmong(db, subs[..i], scope, now, mean))
  }

  lemma WakingStarts(db: DB, subs: seq<Subtask>, scope: Option<(string, string)>, now: int, mean: Meaning)
    requires Inv(db) && ListingWaiting(subs, db.subtasks, WCondition)
    ensures Waking(db, db, subs, 0, {}, scope, now, mean)
  {
    hide Inv, SweepState, InScope, Fires;
    SweepStarts(db);
  }

  /** The next registration is stored and has not been woken; what has been woken so far fires. */
  lemma WakingAt(db: DB, d: DB, subs: seq<Subtask>, i: nat, woken: set<string>, scope: Option<(string, string)>, now: int,
                   mean: Meaning)
    requires Waking(db, d, subs, i, woken, scope, now, mean) && i < |subs|
    ensures var sub := subs[i];
      && Inv(db) && SweepState(db, d, woken) && LookedAt(db, woken, scope, now)
      && sub.id in db.subtasks && db.subtasks[sub.id] == sub && sub.id !in woken && sub.spec.mission in db.missions
      && WaitsFor(sub, WCondition)
    ensures PlainStore(db) ==> woken <= Fired(db, scope, now, mean)
    ensures Unevaluable(subs[i]) && Evaluated(subs[i], scope, now) ==> SomeUnevaluable(db, scope, now)
  {
    hide Inv, SweepState, InScope, Fires, PlainStore, Unevaluable, Evaluated, LookedAt;
    ListedWaiter(db.subtasks, subs, i);
    SubtaskFacts(db, subs[i].id);
  }

  lemma WakingNext(db: DB, before: DB, d: DB, subs: seq<Subtask>, i: nat, woken: set<string>,
                   scope: Option<(string, string)>, now: int, mean: Meaning, woke: bool)
    requires Waking(db, before, subs, i, woken, scope, now, mean) && i < |subs|
    requires PlainStore(db) ==> (woke <==> InScope(subs[i], scope) && Fires(db, subs[i], now, mean))
    requires woke ==> Evaluated(subs[i], scope, now)
    requires SweepState(db, d, woken + (if woke then {subs[i].id} else {}))
    ensures Waking(db, d, subs, i + 1, woken + (if woke then {subs[i].id} else {}), scope, now, mean)
  {
    hide Inv, SweepState, InScope, Fires, PlainStore, Evaluated, FiredAmong;
    ListedWaiter(db.subtasks, subs, i);
    FiredNext(db, subs, i, scope, now, mean);
    var more := woken + (if woke then {subs[i].id} else {});
    forall id | id in more ensures Names(subs[..i + 1], id) {
      if id in woken {
        var j :| 0 <= j < i && subs[..i][j].id == id;
        assert subs[..i + 1][j].id == id;
      } else {
        assert subs[..i + 1][i].id == id;
      }
    }
  }

  lemma WakingEnds(db: DB, d: DB, subs: seq<Subtask>, woken: set<string>, scope: Option<(string, string)>, now: int,
                  mean: Meaning)
    requires Waking(db, d, subs, |subs|, woken, scope, now, mean)
    ensures SweepState(db, d, woken) && LookedAt(db, woken, scope, now)
    ensures PlainStore(db) ==> woken == Fired(db, scope, now, mean)
  {
    hide Inv, SweepState, InScope, Fires, PlainStore, Fired, FiredAmong, LookedAt;
    FiredEnds(db, subs, scope, now, mean);
  }

  /** What the evaluation after a write wakes: registrations that it looks at, on a plain store only those that
      fire, and all of those unless one that it looks at does not compile. */
  ghost predicate AfterWrite(db: DB, name: (string, string), now: int, mean: Meaning, woken: set<string>) {
    && LookedAt(db, woken, Some(name), now)
    && (PlainStore(db) ==> woken <= Fired(db, Some(name), now, mean))
    && (PlainStore(db) && !SomeUnevaluable(db, Some(name), now) ==> woken == Fired(db, Some(name), now, mean))
  }

  lemma ListedWaiter(base: map<string, Subtask>, subs: seq<Subtask>, i: nat)
    requires ListingWaiting(subs, base, WCondition) && i < |subs|
    ensures subs[i].id in base && base[subs[i].id] == subs[i] && WaitsFor(subs[i], WCondition)
    ensures forall j, l :: 0 <= j < l < |subs| ==> subs[j].id != subs[l].id
  {}

  lemma FiredEnds(db: DB, subs: seq<Subtask>, scope: Option<(string, string)>, now: int, mean: Meaning)
    requires ListingWaiting(subs, db.subtasks, WCondition)
    ensures FiredAmong(db, subs[..|subs|], scope, now, mean) == Fired(db, scope, now, mean)
  {
    assert subs[..|subs|] == subs;
    forall id | id in db.subtasks && AwaitsCondition(db.subtasks[id])
      ensures exists i :: 0 <= i < |subs| && subs[i].id == id
    {
      assert WaitsFor(db.subtasks[id], WCondition) && Names(subs, id);
    }
    hide Fired, FiredAmong;
    FiredInAll(db, subs, scope, now, mean);
  }

  const MAX_CHECKPOINT := 65536

  /** validateWake. */
  predicate ValidWake(w: WakeSpec) {
    && (w.kind.WTimer? ==> w.at.Some?)
    && (w.kind.WEvent? ==> w.event.Some? && |w.event.value.types| > 0)
    && (w.kind.WCondition? ==> w.condition.Some? && ConditionWakes.ValidCondition(w.condition.value))
    && w.deadline.Some?
    && (w.kind.WTimer? ==> w.deadline.value > w.at.value)
  }

  /** The registration as stored: with its moment, and for an event with the watermark. */
  function Marked(w: WakeSpec, seen: int, now: int): WakeSpec
    requires ValidWake(w)
  {
    var dated := w.(registered := Some(now));
    if w.kind.WEvent? then dated.(event := Some(w.event.value.(afterSeq := seen))) else dated
  }

  /** A wait that comes to an end: it has a deadline, a timer rings before it, an event registration looks for some
      type from this moment of the log on, and a condition can be evaluated. */
  ghost predicate EndsSomehow(sub: Subtask, seen: int) {
    sub.state == Waiting && sub.wake.Some? &&
    var w := sub.wake.value;
    && w.deadline.Some? && w.registered.Some?
    && (w.kind.WTimer? ==> w.at.Some? && w.at.value < w.deadline.value)
    && (w.kind.WEvent? ==> w.event.Some? && w.event.value.types != [] && w.event.value.afterSeq == seen)
    && (w.kind.WCondition? ==> AwaitsCondition(sub) && !Unevaluable(sub))
  }

  lemma SuspendAnswers(db: DB, id: string, token: int, version: int, wake: WakeSpec, seen: int, checkpoint: string,
                       actor: Actor, now: int)
    requires ValidWake(wake)
    ensures var r := SuspendSubtask(db, id, token, version, Marked(wake, seen, now), checkpoint, actor, now).1;
      r.Ok? ==> EndsSomehow(r.value, seen)
  {
    hide Apply, FencingOk, Move, Retire;
  }

  // ---- helpers about work orders ----

  predicate AwaitsHuman(sub: Subtask) { sub.state == Ready && sub.spec.kind.Human() }

  /** The human nodes among the first i listed are the ones asked about. */
  ghost predicate Asked(db: DB, ready: seq<Subtask>, ids: seq<string>, i: nat, human: set<string>) {
    && i <= |ready| <= |ids| && ListingBy(ready, db.subtasks, Ready) && Distinct(ids)
    && (forall k :: 0 <= k < |ids| ==> ids[k] !in db.decisions)
    && forall id :: id in human <==> id in IdsOf(ready[..i]) && id in db.subtasks && AwaitsHuman(db.subtasks[id])
  }

  lemma AskedStarts(db: DB, ready: seq<Subtask>, ids: seq<string>)
    requires ListingBy(ready, db.subtasks, Ready) && |ids| == |db.subtasks| && Distinct(ids)
    requires forall k :: 0 <= k < |ids| ==> ids[k] !in db.decisions
    ensures Asked(db, ready, ids, 0, {}) && |ready| <= |ids|
  {
    ReadyCount(ready, db.subtasks);
  }

  lemma AskedNext(db: DB, d: DB, ready: seq<Subtask>, ids: seq<string>, i: nat, human: set<string>)
    requires i < |ready| && Asked(db, ready, ids, i, human) && Opening(db, d, human, ids[..i])
    ensures ready[i].id in db.subtasks && db.subtasks[ready[i].id] == ready[i] && ready[i].state == Ready
    ensures ready[i].id !in human && ids[i] !in d.decisions && ids[..i + 1] == ids[..i] + [ids[i]]
    ensures Asked(db, ready, ids, i + 1, if AwaitsHuman(ready[i]) then human + {ready[i].id} else human)
  {
    hide Opening, AwaitsHuman, Names, IdsOf;
    FreshId(ready, i);
    AskedParts(db, ready, ids, i, human);
    FreshOrder(db, d, human, ids, i);
    AskedMore(db, ready, ids, i, human);
  }

  lemma AskedParts(db: DB, ready: seq<Subtask>, ids: seq<string>, i: nat, human: set<string>)
    requires i < |ready| && Asked(db, ready, ids, i, human)
    ensures ready[i].id in db.subtasks && db.subtasks[ready[i].id] == ready[i] && ready[i].state == Ready
    ensures ids[i] !in db.decisions && Distinct(ids) && ids[..i + 1] == ids[..i] + [ids[i]]
  {}

  lemma AskedMore(db: DB, ready: seq<Subtask>, ids: seq<string>, i: nat, human: set<string>)
    requires i < |ready| && Asked(db, ready, ids, i, human)
    ensures Asked(db, ready, ids, i + 1, if AwaitsHuman(ready[i]) then human + {ready[i].id} else human)
  {
    FreshId(ready, i);
    hide AwaitsHuman, Names, IdsOf, Distinct;
    AskedParts(db, ready, ids, i, human);
  }

  lemma AskedEnds(db: DB, ready: seq<Subtask>, ids: seq<string>, human: set<string>)
    requires Asked(db, ready, ids, |ready|, human)
    ensures human == set id | id in db.subtasks && AwaitsHuman(db.subtasks[id])
  {
    AllIdsBy(ready, db.subtasks, Ready);
  }

  function WorkOrder(id: string, sub: Subtask): Decision {
    Decision(id, sub.spec.mission, sub.id, if sub.spec.kind.KHumanDecision? then "decision" else "approval",
             if sub.spec.question == "" then "Approve subtask " + sub.id + "?" else sub.spec.question,
             OptionsOr(sub.spec.options), DPending, "", "", "", sub.spec.deadline, sub.spec.onTimeout)
  }

  /** The order of an agent that asks for a decision. */
  function RequestOf(id: string, sub: Subtask, question: string, options: seq<string>): Decision {
    Decision(id, sub.spec.mission, sub.id, "decision", question, OptionsOr(options), DPending, "", "", "", None, "")
  }

  function OptionsOr(options: seq<string>): seq<string> {
    if |options| == 0 then ["approve", REJECT] else options
  }

  lemma StoredUnder(db: DB, id: string)
    requires Inv(db) && id in db.subtasks
    ensures db.subtasks[id].id == id
  {}

  /** A pending decision about the subtask exists. */
  ghost predicate HasOrder(decisions: map<string, Decision>, id: string) {
    exists d :: d in decisions && decisions[d].subtask == id && decisions[d].status == DPending
  }

  /** The scan under way: `human` are the nodes blocked so far, under ids out of `used`. */
  ghost predicate Opening(db: DB, d: DB, human: set<string>, used: seq<string>) {
    && Sound(db, d) && d.missions == db.missions && human <= db.subtasks.Keys
    && d.subtasks == PartMoved(db.subtasks, human, Blocked)
    && (forall x :: x in d.decisions ==> x in db.decisions || x in used)
    && forall id :: id in human ==> HasOrder(d.decisions, id)
  }

  lemma OpeningStarts(db: DB)
    requires Inv(db)
    ensures Opening(db, db, {}, [])
  {
    hide Inv, PartMoved;
    Unchanged(db);
    NothingMoved(db.subtasks, Blocked);
  }

  lemma FreshOrder(db: DB, d: DB, human: set<string>, ids: seq<string>, i: nat)
    requires i < |ids| && Opening(db, d, human, ids[..i]) && Distinct(ids) && ids[i] !in db.decisions
    ensures ids[i] !in d.decisions
  {
    hide Sound, PartMoved, HasOrder;
  }

  lemma OpenNone(db: DB, d: DB, human: set<string>, used: seq<string>, id: string)
    requires Opening(db, d, human, used)
    ensures Opening(db, d, human, used + [id])
  {
    hide Sound, PartMoved, HasOrder;
  }

  lemma AskOpens(db: DB, sub: Subtask, dec: Decision, now: int)
    requires sub.id in db.subtasks && db.subtasks[sub.id] == sub && sub.state == Ready
    requires dec.id !in db.decisions && dec.subtask == sub.id && dec.status == DPending
    ensures var d := StoreSpec.CreateDecisionAndBlock(db, dec, sub.version, None, System("hitl"), now).0;
      && d.subtasks == db.subtasks[sub.id := Moving(sub, Blocked)] && d.missions == db.missions
      && d.decisions == db.decisions[dec.id := dec]
  {
    BlockingEvent();
    hide Apply;
  }

  lemma BlockingEvent()
    ensures Apply(Ready, EvBlocked) == Some(Blocked)
  {}

  lemma OpenOne(db: DB, d: DB, human: set<string>, used: seq<string>, sub: Subtask, dec: Decision, now: int)
    requires Opening(db, d, human, used) && sub.id in db.subtasks && db.subtasks[sub.id] == sub
    requires sub.id !in human && AwaitsHuman(sub) && dec == WorkOrder(dec.id, sub) && dec.id !in d.decisions
    ensures Opening(db, StoreSpec.CreateDecisionAndBlock(d, dec, sub.version, None, System("hitl"), now).0,
                    human + {sub.id}, used + [dec.id])
  {
    hide Inv, Grows, PartMoved, StoreSpec.CreateDecisionAndBlock;
    var after := StoreSpec.CreateDecisionAndBlock(d, dec, sub.version, None, System("hitl"), now).0;
    OneMoved(db.subtasks, human, Blocked, sub.id);
    AskOpens(d, sub, dec, now);
    CreateDecisionAndBlockKeeps(d, dec, sub.version, None, System("hitl"), now);
    SoundThen(db, d, after);
    forall id | id in human + {sub.id} ensures HasOrder(after.decisions, id) {
      if id == sub.id {
        assert after.decisions[dec.id].subtask == id;
      } else {
        OrderStays(d.decisions, dec, id);
      }
    }
  }

  lemma OrderStays(decisions: map<string, Decision>, dec: Decision, id: string)
    requires HasOrder(decisions, id) && dec.id !in decisions
    ensures HasOrder(decisions[dec.id := dec], id)
  {
    var x :| x in decisions && decisions[x].subtask == id && decisions[x].status == DPending;
    assert decisions[dec.id := dec][x] == decisions[x];
  }

  lemma OpeningEnds(db: DB, d: DB, human: set<string>, used: seq<string>)
    requires Opening(db, d, human, used)
    ensures Sound(db, d) && d.missions == db.missions && d.subtasks == PartMoved(db.subtasks, human, Blocked)
    ensures forall id :: id in human ==> HasOrder(d.decisions, id)
  {
    hide Sound, PartMoved, HasOrder;
  }

  lemma AskAnswers(db: DB, dec: Decision, expected: int, token: Option<int>, actor: Actor, now: int)
    ensures var r := StoreSpec.CreateDecisionAndBlock(db, dec, expected, token, actor, now);
      !r.1.Duplicate? && (!r.1.Ok? ==> r.0 == db)
  {
    hide Apply, FencingOk;
  }

  /** A listing is no longer than the table it lists. */
  lemma ReadyCount(ready: seq<Subtask>, base: map<string, Subtask>)
    requires ListingBy(ready, base, Ready)
    ensures |ready| <= |base|
  {
    var ids := seq(|ready|, i requires 0 <= i < |ready| => ready[i].id);
    DistinctBound(ids, base.Keys);
    assert |base.Keys| == |base|;
  }

  // ---- helpers about intents ----

  lemma NoIdleRoots(subs: map<string, Subtask>, m: string)
    ensures forall id :: !IdleRoot(Activated(subs, m), m, id)
  {}

  lemma CreatedFully(db: DB, m: Mission, subs: seq<Subtask>, actor: Actor, now: int, d: DB)
    requires Inv(db) && m.id !in db.missions && exists rank :: CreateStep(db, m, subs, rank, actor, now, d)
    ensures Sound(db, d) && m.id in d.missions && forall id :: !IdleRoot(d.subtasks, m.id, id)
  {
    hide Inv, StoreSpec.CreateMission, Activated, IdleRoot, ValidPlan, NewRoots, OnlyFlow, Reaches;
    var rank :| CreateStep(db, m, subs, rank, actor, now, d);
    var r := StoreSpec.CreateMission(db, m, subs, actor, now).0;
    CreateMissionKeeps(db, m, subs, actor, now);
    CreateCallMissions(db, m, subs, actor, now);
    NoIdleRoots(r.subtasks, m.id);
    BecomesSound(r, d, Board(Activated(r.subtasks, m.id), r.missions));
    SoundThen(db, r, d);
  }

  lemma ActivatedFully(a: DB, b: DB, m: string)
    requires Advanced(a, b) && b.subtasks == Activated(a.subtasks, m)
    ensures Sound(a, b) && b.missions == a.missions && forall id :: !IdleRoot(b.subtasks, m, id)
  {
    hide Sound, Activated, IdleRoot;
    NoIdleRoots(a.subtasks, m);
  }

  lemma SoundKey(a: DB, b: DB, key: string)
    requires Sound(a, b)
    ensures key in a.idem ==> key in b.idem && b.idem[key] == a.idem[key]
  {
    hide Inv;
  }

  // ---- helpers about delegation ----

  datatype DelegateSpec = DelegateSpec(
    skills: seq<string>, priority: int, deadline: Option<int>, maxAttempts: int, tokens: int, grants: Envelope,
    reworkOf: string)

  /** The child that intentDelegate builds: an agent's task without dependencies, under its parent. */
  function ChildOf(parent: Subtask, id: string, task: DelegateSpec): Subtask
    requires Normalize(task.grants).Some?
  {
    Subtask(id,
            TaskSpec(parent.spec.mission, parent.id, KAgent, task.skills, [], task.priority, task.deadline, task.tokens,
                     task.maxAttempts, "", task.reworkOf, Normalize(task.grants).value, "", []),
            Pending, "", "", 0, "", 0, "", None)
  }

  /** The task is stored as it was declared, PENDING only while it waits for something. */
  ghost predicate AsDeclared(subs: map<string, Subtask>, m: string, t: Task)
    requires |m| >= 4
  {
    var id := SubId(m, t.name);
    id in subs &&
    var sub := subs[id];
    && sub.spec.mission == m && sub.spec.kind == t.kind && sub.spec.skills == t.skills && sub.spec.priority == t.priority
    && sub.spec.deadline == t.deadline && sub.spec.maxAttempts == t.maxAttempts && sub.attempt == 0
    && |sub.spec.deps| == |t.deps| && (forall j :: 0 <= j < |t.deps| ==> sub.spec.deps[j] == SubId(m, t.deps[j]))
    && sub.state == if |t.deps| == 0 then Ready else Pending
  }

  lemma DeclaredAsStored(db: DB, m: Mission, tasks: seq<Task>, rank: map<string, nat>, actor: Actor, now: int, d: DB)
    requires |m.id| >= 4 && ValidGrants(tasks) && m.id !in db.missions
    requires CreateStep(db, m, PlanOf(m.id, tasks), rank, actor, now, d)
    ensures forall i :: 0 <= i < |tasks| ==> AsDeclared(d.subtasks, m.id, tasks[i])
  {
    hide Reaches, OnlyFlow, StoreSpec.CreateMission, WithSubtasks, ValidPlan, Normalize, AsDeclared, Activated, SubtaskOf, NewRoot;
    var subs := PlanOf(m.id, tasks);
    Charges.CreationOpens(db, m, subs, actor, now);
    WithSubtasksContents(db.subtasks, subs);
    forall i | 0 <= i < |tasks| ensures AsDeclared(d.subtasks, m.id, tasks[i]) {
      assert subs[i] == SubtaskOf(m.id, tasks[i]);
      TaskAsStored(WithSubtasks(db.subtasks, subs), m.id, tasks[i]);
    }
  }

  lemma TaskAsStored(all: map<string, Subtask>, m: string, t: Task)
    requires |m| >= 4 && Normalize(t.grants).Some? && SubtaskOf(m, t).id in all && all[SubtaskOf(m, t).id] == SubtaskOf(m, t)
    ensures AsDeclared(Activated(all, m), m, t)
  {
    hide SubId, Normalize;
  }

  /** The child is stored under its parent as the lead declared it, READY. */
  ghost predicate ChildAsDeclared(subs: map<string, Subtask>, parent: string, id: string, t: DelegateSpec) {
    id in subs && parent in subs &&
    var sub := subs[id];
    && sub.spec.parent == parent && sub.spec.mission == subs[parent].spec.mission && sub.spec.kind == KAgent
    && sub.spec.skills == t.skills && sub.spec.priority == t.priority && sub.spec.deadline == t.deadline
    && sub.spec.tokens == t.tokens && sub.spec.maxAttempts == t.maxAttempts && sub.spec.reworkOf == t.reworkOf
    && sub.spec.deps == [] && sub.attempt == 0 && sub.state == Ready && sub.version == 1 && sub.assignee == "" && sub.lease == ""
  }

  lemma ChildDeclaredAsStored(db: DB, key: string, parentId: string, token: int, version: int, childId: string,
                              task: DelegateSpec, source: Actor, now: int)
    requires parentId in db.subtasks && db.subtasks[parentId].id == parentId && Normalize(task.grants).Some?
    requires Inv(db)
    ensures var r := SpawnSubtask(db, key, parentId, token, version, ChildOf(db.subtasks[parentId], childId, task), source, now);
      r.1.Ok? ==> childId !in db.subtasks && ChildAsDeclared(r.0.subtasks, parentId, childId, task)
  {
    hide Inv, SpawnSubtask, Normalize, Charges.Holds, Charges.ReservedFor, Subset;
    var child := ChildOf(db.subtasks[parentId], childId, task);
    if SpawnSubtask(db, key, parentId, token, version, child, source, now).1.Ok? {
      Charges.DelegationReserves(db, key, parentId, token, version, child, source, now);
      Charges.DelegationAccepted(db, key, parentId, token, version, child, source, now);
    }
  }

  ghost predicate DelegateAllowed(db: DB, key: string, parentId: string, token: int, task: DelegateSpec, source: Actor,
                                  limits: Limits)
  {
    && key != "" && parentId != "" && source.kind == "agent" && task.tokens >= 0 && Normalize(task.grants).Some?
    && parentId in db.subtasks && db.subtasks[parentId].state == Running
    && Owns(db, parentId, token, source.id, true)
    && db.subtasks[parentId].spec.mission in db.missions
    && db.missions[db.subtasks[parentId].spec.mission].status == Active
    && Permissions.Subset(db.subtasks[parentId].spec.grants, Normalize(task.grants).value)
    && WithinLimits(db.subtasks, parentId, task.reworkOf, limits)
  }

  lemma ChildIsNew(db: DB, parentId: string, childId: string, task: DelegateSpec)
    requires Inv(db) && parentId in db.subtasks && parentId != "" && childId != "" && Normalize(task.grants).Some?
    ensures NewChild(db, parentId, ChildOf(db.subtasks[parentId], childId, task))
  {
    SubtaskFacts(db, parentId);
    NormalizeIdempotent(task.grants);
    hide Inv, Normalize;
  }

  lemma StoredIds(db: DB, parentId: string)
    requires Inv(db) && parentId in db.subtasks
    ensures "" !in db.subtasks
  {
    if "" in db.subtasks {
      SubtaskFacts(db, "");
    }
  }

  // ---- helpers about the calls ----

  ghost predicate Owns(db: DB, id: string, token: int, agent: string, active: bool) {
    && id in db.subtasks && db.subtasks[id].lease != "" && agent != "" && db.subtasks[id].lease in db.leases
    && var l := db.leases[db.subtasks[id].lease];
       l.agent == agent && l.subtask == id && l.token == token && (active ==> l.state == LActive)
  }

  /** The agent holds the ACTIVE lease of the RUNNING subtask at this version. */
  ghost predicate AtWorkFor(db: DB, id: string, token: int, expected: int, agent: string) {
    agent != "" && Outcomes.AtWork(db, id, token, expected) && db.leases[db.subtasks[id].lease].agent == agent
  }

  lemma OwnerAtWork(db: DB, id: string, token: int, expected: int, agent: string)
    requires Inv(db)
    ensures AtWorkFor(db, id, token, expected, agent) ==> Owns(db, id, token, agent, true) && Owns(db, id, token, agent, false)
    ensures Owns(db, id, token, agent, false) ==>
      (AtWorkFor(db, id, token, expected, agent) <==> Outcomes.AtWork(db, id, token, expected))
    ensures Owns(db, id, token, agent, true) ==> Owns(db, id, token, agent, false)
  {
    NoEmptyLease(db);
    if id in db.subtasks {
      SubtaskFacts(db, id);
    }
    hide Inv;
  }

  /** What the caller learns: a completed subtask is stored with the result under the key, a duplicate names what
      was stored before, and after an error nothing has changed. */
  ghost predicate CompletionReply(db: DB, d: DB, id: string, key: string, ref: string, r: Result<Subtask>) {
    match r
    case Ok(sub) =>
      && id in d.subtasks && d.subtasks[id] == sub && sub.state == Succeeded && sub.resultRef == ref
      && key !in db.idem && key in d.idem && d.idem[key] == ref
    case Duplicate(sub) => key in db.idem && d.idem == db.idem && id in db.subtasks && sub == db.subtasks[id]
    case Err(_) => d == db
  }

  lemma RefusalReply(db: DB, id: string, key: string, ref: string)
    ensures forall e :: CompletionReply(db, db, id, key, ref, Err(e)) && FailureReply(db, db, id, Err(e))
  {}

  lemma CompletionAnswers(db: DB, id: string, token: int, key: string, ref: string, usage: int, expected: int,
                          agent: string, now: int)
    requires Inv(db)
    ensures var r := StoreSpec.CompleteSubtask(db, id, token, key, ref, usage, expected, Actor("agent", agent), now).1;
      Owns(db, id, token, agent, false) ==>
        && (r.Ok? <==> AtWorkFor(db, id, token, expected, agent) && key !in db.idem && Charges.Affordable(db, id, usage))
        && (r.Duplicate? <==> key in db.idem)
    ensures AtWorkFor(db, id, token, expected, agent) ==> Owns(db, id, token, agent, false)
  {
    OwnerAtWork(db, id, token, expected, agent);
    Charges.CompletionAccepted(db, id, token, key, ref, usage, expected, Actor("agent", agent), now);
    hide Inv, StoreSpec.CompleteSubtask, Charges.Affordable, Charges.Holds, AtWorkFor;
  }

  /** What the caller learns of a failure: the stored subtask, READY for the next attempt while attempts are left,
      FAILED otherwise; after an error nothing has changed. */
  ghost predicate FailureReply(db: DB, d: DB, id: string, r: Result<Subtask>) {
    match r
    case Ok(sub) =>
      && id in d.subtasks && d.subtasks[id] == sub && id in db.subtasks
      && (if db.subtasks[id].attempt < db.subtasks[id].spec.maxAttempts
          then sub.state == Ready && sub.attempt == db.subtasks[id].attempt + 1 && sub.assignee == "" && sub.lease == ""
          else sub.state == Failed && sub.attempt == db.subtasks[id].attempt)
    case Duplicate(_) => false
    case Err(_) => d == db
  }

  lemma FailureAnswers(db: DB, id: string, token: int, reason: string, expected: int, agent: string, now: int)
    requires Inv(db)
    ensures var r := StoreSpec.FailSubtask(db, id, token, reason, expected, Actor("agent", agent), now).1;
      Owns(db, id, token, agent, true) ==> (r.Ok? <==> AtWorkFor(db, id, token, expected, agent))
    ensures AtWorkFor(db, id, token, expected, agent) ==> Owns(db, id, token, agent, true)
  {
    OwnerAtWork(db, id, token, expected, agent);
    Charges.FailureAccepted(db, id, token, reason, expected, Actor("agent", agent), now);
    hide Inv, StoreSpec.FailSubtask, Charges.Holds, AtWorkFor;
  }

  lemma FailureRefused(db: DB, id: string, token: int, reason: string, expected: int, actor: Actor, now: int)
    requires Inv(db) && !StoreSpec.FailSubtask(db, id, token, reason, expected, actor, now).1.Ok?
    ensures var r := StoreSpec.FailSubtask(db, id, token, reason, expected, actor, now);
      && r.0 == db && FailStep(db, id, token, reason, expected, actor, now, db) && FailureReply(db, db, id, r.1)
  {
    hide Inv, StoreSpec.FailSubtask, Charges.Holds, Transition, Becomes;
    Charges.FailureAccepted(db, id, token, reason, expected, actor, now);
  }

  lemma RetryAnswers(db: DB, id: string, reason: string, now: int)
    requires id in db.subtasks && db.subtasks[id].id == id && db.subtasks[id].state == Failed
    ensures var r := Transition(db, id, EvRetried, db.subtasks[id].version, Orchestrating, map["reason" := JStr(reason)], now,
                                RetryMutation);
      r.1.Ok? && id in r.0.subtasks && r.0.subtasks[id] == r.1.value
  {}

  lemma FailureRetried(db: DB, id: string, token: int, reason: string, expected: int, actor: Actor, now: int, d: DB)
    requires Inv(db) && StoreSpec.FailSubtask(db, id, token, reason, expected, actor, now).1.Ok?
    requires var r := StoreSpec.FailSubtask(db, id, token, reason, expected, actor, now);
      && r.1.value.attempt < r.1.value.spec.maxAttempts
      && d == Transition(r.0, id, EvRetried, r.1.value.version, Orchestrating, map["reason" := JStr(reason)], now,
                         RetryMutation).0
    ensures FailStep(db, id, token, reason, expected, actor, now, d)
    ensures id in d.subtasks && FailureReply(db, d, id, Ok(d.subtasks[id]))
  {
    hide Inv, StoreSpec.FailSubtask, Charges.Holds, Transition, Becomes, Charges.SameMoney;
    Charges.FailureAccepted(db, id, token, reason, expected, actor, now);
    Charges.FailureEnds(db, id, token, reason, expected, actor, now);
    assert Does(db, Fail(id, token, reason, expected), Limits(0, 0, 0), actor, now, d);
    Outcomes.FailureIsRetried(db, id, token, reason, expected, Limits(0, 0, 0), actor, now, d);
  }

  lemma FailureFinal(db: DB, id: string, token: int, reason: string, expected: int, actor: Actor, now: int, d: DB)
    requires Inv(db) && StoreSpec.FailSubtask(db, id, token, reason, expected, actor, now).1.Ok?
    requires var r := StoreSpec.FailSubtask(db, id, token, reason, expected, actor, now);
      && r.1.value.attempt >= r.1.value.spec.maxAttempts && Becomes(r.0, d, Cascade(BoardOf(r.0), id))
    ensures FailStep(db, id, token, reason, expected, actor, now, d)
    ensures FailureReply(db, d, id, StoreSpec.FailSubtask(db, id, token, reason, expected, actor, now).1)
  {
    hide Inv, StoreSpec.FailSubtask, Charges.Holds, Transition, Becomes, Charges.SameMoney, Charges.Charged, Outcomes.Severed;
    Charges.FailureAccepted(db, id, token, reason, expected, actor, now);
    Charges.FailureEnds(db, id, token, reason, expected, actor, now);
    assert Does(db, Fail(id, token, reason, expected), Limits(0, 0, 0), actor, now, d);
    Outcomes.FailureIsFinal(db, id, token, reason, expected, Limits(0, 0, 0), actor, now, d);
  }

  lemma CompletionReplied(db: DB, id: string, token: int, key: string, ref: string, usage: int, expected: int,
                          actor: Actor, now: int, d: DB)
    requires Inv(db) && CompleteStep(db, id, token, key, ref, usage, expected, actor, now, d)
    ensures CompletionReply(db, d, id, key, ref,
                            StoreSpec.CompleteSubtask(db, id, token, key, ref, usage, expected, actor, now).1)
  {
    hide Inv, StoreSpec.CompleteSubtask, Reaches, Flow.Propagate, Charges.Affordable, Charges.Holds;
    Charges.CompletionAccepted(db, id, token, key, ref, usage, expected, actor, now);
    var r := StoreSpec.CompleteSubtask(db, id, token, key, ref, usage, expected, actor, now);
    if r.1.Ok? {
      Charges.CompletionEnds(db, id, token, key, ref, usage, expected, actor, now);
      SettledStays(BoardOf(r.0), r.1.value.spec.mission, id);
    }
  }

  lemma SettledStays(b: Board, m: string, id: string)
    requires id in b.subs && b.subs[id].state != Pending
    ensures var d := Flow.Propagate(b, m); id in d.subs && d.subs[id] == b.subs[id]
  {
    hide StatesOf, StatusOf;
  }

  lemma CompleteRejected(db: DB, id: string, token: int, key: string, ref: string, usage: int, expected: int,
                         actor: Actor,
                         now: int)
    ensures var r := StoreSpec.CompleteSubtask(db, id, token, key, ref, usage, expected, actor, now); !r.1.Ok? ==> r.0 == db
  {
    hide Apply, FencingOk, SettleHold, Retire, Enqueue, Move;
  }

  lemma FailRejected(db: DB, id: string, token: int, reason: string, expected: int, actor: Actor, now: int)
    ensures var r := StoreSpec.FailSubtask(db, id, token, reason, expected, actor, now); !r.1.Ok? ==> r.0 == db
  {
    hide Apply, FencingOk, ReleaseHold, Retire, Move;
  }

  lemma ListsElements(order: seq<string>, s: set<string>)
    requires Lists(order, s)
    ensures Elements(order) == s
  {}

  /** The swept subtasks are stored and FAILED. */
  lemma SweptFailed(db: DB, order: seq<string>, failed: seq<string>, now: int)
    requires Inv(db) && Lists(order, db.subtasks.Keys) && Lists(failed, ExpiredWakes(db, now))
    ensures var d := StoreSpec.ExpireWakes(db, order, now);
      forall i :: 0 <= i < |failed| ==> failed[i] in d.subtasks && d.subtasks[failed[i]].state == Failed
  {
    InvOwnKeys(db);
    hide Inv;
    WakesLand(db, order, now);
    hide StoreSpec.ExpireWakes, WakeExpired;
    forall i | 0 <= i < |failed| ensures failed[i] in ExpiredWakes(db, now) {
      assert failed[i] in failed;
    }
  }

  lemma CascadeAllGrows(b: Board, sources: seq<string>, i: nat)
    ensures CascadeAll(b, sources[..0]) == b
    ensures i < |sources| ==> CascadeAll(b, sources[..i + 1]) == Cascade(CascadeAll(b, sources[..i]), sources[i])
  {
    if i < |sources| {
      assert sources[..i + 1][..i] == sources[..i];
    }
  }

  /** Cascades leave finished subtasks and all declarations alone. */
  lemma {:induction false} CascadeAllLeaves(b: Board, sources: seq<string>, id: string)
    requires id in b.subs && b.subs[id].state == Failed
    ensures id in CascadeAll(b, sources).subs
    ensures CascadeAll(b, sources).subs[id].state == Failed && CascadeAll(b, sources).subs[id].spec == b.subs[id].spec
  {
    hide Cascade;
    if sources != [] {
      CascadeAllLeaves(b, sources[..|sources| - 1], id);
      CascadeLeaves(CascadeAll(b, sources[..|sources| - 1]), sources[|sources| - 1], id);
    }
  }

  lemma CascadeLeaves(b: Board, source: string, id: string)
    requires id in b.subs && b.subs[id].state == Failed
    ensures id in Cascade(b, source).subs
    ensures Cascade(b, source).subs[id].state == Failed && Cascade(b, source).subs[id].spec == b.subs[id].spec
  {
    if source in b.subs {
      CulledStates(b.subs, b.subs[source].spec.mission, source);
      hide Culled, StatusOf, StatesOf;
    }
  }

  ghost predicate Unfinished(subs: map<string, Subtask>, m: string, id: string) {
    id in subs && subs[id].spec.mission == m && !subs[id].state.Terminal()
  }

  /** Exactly these subtasks have lost their reservations, and their leases are over. */
  ghost predicate Freed(db: DB, d: DB, ids: set<string>) {
    && (forall id :: Charges.Pledge(d, id) == if id in ids then None else Charges.Pledge(db, id))
    && (forall id :: id in ids && id in db.subtasks && db.subtasks[id].lease in d.leases ==>
          d.leases[db.subtasks[id].lease].state != LActive)
  }

  ghost function HandledOf(subs: map<string, Subtask>, m: string, handled: set<string>): set<string> {
    set id | id in handled && Unfinished(subs, m, id)
  }

  /** The cancellation of a mission under way. */
  ghost predicate Cancelling(db: DB, d: DB, m: string, handled: set<string>) {
    CancellingBoard(db, d, m, handled) && Freed(db, d, HandledOf(db.subtasks, m, handled))
  }

  ghost predicate CancellingBoard(db: DB, d: DB, m: string, handled: set<string>) {
    Sound(db, d) && Reaches(db, d) && d.missions == db.missions && d.subtasks == PartCancelled(db.subtasks, m, handled)
  }

  lemma FreedMore(db: DB, d: DB, c: DB, ids: set<string>, id: string)
    requires Freed(db, d, ids) && id in d.subtasks && id in db.subtasks && db.subtasks[id].lease == d.subtasks[id].lease
    requires if Charges.Pledge(d, id).Some? then Charges.Charged(d, c, id, 0, HReleased) else Charges.SameMoney(d, c)
    requires var l := d.subtasks[id].lease;
      c.leases == if l in d.leases && d.leases[l].state == LActive then d.leases[l := d.leases[l].(state := LReleased)]
                  else d.leases
    ensures Freed(db, c, ids + {id})
  {
    forall x ensures Charges.Pledge(c, x) == if x == id then None else Charges.Pledge(d, x) {}
  }

  lemma StatusKeepsFreed(db: DB, d: DB, m: string, status: MissionStatus, expected: int, actor: Actor, now: int)
    requires m in d.missions && d.missions[m].version == expected
    ensures forall ids :: Freed(db, d, ids) ==> Freed(db, StoreSpec.SetMissionStatus(d, m, status, expected, actor, now).0, ids)
  {
    StatusUnfolds(d, m, status, expected, actor, now);
    var c := StoreSpec.SetMissionStatus(d, m, status, expected, actor, now).0;
    hide StoreSpec.SetMissionStatus;
    forall x ensures Charges.Pledge(c, x) == Charges.Pledge(d, x) {}
  }

  ghost function PartCancelled(base: map<string, Subtask>, m: string, handled: set<string>): map<string, Subtask> {
    map id | id in base :: if id in handled && base[id].spec.mission == m && !base[id].state.Terminal()
                           then Moving(base[id], Cancelled).(assignee := "", lease := "") else base[id]
  }

  lemma CancellingStarts(db: DB, m: string)
    requires Inv(db)
    ensures Cancelling(db, db, m, {})
  {
    hide Inv;
    ReachesItself(db);
    Unchanged(db);
    assert HandledOf(db.subtasks, m, {}) == {};
  }

  lemma CancelNone(db: DB, d: DB, m: string, handled: set<string>, sub: Subtask)
    requires Cancelling(db, d, m, handled) && sub.id in db.subtasks && db.subtasks[sub.id] == sub
    requires sub.state.Terminal()
    ensures Cancelling(db, d, m, handled + {sub.id})
  {
    hide Freed, CancellingBoard;
    assert HandledOf(db.subtasks, m, handled + {sub.id}) == HandledOf(db.subtasks, m, handled);
    BoardNone(db, d, m, handled, sub);
  }

  lemma BoardNone(db: DB, d: DB, m: string, handled: set<string>, sub: Subtask)
    requires CancellingBoard(db, d, m, handled) && sub.id in db.subtasks && db.subtasks[sub.id] == sub
    requires sub.state.Terminal()
    ensures CancellingBoard(db, d, m, handled + {sub.id})
  {
    hide Sound, Reaches;
  }

  lemma CancelOne(db: DB, d: DB, m: string, handled: set<string>, sub: Subtask, actor: Actor, now: int)
    requires Cancelling(db, d, m, handled) && sub.id in db.subtasks && db.subtasks[sub.id] == sub && sub.id !in handled
    requires sub.spec.mission == m && !sub.state.Terminal()
    ensures Cancelling(db, StoreSpec.CancelSubtask(d, sub.id, sub.version, actor, now).0, m, handled + {sub.id})
  {
    hide Inv, Grows, Reaches, StoreSpec.CancelSubtask, Freed, Charges.Charged, Charges.SameMoney;
    var c := StoreSpec.CancelSubtask(d, sub.id, sub.version, actor, now).0;
    assert d.subtasks[sub.id] == sub;
    Charges.CancellationFrees(d, sub.id, sub.version, actor, now);
    Charges.CancellationEnds(d, sub.id, sub.version, actor, now);
    FreedMore(db, d, c, HandledOf(db.subtasks, m, handled), sub.id);
    assert HandledOf(db.subtasks, m, handled + {sub.id}) == HandledOf(db.subtasks, m, handled) + {sub.id};
    StepReaches(d, Call(OpCancel(sub.id, sub.version), actor, now));
    ReachesThen(db, d, c);
    CancelSubtaskKeeps(d, sub.id, sub.version, actor, now);
    CancelMoves(d, sub, actor, now);
    SoundThen(db, d, c);
    assert c.subtasks == d.subtasks[sub.id := Moving(sub, Cancelled).(assignee := "", lease := "")];
  }

  lemma CancelMoves(d: DB, sub: Subtask, actor: Actor, now: int)
    requires Inv(d) && sub.id in d.subtasks && d.subtasks[sub.id] == sub && !sub.state.Terminal()
    ensures var c := StoreSpec.CancelSubtask(d, sub.id, sub.version, actor, now).0;
      && c.missions == d.missions
      && c.subtasks == d.subtasks[sub.id := Moving(sub, Cancelled).(assignee := "", lease := "")]
  {
    hide Inv, Apply, ReleaseHold, Retire;
    TableShape(sub.state, EvCancelled);
    ReleaseIsLedgerStep(d, sub, "cancelled", actor, now);
    LedgerStepOffBoard(d, ReleaseHold(d, sub, "cancelled", actor, now));
    var cancelled := Moving(sub, Cancelled).(assignee := "", lease := "");
    RetireOffBoard(Move(ReleaseHold(d, sub, "cancelled", actor, now), cancelled, EvCancelled, map[], actor, now),
                   sub.lease,
                   LReleased);
  }

  lemma CancellingEnds(db: DB, d: DB, m: string, handled: set<string>)
    requires Cancelling(db, d, m, handled) && forall id :: InMission(db.subtasks, m, id) ==> id in handled
    ensures Freed(db, d, set id | id in db.subtasks && Unfinished(db.subtasks, m, id))
    ensures Sound(db, d) && Reaches(db, d) && d.missions == db.missions
    ensures CancelledBoard(BoardOf(db), m)
         == Board(d.subtasks, if m in d.missions
                              then d.missions[m := d.missions[m].(status := MCancelled, version := d.missions[m].version + 1)]
                              else d.missions)
  {
    hide Freed, CancellingBoard;
    assert HandledOf(db.subtasks, m, handled) == set id | id in db.subtasks && Unfinished(db.subtasks, m, id);
    BoardEnds(db, d, m, handled);
  }

  lemma BoardEnds(db: DB, d: DB, m: string, handled: set<string>)
    requires CancellingBoard(db, d, m, handled) && forall id :: InMission(db.subtasks, m, id) ==> id in handled
    ensures Sound(db, d) && Reaches(db, d) && d.missions == db.missions
    ensures CancelledBoard(BoardOf(db), m)
         == Board(d.subtasks, if m in d.missions
                              then d.missions[m := d.missions[m].(status := MCancelled, version := d.missions[m].version + 1)]
                              else d.missions)
  {
    hide Sound, Reaches;
  }

  lemma DagParts(tasks: seq<Task>)
    requires ValidDag(tasks)
    ensures Named(tasks) && Known(tasks)
  {}

  lemma CreateAnswers(db: DB, m: Mission, subs: seq<Subtask>, actor: Actor, now: int)
    ensures var r := StoreSpec.CreateMission(db, m, subs, actor, now);
      && !r.1.Duplicate? && (r.1.Ok? <==> m.id !in db.missions) && (!r.1.Ok? ==> r.0 == db)
  {
    hide AddSubtasks, OpenMission;
  }

  lemma AdvancedBecomes(a: DB, b: DB)
    requires Advanced(a, b)
    ensures Becomes(a, b, Board(b.subtasks, a.missions))
  {
    hide Inv, Grows, Reaches;
  }

  lemma AdvancedParts(a: DB, b: DB)
    requires Advanced(a, b)
    ensures Sound(a, b) && Inv(b) && b.missions == a.missions
  {}

  /** A further pass of both reconcilers would change nothing. */
  ghost predicate Repaired(b: Board) {
    RootsReadied(b.subs) == b.subs && forall m :: m in Successful(b.subs) ==> Flow.Propagate(b, m) == b
  }

  lemma AdvancedInv(a: DB, b: DB)
    requires Advanced(a, b)
    ensures Inv(b)
  {}

  lemma ThenBecomes(db: DB, mid: DB, d: DB, b: Board)
    requires Advanced(db, mid) && Becomes(mid, d, b)
    ensures Becomes(db, d, b)
  {
    hide Inv, Grows, Reaches;
    ReachesThen(db, mid, d);
  }

  lemma ListedStates(subs: seq<Subtask>, base: map<string, Subtask>, m: string, states: seq<State>)
    requires Listing(subs, base, m) && |states| == |subs| && forall j :: 0 <= j < |subs| ==> states[j] == subs[j].state
    ensures (set s | s in states) == StatesOf(base, m)
  {
    forall s | s in states ensures s in StatesOf(base, m) {
      var j :| 0 <= j < |states| && states[j] == s;
      assert subs[j].id in base;
    }
    forall s | s in StatesOf(base, m) ensures s in states {
      var id :| id in base && base[id].spec.mission == m && base[id].state == s;
      assert Names(subs, id);
      var j :| 0 <= j < |subs| && subs[j].id == id;
      assert states[j] == s;
    }
  }

  /** A mission whose subtasks give it a final status is stored. */
  lemma FinishedIsStored(db: DB, m: string)
    requires Inv(db)
    ensures m in db.missions || StatusOf(StatesOf(db.subtasks, m)) == Active
  {
    if StatesOf(db.subtasks, m) != {} {
      var s :| s in StatesOf(db.subtasks, m);
      var id :| id in db.subtasks && db.subtasks[id].spec.mission == m && db.subtasks[id].state == s;
      SubtaskFacts(db, id);
    }
  }

  lemma SetStatusBoard(db: DB, m: string, status: MissionStatus, actor: Actor, now: int)
    requires m in db.missions
    ensures var d := StoreSpec.SetMissionStatus(db, m, status, db.missions[m].version, actor, now).0;
      && OnlyFlow(db, d) && d.subtasks == db.subtasks
      && d.missions == db.missions[m := db.missions[m].(status := status, version := db.missions[m].version + 1)]
    ensures StoreSpec.SetMissionStatus(db, m, status, db.missions[m].version, actor, now).1 == Ok(())
  {}

  /** The cascade under way: `culled` are cancelled, all of them doomed, one event each. */
  ghost predicate Culling(db: DB, d: DB, source: string, m: string, culled: set<string>, dead: set<string>) {
    && Progress(db, d, culled, Cancelled) && dead == {source} + culled
    && forall id :: id in culled ==> Doomed(db.subtasks, m, source, id)
  }

  lemma CullingStarts(db: DB, source: string, m: string)
    requires Inv(db)
    ensures Culling(db, db, source, m, {}, {source})
  {
    hide Inv, Progress;
    ProgressStarts(db, Cancelled);
    assert {source} + {} == {source};
  }

  lemma CullingWithin(db: DB, d: DB, source: string, m: string, culled: set<string>, dead: set<string>)
    requires Culling(db, d, source, m, culled, dead)
    ensures culled <= db.subtasks.Keys
  {}

  lemma CullingEnds(db: DB, d: DB, source: string, m: string, culled: set<string>, dead: set<string>,
                    subs: seq<Subtask>)
    requires Culling(db, d, source, m, culled, dead) && Listing(subs, db.subtasks, m)
    requires source in db.subtasks && db.subtasks[source].state != Pending
    requires forall j :: 0 <= j < |subs| ==> Spared(subs[j], dead)
    ensures Advanced(db, d) && d.subtasks == Culled(db.subtasks, m, source)
    ensures d.eventSeq == db.eventSeq + |set id | id in db.subtasks && Doomed(db.subtasks, m, source, id)|
  {
    hide Advanced, PartMoved, Culled, Doomed, Listing, Spared;
    SparedIsAll(db.subtasks, m, source, culled, subs);
    AllCulled(db.subtasks, m, source, culled);
    assert culled == set id | id in db.subtasks && Doomed(db.subtasks, m, source, id);
  }

  /** A record the cascade does not reach with this dead set. */
  ghost predicate Spared(sub: Subtask, dead: set<string>) {
    sub.state != Pending || sub.id in dead || forall d :: d in sub.spec.deps ==> d !in dead
  }

  lemma HitIsDoomed(base: map<string, Subtask>, m: string, source: string, culled: set<string>, sub: Subtask)
    requires InMission(base, m, sub.id) && base[sub.id] == sub && sub.state == Pending
    requires forall id :: id in culled ==> Doomed(base, m, source, id)
    requires exists d :: d in sub.spec.deps && d in {source} + culled
    ensures Doomed(base, m, source, sub.id)
  {
    hide Doomed;
    var d :| d in sub.spec.deps && d in {source} + culled;
    assert Dep(base, sub.id, d);
    DoomedIsFixpoint(base, m, source, sub.id);
  }

  lemma SmallerRest(all: set<string>, start: set<string>, culled: set<string>)
    requires start <= culled <= all
    ensures |all - culled| <= |all - start| && (start < culled ==> |all - culled| < |all - start|)
  {
    assert all - start == (all - culled) + (culled - start);
    if start < culled {
      var x :| x in culled && x !in start;
      assert culled - start == {x} + (culled - start - {x});
    }
  }

  /** When a whole pass spares every record, the culled set is closed, hence the doomed set. */
  lemma SparedIsAll(base: map<string, Subtask>, m: string, source: string, culled: set<string>, subs: seq<Subtask>)
    requires Listing(subs, base, m)
    requires forall id :: id in culled ==> Doomed(base, m, source, id)
    requires forall j :: 0 <= j < |subs| ==> Spared(subs[j], {source} + culled)
    requires source in base && base[source].state != Pending
    ensures forall id :: id in culled <==> Doomed(base, m, source, id)
  {
    hide Doomed;
    forall id, d | Dep(base, id, d) && base[id].spec.mission == m && base[id].state == Pending && (d == source || d in culled)
      ensures id in culled
    {
      assert Names(subs, id);
      var j :| 0 <= j < |subs| && subs[j].id == id;
      assert Spared(subs[j], {source} + culled);
    }
    assert ClosedUnder(base, m, source, culled);
    DoomedWithin(base, m, source, culled);
  }
}
