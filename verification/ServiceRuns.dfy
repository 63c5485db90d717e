/** Service runs seen from the store, and the missions that the deadlock theorem leaves out. */
module ServiceRuns {
  import opened Basics
  import opened StateMachine
  import opened Records
  import opened StoreSpec
  import opened Invariants
  import opened StoreOps
  import opened StoreRuns
  import opened Flow
  import opened FlowKeeps
  import opened FlowChanges
  import opened Orchestrator
  import opened Delegation
  import opened DelegationRuns
  import opened Dag
  import opened Plans

  // ---- every service call is a sequence of store calls ----

  lemma TransitionReaches(db: DB, id: string, ev: EventType, expected: int, actor: Actor, extra: Json0, now: int,
                          mut: Mutation)
    requires ServiceEvent(ev) && (mut.RetryMutation? ==> ev == EvRetried)
    ensures Reaches(db, Transition(db, id, ev, expected, actor, extra, now, mut).0)
  {
    hide Transition, Reaches, ServiceEvent;
    StepReaches(db, Call(OpTransition(id, ev, expected, extra, mut), actor, now));
  }

  lemma BecomesReaches(db: DB, r: DB, d: DB, b: Board)
    requires Reaches(db, r) && Becomes(r, d, b)
    ensures Reaches(db, d)
  {
    ReachesThen(db, r, d);
  }

  lemma FailReaches(db: DB, id: string, token: int, reason: string, expected: int, actor: Actor, now: int, d: DB)
    requires FailStep(db, id, token, reason, expected, actor, now, d)
    ensures Reaches(db, d)
  {
    hide Reaches, Becomes, FailSubtask, Transition, Cascade;
    var r := FailSubtask(db, id, token, reason, expected, actor, now);
    StepReaches(db, Call(OpFail(id, token, reason, expected), actor, now));
    if !r.1.Ok? {
      ReachesItself(db);
    } else if r.1.value.attempt < r.1.value.spec.maxAttempts {
      TransitionReaches(r.0, id, EvRetried, r.1.value.version, Orchestrating, map["reason" := JStr(reason)], now,
                        RetryMutation);
      ReachesThen(db, r.0, d);
    } else {
      BecomesReaches(db, r.0, d, Cascade(BoardOf(r.0), id));
    }
  }

  lemma OutcomeReaches(db: DB, decision: string, now: int, d: DB)
    requires OutcomeStep(db, decision, now, d)
    ensures Reaches(db, d)
  {
    hide Reaches, Becomes, Transition, Cascade, OutcomePayload, Propagate;
    var dec := db.decisions[decision];
    if !Awaiting(db, dec) {
      ReachesItself(db);
    } else {
      var actor, sub := Actor("human", dec.decider), db.subtasks[dec.subtask];
      var ev := if dec.choice == REJECT then EvDecisionRejected else EvDecisionApproved;
      var r := Transition(db, dec.subtask, ev, sub.version, actor, OutcomePayload(dec), now, NoMutation).0;
      TransitionReaches(db, dec.subtask, ev, sub.version, actor, OutcomePayload(dec), now, NoMutation);
      if dec.choice == REJECT {
        BecomesReaches(db, r, d, Cascade(BoardOf(r), dec.subtask));
      } else if sub.spec.kind.Human() {
        HumanReaches(r, dec, sub.version + 1, now, d);
        ReachesThen(db, r, d);
      }
    }
  }

  lemma HumanReaches(db: DB, dec: Decision, v: int, now: int, d: DB)
    requires HumanStep(db, dec, v, now, d)
    ensures Reaches(db, d)
  {
    hide Reaches, Becomes, Transition, Propagate;
    var actor, extra := Actor("human", dec.decider), map["via" := JStr("human_decision")];
    var mut := ResultMutation("decision://" + dec.id);
    TransitionReaches(db, dec.subtask, EvCompleted, v, actor, extra, now, mut);
    var r := Transition(db, dec.subtask, EvCompleted, v, actor, extra, now, mut).0;
    BecomesReaches(db, r, d, Propagate(BoardOf(r), dec.mission));
  }

  lemma CompleteReaches(db: DB, id: string, token: int, key: string, ref: string, usage: int, expected: int,
                        actor: Actor, now: int, d: DB)
    requires CompleteStep(db, id, token, key, ref, usage, expected, actor, now, d)
    ensures Reaches(db, d)
  {
    hide Reaches, Becomes, CompleteSubtask, Propagate;
    var r := CompleteSubtask(db, id, token, key, ref, usage, expected, actor, now);
    StepReaches(db, Call(OpComplete(id, token, key, ref, usage, expected), actor, now));
    if r.1.Ok? {
      BecomesReaches(db, r.0, d, Propagate(BoardOf(r.0), r.1.value.spec.mission));
    } else {
      ReachesItself(db);
      if r.1.Duplicate? && r.1.value.state == Succeeded {
        BecomesReaches(db, db, d, Propagate(BoardOf(db), r.1.value.spec.mission));
      }
    }
  }

  lemma CreateReaches(db: DB, m: Mission, subs: seq<Subtask>, rank: map<string, nat>, actor: Actor, now: int, d: DB)
    requires CreateStep(db, m, subs, rank, actor, now, d)
    ensures Reaches(db, d)
  {
    hide Reaches, Becomes, CreateMission, Activated, NewRoots, ValidPlan;
    if m.id in db.missions {
      ReachesItself(db);
    } else {
      StepReaches(db, Call(OpCreateMission(m, subs), actor, now));
      var r := CreateMission(db, m, subs, actor, now).0;
      BecomesReaches(db, r, d, Board(Activated(r.subtasks, m.id), r.missions));
    }
  }

  lemma DelegateReaches(db: DB, key: string, parent: string, token: int, parentVersion: int, child: Subtask,
                        limits: Limits, actor: Actor, now: int, d: DB)
    requires DelegateStep(db, key, parent, token, parentVersion, child, limits, actor, now, d)
    ensures Reaches(db, d)
  {
    hide Reaches, SpawnSubtask, NewChild, MayDelegate;
    ReachesItself(db);
    StepReaches(db, Call(OpSpawn(key, parent, token, parentVersion, child), actor, now));
  }

  lemma SweepReaches(db: DB, order: seq<string>, failed: seq<string>, now: int, d: DB)
    requires SweepStep(db, order, failed, now, d)
    ensures Reaches(db, d)
  {
    hide Reaches, Becomes, ExpireWakes, ExpiredWakes, Lists, CascadeAll;
    StepReaches(db, Call(OpExpireWakes(order), System(""), now));
    var r := ExpireWakes(db, order, now);
    BecomesReaches(db, r, d, CascadeAll(BoardOf(r), failed));
  }

  /** Whatever a service call does, some sequence of admissible store calls does. */
  lemma ServiceReaches(db: DB, s: Service, limits: Limits, actor: Actor, now: int, d: DB)
    requires Does(db, s, limits, actor, now, d)
    ensures Reaches(db, d)
  {
    hide Reaches, Step, Admissible, BoardOf, Propagate, CancelledBoard, RootsBoard;
    hide CreateStep, CompleteStep, FailStep, OutcomeStep, SweepStep, DelegateStep;
    match s
    case Store(op) => StepReaches(db, Call(op, actor, now));
    case CreateMissionAs(m, subs, rank) => CreateReaches(db, m, subs, rank, actor, now, d);
    case CancelMissionAs(m) =>
    case Complete(id, token, key, ref, usage, expected) =>
      CompleteReaches(db, id, token, key, ref, usage, expected, actor, now, d);
    case Fail(id, token, reason, expected) => FailReaches(db, id, token, reason, expected, actor, now, d);
    case DecisionOutcome(decision) => OutcomeReaches(db, decision, now, d);
    case SweepWakes(order, failed) => SweepReaches(db, order, failed, now, d);
    case Delegate(key, parent, token, parentVersion, child) =>
      DelegateReaches(db, key, parent, token, parentVersion, child, limits, actor, now, d);
    case Reconcile(m) =>
    case ReconcileRoots =>
  }

  /** Every state of a service run is the end of a legal run of store calls, so what holds after every such
      run (event sourcing, the ledger, fencing) holds under the service. */
  lemma {:induction false} ServiceRunIsStoreRun(states: seq<DB>, limits: Limits, i: nat)
    requires ServiceRun(states, limits) && i < |states|
    ensures exists calls :: Legal(calls) && Run(calls) == states[i]
  {
    hide Does, Reaches;
    ServiceRunReaches(states, limits, i);
    ReachedIsRun(states[i]);
  }

  lemma {:induction false} ServiceRunReaches(states: seq<DB>, limits: Limits, i: nat)
    requires ServiceRun(states, limits) && i < |states|
    ensures Reaches(EMPTY, states[i])
  {
    hide Does, Reaches;
    if i == 0 {
      ReachesItself(EMPTY);
    } else {
      ServiceRunReaches(states, limits, i - 1);
      assert ServiceStep(states[i - 1], states[i], limits);
      var s, actor, now :| Does(states[i - 1], s, limits, actor, now, states[i]);
      ServiceReaches(states[i - 1], s, limits, actor, now, states[i]);
      ReachesThen(EMPTY, states[i - 1], states[i]);
    }
  }

  // ---- missions without subtasks ----

  /** An ACTIVE mission without a subtask: nobody can ever act on it. */
  ghost predicate Deserted(b: Board, m: string) {
    m in b.missions && b.missions[m].status == Active && Vacant(b.subs, m)
  }

  ghost predicate Vacant(subs: map<string, Subtask>, m: string) {
    forall id :: id in subs ==> subs[id].spec.mission != m
  }

  lemma DeriveDeserted(b: Board, x: string, m: string)
    requires Deserted(b, m)
    ensures Deserted(Derive(b, x), m)
  {
    forall id ensures !InMission(b.subs, m, id) {}
    NoStates(b.subs, m);
    hide StatesOf, Vacant;
  }

  lemma ShapeDeserted(a: Board, b: Board, m: string)
    requires Deserted(a, m) && SameShape(a.subs, b.subs) && SameStatus(a.missions, b.missions)
    ensures Deserted(b, m)
  {}

  lemma PropagateDeserted(b: Board, x: string, m: string)
    requires Deserted(b, m)
    ensures Deserted(Propagate(b, x), m)
  {
    var r := b.(subs := Readied(b.subs, x));
    assert Deserted(r, m) by {
      hide Readied;
      ReadiedStates(b.subs, x);
    }
    hide Readied, Derive, Deserted;
    DeriveDeserted(r, x, m);
  }

  lemma CascadeDeserted(b: Board, source: string, m: string)
    requires Deserted(b, m)
    ensures Deserted(Cascade(b, source), m)
  {
    hide Culled, Derive;
    if source in b.subs {
      var x := b.subs[source].spec.mission;
      CulledStates(b.subs, x, source);
      var r := b.(subs := Culled(b.subs, x, source));
      assert Deserted(r, m);
      hide Deserted;
      DeriveDeserted(r, x, m);
    }
  }

  lemma {:induction false} CascadesDeserted(b: Board, sources: seq<string>, m: string)
    requires Deserted(b, m)
    ensures Deserted(CascadeAll(b, sources), m)
  {
    hide Deserted, Cascade;
    if sources != [] {
      CascadesDeserted(b, sources[..|sources| - 1], m);
      CascadeDeserted(CascadeAll(b, sources[..|sources| - 1]), sources[|sources| - 1], m);
    }
  }

  lemma MoveDeserted(db: DB, d: DB, id: string, m: string)
    requires Deserted(BoardOf(db), m) && OneMove(db, d, id)
    ensures Deserted(BoardOf(d), m)
  {}

  lemma TransitionDeserted(db: DB, id: string, ev: EventType, expected: int, actor: Actor, extra: Json0, now: int,
                           mut: Mutation, m: string)
    requires Inv(db) && Deserted(BoardOf(db), m)
    ensures Deserted(BoardOf(Transition(db, id, ev, expected, actor, extra, now, mut).0), m)
  {
    hide Inv, Transition, Deserted, BoardOf;
    var r := Transition(db, id, ev, expected, actor, extra, now, mut);
    if r.1.Ok? {
      TransitionMoves(db, id, ev, expected, actor, extra, now, mut);
      MoveDeserted(db, r.0, id, m);
    } else {
      TransitionRejected(db, id, ev, expected, actor, extra, now, mut);
    }
  }

  lemma CompleteDeserted(db: DB, id: string, token: int, key: string, ref: string, usage: int, expected: int,
                         actor: Actor, now: int, d: DB, m: string)
    requires Inv(db) && Deserted(BoardOf(db), m) && CompleteStep(db, id, token, key, ref, usage, expected, actor, now, d)
    ensures Deserted(BoardOf(d), m)
  {
    hide Inv, Deserted, BoardOf, CompleteSubtask, Propagate, Reaches, OnlyFlow;
    var r := CompleteSubtask(db, id, token, key, ref, usage, expected, actor, now);
    if r.1.Ok? {
      CompleteMoves(db, id, token, key, ref, usage, expected, actor, now);
      MoveDeserted(db, r.0, id, m);
      PropagateDeserted(BoardOf(r.0), r.1.value.spec.mission, m);
    } else if r.1.Duplicate? && r.1.value.state == Succeeded {
      PropagateDeserted(BoardOf(db), r.1.value.spec.mission, m);
    }
  }

  lemma FailDeserted(db: DB, id: string, token: int, reason: string, expected: int, actor: Actor, now: int, d: DB,
                     m: string)
    requires Inv(db) && Deserted(BoardOf(db), m) && FailStep(db, id, token, reason, expected, actor, now, d)
    ensures Deserted(BoardOf(d), m)
  {
    hide Inv, Deserted, BoardOf, FailSubtask, Cascade, Reaches, OnlyFlow, Transition, Grows;
    var r := FailSubtask(db, id, token, reason, expected, actor, now);
    if r.1.Ok? {
      FailMoves(db, id, token, reason, expected, actor, now);
      FailSubtaskKeeps(db, id, token, reason, expected, actor, now);
      MoveDeserted(db, r.0, id, m);
      TransitionDeserted(r.0, id, EvRetried, r.1.value.version, Orchestrating, map["reason" := JStr(reason)], now,
                         RetryMutation, m);
      CascadeDeserted(BoardOf(r.0), id, m);
    }
  }

  lemma OutcomeDeserted(db: DB, decision: string, now: int, d: DB, m: string)
    requires Inv(db) && Deserted(BoardOf(db), m) && OutcomeStep(db, decision, now, d)
    ensures Deserted(BoardOf(d), m)
  {
    hide Inv, Deserted, BoardOf, Transition, Cascade, Reaches, OnlyFlow, OutcomePayload, HumanStep, Grows;
    var dec := db.decisions[decision];
    if Awaiting(db, dec) {
      var actor, sub := Actor("human", dec.decider), db.subtasks[dec.subtask];
      var ev := if dec.choice == REJECT then EvDecisionRejected else EvDecisionApproved;
      var r := Transition(db, dec.subtask, ev, sub.version, actor, OutcomePayload(dec), now, NoMutation).0;
      TransitionDeserted(db, dec.subtask, ev, sub.version, actor, OutcomePayload(dec), now, NoMutation, m);
      if dec.choice == REJECT {
        CascadeDeserted(BoardOf(r), dec.subtask, m);
      } else if sub.spec.kind.Human() {
        TransitionKeeps(db, dec.subtask, ev, sub.version, actor, OutcomePayload(dec), now, NoMutation);
        HumanDeserted(r, dec, sub.version + 1, now, d, m);
      }
    }
  }

  lemma HumanDeserted(db: DB, dec: Decision, v: int, now: int, d: DB, m: string)
    requires Inv(db) && Deserted(BoardOf(db), m) && HumanStep(db, dec, v, now, d)
    ensures Deserted(BoardOf(d), m)
  {
    hide Inv, Deserted, BoardOf, Transition, Propagate, Reaches, OnlyFlow;
    var actor, extra := Actor("human", dec.decider), map["via" := JStr("human_decision")];
    var mut := ResultMutation("decision://" + dec.id);
    TransitionDeserted(db, dec.subtask, EvCompleted, v, actor, extra, now, mut, m);
    PropagateDeserted(BoardOf(Transition(db, dec.subtask, EvCompleted, v, actor, extra, now, mut).0), dec.mission, m);
  }

  lemma SweepDeserted(db: DB, order: seq<string>, failed: seq<string>, now: int, d: DB, m: string)
    requires Inv(db) && Deserted(BoardOf(db), m) && SweepStep(db, order, failed, now, d)
    ensures Deserted(BoardOf(d), m)
  {
    hide Inv, Deserted, BoardOf, ExpireWakes, ExpiredWakes, Lists, OwnKeys, CascadeAll, Reaches, OnlyFlow, SameShape,
      SameStatus;
    var r := ExpireWakes(db, order, now);
    AllOwnKeys(db);
    WakesLandOnBoard(db, order, failed, now);
    ShapeDeserted(BoardOf(db), BoardOf(r), m);
    CascadesDeserted(BoardOf(r), failed, m);
  }

  lemma CreateDeserted(db: DB, n: Mission, subs: seq<Subtask>, rank: map<string, nat>, actor: Actor, now: int, d: DB,
                       m: string)
    requires Inv(db) && Deserted(BoardOf(db), m) && CreateStep(db, n, subs, rank, actor, now, d)
    ensures Deserted(BoardOf(d), m)
  {
    hide Inv, CreateMission, WithSubtasks, ValidPlan, Reaches;
    if n.id !in db.missions {
      CreateAdds(db, n, subs, rank, actor, now);
      PlannedElsewhere(db.subtasks, n.id, subs, m);
      hide NewRoots, Activated, OnlyFlow;
      ActivatedShape(WithSubtasks(db.subtasks, subs), n.id);
    }
  }

  lemma PlannedElsewhere(subtasks: map<string, Subtask>, n: string, subs: seq<Subtask>, m: string)
    requires NewRoots(subtasks, n, subs) && n != m && Vacant(subtasks, m)
    ensures Vacant(WithSubtasks(subtasks, subs), m)
  {
    hide WithSubtasks;
    WithSubtasksContents(subtasks, subs);
    var all := WithSubtasks(subtasks, subs);
    forall id | id in all ensures all[id].spec.mission != m {
      if id !in subtasks {
        var i :| 0 <= i < |subs| && subs[i].id == id;
        assert NewRoot(n, subs[i]);
      }
    }
  }

  lemma DelegateDeserted(db: DB, key: string, parent: string, token: int, parentVersion: int, child: Subtask,
                         limits: Limits, actor: Actor, now: int, d: DB, m: string)
    requires Inv(db) && Deserted(BoardOf(db), m)
    requires DelegateStep(db, key, parent, token, parentVersion, child, limits, actor, now, d)
    ensures Deserted(BoardOf(d), m)
  {
    hide Inv, SpawnSubtask, WithinLimits;
    if d != db {
      SpawnRejected(db, key, parent, token, parentVersion, child, actor, now);
      SpawnAdds(db, key, parent, token, parentVersion, child, actor, now);
      DelegateAdds(db, key, parent, token, parentVersion, child, actor, now, m);
    }
  }

  lemma DelegateAdds(db: DB, key: string, parent: string, token: int, parentVersion: int, child: Subtask, actor: Actor,
                     now: int, m: string)
    requires Inv(db) && Deserted(BoardOf(db), m) && NewChild(db, parent, child) && parent in db.subtasks
    requires var d := SpawnSubtask(db, key, parent, token, parentVersion, child, actor, now).0;
      ChildAdded(BoardOf(db), BoardOf(d), child.spec.mission, child.id)
    ensures Deserted(BoardOf(SpawnSubtask(db, key, parent, token, parentVersion, child, actor, now).0), m)
  {
    hide Inv, SpawnSubtask;
  }

  lemma CancelDeserted(b: Board, x: string, m: string)
    requires Deserted(b, m) && x != m
    ensures Deserted(CancelledBoard(b, x), m)
  {}

  /** No service call but its own cancellation changes an ACTIVE mission without subtasks. */
  lemma DesertedStays(db: DB, s: Service, limits: Limits, actor: Actor, now: int, d: DB, m: string)
    requires Inv(db) && Stable(BoardOf(db)) && Deserted(BoardOf(db), m) && s != CancelMissionAs(m)
    requires Does(db, s, limits, actor, now, d)
    ensures Deserted(BoardOf(d), m)
  {
    hide Inv, Stable, Deserted, Step, Admissible, Reaches, OnlyFlow, BoardOf, Propagate, CancelledBoard, SameShape, SameStatus;
    hide CreateStep, CompleteStep, FailStep, OutcomeStep, SweepStep, DelegateStep;
    match s
    case Store(op) =>
      PassThroughQuiet(db, Call(op, actor, now));
      ShapeDeserted(BoardOf(db), BoardOf(d), m);
    case CreateMissionAs(n, subs, rank) => CreateDeserted(db, n, subs, rank, actor, now, d, m);
    case CancelMissionAs(x) => CancelDeserted(BoardOf(db), x, m);
    case Complete(id, token, key, ref, usage, expected) =>
      CompleteDeserted(db, id, token, key, ref, usage, expected, actor, now, d, m);
    case Fail(id, token, reason, expected) => FailDeserted(db, id, token, reason, expected, actor, now, d, m);
    case DecisionOutcome(decision) => OutcomeDeserted(db, decision, now, d, m);
    case SweepWakes(order, failed) => SweepDeserted(db, order, failed, now, d, m);
    case Delegate(key, parent, token, parentVersion, child) =>
      DelegateDeserted(db, key, parent, token, parentVersion, child, limits, actor, now, d, m);
    case Reconcile(x) => PropagateDeserted(BoardOf(db), x, m);
    case ReconcileRoots => ReconcilersIdle(db, m, limits, actor, now, d);
  }

  /** In every store state a task list without tasks is valid, and its mission is created, ACTIVE and
      without a subtask. */
  lemma EmptyMissionIsAccepted(db: DB, m: Mission, actor: Actor, now: int)
    requires Inv(db) && m.id !in db.missions && m.status == Active && |m.id| >= 4
    ensures ValidDag([]) && ValidGrants([]) && PlanOf(m.id, []) == []
    ensures var d := CreateMission(db, m, [], actor, now).0;
      CreateStep(db, m, PlanOf(m.id, []), map[], actor, now, d) && Deserted(BoardOf(d), m.id)
  {
    EmptyDag();
    hide ValidDag;
    CreatedEmpty(db, m, actor, now);
  }

  lemma EmptyDag()
    ensures ValidDag([])
  {
    var none: seq<Task> := [];
    forall path ensures !Cycle(none, path) {
      assert Cycle(none, path) ==> DependsOn(none, path[0], path[1]);
    }
  }

  lemma CreatedEmpty(db: DB, m: Mission, actor: Actor, now: int)
    requires Inv(db) && m.id !in db.missions && m.status == Active
    ensures var d := CreateMission(db, m, [], actor, now).0;
      CreateStep(db, m, [], map[], actor, now, d) && Deserted(BoardOf(d), m.id)
  {
    hide Inv, Reaches, CreateMission, Activated, NewRoots, ValidPlan, Vacant;
    var d := CreateMission(db, m, [], actor, now).0;
    NewIsVacant(db, m.id);
    NoRoots(db, m);
    CreateAdds(db, m, [], map[], actor, now);
    VacantActivated(db.subtasks, m.id);
    ReachesItself(d);
  }

  lemma NoRoots(db: DB, m: Mission)
    requires Inv(db) && m.status == Active
    ensures NewRoots(db.subtasks, m.id, []) && ValidPlan(m, [], map[]) && WithSubtasks(db.subtasks, []) == db.subtasks
  {
    hide Inv;
  }

  lemma VacantActivated(subs: map<string, Subtask>, m: string)
    requires Vacant(subs, m)
    ensures Activated(subs, m) == subs
  {}

  lemma NewIsVacant(db: DB, m: string)
    requires Inv(db) && m !in db.missions
    ensures Vacant(db.subtasks, m)
  {
    forall id | id in db.subtasks ensures db.subtasks[id].spec.mission != m {
      SubtaskFacts(db, id);
    }
  }

  ghost predicate CancelsMission(db: DB, d: DB, limits: Limits, m: string) {
    exists actor, now :: Does(db, CancelMissionAs(m), limits, actor, now, d)
  }

  /** The deadlock theorem needs its restriction to missions with subtasks: a mission without any stays
      ACTIVE, with nothing to act on, in every later state until somebody cancels it. */
  lemma {:induction false} EmptyMissionIsStuck(states: seq<DB>, limits: Limits, i: nat, j: nat, m: string)
    requires ServiceRun(states, limits) && i <= j < |states| && Deserted(BoardOf(states[i]), m)
    ensures Deserted(BoardOf(states[j]), m)
         || exists k :: i < k <= j && CancelsMission(states[k - 1], states[k], limits, m)
    decreases j
  {
    hide Inv, Stable, Does, Deserted, BoardOf;
    if i < j {
      EmptyMissionIsStuck(states, limits, i, j - 1, m);
      if Deserted(BoardOf(states[j - 1]), m) {
        ServiceRunKeeps(states, limits, j - 1);
        assert ServiceStep(states[j - 1], states[j], limits);
        var s, actor, now :| Does(states[j - 1], s, limits, actor, now, states[j]);
        if s == CancelMissionAs(m) {
          assert CancelsMission(states[j - 1], states[j], limits, m);
        } else {
          DesertedStays(states[j - 1], s, limits, actor, now, states[j], m);
        }
      }
    }
  }
}
