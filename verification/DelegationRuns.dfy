/** The delegation bounds over whole runs of the service. */
module DelegationRuns {
  import opened Basics
  import opened StateMachine
  import opened Records
  import opened StoreSpec
  import opened Invariants
  import opened StoreOps
  import opened StoreRuns
  import opened Flow
  import opened FlowKeeps
  import opened FlowChanges
  import opened Orchestrator
  import opened Delegation

  lemma ShapeRoots(a: map<string, Subtask>, b: map<string, Subtask>)
    requires SameShape(a, b)
    ensures RootsOnly(a, b)
  {}

  lemma ShapeThen(a: map<string, Subtask>, b: map<string, Subtask>, c: map<string, Subtask>)
    requires SameShape(a, b) && SameShape(b, c)
    ensures SameShape(a, c)
  {
    assert forall id :: id in a ==> id in b;
  }

  lemma MoveShape(db: DB, d: DB, id: string)
    requires OneMove(db, d, id)
    ensures SameShape(db.subtasks, d.subtasks)
  {}

  lemma PropagateShape(b: Board, m: string)
    ensures SameShape(b.subs, Propagate(b, m).subs)
  {
    ReadiedStates(b.subs, m);
  }

  lemma {:induction false} CascadesShape(b: Board, sources: seq<string>)
    ensures SameShape(b.subs, CascadeAll(b, sources).subs)
  {
    hide SameShape, Cascade;
    if sources == [] {
      SelfShape(b.subs);
    } else {
      var mid := CascadeAll(b, sources[..|sources| - 1]);
      CascadesShape(b, sources[..|sources| - 1]);
      CascadeShape(mid, sources[|sources| - 1]);
      ShapeThen(b.subs, mid.subs, CascadeAll(b, sources).subs);
    }
  }

  lemma SelfShape(a: map<string, Subtask>)
    ensures SameShape(a, a)
  {}

  lemma CompleteShape(db: DB, id: string, token: int, key: string, ref: string, usage: int, expected: int, actor: Actor,
                      now: int, d: DB)
    requires Inv(db) && CompleteStep(db, id, token, key, ref, usage, expected, actor, now, d)
    ensures SameShape(db.subtasks, d.subtasks)
  {
    hide Inv, CompleteSubtask, Propagate, Reaches, OnlyFlow, SameShape;
    var r := CompleteSubtask(db, id, token, key, ref, usage, expected, actor, now);
    if r.1.Ok? {
      CompleteMoves(db, id, token, key, ref, usage, expected, actor, now);
      MoveShape(db, r.0, id);
      PropagateShape(BoardOf(r.0), r.1.value.spec.mission);
      ShapeThen(db.subtasks, r.0.subtasks, d.subtasks);
    } else if r.1.Duplicate? {
      PropagateShape(BoardOf(db), r.1.value.spec.mission);
      SelfShape(db.subtasks);
    } else {
      SelfShape(db.subtasks);
    }
  }

  lemma TransitionShape(db: DB, id: string, ev: EventType, expected: int, actor: Actor, extra: Json0, now: int,
                        mut: Mutation)
    requires Inv(db)
    ensures SameShape(db.subtasks, Transition(db, id, ev, expected, actor, extra, now, mut).0.subtasks)
  {
    hide Inv, Transition, SameShape;
    var r := Transition(db, id, ev, expected, actor, extra, now, mut);
    if r.1.Ok? {
      TransitionMoves(db, id, ev, expected, actor, extra, now, mut);
      MoveShape(db, r.0, id);
    } else {
      TransitionRejected(db, id, ev, expected, actor, extra, now, mut);
      SelfShape(db.subtasks);
    }
  }

  lemma TransitionRejected(db: DB, id: string, ev: EventType, expected: int, actor: Actor, extra: Json0, now: int,
                           mut: Mutation)
    ensures var r := Transition(db, id, ev, expected, actor, extra, now, mut); !r.1.Ok? ==> r.0 == db
  {}

  lemma FailShape(db: DB, id: string, token: int, reason: string, expected: int, actor: Actor, now: int, d: DB)
    requires Inv(db) && FailStep(db, id, token, reason, expected, actor, now, d)
    ensures SameShape(db.subtasks, d.subtasks)
  {
    hide Inv, FailSubtask, Cascade, Reaches, OnlyFlow, SameShape, Transition, Grows;
    var r := FailSubtask(db, id, token, reason, expected, actor, now);
    if r.1.Ok? {
      FailMoves(db, id, token, reason, expected, actor, now);
      FailSubtaskKeeps(db, id, token, reason, expected, actor, now);
      MoveShape(db, r.0, id);
      TransitionShape(r.0, id, EvRetried, r.1.value.version, Orchestrating, map["reason" := JStr(reason)], now,
                      RetryMutation);
      CascadeShape(BoardOf(r.0), id);
      ShapeThen(db.subtasks, r.0.subtasks, d.subtasks);
    } else {
      SelfShape(db.subtasks);
    }
  }

  lemma OutcomeShape(db: DB, decision: string, now: int, d: DB)
    requires Inv(db) && OutcomeStep(db, decision, now, d)
    ensures SameShape(db.subtasks, d.subtasks)
  {
    hide Inv, RejectStep, ApproveStep, SameShape;
    var dec := db.decisions[decision];
    if !Awaiting(db, dec) {
      SelfShape(db.subtasks);
    } else if dec.choice == REJECT {
      RejectShape(db, dec, db.subtasks[dec.subtask].version, now, d);
    } else {
      ApproveShape(db, dec, db.subtasks[dec.subtask].version, db.subtasks[dec.subtask].spec.kind.Human(), now, d);
    }
  }

  lemma RejectShape(db: DB, dec: Decision, v: int, now: int, d: DB)
    requires Inv(db) && RejectStep(db, dec, v, now, d)
    ensures SameShape(db.subtasks, d.subtasks)
  {
    hide Inv, Cascade, Reaches, OnlyFlow, SameShape, Transition, Grows;
    var actor := Actor("human", dec.decider);
    TransitionShape(db, dec.subtask, EvDecisionRejected, v, actor, OutcomePayload(dec), now, NoMutation);
    var r := Transition(db, dec.subtask, EvDecisionRejected, v, actor, OutcomePayload(dec), now, NoMutation).0;
    CascadeShape(BoardOf(r), dec.subtask);
    ShapeThen(db.subtasks, r.subtasks, d.subtasks);
  }

  lemma ApproveShape(db: DB, dec: Decision, v: int, human: bool, now: int, d: DB)
    requires Inv(db) && ApproveStep(db, dec, v, human, now, d)
    ensures SameShape(db.subtasks, d.subtasks)
  {
    hide Inv, Propagate, Reaches, OnlyFlow, SameShape, Transition, Grows;
    var actor := Actor("human", dec.decider);
    var r := Transition(db, dec.subtask, EvDecisionApproved, v, actor, OutcomePayload(dec), now, NoMutation).0;
    TransitionShape(db, dec.subtask, EvDecisionApproved, v, actor, OutcomePayload(dec), now, NoMutation);
    if human {
      TransitionKeeps(db, dec.subtask, EvDecisionApproved, v, actor, OutcomePayload(dec), now, NoMutation);
      SoundInv(db, r);
      var extra, mut := map["via" := JStr("human_decision")], ResultMutation("decision://" + dec.id);
      TransitionShape(r, dec.subtask, EvCompleted, v + 1, actor, extra, now, mut);
      var r2 := Transition(r, dec.subtask, EvCompleted, v + 1, actor, extra, now, mut).0;
      PropagateShape(BoardOf(r2), dec.mission);
      ShapeThen(db.subtasks, r.subtasks, r2.subtasks);
      ShapeThen(db.subtasks, r2.subtasks, d.subtasks);
    }
  }

  lemma SweepShape(db: DB, order: seq<string>, failed: seq<string>, now: int, d: DB)
    requires Inv(db) && SweepStep(db, order, failed, now, d)
    ensures SameShape(db.subtasks, d.subtasks)
  {
    InvOwnKeys(db);
    hide Inv, ExpireWakes, CascadeAll, OnlyFlow, Reaches, SameShape, Lands, ExpiredWakes, Lists, OwnKeys;
    var r := ExpireWakes(db, order, now);
    WakesLandOnBoard(db, order, failed, now);
    LandsShape(BoardOf(db), BoardOf(r), Elements(failed), Failed);
    CascadesShape(BoardOf(r), failed);
    ShapeThen(db.subtasks, r.subtasks, d.subtasks);
  }

  lemma LandsShape(a: Board, b: Board, ids: set<string>, final: State)
    requires Lands(a, b, ids, final)
    ensures SameShape(a.subs, b.subs)
  {}

  lemma CreateShape(db: DB, m: Mission, subs: seq<Subtask>, rank: map<string, nat>, actor: Actor, now: int, d: DB)
    requires Inv(db) && CreateStep(db, m, subs, rank, actor, now, d)
    ensures RootsOnly(db.subtasks, d.subtasks)
  {
    hide Inv, CreateMission, WithSubtasks, ValidPlan, OnlyFlow, Reaches;
    if m.id !in db.missions {
      CreateAdds(db, m, subs, rank, actor, now);
      WithSubtasksContents(db.subtasks, subs);
      NewIdsAreRoots(db.subtasks, m.id, subs);
    }
  }

  lemma NewIdsAreRoots(subtasks: map<string, Subtask>, m: string, subs: seq<Subtask>)
    requires NewRoots(subtasks, m, subs)
    ensures RootsOnly(subtasks, Activated(WithSubtasks(subtasks, subs), m))
  {
    PlannedRoots(subtasks, m, subs);
    hide WithSubtasks, NewRoots;
    ActivatedShape(WithSubtasks(subtasks, subs), m);
  }

  lemma ActivatedShape(subs: map<string, Subtask>, m: string)
    ensures SameShape(subs, Activated(subs, m))
  {}

  lemma PlannedRoots(subtasks: map<string, Subtask>, m: string, subs: seq<Subtask>)
    requires NewRoots(subtasks, m, subs)
    ensures RootsOnly(subtasks, WithSubtasks(subtasks, subs))
  {
    hide WithSubtasks;
    WithSubtasksContents(subtasks, subs);
    var all := WithSubtasks(subtasks, subs);
    forall id | id in all && id !in subtasks ensures id != "" && all[id].spec.parent == "" && all[id].spec.reworkOf == "" {
      var i :| 0 <= i < |subs| && subs[i].id == id;
      assert NewRoot(m, subs[i]);
    }
  }

  lemma QuietShape(db: DB, op: Op, actor: Actor, now: int)
    requires Inv(db) && PassThrough(op)
    ensures SameShape(db.subtasks, Step(db, Call(op, actor, now)).0.subtasks)
  {
    hide Inv, Step;
    PassThroughQuiet(db, Call(op, actor, now));
  }

  /** Only the creation of a mission and a delegation add subtasks. */
  lemma OthersKeepShape(db: DB, s: Service, limits: Limits, actor: Actor, now: int, d: DB)
    requires Inv(db) && Does(db, s, limits, actor, now, d) && !s.Delegate? && !s.CreateMissionAs?
    ensures SameShape(db.subtasks, d.subtasks)
  {
    hide Inv, Becomes, Step, Admissible, Reaches, Propagate, SameShape, RootsReadied;
    hide CompleteStep, FailStep, OutcomeStep, SweepStep, CancelledBoard;
    match s
    case Store(op) => QuietShape(db, op, actor, now);
    case CancelMissionAs(m) => CancelShape(BoardOf(db), m);
    case Complete(id, token, key, ref, usage, expected) =>
      CompleteShape(db, id, token, key, ref, usage, expected, actor, now, d);
    case Fail(id, token, reason, expected) => FailShape(db, id, token, reason, expected, actor, now, d);
    case DecisionOutcome(decision) => OutcomeShape(db, decision, now, d);
    case SweepWakes(order, failed) => SweepShape(db, order, failed, now, d);
    case Reconcile(m) =>
      PropagateShape(BoardOf(db), m);
      BecomesBoard(db, d, Propagate(BoardOf(db), m));
    case ReconcileRoots =>
      RootsShape(db.subtasks);
      BecomesBoard(db, d, RootsBoard(db));
  }

  lemma RootsShape(subs: map<string, Subtask>)
    ensures SameShape(subs, RootsReadied(subs))
  {}

  /** Only a delegation adds a subtask with a parent or a reworked predecessor. */
  lemma OthersAddRoots(db: DB, s: Service, limits: Limits, actor: Actor, now: int, d: DB)
    requires Inv(db) && Does(db, s, limits, actor, now, d) && !s.Delegate?
    ensures RootsOnly(db.subtasks, d.subtasks)
  {
    if s.CreateMissionAs? {
      hide Inv, CreateStep, RootsOnly;
      CreateShape(db, s.m, s.subs, s.rank, actor, now, d);
    } else {
      hide Inv, Does, SameShape, RootsOnly;
      OthersKeepShape(db, s, limits, actor, now, d);
      ShapeRoots(db.subtasks, d.subtasks);
    }
  }

  lemma BecomesBoard(db: DB, d: DB, b: Board)
    requires Becomes(db, d, b)
    ensures d.subtasks == b.subs
  {}

  lemma CancelShape(b: Board, m: string)
    ensures SameShape(b.subs, CancelledBoard(b, m).subs)
  {}

  lemma DelegateBounded(db: DB, key: string, parent: string, token: int, parentVersion: int, child: Subtask,
                        limits: Limits, actor: Actor, now: int, d: DB)
    requires Inv(db) && Bounded(db.subtasks, limits)
    requires DelegateStep(db, key, parent, token, parentVersion, child, limits, actor, now, d)
    ensures Bounded(d.subtasks, limits)
  {
    hide Inv, SpawnSubtask, Bounded, WithinLimits;
    if d != db {
      SpawnRejected(db, key, parent, token, parentVersion, child, actor, now);
      SpawnAdds(db, key, parent, token, parentVersion, child, actor, now);
      SpawnStores(db, key, parent, token, parentVersion, child, actor, now);
      ChildKeeps(db.subtasks, d.subtasks, child.id, parent, limits);
    }
  }

  lemma SpawnStores(db: DB, key: string, parent: string, token: int, parentVersion: int, child: Subtask, actor: Actor,
                    now: int)
    requires SpawnSubtask(db, key, parent, token, parentVersion, child, actor, now).1.Ok?
    ensures var d := SpawnSubtask(db, key, parent, token, parentVersion, child, actor, now).0;
      child.id in d.subtasks && d.subtasks[child.id].spec == child.spec
  {
    hide Permissions.Subset, FencingOk, ReserveHold;
  }

  /** Every run keeps every parent chain within D, every fanout within F, every rework chain within R. */
  lemma {:induction false} RunIsBounded(states: seq<DB>, limits: Limits, i: nat)
    requires ServiceRun(states, limits) && i < |states|
    ensures Bounded(states[i].subtasks, limits)
  {
    hide Inv, Stable, Does, Bounded, RootsOnly;
    if i == 0 {
      EmptyBounded(limits);
    } else {
      RunIsBounded(states, limits, i - 1);
      ServiceRunKeeps(states, limits, i - 1);
      assert ServiceStep(states[i - 1], states[i], limits);
      var s, actor, now :| Does(states[i - 1], s, limits, actor, now, states[i]);
      StepIsBounded(states[i - 1], s, limits, actor, now, states[i]);
    }
  }

  lemma StepIsBounded(db: DB, s: Service, limits: Limits, actor: Actor, now: int, d: DB)
    requires Inv(db) && Bounded(db.subtasks, limits) && Does(db, s, limits, actor, now, d)
    ensures Bounded(d.subtasks, limits)
  {
    hide Inv, Bounded, RootsOnly;
    if s.Delegate? {
      hide DelegateStep;
      DelegateBounded(db, s.key, s.parent, s.token, s.parentVersion, s.child, limits, actor, now, d);
    } else {
      hide Does;
      OthersAddRoots(db, s, limits, actor, now, d);
      RootsKeep(db.subtasks, d.subtasks, limits);
    }
  }

  lemma EmptyBounded(limits: Limits)
    ensures Bounded(EMPTY.subtasks, limits)
  {
    assert Rooted(EMPTY.subtasks, map[]);
    forall chain ensures !ParentChain(EMPTY.subtasks, chain) && !ReworkChain(EMPTY.subtasks, chain) {
      assert chain != [] ==> chain[0] !in EMPTY.subtasks;
    }
    forall p ensures Children(EMPTY.subtasks, p) == {} {}
  }

  /** No subtask of any run ever owns more than F + F^2 + ... + F^D delegated descendants. */
  lemma DelegationIsBounded(states: seq<DB>, limits: Limits, i: nat, root: string)
    requires ServiceRun(states, limits) && i < |states| && root in states[i].subtasks
    ensures var subs := states[i].subtasks;
      |set id | id in subs && Descends(subs, id, root)| <= Geometric(limits.fanout, limits.depth)
  {
    RunIsBounded(states, limits, i);
    ServiceRunKeeps(states, limits, i);
    NoEmptyIds(states[i]);
    hide Inv, Stable, ServiceRun, Bounded, Descends;
    DescendantsBounded(states[i].subtasks, limits, root);
  }

  lemma NoEmptyIds(db: DB)
    requires Inv(db)
    ensures "" !in db.subtasks
  {
    if "" in db.subtasks {
      SubtaskFacts(db, "");
    }
  }
}
