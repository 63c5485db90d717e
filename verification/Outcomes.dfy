/** What becomes of a subtask when its agent fails it or a person decides about it (internal/core/service.go
    and hitl.go), told by the states before and after the service call alone. */
module Outcomes {
  import opened Basics
  import opened StateMachine
  import opened Records
  import opened StoreSpec
  import opened Invariants
  import opened StoreOps
  import opened StoreRuns
  import opened Flow
  import opened FlowChanges
  import opened Orchestrator
  import opened Delegation
  import opened Charges

  // ---- attempts ----

  /** The subtask has not been retried more often than it declares. */
  ghost predicate Allowed(sub: Subtask) { 0 <= sub.attempt && (sub.attempt == 0 || sub.attempt <= sub.spec.maxAttempts) }

  ghost predicate AllAllowed(subs: map<string, Subtask>) { forall id :: id in subs ==> Allowed(subs[id]) }

  /** The same subtasks with the same declarations and attempts. */
  ghost predicate SameTries(a: map<string, Subtask>, b: map<string, Subtask>) {
    a.Keys == b.Keys && forall id :: id in a ==> b[id].spec == a[id].spec && b[id].attempt == a[id].attempt
  }

  lemma SameTriesAllowed(a: map<string, Subtask>, b: map<string, Subtask>)
    requires AllAllowed(a) && SameTries(a, b)
    ensures AllAllowed(b)
  {}

  lemma SameTriesChain(a: map<string, Subtask>, b: map<string, Subtask>, c: map<string, Subtask>)
    requires SameTries(a, b) && SameTries(b, c)
    ensures SameTries(a, c)
  {}

  lemma PropagateTries(b: Board, m: string)
    ensures SameTries(b.subs, Propagate(b, m).subs)
  {
    hide Unblocked, StatesOf, StatusOf;
  }

  lemma CascadeTries(b: Board, source: string)
    ensures SameTries(b.subs, Cascade(b, source).subs)
  {
    hide Doomed, StatesOf, StatusOf;
  }

  lemma {:induction false} CascadeAllTries(b: Board, sources: seq<string>)
    ensures SameTries(b.subs, CascadeAll(b, sources).subs)
  {
    hide Cascade;
    if sources != [] {
      var init := sources[..|sources| - 1];
      CascadeAllTries(b, init);
      CascadeTries(CascadeAll(b, init), sources[|sources| - 1]);
      SameTriesChain(b.subs, CascadeAll(b, init).subs, CascadeAll(b, sources).subs);
    }
  }

  lemma ActivatedTries(subs: map<string, Subtask>, m: string)
    ensures SameTries(subs, Activated(subs, m)) && SameTries(subs, RootsReadied(subs))
  {
    hide IdleRoot, LostRoot;
  }

  lemma CancelledTries(b: Board, m: string)
    ensures SameTries(b.subs, CancelledBoard(b, m).subs)
  {}

  lemma SteadyTries(a: Board, b: Board)
    requires Steady(a, b)
    ensures SameTries(a.subs, b.subs)
  {}

  lemma {:induction false} WakesTries(db: DB, order: seq<string>, now: int)
    requires OwnKeys(db.subtasks)
    ensures OwnKeys(ExpireWakes(db, order, now).subtasks) && SameTries(db.subtasks, ExpireWakes(db, order, now).subtasks)
  {
    if order != [] {
      var init := order[..|order| - 1];
      WakesTries(db, init, now);
      var d := ExpireWakes(db, init, now);
      OneWakeTries(d, order[|order| - 1], now);
      SameTriesChain(db.subtasks, d.subtasks, ExpireWakes(db, order, now).subtasks);
    }
    hide OwnKeys, SameTries, ExpireWake;
  }

  lemma OneWakeTries(db: DB, id: string, now: int)
    requires OwnKeys(db.subtasks)
    ensures OwnKeys(ExpireWake(db, id, now).subtasks) && SameTries(db.subtasks, ExpireWake(db, id, now).subtasks)
  {
    OneWake(db, id, now);
    hide ExpireWake, OwnKeys, Overdue;
  }

  lemma CompletionTries(db: DB, id: string, token: int, key: string, ref: string, usage: int, expected: int, actor: Actor,
                        now: int, d: DB)
    requires Inv(db) && AllAllowed(db.subtasks) && CompleteStep(db, id, token, key, ref, usage, expected, actor, now, d)
    ensures AllAllowed(d.subtasks)
  {
    hide Inv, CompleteSubtask, Propagate, Reaches, OnlyFlow, SameTries, AllAllowed;
    var r := CompleteSubtask(db, id, token, key, ref, usage, expected, actor, now);
    if r.1.Ok? {
      CompletionEnds(db, id, token, key, ref, usage, expected, actor, now);
      RewriteTries(db.subtasks, id, r.1.value);
      PropagateTries(BoardOf(r.0), r.1.value.spec.mission);
      SameTriesAllowed(db.subtasks, r.0.subtasks);
      SameTriesAllowed(r.0.subtasks, d.subtasks);
    } else if r.1.Duplicate? && r.1.value.state == Succeeded {
      PropagateTries(BoardOf(db), r.1.value.spec.mission);
      SameTriesAllowed(db.subtasks, d.subtasks);
    }
  }

  lemma RewriteTries(subs: map<string, Subtask>, id: string, sub: Subtask)
    requires id in subs && sub.spec == subs[id].spec && sub.attempt == subs[id].attempt
    ensures SameTries(subs, subs[id := sub])
  {}

  // ---- one failure ----

  /** The subtask is RUNNING at this version under the ACTIVE lease with this token. */
  ghost predicate AtWork(db: DB, id: string, token: int, expected: int) {
    id in db.subtasks && db.subtasks[id].state == Running && db.subtasks[id].version == expected && Holds(db, id, token)
  }

  lemma FailureIsRefused(db: DB, id: string, token: int, reason: string, expected: int, limits: Limits, actor: Actor,
                         now: int, d: DB)
    requires Inv(db) && Does(db, Fail(id, token, reason, expected), limits, actor, now, d)
    requires !AtWork(db, id, token, expected)
    ensures d == db
  {
    hide Inv, FailSubtask, Transition, Becomes, Cascade, Holds;
    FailureAccepted(db, id, token, reason, expected, actor, now);
  }

  /** While attempts are left the subtask is READY again, one attempt later, without agent or lease; its
      reservation stays, and nobody else's subtask moves. */
  lemma FailureIsRetried(db: DB, id: string, token: int, reason: string, expected: int, limits: Limits, actor: Actor,
                         now: int, d: DB)
    requires Inv(db) && Does(db, Fail(id, token, reason, expected), limits, actor, now, d)
    requires AtWork(db, id, token, expected) && db.subtasks[id].attempt < db.subtasks[id].spec.maxAttempts
    ensures var sub := db.subtasks[id];
      && d.subtasks == db.subtasks[id := sub.(state := Ready, version := sub.version + 2, attempt := sub.attempt + 1,
                                              assignee := "", lease := "")]
      && SameMoney(db, d) && d.missions == db.missions
      && d.leases == db.leases[sub.lease := db.leases[sub.lease].(state := LReleased)]
  {
    hide Inv, FailSubtask, Transition, Becomes, Cascade, Holds, Move;
    FailureAccepted(db, id, token, reason, expected, actor, now);
    FailureEnds(db, id, token, reason, expected, actor, now);
    FailureFrees(db, id, token, reason, expected, actor, now);
    var r, sub := FailSubtask(db, id, token, reason, expected, actor, now), db.subtasks[id];
    SubtaskFacts(db, id);
    RetryUnfolds(r.0, id, reason, now);
    assert d == Transition(r.0, id, EvRetried, r.1.value.version, Orchestrating, map["reason" := JStr(reason)], now,
                           RetryMutation).0;
  }

  lemma RetryUnfolds(db: DB, id: string, reason: string, now: int)
    requires id in db.subtasks && db.subtasks[id].id == id && db.subtasks[id].state == Failed
    ensures var sub := db.subtasks[id];
      var d := Transition(db, id, EvRetried, sub.version, Orchestrating, map["reason" := JStr(reason)], now, RetryMutation).0;
      && d == db.(subtasks := db.subtasks[id := sub.(state := Ready, version := sub.version + 1, attempt := sub.attempt + 1,
                                                     assignee := "", lease := "")],
                  events := d.events, eventSeq := d.eventSeq)
  {}

  /** A PENDING subtask that the step has cancelled. */
  ghost predicate CutOff(db: DB, d: DB, id: string) {
    && id in db.subtasks && db.subtasks[id].state == Pending
    && id in d.subtasks && d.subtasks[id] == db.subtasks[id].(state := Cancelled, version := db.subtasks[id].version + 1)
  }

  ghost predicate DependsOn(subs: map<string, Subtask>, id: string, d: string) { id in subs && d in subs[id].spec.deps }

  /** The cascade from a dead subtask: no PENDING subtask of its mission depends on it or on one that was cut off,
      only such subtasks were cut off, and nobody else's moved. */
  ghost predicate Severed(db: DB, d: DB, id: string)
    requires id in db.subtasks
  {
    && d.subtasks.Keys == db.subtasks.Keys
    && (forall x :: x in db.subtasks && x != id ==> d.subtasks[x] == db.subtasks[x] || CutOff(db, d, x))
    && (forall x, y :: DependsOn(db.subtasks, x, y) && (y == id || CutOff(db, d, y)) ==>
          db.subtasks[x].spec.mission == db.subtasks[id].spec.mission ==> d.subtasks[x].state != Pending)
    && (forall x :: CutOff(db, d, x) ==>
          && db.subtasks[x].spec.mission == db.subtasks[id].spec.mission
          && exists y :: DependsOn(db.subtasks, x, y) && (y == id || CutOff(db, d, y)))
  }

  /** `r` is `db` with one subtask rewritten that was not PENDING, and `d` follows by its cascade. */
  lemma CascadeSevers(db: DB, r: DB, d: DB, id: string)
    requires id in db.subtasks && db.subtasks[id].state != Pending
    requires id in r.subtasks && r.subtasks == db.subtasks[id := r.subtasks[id]] && r.subtasks[id].spec == db.subtasks[id].spec
    requires r.subtasks[id].state != Pending && Becomes(r, d, Cascade(BoardOf(r), id))
    ensures Severed(db, d, id) && id in d.subtasks && d.subtasks[id] == r.subtasks[id]
  {
    hide Reaches, OnlyFlow, Doomed, Touched;
    var m := db.subtasks[id].spec.mission;
    CascadeSubs(BoardOf(r), id);
    hide Cascade;
    forall x ensures Doomed(r.subtasks, m, id, x) <==> Touched(r.subtasks, m, id, x) {
      DoomedIsFixpoint(r.subtasks, m, id, x);
    }
    forall x ensures Doomed(r.subtasks, m, id, x) <==> CutOff(db, d, x) {
      DoomedArePending(r.subtasks, m, id, x);
    }
    TouchedSevers(db, r, d, id);
  }

  lemma CascadeSubs(b: Board, source: string)
    requires source in b.subs
    ensures Cascade(b, source).subs == Culled(b.subs, b.subs[source].spec.mission, source)
  {
    hide Culled, StatesOf, StatusOf;
  }

  lemma DoomedArePending(subs: map<string, Subtask>, m: string, source: string, id: string)
    ensures Doomed(subs, m, source, id) ==> id in subs && subs[id].spec.mission == m && subs[id].state == Pending
  {}

  lemma TouchedSevers(db: DB, r: DB, d: DB, id: string)
    requires id in db.subtasks && db.subtasks[id].state != Pending
    requires id in r.subtasks && r.subtasks == db.subtasks[id := r.subtasks[id]] && r.subtasks[id].spec == db.subtasks[id].spec
    requires r.subtasks[id].state != Pending
    requires d.subtasks == Culled(r.subtasks, db.subtasks[id].spec.mission, id)
    requires forall x :: Doomed(r.subtasks, db.subtasks[id].spec.mission, id, x) <==>
      Touched(r.subtasks, db.subtasks[id].spec.mission, id, x)
    requires forall x :: Doomed(r.subtasks, db.subtasks[id].spec.mission, id, x) <==> CutOff(db, d, x)
    ensures Severed(db, d, id)
  {
    var m := db.subtasks[id].spec.mission;
    CulledSpares(db, r, d, id);
    hide Doomed, Culled, CutOff, Touched;
    forall x | CutOff(db, d, x) ensures db.subtasks[x].spec.mission == m
      ensures exists y :: DependsOn(db.subtasks, x, y) && (y == id || CutOff(db, d, y))
    {
      TouchedHasCause(r.subtasks, m, id, x);
      var y :| DependsOn(r.subtasks, x, y) && (y == id || Doomed(r.subtasks, m, id, y));
      assert DependsOn(db.subtasks, x, y);
    }
    forall x, y | DependsOn(db.subtasks, x, y) && (y == id || CutOff(db, d, y)) && db.subtasks[x].spec.mission == m
      ensures d.subtasks[x].state != Pending
    {
      CauseTouches(r.subtasks, m, id, x, y);
    }
  }

  lemma TouchedHasCause(subs: map<string, Subtask>, m: string, id: string, x: string)
    requires Touched(subs, m, id, x)
    ensures x in subs && subs[x].spec.mission == m
    ensures exists y :: DependsOn(subs, x, y) && (y == id || Doomed(subs, m, id, y))
  {
    hide Doomed;
    var y :| Dep(subs, x, y) && (y == id || Doomed(subs, m, id, y));
    assert DependsOn(subs, x, y);
  }

  lemma CauseTouches(subs: map<string, Subtask>, m: string, id: string, x: string, y: string)
    requires DependsOn(subs, x, y) && (y == id || Doomed(subs, m, id, y)) && subs[x].spec.mission == m
    ensures subs[x].state == Pending ==> Touched(subs, m, id, x)
  {
    hide Doomed;
    assert Dep(subs, x, y);
  }

  lemma CulledSpares(db: DB, r: DB, d: DB, id: string)
    requires id in db.subtasks && id in r.subtasks && r.subtasks == db.subtasks[id := r.subtasks[id]]
    requires r.subtasks[id].state != Pending && d.subtasks == Culled(r.subtasks, db.subtasks[id].spec.mission, id)
    requires forall x :: Doomed(r.subtasks, db.subtasks[id].spec.mission, id, x) <==> CutOff(db, d, x)
    ensures d.subtasks.Keys == db.subtasks.Keys
    ensures forall x :: CutOff(db, d, x) ==> x in db.subtasks && d.subtasks[x].state == Cancelled
    ensures forall x :: x in db.subtasks && !CutOff(db, d, x) ==> d.subtasks[x] == r.subtasks[x]
  {
    hide Doomed;
  }

  /** With no attempts left the subtask stays FAILED, its reservation is given back unspent, its lease ends, and
      what depends on it is cut off. */
  lemma FailureIsFinal(db: DB, id: string, token: int, reason: string, expected: int, limits: Limits, actor: Actor,
                       now: int, d: DB)
    requires Inv(db) && Does(db, Fail(id, token, reason, expected), limits, actor, now, d)
    requires AtWork(db, id, token, expected) && db.subtasks[id].attempt >= db.subtasks[id].spec.maxAttempts
    ensures var sub := db.subtasks[id];
      && id in d.subtasks && d.subtasks[id] == sub.(state := Failed, version := sub.version + 1)
      && Severed(db, d, id) && Pledge(d, id).None?
      && (if Pledge(db, id).Some? then Charged(db, d, id, 0, HReleased) else SameMoney(db, d))
      && d.leases == db.leases[sub.lease := db.leases[sub.lease].(state := LReleased)]
  {
    hide Inv, FailSubtask, Transition, Cascade, Holds, Charged, Severed;
    FailureAccepted(db, id, token, reason, expected, actor, now);
    FailureEnds(db, id, token, reason, expected, actor, now);
    FailureFrees(db, id, token, reason, expected, actor, now);
    var r := FailSubtask(db, id, token, reason, expected, actor, now).0;
    assert Becomes(r, d, Cascade(BoardOf(r), id));
    CascadeSevers(db, r, d, id);
    FlowKeepsMoney(db, r, d, id, 0, HReleased);
    NotPledged(db, d, id);
  }

  lemma FlowKeepsMoney(db: DB, r: DB, d: DB, id: string, charge: int, status: HoldStatus)
    requires OnlyFlow(r, d)
    ensures d.leases == r.leases
    ensures Charged(db, r, id, charge, status) ==> Charged(db, d, id, charge, status)
    ensures SameMoney(db, r) ==> SameMoney(db, d)
  {
    hide Cleared;
  }

  lemma NotPledged(db: DB, d: DB, id: string)
    requires Charged(db, d, id, 0, HReleased) || (SameMoney(db, d) && Pledge(db, id).None?)
    ensures Pledge(d, id).None?
  {
    hide Cleared;
  }

  // ---- one decision ----

  /** A resolved decision moves its subtask only while that is BLOCKED in the decision's mission. */
  lemma OutcomeNeedsBlocked(db: DB, decision: string, limits: Limits, actor: Actor, now: int, d: DB)
    requires Does(db, DecisionOutcome(decision), limits, actor, now, d) && decision in db.decisions
    requires var dec := db.decisions[decision];
      !(dec.subtask in db.subtasks && db.subtasks[dec.subtask].state == Blocked
        && db.subtasks[dec.subtask].spec.mission == dec.mission)
    ensures d == db
  {
    hide RejectStep, ApproveStep;
  }

  ghost predicate Asked(db: DB, decision: string) {
    decision in db.decisions && var dec := db.decisions[decision];
    && dec.subtask in db.subtasks && db.subtasks[dec.subtask].state == Blocked
    && db.subtasks[dec.subtask].spec.mission == dec.mission
  }

  /** "reject" fails the subtask and cuts off what depends on it. */
  lemma RejectionFails(db: DB, decision: string, limits: Limits, actor: Actor, now: int, d: DB)
    requires Inv(db) && Does(db, DecisionOutcome(decision), limits, actor, now, d)
    requires Asked(db, decision) && db.decisions[decision].choice == "reject"
    ensures var id := db.decisions[decision].subtask;
      && id in d.subtasks && d.subtasks[id] == db.subtasks[id].(state := Failed, version := db.subtasks[id].version + 1)
      && Severed(db, d, id) && SameMoney(db, d) && d.leases == db.leases
  {
    hide Inv, Transition, Cascade, Severed, ApproveStep, OutcomePayload;
    var dec := db.decisions[decision];
    var id := dec.subtask;
    SubtaskFacts(db, id);
    PlainMoves(db, id, EvDecisionRejected, Actor("human", dec.decider), OutcomePayload(dec), now, NoMutation);
    var r := Transition(db, id, EvDecisionRejected, db.subtasks[id].version, Actor("human", dec.decider), OutcomePayload(dec),
                        now, NoMutation).0;
    assert Becomes(r, d, Cascade(BoardOf(r), id));
    CascadeSevers(db, r, d, id);
  }

  /** Any other choice lets an agent run on. */
  lemma ApprovalResumes(db: DB, decision: string, limits: Limits, actor: Actor, now: int, d: DB)
    requires Inv(db) && Does(db, DecisionOutcome(decision), limits, actor, now, d)
    requires Asked(db, decision) && db.decisions[decision].choice != "reject"
    requires !db.subtasks[db.decisions[decision].subtask].spec.kind.Human()
    ensures var id := db.decisions[decision].subtask;
      && d.subtasks == db.subtasks[id := db.subtasks[id].(state := Running, version := db.subtasks[id].version + 1)]
      && SameMoney(db, d) && d.leases == db.leases && d.missions == db.missions
  {
    hide Inv, Transition, RejectStep, HumanStep, OutcomePayload;
    var dec := db.decisions[decision];
    SubtaskFacts(db, dec.subtask);
    PlainMoves(db, dec.subtask, EvDecisionApproved, Actor("human", dec.decider), OutcomePayload(dec), now, NoMutation);
  }

  /** ...and completes a human node with the decision as its result; then exactly the PENDING subtasks of the
      mission whose dependencies are all SUCCEEDED become READY. */
  lemma ApprovalCompletes(db: DB, decision: string, limits: Limits, actor: Actor, now: int, d: DB)
    requires Inv(db) && Does(db, DecisionOutcome(decision), limits, actor, now, d)
    requires Asked(db, decision) && db.decisions[decision].choice != "reject"
    requires db.subtasks[db.decisions[decision].subtask].spec.kind.Human()
    ensures var dec := db.decisions[decision];
      var id := dec.subtask;
      && id in d.subtasks
      && d.subtasks[id] == db.subtasks[id].(state := Succeeded, version := db.subtasks[id].version + 2,
                                            resultRef := "decision://" + dec.id)
      && Unlocked(db, d, id) && SameMoney(db, d) && d.leases == db.leases
  {
    hide Inv, Transition, RejectStep, OutcomePayload, Propagate, Unlocked;
    var dec := db.decisions[decision];
    SubtaskFacts(db, dec.subtask);
    HumanMovesTwice(db, dec, now);
    var done := Judged(db, dec, now);
    assert Becomes(done, d, Propagate(BoardOf(done), dec.mission));
    PropagateReleases(db, done, d, dec.subtask);
  }

  /** The store after both moves of an approved human node. */
  ghost function Judged(db: DB, dec: Decision, now: int): DB
    requires dec.subtask in db.subtasks
  {
    var human, v := Actor("human", dec.decider), db.subtasks[dec.subtask].version;
    var r := Transition(db, dec.subtask, EvDecisionApproved, v, human, OutcomePayload(dec), now, NoMutation).0;
    Transition(r, dec.subtask, EvCompleted, v + 1, human, map["via" := JStr("human_decision")], now,
               ResultMutation("decision://" + dec.id)).0
  }

  lemma HumanMovesTwice(db: DB, dec: Decision, now: int)
    requires dec.subtask in db.subtasks && db.subtasks[dec.subtask].id == dec.subtask
    requires db.subtasks[dec.subtask].state == Blocked
    ensures var d, sub := Judged(db, dec, now), db.subtasks[dec.subtask];
      d == db.(subtasks := db.subtasks[dec.subtask := sub.(state := Succeeded, version := sub.version + 2,
                                                           resultRef := "decision://" + dec.id)],
               events := d.events, eventSeq := d.eventSeq)
  {
    hide Transition, OutcomePayload;
    var id, human := dec.subtask, Actor("human", dec.decider);
    PlainMoves(db, id, EvDecisionApproved, human, OutcomePayload(dec), now, NoMutation);
    var r := Transition(db, id, EvDecisionApproved, db.subtasks[id].version, human, OutcomePayload(dec), now, NoMutation).0;
    PlainMoves(r, id, EvCompleted, human, map["via" := JStr("human_decision")], now, ResultMutation("decision://" + dec.id));
  }

  /** A legal move with the stored version. */
  lemma PlainMoves(db: DB, id: string, ev: EventType, actor: Actor, extra: Json0, now: int, mut: Mutation)
    requires id in db.subtasks && db.subtasks[id].id == id && !mut.RetryMutation?
    requires ((ev == EvDecisionRejected || ev == EvDecisionApproved) && db.subtasks[id].state == Blocked)
      || (ev == EvCompleted && db.subtasks[id].state == Running)
    ensures var sub := db.subtasks[id];
      var next := if ev == EvDecisionRejected then Failed else if ev == EvDecisionApproved then Running else Succeeded;
      var d := Transition(db, id, ev, sub.version, actor, extra, now, mut).0;
      d == db.(subtasks := db.subtasks[id := sub.(state := next, version := sub.version + 1,
                                                  resultRef := if mut.ResultMutation? then mut.ref else sub.resultRef)],
               events := d.events, eventSeq := d.eventSeq)
  {}

  /** A PENDING subtask that the step has readied. */
  ghost predicate LetGo(db: DB, d: DB, id: string) {
    && id in db.subtasks && db.subtasks[id].state == Pending
    && id in d.subtasks && d.subtasks[id] == db.subtasks[id].(state := Ready, version := db.subtasks[id].version + 1)
  }

  /** All its dependencies are SUCCEEDED subtasks of its mission. */
  ghost predicate Unhindered(subs: map<string, Subtask>, id: string) {
    forall y :: DependsOn(subs, id, y) ==>
      y in subs && subs[y].spec.mission == subs[id].spec.mission && subs[y].state == Succeeded
  }

  /** The propagation after `id` is done: exactly what nothing holds back any more has been readied. */
  ghost predicate Unlocked(db: DB, d: DB, id: string)
    requires id in db.subtasks
  {
    && d.subtasks.Keys == db.subtasks.Keys
    && (forall x :: x in db.subtasks && x != id ==> d.subtasks[x] == db.subtasks[x] || LetGo(db, d, x))
    && (forall x :: x in db.subtasks && x != id && db.subtasks[x].state == Pending ==>
          (LetGo(db, d, x) <==> db.subtasks[x].spec.mission == db.subtasks[id].spec.mission && Unhindered(d.subtasks, x)))
  }

  lemma PropagateReleases(db: DB, r: DB, d: DB, id: string)
    requires id in db.subtasks && id in r.subtasks && r.subtasks == db.subtasks[id := r.subtasks[id]]
    requires r.subtasks[id].spec == db.subtasks[id].spec && r.subtasks[id].state != Pending
    requires d.subtasks == Propagate(BoardOf(r), db.subtasks[id].spec.mission).subs
    ensures Unlocked(db, d, id) && id in d.subtasks && d.subtasks[id] == r.subtasks[id]
  {
    PropagateSubs(BoardOf(r), db.subtasks[id].spec.mission);
    forall x | x in r.subtasks
      ensures d.subtasks[x] == if Unblocked(r.subtasks, db.subtasks[id].spec.mission, x)
                               then r.subtasks[x].(state := Ready, version := r.subtasks[x].version + 1) else r.subtasks[x]
    {
      hide Unblocked;
    }
    NotPendingNotReadied(r.subtasks, db.subtasks[id].spec.mission);
    var after := Readied(r.subtasks, db.subtasks[id].spec.mission);
    assert after.Keys == r.subtasks.Keys;
    hide Propagate, Unblocked, Unhindered, Readied;
    forall x | x in db.subtasks && x != id && db.subtasks[x].state == Pending
      ensures LetGo(db, d, x) <==> db.subtasks[x].spec.mission == db.subtasks[id].spec.mission && Unhindered(d.subtasks, x)
    {
      SameHindrance(r.subtasks, db.subtasks[id].spec.mission, x);
    }
  }

  lemma NotPendingNotReadied(subs: map<string, Subtask>, m: string)
    ensures forall x :: Unblocked(subs, m, x) ==> x in subs && subs[x].state == Pending
  {}

  lemma PropagateSubs(b: Board, m: string)
    ensures Propagate(b, m).subs == Readied(b.subs, m)
  {
    hide Readied, StatesOf, StatusOf;
  }

  lemma SameHindrance(subs: map<string, Subtask>, m: string, x: string)
    requires x in subs
    ensures Unblocked(subs, m, x) <==> subs[x].spec.mission == m && subs[x].state == Pending && Unhindered(Readied(subs, m), x)
  {
    var after := Readied(subs, m);
    if Unblocked(subs, m, x) {
      forall y | DependsOn(after, x, y) ensures y in after && after[y].spec.mission == m && after[y].state == Succeeded {
        assert y in subs[x].spec.deps;
      }
    } else if subs[x].spec.mission == m && subs[x].state == Pending {
      var y :| y in subs[x].spec.deps && !(y in subs && subs[y].spec.mission == m && subs[y].state == Succeeded);
      assert DependsOn(after, x, y);
    }
  }

  // ---- retries over runs ----

  lemma FailureAllowed(db: DB, id: string, token: int, reason: string, expected: int, limits: Limits, actor: Actor,
                       now: int, d: DB)
    requires Inv(db) && AllAllowed(db.subtasks)
    requires Does(db, Fail(id, token, reason, expected), limits, actor, now, d)
    ensures AllAllowed(d.subtasks)
  {
    hide Inv, Does, Holds, Severed, Charged, SameMoney;
    if !AtWork(db, id, token, expected) {
      FailureIsRefused(db, id, token, reason, expected, limits, actor, now, d);
    } else if db.subtasks[id].attempt < db.subtasks[id].spec.maxAttempts {
      FailureIsRetried(db, id, token, reason, expected, limits, actor, now, d);
    } else {
      FailureIsFinal(db, id, token, reason, expected, limits, actor, now, d);
      SeveredTries(db, d, id);
    }
  }

  lemma SeveredTries(db: DB, d: DB, id: string)
    requires AllAllowed(db.subtasks) && id in db.subtasks && Severed(db, d, id)
    requires d.subtasks[id].attempt == db.subtasks[id].attempt && d.subtasks[id].spec == db.subtasks[id].spec
    ensures AllAllowed(d.subtasks)
  {}

  lemma ReleasedTries(db: DB, d: DB, id: string)
    requires AllAllowed(db.subtasks) && id in db.subtasks && Unlocked(db, d, id)
    requires d.subtasks[id].attempt == db.subtasks[id].attempt && d.subtasks[id].spec == db.subtasks[id].spec
    ensures AllAllowed(d.subtasks)
  {}

  lemma DecisionAllowed(db: DB, decision: string, limits: Limits, actor: Actor, now: int, d: DB)
    requires Inv(db) && AllAllowed(db.subtasks) && Does(db, DecisionOutcome(decision), limits, actor, now, d)
    ensures AllAllowed(d.subtasks)
  {
    assert decision in db.decisions;
    hide Inv, Does, Severed, Unlocked, SameMoney;
    var id := db.decisions[decision].subtask;
    if !Asked(db, decision) {
      OutcomeNeedsBlocked(db, decision, limits, actor, now, d);
    } else if db.decisions[decision].choice == "reject" {
      RejectionFails(db, decision, limits, actor, now, d);
      SeveredTries(db, d, id);
    } else if db.subtasks[id].spec.kind.Human() {
      ApprovalCompletes(db, decision, limits, actor, now, d);
      ReleasedTries(db, d, id);
    } else {
      ApprovalResumes(db, decision, limits, actor, now, d);
    }
  }

  lemma CreationAllowed(db: DB, m: Mission, subs: seq<Subtask>, rank: map<string, nat>, actor: Actor, now: int, d: DB)
    requires AllAllowed(db.subtasks) && CreateStep(db, m, subs, rank, actor, now, d)
    ensures AllAllowed(d.subtasks)
  {
    if m.id !in db.missions {
      hide Reaches, OnlyFlow, Activated, WithSubtasks, CreateMission, ValidPlan;
      CreationOpens(db, m, subs, actor, now);
      NewAllowed(db.subtasks, m.id, subs);
      ActivatedTries(WithSubtasks(db.subtasks, subs), m.id);
      SameTriesAllowed(WithSubtasks(db.subtasks, subs), d.subtasks);
    }
  }

  lemma NewAllowed(subtasks: map<string, Subtask>, m: string, subs: seq<Subtask>)
    requires AllAllowed(subtasks) && NewRoots(subtasks, m, subs)
    ensures AllAllowed(WithSubtasks(subtasks, subs))
  {
    WithSubtasksContents(subtasks, subs);
    hide WithSubtasks;
    var all := WithSubtasks(subtasks, subs);
    forall k | k in all ensures Allowed(all[k]) {
      if k !in subtasks {
        var i :| 0 <= i < |subs| && subs[i].id == k;
        assert NewRoot(m, subs[i]);
      }
    }
  }

  lemma DelegationAllowed(db: DB, key: string, parent: string, token: int, parentVersion: int, child: Subtask,
                          limits: Limits, actor: Actor, now: int, d: DB)
    requires AllAllowed(db.subtasks)
    requires DelegateStep(db, key, parent, token, parentVersion, child, limits, actor, now, d)
    ensures AllAllowed(d.subtasks)
  {
    hide SpawnSubtask, MayDelegate, ReservedFor;
    if SpawnSubtask(db, key, parent, token, parentVersion, child, actor, now).1.Ok? {
      DelegationReserves(db, key, parent, token, parentVersion, child, actor, now);
    } else {
      SpawnRejected(db, key, parent, token, parentVersion, child, actor, now);
    }
  }

  lemma SweepAllowed(db: DB, order: seq<string>, failed: seq<string>, now: int, d: DB)
    requires Inv(db) && AllAllowed(db.subtasks) && SweepStep(db, order, failed, now, d)
    ensures AllAllowed(d.subtasks)
  {
    hide Inv, ExpireWakes, CascadeAll, Reaches, OnlyFlow, Lists, ExpiredWakes, SameTries, AllAllowed, OwnKeys;
    var r := ExpireWakes(db, order, now);
    InvOwnKeys(db);
    WakesTries(db, order, now);
    CascadeAllTries(BoardOf(r), failed);
    SameTriesAllowed(db.subtasks, r.subtasks);
    SameTriesAllowed(r.subtasks, d.subtasks);
  }

  lemma StepAllowed(db: DB, s: Service, limits: Limits, actor: Actor, now: int, d: DB)
    requires Inv(db) && AllAllowed(db.subtasks) && Does(db, s, limits, actor, now, d)
    ensures AllAllowed(d.subtasks)
  {
    hide Inv, Step, Admissible, Reaches, OnlyFlow, Propagate, CancelledBoard, RootsReadied, SameTries, AllAllowed, Steady;
    hide CreateStep, CompleteStep, FailStep, OutcomeStep, SweepStep, DelegateStep;
    match s
    case Store(op) =>
      PassThroughSteady(db, Call(op, actor, now));
      SteadyTries(BoardOf(db), BoardOf(d));
      SameTriesAllowed(db.subtasks, d.subtasks);
    case CreateMissionAs(m, subs, rank) => CreationAllowed(db, m, subs, rank, actor, now, d);
    case CancelMissionAs(m) =>
      CancelledTries(BoardOf(db), m);
      SameTriesAllowed(db.subtasks, d.subtasks);
    case Complete(id, token, key, ref, usage, expected) =>
      CompletionTries(db, id, token, key, ref, usage, expected, actor, now, d);
    case Fail(id, token, reason, expected) => FailureAllowed(db, id, token, reason, expected, limits, actor, now, d);
    case DecisionOutcome(decision) => DecisionAllowed(db, decision, limits, actor, now, d);
    case SweepWakes(order, failed) => SweepAllowed(db, order, failed, now, d);
    case Delegate(key, parent, token, parentVersion, child) =>
      DelegationAllowed(db, key, parent, token, parentVersion, child, limits, actor, now, d);
    case Reconcile(m) =>
      PropagateTries(BoardOf(db), m);
      SameTriesAllowed(db.subtasks, d.subtasks);
    case ReconcileRoots =>
      ActivatedTries(db.subtasks, "");
      SameTriesAllowed(db.subtasks, d.subtasks);
  }

  /** Over every service run no subtask is retried more often than it declares. */
  lemma {:induction false} RetriesAreBounded(states: seq<DB>, limits: Limits, i: nat)
    requires ServiceRun(states, limits) && i < |states|
    ensures forall id :: id in states[i].subtasks ==>
      var sub := states[i].subtasks[id];
      0 <= sub.attempt <= if sub.spec.maxAttempts > 0 then sub.spec.maxAttempts else 0
  {
    AllowedAlways(states, limits, i);
    hide ServiceRun;
  }

  lemma {:induction false} AllowedAlways(states: seq<DB>, limits: Limits, i: nat)
    requires ServiceRun(states, limits) && i < |states|
    ensures AllAllowed(states[i].subtasks)
  {
    hide Inv, Stable, Does, AllAllowed;
    if i == 0 {
      NoneTried();
    } else {
      AllowedAlways(states, limits, i - 1);
      ServiceRunKeeps(states, limits, i - 1);
      assert ServiceStep(states[i - 1], states[i], limits);
      var s, actor, now :| Does(states[i - 1], s, limits, actor, now, states[i]);
      StepAllowed(states[i - 1], s, limits, actor, now, states[i]);
    }
  }

  lemma NoneTried()
    ensures AllAllowed(EMPTY.subtasks)
  {}

  // ---- cancellation of a mission ----

  /** What was finished stays as it was, everything else in the mission is CANCELLED without agent or lease, other
      missions do not notice, and the mission is CANCELLED whatever it was. */
  lemma CancellationIsExact(db: DB, m: string, limits: Limits, actor: Actor, now: int, d: DB)
    requires Does(db, CancelMissionAs(m), limits, actor, now, d)
    ensures d.subtasks.Keys == db.subtasks.Keys && d.missions.Keys == db.missions.Keys
    ensures forall id :: id in db.subtasks ==>
      var sub := db.subtasks[id];
      d.subtasks[id] ==
        if sub.spec.mission != m || sub.state in {Succeeded, Failed, Cancelled} then sub
        else sub.(state := Cancelled, version := sub.version + 1, assignee := "", lease := "")
    ensures forall n :: n in db.missions ==>
      d.missions[n] == if n == m then db.missions[n].(status := MCancelled, version := db.missions[n].version + 1)
                       else db.missions[n]
  {
    hide Reaches;
    var b := CancelledBoard(BoardOf(db), m);
    assert d.subtasks == b.subs && d.missions == b.missions;
  }
}
