/** The service calls of internal/core as atomic steps of the store, and what holds after every run of
    them: no orchestration deadlock. */
module Orchestrator {
  import opened Basics
  import opened StateMachine
  import opened Permissions
  import opened Records
  import opened StoreSpec
  import opened Invariants
  import opened StoreOps
  import opened StoreRuns
  import opened Flow
  import opened FlowKeeps
  import opened FlowChanges
  import opened Delegation

  const REJECT := "reject"

  ghost function BoardOf(db: DB): Board { Board(db.subtasks, db.missions) }

  /** Nothing but subtasks, mission status and the log moves. */
  ghost predicate OnlyFlow(db: DB, d: DB) {
    d == db.(subtasks := d.subtasks, missions := d.missions, events := d.events, eventSeq := d.eventSeq)
  }

  /** Store calls that touch nothing else lead from `db` to `d`, which shows the orchestrator the board `b`. */
  ghost predicate Becomes(db: DB, d: DB, b: Board) { Reaches(db, d) && OnlyFlow(db, d) && BoardOf(d) == b }

  /** With nothing to change nothing is written. */
  ghost predicate Settles(db: DB, d: DB, b: Board) { Becomes(db, d, b) && (b == BoardOf(db) ==> d == db) }

  datatype Service =
    | Store(op: Op)
    | CreateMissionAs(m: Mission, subs: seq<Subtask>, rank: map<string, nat>)
    | CancelMissionAs(mission: string)
    | Complete(id: string, token: int, key: string, ref: string, usage: int, expected: int)
    | Fail(id: string, token: int, reason: string, expected: int)
    | DecisionOutcome(decision: string)
    | SweepWakes(order: seq<string>, failed: seq<string>)
    | Delegate(key: string, parent: string, token: int, parentVersion: int, child: Subtask)
    | Reconcile(mission: string)
    | ReconcileRoots

  /** Store calls that the service hands through without further steps. */
  predicate PassThrough(op: Op) {
    match op
    case OpCreateMission(_, _) => false
    case OpSetStatus(_, _, _) => false
    case OpTransition(_, _, _, _, _) => false
    case OpComplete(_, _, _, _, _, _) => false
    case OpFail(_, _, _, _) => false
    case OpCancel(_, _) => false
    case OpSpawn(_, _, _, _, _) => false
    case OpExpireWakes(_) => false
    case _ => true
  }

  /** What createMission guarantees after validateDAG: distinct fresh roots, dependencies inside the
      mission, numbered topologically. */
  ghost predicate ValidPlan(m: Mission, subs: seq<Subtask>, rank: map<string, nat>) {
    && m.status == Active
    && (forall i :: 0 <= i < |subs| ==> subs[i].id in rank)
    && (forall i, d :: 0 <= i < |subs| && d in subs[i].spec.deps ==>
          && (exists j :: 0 <= j < |subs| && subs[j].id == d)
          && d in rank && rank[d] < rank[subs[i].id])
  }

  ghost function CancelledBoard(b: Board, m: string): Board {
    Board(map id | id in b.subs ::
            if b.subs[id].spec.mission == m && !b.subs[id].state.Terminal()
            then Moving(b.subs[id], Cancelled).(assignee := "", lease := "") else b.subs[id],
          if m in b.missions
          then b.missions[m := b.missions[m].(status := MCancelled, version := b.missions[m].version + 1)]
          else b.missions)
  }

  const Orchestrating := System("orchestrator")

  ghost predicate CompleteStep(db: DB, id: string, token: int, key: string, ref: string, usage: int, expected: int,
                               actor: Actor, now: int, d: DB)
  {
    var r := CompleteSubtask(db, id, token, key, ref, usage, expected, actor, now);
    if r.1.Ok? then Becomes(r.0, d, Propagate(BoardOf(r.0), r.1.value.spec.mission))
    else if r.1.Duplicate? && r.1.value.state == Succeeded then Becomes(db, d, Propagate(BoardOf(db), r.1.value.spec.mission))
    else d == db
  }

  ghost predicate FailStep(db: DB, id: string, token: int, reason: string, expected: int, actor: Actor, now: int,
                           d: DB) {
    var r := FailSubtask(db, id, token, reason, expected, actor, now);
    if !r.1.Ok? then d == db
    else if r.1.value.attempt < r.1.value.spec.maxAttempts then
      d == Transition(r.0, id, EvRetried, r.1.value.version, Orchestrating, map["reason" := JStr(reason)], now,
                      RetryMutation).0
    else Becomes(r.0, d, Cascade(BoardOf(r.0), id))
  }

  function OutcomePayload(dec: Decision): Json0 {
    map["choice" := JStr(dec.choice), "rationale" := JStr(dec.rationale)]
  }

  ghost predicate RejectStep(db: DB, dec: Decision, v: int, now: int, d: DB) {
    var r := Transition(db, dec.subtask, EvDecisionRejected, v, Actor("human", dec.decider), OutcomePayload(dec), now,
                        NoMutation).0;
    Becomes(r, d, Cascade(BoardOf(r), dec.subtask))
  }

  /** An approved agent's subtask runs on; a human node is completed by the decision itself. */
  ghost predicate ApproveStep(db: DB, dec: Decision, v: int, human: bool, now: int, d: DB) {
    var actor := Actor("human", dec.decider);
    var r := Transition(db, dec.subtask, EvDecisionApproved, v, actor, OutcomePayload(dec), now, NoMutation).0;
    if human then HumanStep(r, dec, v + 1, now, d) else d == r
  }

  ghost predicate HumanStep(db: DB, dec: Decision, v: int, now: int, d: DB) {
    var r := Transition(db, dec.subtask, EvCompleted, v, Actor("human", dec.decider),
                        map["via" := JStr("human_decision")], now, ResultMutation("decision://" + dec.id)).0;
    Becomes(r, d, Propagate(BoardOf(r), dec.mission))
  }

  ghost predicate Awaiting(db: DB, dec: Decision) {
    && dec.subtask in db.subtasks && db.subtasks[dec.subtask].spec.mission == dec.mission
    && db.subtasks[dec.subtask].state == Blocked
  }

  ghost predicate OutcomeStep(db: DB, decision: string, now: int, d: DB) {
    decision in db.decisions && db.decisions[decision].status == DResolved &&
    var dec := db.decisions[decision];
    if !Awaiting(db, dec) then d == db
    else
      var sub := db.subtasks[dec.subtask];
      if dec.choice == REJECT then RejectStep(db, dec, sub.version, now, d)
      else ApproveStep(db, dec, sub.version, sub.spec.kind.Human(), now, d)
  }

  ghost predicate SweepStep(db: DB, order: seq<string>, failed: seq<string>, now: int, d: DB) {
    && Lists(order, db.subtasks.Keys) && Elements(failed) == ExpiredWakes(db, now)
    && var r := ExpireWakes(db, order, now); Becomes(r, d, CascadeAll(BoardOf(r), failed))
  }

  /** intentDelegate as one step: the mission is ACTIVE, the limits leave room, and the store accepts. */
  ghost predicate DelegateStep(db: DB, key: string, parent: string, token: int, parentVersion: int, child: Subtask,
                               limits: Limits, actor: Actor, now: int, d: DB)
  {
    && NewChild(db, parent, child) && child.spec.deps == []
    && d == if MayDelegate(db, parent, child, limits)
            then SpawnSubtask(db, key, parent, token, parentVersion, child, actor, now).0 else db
  }

  ghost predicate MayDelegate(db: DB, parent: string, child: Subtask, limits: Limits) {
    && parent in db.subtasks && child.spec.mission in db.missions
    && db.missions[child.spec.mission].status == Active
    && WithinLimits(db.subtasks, parent, child.spec.reworkOf, limits)
  }

  ghost predicate CreateStep(db: DB, m: Mission, subs: seq<Subtask>, rank: map<string, nat>, actor: Actor, now: int,
                             d: DB) {
    if m.id in db.missions then d == db
    else
      && NewRoots(db.subtasks, m.id, subs) && ValidPlan(m, subs, rank)
      && var r := CreateMission(db, m, subs, actor, now).0;
         Becomes(r, d, Board(Activated(r.subtasks, m.id), r.missions))
  }

  ghost predicate Does(db: DB, s: Service, limits: Limits, actor: Actor, now: int, d: DB) {
    match s
    case Store(op) => PassThrough(op) && Admissible(db, Call(op, actor, now)) && d == Step(db, Call(op, actor, now)).0
    case CreateMissionAs(m, subs, rank) => CreateStep(db, m, subs, rank, actor, now, d)
    case CancelMissionAs(m) => Reaches(db, d) && BoardOf(d) == CancelledBoard(BoardOf(db), m)
    case Complete(id, token, key, ref, usage, expected) =>
      CompleteStep(db, id, token, key, ref, usage, expected, actor, now, d)
    case Fail(id, token, reason, expected) => FailStep(db, id, token, reason, expected, actor, now, d)
    case DecisionOutcome(decision) => OutcomeStep(db, decision, now, d)
    case SweepWakes(order, failed) => SweepStep(db, order, failed, now, d)
    case Delegate(key, parent, token, parentVersion, child) =>
      DelegateStep(db, key, parent, token, parentVersion, child, limits, actor, now, d)
    case Reconcile(m) => Settles(db, d, Propagate(BoardOf(db), m))
    case ReconcileRoots => Settles(db, d, RootsBoard(db))
  }

  /** The board after ReconcilePendingRoots. */
  ghost function RootsBoard(db: DB): Board { Board(RootsReadied(db.subtasks), db.missions) }

  ghost predicate ServiceStep(db: DB, d: DB, limits: Limits) { exists s, actor, now :: Does(db, s, limits, actor, now, d) }

  // ---- single moves on the board ----

  ghost predicate OneMove(db: DB, d: DB, id: string) {
    && id in db.subtasks && id in d.subtasks && d.subtasks == db.subtasks[id := d.subtasks[id]]
    && d.subtasks[id].spec == db.subtasks[id].spec && d.missions == db.missions
  }

  lemma MoveQuiet(db: DB, d: DB, id: string)
    requires OneMove(db, d, id) && Live(db.subtasks[id].state) && Live(d.subtasks[id].state)
    ensures Quiet(BoardOf(db), BoardOf(d))
  {}

  lemma MoveLands(db: DB, d: DB, id: string, final: State)
    requires OneMove(db, d, id) && Live(db.subtasks[id].state) && d.subtasks[id].state == final
    ensures Lands(BoardOf(db), BoardOf(d), {id}, final)
  {}

  /** No attempt is counted. */
  ghost predicate SameAttempts(a: map<string, Subtask>, b: map<string, Subtask>) {
    forall id :: id in a ==> id in b && b[id].attempt == a[id].attempt
  }

  /** Live states stay live, and no attempt is counted. */
  ghost predicate Steady(a: Board, b: Board) { Quiet(a, b) && SameAttempts(a.subs, b.subs) }

  lemma MoveSteady(db: DB, d: DB, id: string)
    requires OneMove(db, d, id) && Live(db.subtasks[id].state) && Live(d.subtasks[id].state)
    requires d.subtasks[id].attempt == db.subtasks[id].attempt
    ensures Steady(BoardOf(db), BoardOf(d))
  {}

  lemma SameBoardSteady(a: Board, b: Board)
    requires a == b
    ensures Steady(a, b)
  {}

  lemma SteadyTransitive(a: Board, b: Board, c: Board)
    requires Steady(a, b) && Steady(b, c)
    ensures Steady(a, c)
  {
    QuietTransitive(a, b, c);
  }

  /** The events that start and end in live states, wherever they are legal. */
  lemma LiveEvents(from: State, ev: EventType)
    requires ev == EvLeaseOffered || ev == EvLeaseAccepted || ev == EvStarted || ev == EvBlocked || ev == EvSuspended
      || ev == EvWoken || ev == EvDecisionApproved
    requires Apply(from, ev).Some?
    ensures Live(from) && Live(Apply(from, ev).value)
  {}

  lemma OfferQuiet(db: DB, id: string, agent: string, expected: int, ttl: int, actor: Actor, now: int)
    requires Inv(db)
    ensures Steady(BoardOf(db), BoardOf(OfferLease(db, id, agent, expected, ttl, actor, now).0))
  {
    hide Inv, Apply, LeaseId, ContextOf, ActivelyLeased, Steady;
    var r := OfferLease(db, id, agent, expected, ttl, actor, now);
    if r.1.Ok? {
      SubtaskFacts(db, id);
      LiveEvents(db.subtasks[id].state, EvLeaseOffered);
      MoveSteady(db, r.0, id);
    } else {
      SameBoardSteady(BoardOf(db), BoardOf(r.0));
    }
  }

  lemma AcceptQuiet(db: DB, lid: string, token: int, expected: int, actor: Actor, now: int)
    requires Inv(db)
    ensures Steady(BoardOf(db), BoardOf(AcceptLease(db, lid, token, expected, actor, now).0))
  {
    hide Inv, Apply, Steady;
    var r := AcceptLease(db, lid, token, expected, actor, now);
    if r.1.Ok? {
      var id := db.leases[lid].subtask;
      SubtaskFacts(db, id);
      LiveEvents(db.subtasks[id].state, EvLeaseAccepted);
      MoveSteady(db, r.0, id);
    } else {
      SameBoardSteady(BoardOf(db), BoardOf(r.0));
    }
  }

  lemma FencedQuiet(db: DB, id: string, token: int, expected: int, ev: EventType, extra: Json0, actor: Actor, now: int)
    requires Inv(db) && (ev == EvStarted || ev == EvBlocked)
    ensures Steady(BoardOf(db), BoardOf(FencedMove(db, id, token, expected, ev, extra, actor, now).0))
  {
    hide Inv, Apply, FencingOk, Steady;
    var r := FencedMove(db, id, token, expected, ev, extra, actor, now);
    if r.1.Ok? {
      SubtaskFacts(db, id);
      LiveEvents(db.subtasks[id].state, ev);
      MoveSteady(db, r.0, id);
    } else {
      SameBoardSteady(BoardOf(db), BoardOf(r.0));
    }
  }

  lemma SuspendQuiet(db: DB, id: string, token: int, expected: int, wake: WakeSpec, checkpoint: string, actor: Actor,
                     now: int)
    requires Inv(db)
    ensures Steady(BoardOf(db), BoardOf(SuspendSubtask(db, id, token, expected, wake, checkpoint, actor, now).0))
  {
    hide Inv, Apply, FencingOk, Steady;
    var r := SuspendSubtask(db, id, token, expected, wake, checkpoint, actor, now);
    if r.1.Ok? {
      SubtaskFacts(db, id);
      LiveEvents(db.subtasks[id].state, EvSuspended);
      MoveSteady(db, r.0, id);
    } else {
      SameBoardSteady(BoardOf(db), BoardOf(r.0));
    }
  }

  lemma WakeQuiet(db: DB, id: string, expected: int, actor: Actor, now: int)
    requires Inv(db)
    ensures Steady(BoardOf(db), BoardOf(WakeSubtask(db, id, expected, actor, now).0))
  {
    hide Inv, Apply, Overdue, Steady;
    var r := WakeSubtask(db, id, expected, actor, now);
    if r.1.Ok? {
      SubtaskFacts(db, id);
      LiveEvents(db.subtasks[id].state, EvWoken);
      MoveSteady(db, r.0, id);
    } else {
      SameBoardSteady(BoardOf(db), BoardOf(r.0));
    }
  }

  lemma AskQuiet(db: DB, dec: Decision, expected: int, token: Option<int>, actor: Actor, now: int)
    requires Inv(db)
    ensures Steady(BoardOf(db), BoardOf(CreateDecisionAndBlock(db, dec, expected, token, actor, now).0))
  {
    hide Inv, Apply, FencingOk, Steady;
    var r := CreateDecisionAndBlock(db, dec, expected, token, actor, now);
    if r.1.Ok? {
      SubtaskFacts(db, dec.subtask);
      LiveEvents(db.subtasks[dec.subtask].state, EvBlocked);
      MoveSteady(db, r.0, dec.subtask);
    } else {
      SameBoardSteady(BoardOf(db), BoardOf(r.0));
    }
  }

  lemma CheckpointQuiet(db: DB, id: string, token: int, checkpoint: string)
    requires Inv(db)
    ensures Steady(BoardOf(db), BoardOf(SaveCheckpoint(db, id, token, checkpoint).0))
  {
    hide Inv, FencingOk, Steady;
    var r := SaveCheckpoint(db, id, token, checkpoint);
    if r.1.Ok? {
      MoveSteady(db, r.0, id);
    } else {
      SameBoardSteady(BoardOf(db), BoardOf(r.0));
    }
  }

  lemma ExpireLeaseQuiet(db: DB, lid: string, now: int)
    requires Inv(db)
    ensures Steady(BoardOf(db), BoardOf(ExpireLease(db, lid, now)))
  {
    hide Inv, Steady;
    if Expirable(db, lid, now) {
      SubtaskFacts(db, db.leases[lid].subtask);
      MoveSteady(db, ExpireLease(db, lid, now), db.leases[lid].subtask);
    } else {
      SameBoardSteady(BoardOf(db), BoardOf(db));
    }
  }

  lemma TakeoverQuiet(db: DB, id: string, now: int)
    requires Inv(db)
    ensures Steady(BoardOf(db), BoardOf(TakeoverLead(db, id, now)))
  {
    hide Inv, Steady, IsLead;
    if Stale(db, id, now) {
      SubtaskFacts(db, id);
      MoveSteady(db, TakeoverLead(db, id, now), id);
    } else {
      SameBoardSteady(BoardOf(db), BoardOf(db));
    }
  }

  lemma {:induction false} ExpireLeasesQuiet(db: DB, order: seq<string>, now: int)
    requires Inv(db)
    ensures Steady(BoardOf(db), BoardOf(ExpireLeases(db, order, now)))
  {
    hide Inv, Grows, Steady, ExpireLease;
    if order == [] {
      SameBoardSteady(BoardOf(db), BoardOf(db));
    } else {
      var d := ExpireLeases(db, order[..|order| - 1], now);
      ExpireLeasesQuiet(db, order[..|order| - 1], now);
      ExpireLeasesKeeps(db, order[..|order| - 1], now);
      ExpireLeaseQuiet(d, order[|order| - 1], now);
      SteadyTransitive(BoardOf(db), BoardOf(d), BoardOf(ExpireLeases(db, order, now)));
    }
  }

  lemma {:induction false} TakeoversQuiet(db: DB, order: seq<string>, now: int)
    requires Inv(db)
    ensures Steady(BoardOf(db), BoardOf(TakeoverStaleLeads(db, order, now)))
  {
    hide Inv, Grows, Steady, TakeoverLead;
    if order == [] {
      SameBoardSteady(BoardOf(db), BoardOf(db));
    } else {
      var d := TakeoverStaleLeads(db, order[..|order| - 1], now);
      TakeoversQuiet(db, order[..|order| - 1], now);
      TakeoverStaleLeadsKeeps(db, order[..|order| - 1], now);
      TakeoverQuiet(d, order[|order| - 1], now);
      SteadyTransitive(BoardOf(db), BoardOf(d), BoardOf(TakeoverStaleLeads(db, order, now)));
    }
  }

  lemma {:induction false} DecisionsOffBoard(db: DB, order: seq<string>, now: int)
    ensures BoardOf(ExpireDecisions(db, order, now)) == BoardOf(db)
  {
    if order != [] {
      DecisionsOffBoard(db, order[..|order| - 1], now);
    }
  }

  /** Calls that do not concern subtasks at all. */
  predicate OffBoard(op: Op) {
    match op
    case OpUpsertAgent(_) => true
    case OpHeartbeat(_) => true
    case OpMarkHealth(_, _) => true
    case OpRenew(_, _, _) => true
    case OpIngest(_, _, _, _, _) => true
    case OpSnapshot(_, _, _, _, _) => true
    case OpPutIdempotent(_, _) => true
    case OpResolve(_, _, _, _) => true
    case OpBoardPut(_, _) => true
    case OpPutArtifact(_) => true
    case OpAppendEvent(_, _, _, _) => true
    case _ => false
  }

  lemma IngestOffBoard(db: DB, item: string, lead: string, token: int, expected: int, mode: string, actor: Actor,
                       now: int)
    ensures BoardOf(IngestLeadInbox(db, item, lead, token, expected, mode, actor, now).0) == BoardOf(db)
  {
    hide FencingOk;
  }

  lemma SnapshotOffBoard(db: DB, lead: string, token: int, expected: int, value: string, ttl: int, actor: Actor,
                         now: int)
    ensures BoardOf(SaveLeadSnapshot(db, lead, token, expected, value, ttl, actor, now).0) == BoardOf(db)
  {
    hide FencingOk, BoardKey, Refreshed;
  }

  lemma AgentsOffBoard(db: DB, id: string, health: string, now: int)
    ensures BoardOf(HeartbeatAgent(db, id, now)) == BoardOf(db) == BoardOf(MarkAgentHealth(db, id, health))
  {}

  lemma RestOffBoard(db: DB, c: Call)
    requires c.op.OpUpsertAgent? || c.op.OpPutIdempotent? || c.op.OpResolve? || c.op.OpBoardPut? || c.op.OpPutArtifact?
      || c.op.OpAppendEvent?
    ensures BoardOf(Step(db, c).0) == BoardOf(db)
  {
    hide BoardKey;
  }

  lemma RenewOffBoard(db: DB, lid: string, token: int, ttl: int, now: int)
    ensures BoardOf(RenewLease(db, lid, token, ttl, now).0) == BoardOf(db)
  {}

  lemma OffBoardKeeps(db: DB, c: Call)
    requires OffBoard(c.op)
    ensures BoardOf(Step(db, c).0) == BoardOf(db)
  {
    hide BoardOf, IngestLeadInbox, SaveLeadSnapshot, HeartbeatAgent, MarkAgentHealth, ResolveDecision;
    hide StoreSpec.BoardPut, PutArtifact, RenewLease, Log, PutIdempotent, UpsertAgent;
    match c.op
    case OpUpsertAgent(_) => RestOffBoard(db, c);
    case OpHeartbeat(id) => AgentsOffBoard(db, id, "", c.now);
    case OpMarkHealth(id, health) => AgentsOffBoard(db, id, health, c.now);
    case OpRenew(lid, token, ttl) => RenewOffBoard(db, lid, token, ttl, c.now);
    case OpIngest(item, lead, token, expected, mode) =>
      IngestOffBoard(db, item, lead, token, expected, mode, c.actor, c.now);
    case OpSnapshot(lead, token, expected, value, ttl) =>
      SnapshotOffBoard(db, lead, token, expected, value, ttl, c.actor, c.now);
    case _ => RestOffBoard(db, c);
  }

  lemma PassThroughSteady(db: DB, c: Call)
    requires Inv(db) && PassThrough(c.op)
    ensures Steady(BoardOf(db), BoardOf(Step(db, c).0))
  {
    hide Inv, Steady;
    if OffBoard(c.op) {
      OffBoardKeeps(db, c);
      SameBoardSteady(BoardOf(db), BoardOf(Step(db, c).0));
    } else {
      OnBoardQuiet(db, c);
    }
  }

  lemma OnBoardQuiet(db: DB, c: Call)
    requires Inv(db) && PassThrough(c.op) && !OffBoard(c.op)
    ensures Steady(BoardOf(db), BoardOf(Step(db, c).0))
  {
    hide Inv, Steady, BoardOf;
    hide OfferLease, AcceptLease, ExpireLeases, FencedMove, TakeoverStaleLeads, SuspendSubtask, WakeSubtask;
    hide SaveCheckpoint, CreateDecisionAndBlock, ExpireDecisions;
    match c.op
    case OpOffer(id, agent, expected, ttl) => OfferQuiet(db, id, agent, expected, ttl, c.actor, c.now);
    case OpAccept(lid, token, expected) => AcceptQuiet(db, lid, token, expected, c.actor, c.now);
    case OpExpireLeases(order) => ExpireLeasesQuiet(db, order, c.now);
    case OpStart(id, token, expected) =>
      var extra: Json0 := if id in db.subtasks then map["attempt" := JInt(db.subtasks[id].attempt)] else map[];
      FencedQuiet(db, id, token, expected, EvStarted, extra, c.actor, c.now);
    case OpBlock(id, token, expected) => FencedQuiet(db, id, token, expected, EvBlocked, map[], c.actor, c.now);
    case OpTakeover(order) => TakeoversQuiet(db, order, c.now);
    case OpSuspend(id, token, expected, wake, checkpoint) =>
      SuspendQuiet(db, id, token, expected, wake, checkpoint, c.actor, c.now);
    case OpWake(id, expected) => WakeQuiet(db, id, expected, c.actor, c.now);
    case OpCheckpoint(id, token, checkpoint) => CheckpointQuiet(db, id, token, checkpoint);
    case OpAsk(d, expected, asker) => AskQuiet(db, d, expected, asker, c.actor, c.now);
    case OpExpireDecisions(order) =>
      DecisionsOffBoard(db, order, c.now);
      SameBoardSteady(BoardOf(db), BoardOf(ExpireDecisions(db, order, c.now)));
  }

  lemma PassThroughQuiet(db: DB, c: Call)
    requires Inv(db) && PassThrough(c.op)
    ensures Quiet(BoardOf(db), BoardOf(Step(db, c).0))
  {
    hide Inv, Step, Quiet;
    PassThroughSteady(db, c);
  }

  // ---- the composed steps keep the board stable ----

  /** `d` is sound after `db` and the orchestrator's invariant holds of it. */
  ghost predicate Good(db: DB, d: DB) { Sound(db, d) && Stable(BoardOf(d)) }

  lemma BecomesGood(db: DB, r: DB, d: DB, b: Board)
    requires Sound(db, r) && Becomes(r, d, b) && Stable(b)
    ensures Good(db, d)
  {
    BecomesSound(r, d, b);
    hide Inv, Grows, Stable, Becomes;
    SoundThen(db, r, d);
  }

  lemma BecomesSound(db: DB, d: DB, b: Board)
    requires Inv(db) && Becomes(db, d, b)
    ensures Sound(db, d) && BoardOf(d) == b
  {
    ReachesSound(db, d);
  }

  lemma StayGood(db: DB)
    requires Inv(db) && Stable(BoardOf(db))
    ensures Good(db, db)
  {
    Unchanged(db);
  }

  lemma QuietGood(db: DB, d: DB)
    requires Sound(db, d) && Stable(BoardOf(db)) && Quiet(BoardOf(db), BoardOf(d))
    ensures Good(db, d)
  {
    hide Sound, Quiet, Weak;
    QuietKeeps(BoardOf(db), BoardOf(d), {}, {}, {});
  }

  /** An accepted completion, primitive by primitive. */
  lemma CompleteUnfolds(db: DB, id: string, token: int, key: string, ref: string, usage: int, expected: int,
                        actor: Actor,
                        now: int)
    requires CompleteSubtask(db, id, token, key, ref, usage, expected, actor, now).1.Ok?
    ensures id in db.subtasks && Apply(db.subtasks[id].state, EvCompleted).Some?
    ensures SettleHold(db, db.subtasks[id], usage, actor, now).Ok?
    ensures var sub, settled := db.subtasks[id], SettleHold(db, db.subtasks[id], usage, actor, now).value;
      var done := Moving(sub, Succeeded).(resultRef := ref);
      var moved := Move(settled.(idem := settled.idem[key := ref]), done, EvCompleted,
                        map["subtask_id" := JStr(id), "result_ref" := JStr(ref)], actor, now);
      CompleteSubtask(db, id, token, key, ref, usage, expected, actor, now)
        == (Enqueue(Retire(moved, sub.lease, LReleased), done, ref, now), Ok(done))
  {
    hide Apply, FencingOk, SettleHold, Retire, Enqueue, Move;
    SettleAnswers(db, db.subtasks[id], usage, actor, now);
  }

  lemma SettleAnswers(db: DB, sub: Subtask, usage: int, actor: Actor, now: int)
    ensures !SettleHold(db, sub, usage, actor, now).Duplicate?
  {}

  lemma CompleteMoves(db: DB, id: string, token: int, key: string, ref: string, usage: int, expected: int, actor: Actor,
                      now: int)
    requires Inv(db) && CompleteSubtask(db, id, token, key, ref, usage, expected, actor, now).1.Ok?
    ensures var r := CompleteSubtask(db, id, token, key, ref, usage, expected, actor, now);
      && OneMove(db, r.0, id) && Live(db.subtasks[id].state) && r.0.subtasks[id].state == Succeeded
      && r.1.value.spec == db.subtasks[id].spec
  {
    hide Inv, Apply, CompleteSubtask, SettleHold, Retire, Enqueue, LedgerStep;
    CompleteUnfolds(db, id, token, key, ref, usage, expected, actor, now);
    SubtaskFacts(db, id);
    var sub := db.subtasks[id];
    CompletionEvent(sub.state);
    SettleIsLedgerStep(db, sub, usage, actor, now);
    var settled := SettleHold(db, sub, usage, actor, now).value;
    LedgerStepOffBoard(db, settled);
    var done := Moving(sub, Succeeded).(resultRef := ref);
    var moved := Move(settled.(idem := settled.idem[key := ref]), done, EvCompleted,
                      map["subtask_id" := JStr(id), "result_ref" := JStr(ref)], actor, now);
    RetireOffBoard(moved, sub.lease, LReleased);
    EnqueueOffBoard(Retire(moved, sub.lease, LReleased), done, ref, now);
  }

  lemma CompletionEvent(from: State)
    ensures Apply(from, EvCompleted).Some? ==> from == Running
    ensures Apply(from, EvFailed).Some? ==> from == Running
    ensures Apply(from, EvRetried).Some? <==> from == Failed
    ensures Apply(Blocked, EvDecisionApproved) == Some(Running) && Apply(Blocked, EvDecisionRejected) == Some(Failed)
    ensures Apply(Running, EvCompleted) == Some(Succeeded) && Apply(Failed, EvRetried) == Some(Ready)
    ensures Apply(Pending, EvDepsSatisfied) == Some(Ready) && Apply(Pending, EvCancelled) == Some(Cancelled)
  {}

  lemma LedgerStepOffBoard(db: DB, d: DB)
    requires LedgerStep(db, d)
    ensures BoardOf(d) == BoardOf(db) && d.leases == db.leases && d.idem == db.idem
  {}

  lemma RetireOffBoard(db: DB, l: string, to: LeaseState)
    ensures BoardOf(Retire(db, l, to)) == BoardOf(db)
  {}

  lemma EnqueueOffBoard(db: DB, sub: Subtask, ref: string, now: int)
    ensures BoardOf(Enqueue(db, sub, ref, now)) == BoardOf(db)
  {}

  lemma CompleteGood(db: DB, id: string, token: int, key: string, ref: string, usage: int, expected: int, actor: Actor,
                     now: int, d: DB)
    requires Inv(db) && Stable(BoardOf(db)) && CompleteStep(db, id, token, key, ref, usage, expected, actor, now, d)
    ensures Good(db, d)
  {
    hide Inv, Grows, Sound, CompleteSubtask, Propagate, Becomes, Stable;
    var r := CompleteSubtask(db, id, token, key, ref, usage, expected, actor, now);
    if r.1.Ok? {
      CompleteSubtaskKeeps(db, id, token, key, ref, usage, expected, actor, now);
      CompleteMoves(db, id, token, key, ref, usage, expected, actor, now);
      MoveLands(db, r.0, id, Succeeded);
      CompletionKeeps(BoardOf(db), BoardOf(r.0), id);
      BecomesGood(db, r.0, d, Propagate(BoardOf(r.0), r.1.value.spec.mission));
    } else if r.1.Duplicate? && r.1.value.state == Succeeded {
      ReconcileGood(db, r.1.value.spec.mission, d);
    } else {
      StayGood(db);
    }
  }

  lemma ReconcileGood(db: DB, m: string, d: DB)
    requires Inv(db) && Stable(BoardOf(db)) && Becomes(db, d, Propagate(BoardOf(db), m))
    ensures Good(db, d)
  {
    hide Inv, Grows, Sound, Propagate, Becomes, Weak;
    Unchanged(db);
    PropagateKeeps(BoardOf(db), m, {}, {}, {});
    assert {} - {m} == {};
    BecomesGood(db, db, d, Propagate(BoardOf(db), m));
  }

  lemma FailUnfolds(db: DB, id: string, token: int, reason: string, expected: int, actor: Actor, now: int)
    requires FailSubtask(db, id, token, reason, expected, actor, now).1.Ok?
    ensures id in db.subtasks && Apply(db.subtasks[id].state, EvFailed).Some?
    ensures var sub := db.subtasks[id];
      var freed := if sub.attempt >= sub.spec.maxAttempts then ReleaseHold(db, sub, "final_failure", actor, now) else db;
      FailSubtask(db, id, token, reason, expected, actor, now)
        == (Retire(Move(freed, Moving(sub, Failed), EvFailed, map["reason" := JStr(reason)], actor, now), sub.lease, LReleased),
            Ok(Moving(sub, Failed)))
  {
    hide Apply, FencingOk, ReleaseHold, Retire, Move;
  }

  lemma FailMoves(db: DB, id: string, token: int, reason: string, expected: int, actor: Actor, now: int)
    requires Inv(db) && FailSubtask(db, id, token, reason, expected, actor, now).1.Ok?
    ensures var r := FailSubtask(db, id, token, reason, expected, actor, now);
      && OneMove(db, r.0, id) && Live(db.subtasks[id].state) && r.0.subtasks[id] == r.1.value
      && r.1.value.state == Failed && r.1.value.id == id
  {
    hide Inv, Apply, FailSubtask, ReleaseHold, Retire, LedgerStep;
    FailUnfolds(db, id, token, reason, expected, actor, now);
    SubtaskFacts(db, id);
    var sub := db.subtasks[id];
    CompletionEvent(sub.state);
    ReleaseIsLedgerStep(db, sub, "final_failure", actor, now);
    LedgerStepOffBoard(db, ReleaseHold(db, sub, "final_failure", actor, now));
    var freed := if sub.attempt >= sub.spec.maxAttempts then ReleaseHold(db, sub, "final_failure", actor, now) else db;
    assert BoardOf(freed) == BoardOf(db);
    RetireOffBoard(Move(freed, Moving(sub, Failed), EvFailed, map["reason" := JStr(reason)], actor, now), sub.lease,
                   LReleased);
  }

  lemma TransitionMoves(db: DB, id: string, ev: EventType, expected: int, actor: Actor, extra: Json0, now: int,
                        mut: Mutation)
    requires Inv(db) && Transition(db, id, ev, expected, actor, extra, now, mut).1.Ok?
    ensures var r := Transition(db, id, ev, expected, actor, extra, now, mut);
      && OneMove(db, r.0, id) && Apply(db.subtasks[id].state, ev) == Some(r.0.subtasks[id].state)
      && r.0.subtasks[id].version == db.subtasks[id].version + 1 && r.0.subtasks[id].id == id
  {
    SubtaskFacts(db, id);
    hide Inv, Apply;
  }

  lemma TransitionOk(db: DB, id: string, ev: EventType, expected: int, actor: Actor, extra: Json0, now: int,
                     mut: Mutation)
    requires id in db.subtasks && db.subtasks[id].version == expected && Apply(db.subtasks[id].state, ev).Some?
    ensures Transition(db, id, ev, expected, actor, extra, now, mut).1.Ok?
  {}

  lemma FailGood(db: DB, id: string, token: int, reason: string, expected: int, actor: Actor, now: int, d: DB)
    requires Inv(db) && Stable(BoardOf(db)) && FailStep(db, id, token, reason, expected, actor, now, d)
    ensures Good(db, d)
  {
    hide Inv, Grows, FailSubtask, Cascade, Becomes, Stable, Transition, Lands, Quiet, Apply;
    var r := FailSubtask(db, id, token, reason, expected, actor, now);
    if !r.1.Ok? {
      StayGood(db);
    } else {
      FailSubtaskKeeps(db, id, token, reason, expected, actor, now);
      FailMoves(db, id, token, reason, expected, actor, now);
      if r.1.value.attempt < r.1.value.spec.maxAttempts {
        var extra, v := map["reason" := JStr(reason)], r.1.value.version;
        CompletionEvent(Failed);
        TransitionKeeps(r.0, id, EvRetried, v, Orchestrating, extra, now, RetryMutation);
        TransitionOk(r.0, id, EvRetried, v, Orchestrating, extra, now, RetryMutation);
        TransitionMoves(r.0, id, EvRetried, v, Orchestrating, extra, now, RetryMutation);
        SoundThen(db, r.0, d);
        MoveTwice(db, r.0, d, id);
        MoveQuiet(db, d, id);
        QuietGood(db, d);
      } else {
        MoveLands(db, r.0, id, Failed);
        CascadeGood(db, r.0, d, id);
      }
    }
  }

  lemma MoveTwice(db: DB, r: DB, d: DB, id: string)
    requires OneMove(db, r, id) && OneMove(r, d, id)
    ensures OneMove(db, d, id)
  {}

  /** One failure and its cascade. */
  lemma CascadeGood(db: DB, r: DB, d: DB, id: string)
    requires Sound(db, r) && Stable(BoardOf(db)) && id in db.subtasks && Lands(BoardOf(db), BoardOf(r), {id}, Failed)
    requires Becomes(r, d, Cascade(BoardOf(r), id))
    ensures Good(db, d)
  {
    hide Cascade, Sound, Becomes, Stable, Lands;
    assert Elements([id]) == {id};
    FailureKeeps(BoardOf(db), BoardOf(r), [id]);
    assert [id][..0] == [];
    assert CascadeAll(BoardOf(r), []) == BoardOf(r);
    assert CascadeAll(BoardOf(r), [id]) == Cascade(BoardOf(r), id);
    BecomesGood(db, r, d, Cascade(BoardOf(r), id));
  }

  lemma OutcomeGood(db: DB, decision: string, now: int, d: DB)
    requires Inv(db) && Stable(BoardOf(db)) && OutcomeStep(db, decision, now, d)
    ensures Good(db, d)
  {
    hide Inv, Stable, Good, RejectStep, ApproveStep, BoardOf;
    var dec := db.decisions[decision];
    if !Awaiting(db, dec) {
      StayGood(db);
    } else if dec.choice == REJECT {
      RejectionGood(db, dec, now, d);
    } else {
      ApprovalGood(db, dec, now, d);
    }
  }

  lemma RejectionGood(db: DB, dec: Decision, now: int, d: DB)
    requires Inv(db) && Stable(BoardOf(db)) && Awaiting(db, dec)
    requires RejectStep(db, dec, db.subtasks[dec.subtask].version, now, d)
    ensures Good(db, d)
  {
    hide Inv, Grows, Sound, Cascade, Becomes, Stable, Transition, Apply, Lands, OutcomePayload;
    var id, actor, v := dec.subtask, Actor("human", dec.decider), db.subtasks[dec.subtask].version;
    CompletionEvent(Blocked);
    TransitionKeeps(db, id, EvDecisionRejected, v, actor, OutcomePayload(dec), now, NoMutation);
    TransitionOk(db, id, EvDecisionRejected, v, actor, OutcomePayload(dec), now, NoMutation);
    TransitionMoves(db, id, EvDecisionRejected, v, actor, OutcomePayload(dec), now, NoMutation);
    var r := Transition(db, id, EvDecisionRejected, v, actor, OutcomePayload(dec), now, NoMutation).0;
    MoveLands(db, r, id, Failed);
    CascadeGood(db, r, d, id);
  }

  lemma ApprovalGood(db: DB, dec: Decision, now: int, d: DB)
    requires Inv(db) && Stable(BoardOf(db)) && Awaiting(db, dec)
    requires ApproveStep(db, dec, db.subtasks[dec.subtask].version, db.subtasks[dec.subtask].spec.kind.Human(), now, d)
    ensures Good(db, d)
  {
    hide Inv, Grows, Sound, Propagate, Becomes, Stable, Transition, Apply, Lands, Quiet, OutcomePayload, HumanStep;
    var id, actor, v := dec.subtask, Actor("human", dec.decider), db.subtasks[dec.subtask].version;
    CompletionEvent(Blocked);
    TransitionKeeps(db, id, EvDecisionApproved, v, actor, OutcomePayload(dec), now, NoMutation);
    TransitionOk(db, id, EvDecisionApproved, v, actor, OutcomePayload(dec), now, NoMutation);
    TransitionMoves(db, id, EvDecisionApproved, v, actor, OutcomePayload(dec), now, NoMutation);
    var r := Transition(db, id, EvDecisionApproved, v, actor, OutcomePayload(dec), now, NoMutation).0;
    MoveQuiet(db, r, id);
    QuietGood(db, r);
    if db.subtasks[id].spec.kind.Human() {
      SoundInv(db, r);
      HumanDone(r, dec, now, d);
      GoodThen(db, r, d);
    }
  }

  lemma SoundInv(db: DB, d: DB)
    requires Sound(db, d)
    ensures Inv(d)
  {}

  lemma GoodThen(db: DB, r: DB, d: DB)
    requires Sound(db, r) && Good(r, d)
    ensures Good(db, d)
  {
    hide Inv, Grows, Stable;
    SoundThen(db, r, d);
  }

  lemma HumanDone(db: DB, dec: Decision, now: int, d: DB)
    requires Inv(db) && Stable(BoardOf(db)) && dec.subtask in db.subtasks && db.subtasks[dec.subtask].state == Running
    requires db.subtasks[dec.subtask].spec.mission == dec.mission
    requires HumanStep(db, dec, db.subtasks[dec.subtask].version, now, d)
    ensures Good(db, d)
  {
    hide Inv, Grows, Sound, Propagate, Becomes, Stable, Transition, Apply, Lands;
    var id, actor, v := dec.subtask, Actor("human", dec.decider), db.subtasks[dec.subtask].version;
    var extra, mut := map["via" := JStr("human_decision")], ResultMutation("decision://" + dec.id);
    CompletionEvent(Running);
    TransitionKeeps(db, id, EvCompleted, v, actor, extra, now, mut);
    TransitionOk(db, id, EvCompleted, v, actor, extra, now, mut);
    TransitionMoves(db, id, EvCompleted, v, actor, extra, now, mut);
    var r := Transition(db, id, EvCompleted, v, actor, extra, now, mut).0;
    MoveLands(db, r, id, Succeeded);
    CompletionKeeps(BoardOf(db), BoardOf(r), id);
    BecomesGood(db, r, d, Propagate(BoardOf(r), dec.mission));
  }

  lemma DelegateGood(db: DB, key: string, parent: string, token: int, parentVersion: int, child: Subtask,
                     limits: Limits, actor: Actor, now: int, d: DB)
    requires Inv(db) && Stable(BoardOf(db))
    requires DelegateStep(db, key, parent, token, parentVersion, child, limits, actor, now, d)
    ensures Good(db, d)
  {
    hide Inv, Grows, Sound, Stable, SpawnSubtask, NewChild, ChildAdded, WithinLimits;
    var r := SpawnSubtask(db, key, parent, token, parentVersion, child, actor, now);
    if d == db {
      StayGood(db);
    } else if r.1.Ok? {
      SpawnSubtaskKeeps(db, key, parent, token, parentVersion, child, actor, now);
      SpawnAdds(db, key, parent, token, parentVersion, child, actor, now);
      DelegationKeeps(BoardOf(db), BoardOf(d), child.spec.mission, child.id);
    } else {
      SpawnRejected(db, key, parent, token, parentVersion, child, actor, now);
      StayGood(db);
    }
  }

  lemma SpawnRejected(db: DB, key: string, parent: string, token: int, parentVersion: int, child: Subtask, actor: Actor,
                      now: int)
    ensures var r := SpawnSubtask(db, key, parent, token, parentVersion, child, actor, now); !r.1.Ok? ==> r.0 == db
  {
    hide Subset, FencingOk, ReserveHold, AddSubtask, Move;
  }

  lemma SpawnAdds(db: DB, key: string, parent: string, token: int, parentVersion: int, child: Subtask, actor: Actor,
                  now: int)
    requires SpawnSubtask(db, key, parent, token, parentVersion, child, actor, now).1.Ok? && child.spec.deps == []
    requires child.spec.mission in db.missions && db.missions[child.spec.mission].status == Active
    ensures ChildAdded(BoardOf(db), BoardOf(SpawnSubtask(db, key, parent, token, parentVersion, child, actor, now).0),
                       child.spec.mission, child.id)
  {
    hide Subset, FencingOk, ReserveHold;
    var keyed := db.(idem := db.idem[key := child.id]);
    ReserveFrame(keyed, child, child.spec.tokens, actor, now);
    var born := child.(state := Pending, version := 0);
    var b := BoardOf(SpawnSubtask(db, key, parent, token, parentVersion, child, actor, now).0);
    assert b.subs == db.subtasks[child.id := born][child.id := Moving(born, Ready)];
  }

  lemma WakesLandOnBoard(db: DB, order: seq<string>, failed: seq<string>, now: int)
    requires OwnKeys(db.subtasks) && Lists(order, db.subtasks.Keys) && Elements(failed) == ExpiredWakes(db, now)
    ensures Lands(BoardOf(db), BoardOf(ExpireWakes(db, order, now)), Elements(failed), Failed)
    ensures forall i :: 0 <= i < |failed| ==> failed[i] in db.subtasks
  {
    WakesLand(db, order, now);
    hide ExpireWakes;
    ExpiredLive(db, now);
    hide WakeExpired;
    forall i | 0 <= i < |failed| ensures failed[i] in db.subtasks {
      assert failed[i] in Elements(failed);
    }
  }

  lemma SweepGood(db: DB, order: seq<string>, failed: seq<string>, now: int, d: DB)
    requires Inv(db) && Stable(BoardOf(db)) && SweepStep(db, order, failed, now, d)
    ensures Good(db, d)
  {
    hide Inv, Grows, Sound, Stable, ExpireWakes, CascadeAll, Becomes, ExpiredWakes, Lands, OwnKeys, Lists;
    var r := ExpireWakes(db, order, now);
    AllOwnKeys(db);
    ExpireWakesKeeps(db, order, now);
    WakesLandOnBoard(db, order, failed, now);
    FailureKeeps(BoardOf(db), BoardOf(r), failed);
    BecomesGood(db, r, d, CascadeAll(BoardOf(r), failed));
  }

  lemma AllOwnKeys(db: DB)
    requires Inv(db)
    ensures OwnKeys(db.subtasks)
  {}

  lemma ExpiredLive(db: DB, now: int)
    ensures forall id :: WakeExpired(db, id, now) ==> id in db.subtasks && db.subtasks[id].state == Waiting
  {}

  lemma CancelMissionGood(db: DB, m: string, d: DB)
    requires Inv(db) && Stable(BoardOf(db)) && Reaches(db, d) && BoardOf(d) == CancelledBoard(BoardOf(db), m)
    ensures Good(db, d)
  {
    hide Inv, Sound, Stable, Reaches, CancelledBoard, MissionCancelled;
    ReachesSound(db, d);
    CancelledIsCancelled(BoardOf(db), m);
    CancellationKeeps(BoardOf(db), BoardOf(d), m);
  }

  lemma CancelledIsCancelled(b: Board, m: string)
    ensures MissionCancelled(b, CancelledBoard(b, m), m)
  {}

  lemma CreateAdds(db: DB, m: Mission, subs: seq<Subtask>, rank: map<string, nat>, actor: Actor, now: int)
    requires m.id !in db.missions && NewRoots(db.subtasks, m.id, subs) && ValidPlan(m, subs, rank)
    ensures var r := CreateMission(db, m, subs, actor, now).0;
      r.missions == db.missions[m.id := m] && r.subtasks == WithSubtasks(db.subtasks, subs)
  {
    hide AddSubtasks, WithSubtasks;
    AddSubtasksFrame(OpenMission(db, m, actor, now), subs, actor, now);
  }

  /** What the store holds right after the plan has been added. */
  ghost predicate Planned(subs: map<string, Subtask>, all: map<string, Subtask>, m: string, rank: map<string, nat>) {
    && (forall id :: id in subs ==> id in all && all[id] == subs[id] && subs[id].spec.mission != m)
    && (forall id :: id in all && id !in subs ==> all[id].spec.mission == m && id in rank && all[id].state == Pending)
    && (forall id, d :: Dep(all, id, d) ==>
          (id !in subs ==> d in all && d !in subs && d in rank && rank[d] < rank[id]))
  }

  lemma PlanAdds(a: Board, m: Mission, subs: seq<Subtask>, rank: map<string, nat>)
    requires Wired(a) && m.id !in a.missions && NewRoots(a.subs, m.id, subs) && ValidPlan(m, subs, rank)
    ensures Planned(a.subs, WithSubtasks(a.subs, subs), m.id, rank)
  {
    hide WithSubtasks;
    WithSubtasksContents(a.subs, subs);
    var all := WithSubtasks(a.subs, subs);
    forall id, d | Dep(all, id, d) && id !in a.subs ensures d in all && d !in a.subs && d in rank && rank[d] < rank[id] {
      var i :| 0 <= i < |subs| && subs[i].id == id;
      var j :| 0 <= j < |subs| && subs[j].id == d;
      assert subs[j].id in all && subs[j].id !in a.subs;
    }
    forall id | id in all && id !in a.subs ensures all[id].spec.mission == m.id && id in rank && all[id].state == Pending {
      var i :| 0 <= i < |subs| && subs[i].id == id;
      assert NewRoot(m.id, subs[i]);
    }
  }

  lemma PlanCreates(a: Board, all: map<string, Subtask>, m: Mission, rank: map<string, nat>)
    requires m.id !in a.missions && m.status == Active && Planned(a.subs, all, m.id, rank)
    ensures Created(a, Board(Activated(all, m.id), a.missions[m.id := m]), m.id, rank)
  {
    var b := Activated(all, m.id);
    forall id, d | Dep(b, id, d) && id !in a.subs ensures d in b && d !in a.subs && d in rank && rank[d] < rank[id] {
      assert Dep(all, id, d);
    }
  }

  lemma CreateGood(db: DB, m: Mission, subs: seq<Subtask>, rank: map<string, nat>, actor: Actor, now: int, d: DB)
    requires Inv(db) && Stable(BoardOf(db)) && CreateStep(db, m, subs, rank, actor, now, d)
    ensures Good(db, d)
  {
    if m.id in db.missions {
      hide Inv;
      StayGood(db);
    } else {
      var r := CreateMission(db, m, subs, actor, now).0;
      hide Inv, Grows, Sound, CreateMission, Activated, WithSubtasks, Created, NewRoots, Planned, Becomes;
      CreateMissionKeeps(db, m, subs, actor, now);
      CreateAdds(db, m, subs, rank, actor, now);
      PlanAdds(BoardOf(db), m, subs, rank);
      PlanCreates(BoardOf(db), r.subtasks, m, rank);
      CreationKeeps(BoardOf(db), Board(Activated(r.subtasks, m.id), r.missions), m.id, rank);
      BecomesGood(db, r, d, Board(Activated(r.subtasks, m.id), r.missions));
    }
  }

  lemma PassThroughGood(db: DB, op: Op, actor: Actor, now: int)
    requires Inv(db) && Stable(BoardOf(db)) && PassThrough(op) && Admissible(db, Call(op, actor, now))
    ensures Good(db, Step(db, Call(op, actor, now)).0)
  {
    hide Inv, Grows, Sound, Stable, Step, Admissible, Quiet;
    StepKeeps(db, Call(op, actor, now));
    PassThroughQuiet(db, Call(op, actor, now));
    QuietGood(db, Step(db, Call(op, actor, now)).0);
  }

  /** Every service call keeps the store invariant and the orchestrator's invariant. */
  lemma ServiceKeeps(db: DB, s: Service, limits: Limits, actor: Actor, now: int, d: DB)
    requires Inv(db) && Stable(BoardOf(db)) && Does(db, s, limits, actor, now, d)
    ensures Good(db, d)
  {
    hide Inv, Stable, Good, Becomes, Step, Admissible, Sound, BoardOf, Propagate, CancelledBoard;
    hide CreateStep, CompleteStep, FailStep, OutcomeStep, SweepStep, DelegateStep;
    match s
    case Store(op) => PassThroughGood(db, op, actor, now);
    case CreateMissionAs(m, subs, rank) => CreateGood(db, m, subs, rank, actor, now, d);
    case CancelMissionAs(m) => CancelMissionGood(db, m, d);
    case Complete(id, token, key, ref, usage, expected) =>
      CompleteGood(db, id, token, key, ref, usage, expected, actor, now, d);
    case Fail(id, token, reason, expected) => FailGood(db, id, token, reason, expected, actor, now, d);
    case DecisionOutcome(decision) => OutcomeGood(db, decision, now, d);
    case SweepWakes(order, failed) => SweepGood(db, order, failed, now, d);
    case Delegate(key, parent, token, parentVersion, child) =>
      DelegateGood(db, key, parent, token, parentVersion, child, limits, actor, now, d);
    case Reconcile(m) => ReconcileGood(db, m, d);
    case ReconcileRoots => IdleRootsGood(db, d);
  }

  // ---- the reconcilers have nothing to do unless a step was cut off ----

  lemma StableHasNoLostRoots(b: Board)
    requires Stable(b)
    ensures RootsReadied(b.subs) == b.subs
  {
    forall id | id in b.subs ensures !LostRoot(b.subs, id) {
      if b.subs[id].state == Pending {
        assert Awaits(b.subs, id);
        var d :| Dep(b.subs, id, d) && d in b.subs && b.subs[d].state != Succeeded;
      }
    }
  }

  lemma StableIsPropagated(b: Board, m: string)
    requires Stable(b)
    ensures Propagate(b, m) == b
  {
    forall id | id in b.subs ensures !Unblocked(b.subs, m, id) {
      if b.subs[id].state == Pending {
        assert Awaits(b.subs, id);
        var d :| Dep(b.subs, id, d) && d in b.subs && b.subs[d].state != Succeeded;
      }
    }
    assert Readied(b.subs, m) == b.subs && b.(subs := b.subs) == b;
    if m in b.missions && b.missions[m].status == Active {
      ActiveStays(b, m);
    }
  }

  lemma ActiveStays(b: Board, m: string)
    requires Open(b, {}) && m in b.missions && b.missions[m].status == Active
    ensures StatusOf(StatesOf(b.subs, m)) == Active
  {
    if id :| InMission(b.subs, m, id) {
      assert !Finished(b.subs, m);
      var x :| InMission(b.subs, m, x) && !b.subs[x].state.Terminal();
      assert b.subs[x].state in StatesOf(b.subs, m);
    } else {
      NoStates(b.subs, m);
    }
  }

  lemma NoStates(subs: map<string, Subtask>, m: string)
    requires forall id :: !InMission(subs, m, id)
    ensures StatesOf(subs, m) == {}
  {
    if s :| s in StatesOf(subs, m) {
      var id :| id in subs && subs[id].spec.mission == m;
      assert InMission(subs, m, id);
    }
  }

  lemma IdleRootsGood(db: DB, d: DB)
    requires Inv(db) && Stable(BoardOf(db)) && Settles(db, d, RootsBoard(db))
    ensures d == db && Good(db, d)
  {
    hide Inv, Stable, Becomes;
    StableHasNoLostRoots(BoardOf(db));
    StayGood(db);
  }

  /** Both reconcilers are the identity on every stable board: they only ever repair a step that was cut
      off. */
  lemma ReconcilersIdle(db: DB, m: string, limits: Limits, actor: Actor, now: int, d: DB)
    requires Stable(BoardOf(db))
    requires Does(db, Service.Reconcile(m), limits, actor, now, d) || Does(db, Service.ReconcileRoots, limits, actor, now, d)
    ensures d == db
  {
    hide Stable, Becomes, Propagate;
    StableHasNoLostRoots(BoardOf(db));
    StableIsPropagated(BoardOf(db), m);
  }

  // ---- whole runs ----

  /** A history of the store under service calls, from the empty store on. */
  ghost predicate ServiceRun(states: seq<DB>, limits: Limits) {
    && states != [] && states[0] == EMPTY
    && forall i :: 0 < i < |states| ==> ServiceStep(states[i - 1], states[i], limits)
  }

  lemma EmptyStable()
    ensures Stable(BoardOf(EMPTY))
  {
    assert RankedBy(EMPTY.subtasks, map[]);
  }

  lemma {:induction false} ServiceRunKeeps(states: seq<DB>, limits: Limits, i: nat)
    requires ServiceRun(states, limits) && i < |states|
    ensures Inv(states[i]) && Stable(BoardOf(states[i]))
  {
    hide Inv, Stable, Does;
    if i == 0 {
      EmptyKeeps();
      EmptyStable();
    } else {
      ServiceRunKeeps(states, limits, i - 1);
      assert ServiceStep(states[i - 1], states[i], limits);
      var s, actor, now :| Does(states[i - 1], s, limits, actor, now, states[i]);
      ServiceKeeps(states[i - 1], s, limits, actor, now, states[i]);
      SoundInv(states[i - 1], states[i]);
    }
  }

  /** In every reachable state a mission with subtasks is ACTIVE exactly while a subtask is unfinished,
      and exactly while some subtask is READY, OFFERED, LEASED, RUNNING, WAITING or BLOCKED. A final
      status is the derived one unless the mission was cancelled, and nothing past PENDING ever
      overtook its dependencies. */
  lemma OrchestrationNeverDeadlocks(states: seq<DB>, limits: Limits, i: nat, m: string, id: string)
    requires ServiceRun(states, limits) && i < |states|
    requires m in states[i].missions && InMission(states[i].subtasks, m, id)
    ensures var db := states[i];
      && (db.missions[m].status == Active <==> !Finished(db.subtasks, m))
      && (db.missions[m].status == Active <==> exists x :: InMission(db.subtasks, m, x) && Live(db.subtasks[x].state))
      && (db.missions[m].status == Active || db.missions[m].status == MCancelled
          || db.missions[m].status == StatusOf(StatesOf(db.subtasks, m)))
    ensures var db := states[i];
      forall d :: Dep(db.subtasks, id, d) ==>
        db.subtasks[id].state == Pending || db.subtasks[id].state == Cancelled
        || (d in db.subtasks && db.subtasks[d].state == Succeeded)
  {
    ServiceRunKeeps(states, limits, i);
    hide Inv;
    NoDeadlock(BoardOf(states[i]), m, id);
  }

  ghost predicate SomeIn(subs: map<string, Subtask>, m: string, state: State) {
    exists x :: InMission(subs, m, x) && subs[x].state == state
  }

  ghost predicate AllIn(subs: map<string, Subtask>, m: string, state: State) {
    forall x :: InMission(subs, m, x) ==> subs[x].state == state
  }

  /** What the final statuses mean, in every reachable state and for every mission with subtasks: SUCCEEDED that
      every subtask is, FAILED that all are finished and one of them FAILED. Unless somebody cancels the mission,
      the converse holds too; and it is CANCELLED when all are finished, none FAILED and one is CANCELLED. */
  lemma MissionVerdict(states: seq<DB>, limits: Limits, i: nat, m: string, id: string)
    requires ServiceRun(states, limits) && i < |states|
    requires m in states[i].missions && InMission(states[i].subtasks, m, id)
    ensures var subs, status := states[i].subtasks, states[i].missions[m].status;
      && (status == MSucceeded ==> AllIn(subs, m, Succeeded))
      && (status == MFailed ==> Finished(subs, m) && SomeIn(subs, m, Failed))
      && (AllIn(subs, m, Succeeded) ==> status == MSucceeded || status == MCancelled)
      && (Finished(subs, m) && SomeIn(subs, m, Failed) ==> status == MFailed || status == MCancelled)
      && (Finished(subs, m) && SomeIn(subs, m, Cancelled) && !SomeIn(subs, m, Failed) ==> status == MCancelled)
  {
    OrchestrationNeverDeadlocks(states, limits, i, m, id);
    StatusMeans(states[i].subtasks, m, id);
    hide ServiceRun, StatusOf, StatesOf, Live;
  }

  lemma StatusMeans(subs: map<string, Subtask>, m: string, id: string)
    requires InMission(subs, m, id)
    ensures var status := StatusOf(StatesOf(subs, m));
      && (status == Active <==> !Finished(subs, m))
      && (status == MSucceeded <==> AllIn(subs, m, Succeeded))
      && (status == MFailed <==> Finished(subs, m) && SomeIn(subs, m, Failed))
      && (status == MCancelled <==> Finished(subs, m) && SomeIn(subs, m, Cancelled) && !SomeIn(subs, m, Failed))
  {
    var states := StatesOf(subs, m);
    forall s ensures s in states <==> SomeIn(subs, m, s) {
      if s in states {
        var x :| x in subs && subs[x].spec.mission == m && subs[x].state == s;
        assert InMission(subs, m, x);
      }
    }
    assert SomeIn(subs, m, subs[id].state);
    if s :| s in states && !s.Terminal() {
      assert SomeIn(subs, m, s);
    } else {
      forall x | InMission(subs, m, x) ensures subs[x].state.Terminal() {
        assert SomeIn(subs, m, subs[x].state);
      }
    }
    if AllIn(subs, m, Succeeded) {
      forall s | s in states ensures s == Succeeded {
        assert SomeIn(subs, m, s);
      }
    }
    forall x | InMission(subs, m, x) ensures SomeIn(subs, m, subs[x].state) {}
  }
}
