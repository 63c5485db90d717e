/** What a single store call leaves alone: which idempotency key it binds, which missions and subtasks it
    adds. */
module CallFrames {
  import opened Basics
  import opened StateMachine
  import opened Permissions
  import opened Records
  import opened StoreSpec
  import opened Invariants
  import opened StoreOps
  import opened StoreRuns
  import opened Flow
  import opened FlowKeeps
  import opened Orchestrator
  import opened DelegationRuns

  // ---- books ----

  /** What only the calls that carry a key, money, a mission or an offer write. */
  datatype Books = Books(
    idem: map<string, string>, budgets: map<string, Account>, holds: map<string, Hold>, missions: map<string, Mission>,
    contexts: map<string, ContextPackage>)

  ghost function BooksOf(db: DB): Books { Books(db.idem, db.budgets, db.holds, db.missions, db.contexts) }

  /** The call moves money at most. */
  ghost predicate MoneyOnly(db: DB, d: DB) { BooksOf(d) == BooksOf(db).(budgets := d.budgets, holds := d.holds) }

  // ---- subtasks and their declarations ----

  lemma CompleteCallShape(db: DB, id: string, token: int, key: string, ref: string, usage: int, expected: int,
                          actor: Actor, now: int)
    requires Inv(db)
    ensures SameShape(db.subtasks, CompleteSubtask(db, id, token, key, ref, usage, expected, actor, now).0.subtasks)
  {
    hide Inv, CompleteSubtask, SameShape;
    var c := Call(OpComplete(id, token, key, ref, usage, expected), actor, now);
    var r := CompleteSubtask(db, id, token, key, ref, usage, expected, actor, now);
    if r.1.Ok? {
      CompleteMoves(db, id, token, key, ref, usage, expected, actor, now);
      MoveShape(db, r.0, id);
    } else {
      RejectedFenced(db, c);
      SelfShape(db.subtasks);
    }
  }

  lemma FailCallShape(db: DB, id: string, token: int, reason: string, expected: int, actor: Actor, now: int)
    requires Inv(db)
    ensures SameShape(db.subtasks, FailSubtask(db, id, token, reason, expected, actor, now).0.subtasks)
  {
    hide Inv, FailSubtask, SameShape;
    var c := Call(OpFail(id, token, reason, expected), actor, now);
    var r := FailSubtask(db, id, token, reason, expected, actor, now);
    if r.1.Ok? {
      FailMoves(db, id, token, reason, expected, actor, now);
      MoveShape(db, r.0, id);
    } else {
      RejectedFenced(db, c);
      SelfShape(db.subtasks);
    }
  }

  lemma CancelCallShape(db: DB, id: string, expected: int, actor: Actor, now: int)
    requires Inv(db)
    ensures SameShape(db.subtasks, CancelSubtask(db, id, expected, actor, now).0.subtasks)
  {
    hide Inv, Apply, ReleaseHold, Retire;
    if id in db.subtasks {
      SubtaskFacts(db, id);
      var sub := db.subtasks[id];
      ReleaseIsLedgerStep(db, sub, "cancelled", actor, now);
      LedgerStepOffBoard(db, ReleaseHold(db, sub, "cancelled", actor, now));
      var cancelled := Moving(sub, Cancelled).(assignee := "", lease := "");
      RetireOffBoard(Move(ReleaseHold(db, sub, "cancelled", actor, now), cancelled, EvCancelled, map[], actor, now),
                     sub.lease, LReleased);
    }
  }

  lemma WakesCallShape(db: DB, order: seq<string>, now: int)
    requires Inv(db)
    ensures db.subtasks.Keys == ExpireWakes(db, order, now).subtasks.Keys
  {
    InvOwnKeys(db);
    hide Inv;
    WakesKeepKeys(db, order, now);
  }

  lemma {:induction false} WakesKeepKeys(db: DB, order: seq<string>, now: int)
    requires OwnKeys(db.subtasks)
    ensures OwnKeys(ExpireWakes(db, order, now).subtasks) && ExpireWakes(db, order, now).subtasks.Keys == db.subtasks.Keys
  {
    if order != [] {
      WakesKeepKeys(db, order[..|order| - 1], now);
    }
  }

  lemma StatusCallShape(db: DB, id: string, status: MissionStatus, expected: int, actor: Actor, now: int)
    ensures SameShape(db.subtasks, SetMissionStatus(db, id, status, expected, actor, now).0.subtasks)
  {}

  // ---- missions ----

  lemma CreateCallMissions(db: DB, m: Mission, subs: seq<Subtask>, actor: Actor, now: int)
    ensures CreateMission(db, m, subs, actor, now).0.missions.Keys == db.missions.Keys + {m.id}
    ensures CreateMission(db, m, subs, actor, now).0.idem == db.idem
  {
    hide AddSubtasks;
    AddSubtasksFrame(OpenMission(db, m, actor, now), subs, actor, now);
  }

  lemma CreateCallSubtasks(db: DB, m: Mission, subs: seq<Subtask>, actor: Actor, now: int)
    requires m.id !in db.missions ==> NewRoots(db.subtasks, m.id, subs)
    ensures forall id :: id in CreateMission(db, m, subs, actor, now).0.subtasks && id !in db.subtasks ==>
      exists i :: 0 <= i < |subs| && subs[i].id == id
  {
    if m.id !in db.missions {
      hide AddSubtasks, WithSubtasks;
      AddSubtasksFrame(OpenMission(db, m, actor, now), subs, actor, now);
      WithSubtasksContents(db.subtasks, subs);
    }
  }

  lemma CreateAgain(db: DB, m: Mission, subs: seq<Subtask>, actor: Actor, now: int)
    ensures m.id in db.missions ==> CreateMission(db, m, subs, actor, now).0 == db
  {}

  lemma SpawnCallSubtasks(db: DB, key: string, parent: string, token: int, parentVersion: int, child: Subtask,
                          actor: Actor, now: int)
    ensures var d := SpawnSubtask(db, key, parent, token, parentVersion, child, actor, now).0;
      && d.missions == db.missions && forall id :: id in d.subtasks && id !in db.subtasks ==> id == child.id
  {
    hide Subset, FencingOk, ReserveHold;
    ReserveFrame(db.(idem := db.idem[key := child.id]), child, child.spec.tokens, actor, now);
  }

  /** What is on the board after a call that neither creates a mission nor delegates: the same missions and
      the same subtasks. */
  lemma CallKeepsKeys(db: DB, c: Call)
    requires Inv(db) && !c.op.OpCreateMission? && !c.op.OpSpawn?
    ensures Step(db, c).0.missions.Keys == db.missions.Keys && Step(db, c).0.subtasks.Keys == db.subtasks.Keys
  {
    hide Inv, Quiet, Step;
    if PassThrough(c.op) {
      PassThroughQuiet(db, c);
      QuietKeys(BoardOf(db), BoardOf(Step(db, c).0));
    } else if c.op.OpComplete? || c.op.OpFail? {
      EndingKeepsKeys(db, c);
    } else {
      ComposedKeepsKeys(db, c);
    }
  }

  lemma EndingKeepsKeys(db: DB, c: Call)
    requires Inv(db) && (c.op.OpComplete? || c.op.OpFail?)
    ensures Step(db, c).0.missions.Keys == db.missions.Keys && Step(db, c).0.subtasks.Keys == db.subtasks.Keys
  {
    hide Inv, CompleteSubtask, FailSubtask;
    if !Step(db, c).1 {
      RejectedFenced(db, c);
    } else if c.op.OpComplete? {
      CompleteMoves(db, c.op.id, c.op.token, c.op.key, c.op.ref, c.op.usage, c.op.expected, c.actor, c.now);
    } else {
      FailMoves(db, c.op.id, c.op.token, c.op.reason, c.op.expected, c.actor, c.now);
    }
  }

  lemma ComposedKeepsKeys(db: DB, c: Call)
    requires Inv(db) && (c.op.OpSetStatus? || c.op.OpTransition? || c.op.OpCancel? || c.op.OpExpireWakes?)
    ensures Step(db, c).0.missions.Keys == db.missions.Keys && Step(db, c).0.subtasks.Keys == db.subtasks.Keys
  {
    hide Inv, CancelSubtask, ExpireWakes, Transition, SetMissionStatus, MoneyOnly, BooksOf;
    match c.op
    case OpSetStatus(id, status, expected) => StatusKeys(db, id, status, expected, c.actor, c.now);
    case OpTransition(id, ev, expected, extra, mut) =>
      TransitionKeepsKeys(db, id, ev, expected, c.actor, extra, c.now, mut);
    case OpCancel(id, expected) => CancelKeepsKeys(db, id, expected, c.actor, c.now);
    case OpExpireWakes(order) =>
      WakesCallShape(db, order, c.now);
      WakesFrame(db, order, c.now);
      BooksMissions(db, ExpireWakes(db, order, c.now));
  }

  lemma TransitionKeepsKeys(db: DB, id: string, ev: EventType, expected: int, actor: Actor, extra: Json0, now: int,
                            mut: Mutation)
    requires Inv(db)
    ensures var d := Transition(db, id, ev, expected, actor, extra, now, mut).0;
      d.missions.Keys == db.missions.Keys && d.subtasks.Keys == db.subtasks.Keys
  {
    hide Inv, Transition;
    if Transition(db, id, ev, expected, actor, extra, now, mut).1.Ok? {
      TransitionMoves(db, id, ev, expected, actor, extra, now, mut);
    } else {
      TransitionRejected(db, id, ev, expected, actor, extra, now, mut);
    }
  }

  lemma CancelKeepsKeys(db: DB, id: string, expected: int, actor: Actor, now: int)
    requires Inv(db)
    ensures var d := CancelSubtask(db, id, expected, actor, now).0;
      d.missions.Keys == db.missions.Keys && d.subtasks.Keys == db.subtasks.Keys
  {
    hide Inv, CancelSubtask, MoneyOnly;
    CancelCallShape(db, id, expected, actor, now);
    CancelFrame(db, id, expected, actor, now);
    MoneyKeepsKeys(db, CancelSubtask(db, id, expected, actor, now).0);
  }

  lemma BooksMissions(db: DB, d: DB)
    requires BooksOf(d) == BooksOf(db)
    ensures d.missions == db.missions
  {}

  lemma QuietKeys(a: Board, b: Board)
    requires Quiet(a, b)
    ensures a.missions.Keys == b.missions.Keys && a.subs.Keys == b.subs.Keys
  {}

  lemma StatusKeys(db: DB, id: string, status: MissionStatus, expected: int, actor: Actor, now: int)
    ensures var d := SetMissionStatus(db, id, status, expected, actor, now).0;
      d.missions.Keys == db.missions.Keys && d.subtasks == db.subtasks && d.idem == db.idem
  {
    if SetMissionStatus(db, id, status, expected, actor, now).1.Ok? {
      StatusUnfolds(db, id, status, expected, actor, now);
    } else {
      assert SetMissionStatus(db, id, status, expected, actor, now).0 == db;
    }
    hide SetMissionStatus;
  }

  lemma StatusUnfolds(db: DB, id: string, status: MissionStatus, expected: int, actor: Actor, now: int)
    requires SetMissionStatus(db, id, status, expected, actor, now).1.Ok?
    ensures id in db.missions
    ensures var d, m := SetMissionStatus(db, id, status, expected, actor, now).0, db.missions[id];
      d == db.(missions := db.missions[id := m.(status := status, version := m.version + 1)], events := d.events,
               eventSeq := d.eventSeq)
  {
    hide StatusEvent, StatusName;
  }

  lemma CancelFrame(db: DB, id: string, expected: int, actor: Actor, now: int)
    ensures MoneyOnly(db, CancelSubtask(db, id, expected, actor, now).0)
  {
    hide Apply, ReleaseHold, Retire;
    if id in db.subtasks {
      var sub := db.subtasks[id];
      ReleaseFrame(db, sub, "cancelled", actor, now);
      RetireFrame(Move(ReleaseHold(db, sub, "cancelled", actor, now), Moving(sub, Cancelled).(assignee := "", lease := ""),
                       EvCancelled, map[], actor, now), sub.lease, LReleased);
    }
  }

  lemma RetireFrame(db: DB, l: string, to: LeaseState)
    ensures BooksOf(Retire(db, l, to)) == BooksOf(db)
  {}

  lemma ReleaseFrame(db: DB, sub: Subtask, reason: string, actor: Actor, now: int)
    ensures MoneyOnly(db, ReleaseHold(db, sub, reason, actor, now))
  {}

  lemma {:induction false} WakesFrame(db: DB, order: seq<string>, now: int)
    ensures BooksOf(ExpireWakes(db, order, now)) == BooksOf(db)
  {
    hide WakeExpired;
    if order != [] {
      WakesFrame(db, order[..|order| - 1], now);
    }
  }

  // ---- idempotency keys ----

  /** The idempotency key that an accepted call binds, and to what. */
  function Binding(op: Op): Option<(string, string)> {
    match op
    case OpComplete(_, _, key, ref, _, _) => Some((key, ref))
    case OpSpawn(key, _, _, _, child) => Some((key, child.id))
    case OpPutIdempotent(key, value) => Some((key, value))
    case _ => None
  }

  /** Only these three calls touch the keys; each is accepted only while its key is unbound, and binds it. */
  lemma CallBindsExactly(db: DB, c: Call)
    ensures var (d, accepted) := Step(db, c);
      match Binding(c.op)
      case None => d.idem == db.idem
      case Some((key, value)) =>
        if accepted then key !in db.idem && d.idem == db.idem[key := value] else d == db
  {
    match c.op
    case OpComplete(id, token, key, ref, usage, expected) =>
      CompleteBinds(db, id, token, key, ref, usage, expected, c.actor, c.now);
    case OpSpawn(key, parent, token, parentVersion, child) =>
      SpawnBinds(db, key, parent, token, parentVersion, child, c.actor, c.now);
    case OpPutIdempotent(key, value) =>
    case _ => OthersBindNothing(db, c);
  }

  lemma CompleteBinds(db: DB, id: string, token: int, key: string, ref: string, usage: int, expected: int,
                      actor: Actor, now: int)
    ensures var r := CompleteSubtask(db, id, token, key, ref, usage, expected, actor, now);
      if r.1.Ok? then key !in db.idem && r.0.idem == db.idem[key := ref] else r.0 == db
  {
    hide Apply, FencingOk, SettleHold, Decremented, InboxId;
    if id in db.subtasks {
      SettleKeys(db, db.subtasks[id], usage, actor, now);
    }
  }

  lemma SettleKeys(db: DB, sub: Subtask, usage: int, actor: Actor, now: int)
    ensures var r := SettleHold(db, sub, usage, actor, now); !r.Duplicate? && (r.Ok? ==> r.value.idem == db.idem)
  {}

  lemma SpawnBinds(db: DB, key: string, parent: string, token: int, parentVersion: int, child: Subtask, actor: Actor,
                   now: int)
    ensures var r := SpawnSubtask(db, key, parent, token, parentVersion, child, actor, now);
      if r.1.Ok? then key !in db.idem && r.0.idem == db.idem[key := child.id] else r.0 == db
  {
    hide Subset, FencingOk, ReserveHold;
    ReserveFrame(db.(idem := db.idem[key := child.id]), child, child.spec.tokens, actor, now);
  }

  /** The other calls. */
  predicate Ordinary(op: Op) {
    !op.OpCreateMission? && !op.OpSetStatus? && !op.OpComplete? && !op.OpFail? && !op.OpCancel? && !op.OpSpawn?
    && !op.OpPutIdempotent? && !op.OpOffer?
  }

  lemma OthersBindNothing(db: DB, c: Call)
    requires Binding(c.op).None?
    ensures Step(db, c).0.idem == db.idem
  {
    if Ordinary(c.op) {
      hide Step;
      OrdinaryKeepsBooks(db, c);
    } else {
      MoneyBindsNothing(db, c);
    }
  }

  lemma MoneyBindsNothing(db: DB, c: Call)
    requires Binding(c.op).None? && !Ordinary(c.op)
    ensures Step(db, c).0.idem == db.idem
  {
    hide CreateMission, SetMissionStatus, OfferLease, FailSubtask, CancelSubtask, BooksOf, ContextOf, MoneyOnly;
    match c.op
    case OpCreateMission(m, subs) => CreateCallMissions(db, m, subs, c.actor, c.now);
    case OpSetStatus(id, status, expected) => StatusKeys(db, id, status, expected, c.actor, c.now);
    case OpCancel(id, expected) =>
      CancelFrame(db, id, expected, c.actor, c.now);
      MoneyKeepsKeys(db, CancelSubtask(db, id, expected, c.actor, c.now).0);
    case OpFail(id, token, reason, expected) =>
      FailFrame(db, id, token, reason, expected, c.actor, c.now);
      MoneyKeepsKeys(db, FailSubtask(db, id, token, reason, expected, c.actor, c.now).0);
    case OpOffer(id, agent, expected, ttl) => OfferKeys(db, id, agent, expected, ttl, c.actor, c.now);
  }

  lemma MoneyKeepsKeys(db: DB, d: DB)
    requires MoneyOnly(db, d)
    ensures d.idem == db.idem && d.missions == db.missions && d.contexts == db.contexts
  {}

  lemma OfferKeys(db: DB, id: string, agent: string, expected: int, ttl: int, actor: Actor, now: int)
    ensures var d := OfferLease(db, id, agent, expected, ttl, actor, now).0;
      d.idem == db.idem && d.budgets == db.budgets && d.holds == db.holds && d.missions == db.missions
  {
    OfferFrame(db, id, agent, expected, ttl, actor, now);
    hide OfferLease, ContextOf;
  }

  lemma OrdinaryKeepsBooks(db: DB, c: Call)
    requires Ordinary(c.op)
    ensures BooksOf(Step(db, c).0) == BooksOf(db)
  {
    hide BooksOf, UpsertAgent, HeartbeatAgent, MarkAgentHealth, AcceptLease, RenewLease, ExpireLeases, IngestLeadInbox;
    hide SaveLeadSnapshot, TakeoverStaleLeads, ExpireWakes, CreateDecisionAndBlock, ResolveDecision, ExpireDecisions;
    hide BoardPut, PutArtifact, Transition, SuspendSubtask, WakeSubtask, SaveCheckpoint, StartSubtask, FencedMove, Log;
    match c.op
    case OpExpireWakes(order) => WakesFrame(db, order, c.now);
    case OpExpireLeases(order) => ExpireLeasesFrame(db, order, c.now);
    case OpTakeover(order) => TakeoversFrame(db, order, c.now);
    case OpExpireDecisions(order) => DecisionsFrame(db, order, c.now);
    case OpAccept(lid, token, expected) => AcceptFrame(db, lid, token, expected, c.actor, c.now);
    case OpRenew(lid, token, ttl) => RenewFrame(db, lid, token, ttl, c.now);
    case OpUpsertAgent(a) => AgentFrame(db, a, c.now);
    case OpHeartbeat(id) => HeartbeatFrame(db, id, c.now);
    case OpMarkHealth(id, health) => HealthFrame(db, id, health);
    case OpIngest(item, lead, token, expected, mode) =>
      IngestFrame(db, item, lead, token, expected, mode, c.actor, c.now);
    case OpSnapshot(lead, token, expected, value, ttl) =>
      SnapshotFrame(db, lead, token, expected, value, ttl, c.actor, c.now);
    case OpAsk(d, expected, asker) => AskFrame(db, d, expected, asker, c.actor, c.now);
    case OpResolve(id, choice, rationale, decider) => ResolveFrame(db, id, choice, rationale, decider, c.now);
    case OpBoardPut(e, expected) => BoardFrame(db, e, expected);
    case OpPutArtifact(a) => ArtifactFrame(db, a, c.now);
    case _ => hide Step; WorkKeepsBooks(db, c);
  }

  /** The calls about one subtask's work. */
  predicate WorkCall(op: Op) {
    op.OpTransition? || op.OpSuspend? || op.OpWake? || op.OpCheckpoint? || op.OpStart? || op.OpBlock? || op.OpAppendEvent?
  }

  lemma WorkKeepsBooks(db: DB, c: Call)
    requires WorkCall(c.op)
    ensures BooksOf(Step(db, c).0) == BooksOf(db)
  {
    hide Transition, SuspendSubtask, WakeSubtask, SaveCheckpoint, StartSubtask, FencedMove;
    match c.op
    case OpTransition(id, ev, expected, extra, mut) =>
      TransitionFrame(db, id, ev, expected, c.actor, extra, c.now, mut);
    case OpSuspend(id, token, expected, wake, checkpoint) =>
      SuspendFrame(db, id, token, expected, wake, checkpoint, c.actor, c.now);
    case OpWake(id, expected) => WakeFrame(db, id, expected, c.actor, c.now);
    case OpCheckpoint(id, token, checkpoint) => CheckpointFrame(db, id, token, checkpoint);
    case OpStart(id, token, expected) => StartFrame(db, id, token, expected, c.actor, c.now);
    case OpBlock(id, token, expected) => FencedFrame(db, id, token, expected, EvBlocked, map[], c.actor, c.now);
    case OpAppendEvent(_, _, _, _) =>
  }

  lemma FailFrame(db: DB, id: string, token: int, reason: string, expected: int, actor: Actor, now: int)
    ensures MoneyOnly(db, FailSubtask(db, id, token, reason, expected, actor, now).0)
  {
    if id in db.subtasks {
      ReleaseFrame(db, db.subtasks[id], "final_failure", actor, now);
    }
    PrimitivesFrame();
    hide Apply, FencingOk, ReleaseHold, Move, Retire;
  }

  lemma {:induction false} ExpireLeasesFrame(db: DB, order: seq<string>, now: int)
    ensures BooksOf(ExpireLeases(db, order, now)) == BooksOf(db)
  {
    hide Expirable, Decremented;
    if order != [] {
      ExpireLeasesFrame(db, order[..|order| - 1], now);
    }
  }

  lemma {:induction false} TakeoversFrame(db: DB, order: seq<string>, now: int)
    ensures BooksOf(TakeoverStaleLeads(db, order, now)) == BooksOf(db)
  {
    hide TakeoverLead;
    if order != [] {
      TakeoversFrame(db, order[..|order| - 1], now);
      TakeoverFrame(TakeoverStaleLeads(db, order[..|order| - 1], now), order[|order| - 1], now);
    }
  }

  lemma TakeoverFrame(db: DB, id: string, now: int)
    ensures BooksOf(TakeoverLead(db, id, now)) == BooksOf(db)
  {
    hide IsLead, Decremented, Suspected;
  }

  lemma {:induction false} DecisionsFrame(db: DB, order: seq<string>, now: int)
    ensures BooksOf(ExpireDecisions(db, order, now)) == BooksOf(db)
  {
    if order != [] {
      DecisionsFrame(db, order[..|order| - 1], now);
    }
  }

  /** The primitives of a call leave the books alone. */
  lemma PrimitivesFrame()
    ensures forall db, aggregate, mission, typ, payload, actor, now ::
      BooksOf(Log(db, aggregate, mission, typ, payload, actor, now)) == BooksOf(db)
    ensures forall db, sub, ev, extra, actor, now :: BooksOf(Move(db, sub, ev, extra, actor, now)) == BooksOf(db)
    ensures forall db, l, to :: BooksOf(Retire(db, l, to)) == BooksOf(db)
    ensures forall db, lease, pkg ::
      BooksOf(Grant(db, lease, pkg)) == BooksOf(db).(contexts := db.contexts[lease.id := pkg])
  {
    hide Decremented, Incremented;
  }

  /** An accepted offer, primitive by primitive. */
  lemma OfferUnfolds(db: DB, id: string, agent: string, expected: int, ttl: int, actor: Actor, now: int)
    requires OfferLease(db, id, agent, expected, ttl, actor, now).1.Ok?
    ensures id in db.subtasks && ContextOf(db, LeaseId(db.leaseSeq + 1), db.subtasks[id]).Some?
    ensures var sub, lid := db.subtasks[id], LeaseId(db.leaseSeq + 1);
      var lease := Lease(lid, id, agent, db.fencingSeq + 1, now + ttl, LActive, now);
      var moved := Move(Grant(db, lease, ContextOf(db, lid, sub).value),
                        Moving(sub, Offered).(assignee := agent, lease := lid), EvLeaseOffered,
                        map["agent_id" := JStr(agent), "lease_id" := JStr(lid), "fencing_token" := JInt(lease.token)],
                        actor, now);
      OfferLease(db, id, agent, expected, ttl, actor, now)
        == (Log(moved, id, sub.spec.mission, Other("context.materialized"), Plain(map["lease_id" := JStr(lid)]),
                System("context-builder"), now), Ok(lease))
  {
    hide Apply, LeaseId, ContextOf, ActivelyLeased, Grant, Move, Log, Moving;
  }

  lemma OfferRefused(db: DB, id: string, agent: string, expected: int, ttl: int, actor: Actor, now: int)
    requires !OfferLease(db, id, agent, expected, ttl, actor, now).1.Ok?
    ensures var d := OfferLease(db, id, agent, expected, ttl, actor, now).0;
      d == db.(fencingSeq := d.fencingSeq, leaseSeq := d.leaseSeq)
  {
    hide Apply, LeaseId, ContextOf, ActivelyLeased, Grant, Move, Log, Moving;
  }

  lemma OfferFrame(db: DB, id: string, agent: string, expected: int, ttl: int, actor: Actor, now: int)
    ensures var r := OfferLease(db, id, agent, expected, ttl, actor, now);
      if r.1.Ok?
      then id in db.subtasks
        && var pkg := ContextOf(db, r.1.value.id, db.subtasks[id]);
           pkg.Some? && BooksOf(r.0) == BooksOf(db).(contexts := db.contexts[r.1.value.id := pkg.value])
      else BooksOf(r.0) == BooksOf(db)
  {
    hide OfferLease, LeaseId, ContextOf;
    if OfferLease(db, id, agent, expected, ttl, actor, now).1.Ok? {
      OfferUnfolds(db, id, agent, expected, ttl, actor, now);
      PrimitivesFrame();
      hide Grant, Move, Log, Moving, BooksOf;
    } else {
      OfferRefused(db, id, agent, expected, ttl, actor, now);
    }
  }

  lemma AcceptFrame(db: DB, lid: string, token: int, expected: int, actor: Actor, now: int)
    ensures BooksOf(AcceptLease(db, lid, token, expected, actor, now).0) == BooksOf(db)
  {
    hide Apply;
  }

  lemma RenewFrame(db: DB, lid: string, token: int, ttl: int, now: int)
    ensures BooksOf(RenewLease(db, lid, token, ttl, now).0) == BooksOf(db)
  {}

  lemma AgentFrame(db: DB, a: Agent, now: int)
    ensures BooksOf(UpsertAgent(db, a, now)) == BooksOf(db)
  {}

  lemma HeartbeatFrame(db: DB, id: string, now: int)
    ensures BooksOf(HeartbeatAgent(db, id, now)) == BooksOf(db)
  {}

  lemma HealthFrame(db: DB, id: string, health: string)
    ensures BooksOf(MarkAgentHealth(db, id, health)) == BooksOf(db)
  {}

  lemma IngestFrame(db: DB, item: string, lead: string, token: int, expected: int, mode: string, actor: Actor, now: int)
    ensures BooksOf(IngestLeadInbox(db, item, lead, token, expected, mode, actor, now).0) == BooksOf(db)
  {
    hide FencingOk, Ingestion;
    if item in db.inbox && lead in db.subtasks {
      var entry := db.inbox[item].(ingested := true, mode := mode, ingestedBy := actor.id, version := db.inbox[item].version + 1);
      LogFrame(db.(inbox := db.inbox[item := entry]), lead, db.subtasks[lead].spec.mission, Other("lead.inbox.ingested"),
               Plain(Ingestion(entry)), actor, now);
      hide Log;
    }
  }

  lemma LogFrame(db: DB, aggregate: string, mission: string, typ: EventType, payload: Payload, actor: Actor, now: int)
    ensures BooksOf(Log(db, aggregate, mission, typ, payload, actor, now)) == BooksOf(db)
  {}

  lemma SnapshotFrame(db: DB, lead: string, token: int, expected: int, value: string, ttl: int, actor: Actor, now: int)
    ensures BooksOf(SaveLeadSnapshot(db, lead, token, expected, value, ttl, actor, now).0) == BooksOf(db)
  {
    hide FencingOk, BoardKey, Refreshed;
  }

  lemma AskFrame(db: DB, d: Decision, expected: int, token: Option<int>, actor: Actor, now: int)
    ensures BooksOf(CreateDecisionAndBlock(db, d, expected, token, actor, now).0) == BooksOf(db)
  {
    hide Apply, FencingOk;
    PrimitivesFrame();
    if CreateDecisionAndBlock(db, d, expected, token, actor, now).1.Ok? {
      hide Move, Log;
    }
  }

  lemma ResolveFrame(db: DB, id: string, choice: string, rationale: string, decider: string, now: int)
    ensures BooksOf(ResolveDecision(db, id, choice, rationale, decider, now).0) == BooksOf(db)
  {}

  lemma BoardFrame(db: DB, e: BoardEntry, expected: int)
    ensures BooksOf(BoardPut(db, e, expected).0) == BooksOf(db)
  {
    hide BoardKey;
  }

  lemma ArtifactFrame(db: DB, a: Artifact, now: int)
    ensures BooksOf(PutArtifact(db, a, now).0) == BooksOf(db)
  {}

  lemma TransitionFrame(db: DB, id: string, ev: EventType, expected: int, actor: Actor, extra: Json0, now: int,
                        mut: Mutation)
    ensures BooksOf(Transition(db, id, ev, expected, actor, extra, now, mut).0) == BooksOf(db)
  {
    hide Apply, Mutate;
  }

  lemma SuspendFrame(db: DB, id: string, token: int, expected: int, wake: WakeSpec, checkpoint: string, actor: Actor,
                     now: int)
    ensures BooksOf(SuspendSubtask(db, id, token, expected, wake, checkpoint, actor, now).0) == BooksOf(db)
  {
    hide Apply, FencingOk;
    PrimitivesFrame();
    if SuspendSubtask(db, id, token, expected, wake, checkpoint, actor, now).1.Ok? {
      hide Move, Retire;
    }
  }

  lemma WakeFrame(db: DB, id: string, expected: int, actor: Actor, now: int)
    ensures BooksOf(WakeSubtask(db, id, expected, actor, now).0) == BooksOf(db)
  {
    hide Apply, Overdue;
  }

  lemma CheckpointFrame(db: DB, id: string, token: int, checkpoint: string)
    ensures BooksOf(SaveCheckpoint(db, id, token, checkpoint).0) == BooksOf(db)
  {
    hide FencingOk;
  }

  lemma StartFrame(db: DB, id: string, token: int, expected: int, actor: Actor, now: int)
    ensures BooksOf(StartSubtask(db, id, token, expected, actor, now).0) == BooksOf(db)
  {
    hide FencedMove;
    var extra: Json0 := if id in db.subtasks then map["attempt" := JInt(db.subtasks[id].attempt)] else map[];
    FencedFrame(db, id, token, expected, EvStarted, extra, actor, now);
  }

  lemma FencedFrame(db: DB, id: string, token: int, expected: int, ev: EventType, extra: Json0, actor: Actor, now: int)
    ensures BooksOf(FencedMove(db, id, token, expected, ev, extra, actor, now).0) == BooksOf(db)
  {
    hide Apply, FencingOk;
    PrimitivesFrame();
    if FencedMove(db, id, token, expected, ev, extra, actor, now).1.Ok? {
      hide Move;
    }
  }
}
