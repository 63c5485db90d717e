/** Whole runs of the store. One mutex makes every method an atomic step, so any interleaving of
    agents, schedulers, sweepers and people is a sequence of calls, and what holds after every
    sequence of calls holds at every moment. */
module StoreRuns {
  import opened Basics
  import opened StateMachine
  import opened Permissions
  import opened Records
  import opened StoreSpec
  import opened EventLog
  import opened Leases
  import opened Ledger
  import opened Invariants
  import opened StoreOps

  datatype Op =
    | OpCreateMission(m: Mission, subs: seq<Subtask>)
    | OpSetStatus(id: string, status: MissionStatus, expected: int)
    | OpTransition(id: string, ev: EventType, expected: int, extra: Json0, mut: Mutation)
    | OpUpsertAgent(agentRecord: Agent)
    | OpHeartbeat(id: string)
    | OpMarkHealth(id: string, health: string)
    | OpOffer(id: string, agent: string, expected: int, ttl: int)
    | OpAccept(lid: string, token: int, expected: int)
    | OpRenew(lid: string, token: int, ttl: int)
    | OpExpireLeases(order: seq<string>)
    | OpStart(id: string, token: int, expected: int)
    | OpBlock(id: string, token: int, expected: int)
    | OpComplete(id: string, token: int, key: string, ref: string, usage: int, expected: int)
    | OpFail(id: string, token: int, reason: string, expected: int)
    | OpCancel(id: string, expected: int)
    | OpSpawn(key: string, parent: string, token: int, parentVersion: int, child: Subtask)
    | OpIngest(item: string, lead: string, token: int, expected: int, mode: string)
    | OpSnapshot(lead: string, token: int, expected: int, value: string, ttl: int)
    | OpTakeover(order: seq<string>)
    | OpSuspend(id: string, token: int, expected: int, wake: WakeSpec, checkpoint: string)
    | OpWake(id: string, expected: int)
    | OpExpireWakes(order: seq<string>)
    | OpCheckpoint(id: string, token: int, checkpoint: string)
    | OpPutIdempotent(key: string, value: string)
    | OpAsk(d: Decision, expected: int, asker: Option<int>)
    | OpResolve(id: string, choice: string, rationale: string, decider: string)
    | OpExpireDecisions(order: seq<string>)
    | OpBoardPut(e: BoardEntry, expected: int)
    | OpPutArtifact(artifact: Artifact)
    | OpAppendEvent(aggregate: string, mission: string, typ: EventType, payload: Payload)

  datatype Call = Call(op: Op, actor: Actor, now: int)

  ghost function Outcome<T>(r: (DB, Result<T>)): (DB, bool) { (r.0, r.1.Ok?) }

  /** The state after one call, and whether the call was accepted. */
  ghost function Step(db: DB, c: Call): (DB, bool) {
    match c.op
    case OpCreateMission(m, subs) => Outcome(CreateMission(db, m, subs, c.actor, c.now))
    case OpSetStatus(id, status, expected) => Outcome(SetMissionStatus(db, id, status, expected, c.actor, c.now))
    case OpTransition(id, ev, expected, extra, mut) =>
      Outcome(Transition(db, id, ev, expected, c.actor, extra, c.now, mut))
    case OpUpsertAgent(a) => (UpsertAgent(db, a, c.now), true)
    case OpHeartbeat(id) => (HeartbeatAgent(db, id, c.now), id in db.agents)
    case OpMarkHealth(id, health) => (MarkAgentHealth(db, id, health), id in db.agents)
    case OpOffer(id, agent, expected, ttl) => Outcome(OfferLease(db, id, agent, expected, ttl, c.actor, c.now))
    case OpAccept(lid, token, expected) => Outcome(AcceptLease(db, lid, token, expected, c.actor, c.now))
    case OpRenew(lid, token, ttl) => Outcome(RenewLease(db, lid, token, ttl, c.now))
    case OpExpireLeases(order) => (ExpireLeases(db, order, c.now), true)
    case OpStart(id, token, expected) => Outcome(StartSubtask(db, id, token, expected, c.actor, c.now))
    case OpBlock(id, token, expected) => Outcome(BlockSubtask(db, id, token, expected, c.actor, c.now))
    case OpComplete(id, token, key, ref, usage, expected) =>
      Outcome(CompleteSubtask(db, id, token, key, ref, usage, expected, c.actor, c.now))
    case OpFail(id, token, reason, expected) => Outcome(FailSubtask(db, id, token, reason, expected, c.actor, c.now))
    case OpCancel(id, expected) => Outcome(CancelSubtask(db, id, expected, c.actor, c.now))
    case OpSpawn(key, parent, token, parentVersion, child) =>
      Outcome(SpawnSubtask(db, key, parent, token, parentVersion, child, c.actor, c.now))
    case OpIngest(item, lead, token, expected, mode) =>
      Outcome(IngestLeadInbox(db, item, lead, token, expected, mode, c.actor, c.now))
    case OpSnapshot(lead, token, expected, value, ttl) =>
      Outcome(SaveLeadSnapshot(db, lead, token, expected, value, ttl, c.actor, c.now))
    case OpTakeover(order) => (TakeoverStaleLeads(db, order, c.now), true)
    case OpSuspend(id, token, expected, wake, checkpoint) =>
      Outcome(SuspendSubtask(db, id, token, expected, wake, checkpoint, c.actor, c.now))
    case OpWake(id, expected) => Outcome(WakeSubtask(db, id, expected, c.actor, c.now))
    case OpExpireWakes(order) => (ExpireWakes(db, order, c.now), true)
    case OpCheckpoint(id, token, checkpoint) => Outcome(SaveCheckpoint(db, id, token, checkpoint))
    case OpPutIdempotent(key, value) => Outcome(PutIdempotent(db, key, value))
    case OpAsk(d, expected, asker) => Outcome(CreateDecisionAndBlock(db, d, expected, asker, c.actor, c.now))
    case OpResolve(id, choice, rationale, decider) =>
      Outcome(ResolveDecision(db, id, choice, rationale, decider, c.now))
    case OpExpireDecisions(order) => (ExpireDecisions(db, order, c.now), true)
    case OpBoardPut(e, expected) => Outcome(BoardPut(db, e, expected))
    case OpPutArtifact(a) => Outcome(PutArtifact(db, a, c.now))
    case OpAppendEvent(aggregate, mission, typ, payload) =>
      (Log(db, aggregate, mission, typ, payload, c.actor, c.now), true)
  }

  /** What the service promises on the raw calls that would accept anything: fresh ids and clean
      records for new subtasks, an accurate counter for a registered agent, no life-cycle or ledger
      name for a free event, a token for every block of a node that is not human. Every other call
      may come from anyone with any arguments. */
  ghost predicate Admissible(db: DB, c: Call) {
    && (c.op.OpOffer? ==> Step(db, c).0.leaseSeq <= LEASE_SPACE)
    && match c.op
       case OpCreateMission(m, subs) => m.id !in db.missions ==> NewRoots(db.subtasks, m.id, subs)
       case OpTransition(id, ev, expected, extra, mut) => ServiceEvent(ev) && (mut.RetryMutation? ==> ev == EvRetried)
       case OpUpsertAgent(a) => a.running == |ActiveOf(db.leases, a.id)|
       case OpSpawn(key, parent, token, parentVersion, child) => NewChild(db, parent, child)
       case OpAsk(d, expected, asker) =>
         asker.None? && d.subtask in db.subtasks ==> db.subtasks[d.subtask].spec.kind.Human()
       case OpAppendEvent(aggregate, mission, typ, payload) => typ.Other?
       case _ => true
  }

  ghost function Run(calls: seq<Call>): DB {
    if calls == [] then EMPTY else Step(Run(calls[..|calls| - 1]), calls[|calls| - 1]).0
  }

  ghost predicate Legal(calls: seq<Call>) {
    calls != [] ==> Legal(calls[..|calls| - 1]) && Admissible(Run(calls[..|calls| - 1]), calls[|calls| - 1])
  }

  // ---- the invariant holds after every run ----

  lemma StepKeeps(db: DB, c: Call)
    requires Inv(db) && Admissible(db, c)
    ensures Sound(db, Step(db, c).0)
  {
    hide Inv, Sound, NewRoots, NewChild, ServiceEvent, Log;
    hide CreateMission, SetMissionStatus, Transition, UpsertAgent, HeartbeatAgent, MarkAgentHealth;
    hide OfferLease, AcceptLease, RenewLease, ExpireLeases, StartSubtask, FencedMove, CompleteSubtask, FailSubtask;
    hide CancelSubtask, SpawnSubtask, IngestLeadInbox, SaveLeadSnapshot, TakeoverStaleLeads, SuspendSubtask;
    hide WakeSubtask, ExpireWakes, SaveCheckpoint, PutIdempotent, CreateDecisionAndBlock, ResolveDecision;
    hide ExpireDecisions, BoardPut, PutArtifact;
    match c.op
    case OpCreateMission(m, subs) => CreateMissionKeeps(db, m, subs, c.actor, c.now);
    case OpSetStatus(id, status, expected) => SetMissionStatusKeeps(db, id, status, expected, c.actor, c.now);
    case OpTransition(id, ev, expected, extra, mut) =>
      TransitionKeeps(db, id, ev, expected, c.actor, extra, c.now, mut);
    case OpUpsertAgent(a) => UpsertAgentKeeps(db, a, c.now);
    case OpHeartbeat(id) => HeartbeatAgentKeeps(db, id, c.now);
    case OpMarkHealth(id, health) => MarkAgentHealthKeeps(db, id, health);
    case OpOffer(id, agent, expected, ttl) => OfferLeaseKeeps(db, id, agent, expected, ttl, c.actor, c.now);
    case OpAccept(lid, token, expected) => AcceptLeaseKeeps(db, lid, token, expected, c.actor, c.now);
    case OpRenew(lid, token, ttl) => RenewLeaseKeeps(db, lid, token, ttl, c.now);
    case OpExpireLeases(order) => ExpireLeasesKeeps(db, order, c.now);
    case OpStart(id, token, expected) => StartSubtaskKeeps(db, id, token, expected, c.actor, c.now);
    case OpBlock(id, token, expected) => FencedMoveKeeps(db, id, token, expected, EvBlocked, map[], c.actor, c.now);
    case OpComplete(id, token, key, ref, usage, expected) =>
      CompleteSubtaskKeeps(db, id, token, key, ref, usage, expected, c.actor, c.now);
    case OpFail(id, token, reason, expected) => FailSubtaskKeeps(db, id, token, reason, expected, c.actor, c.now);
    case OpCancel(id, expected) => CancelSubtaskKeeps(db, id, expected, c.actor, c.now);
    case OpSpawn(key, parent, token, parentVersion, child) =>
      SpawnSubtaskKeeps(db, key, parent, token, parentVersion, child, c.actor, c.now);
    case OpIngest(item, lead, token, expected, mode) =>
      IngestLeadInboxKeeps(db, item, lead, token, expected, mode, c.actor, c.now);
    case OpSnapshot(lead, token, expected, value, ttl) =>
      SaveLeadSnapshotKeeps(db, lead, token, expected, value, ttl, c.actor, c.now);
    case OpTakeover(order) => TakeoverStaleLeadsKeeps(db, order, c.now);
    case OpSuspend(id, token, expected, wake, checkpoint) =>
      SuspendSubtaskKeeps(db, id, token, expected, wake, checkpoint, c.actor, c.now);
    case OpWake(id, expected) => WakeSubtaskKeeps(db, id, expected, c.actor, c.now);
    case OpExpireWakes(order) => ExpireWakesKeeps(db, order, c.now);
    case OpCheckpoint(id, token, checkpoint) => SaveCheckpointKeeps(db, id, token, checkpoint);
    case OpPutIdempotent(key, value) => PutIdempotentKeeps(db, key, value);
    case OpAsk(d, expected, asker) => CreateDecisionAndBlockKeeps(db, d, expected, asker, c.actor, c.now);
    case OpResolve(id, choice, rationale, decider) =>
      ResolveDecisionKeeps(db, id, choice, rationale, decider, c.now);
    case OpExpireDecisions(order) => ExpireDecisionsKeeps(db, order, c.now);
    case OpBoardPut(e, expected) => BoardPutKeeps(db, e, expected);
    case OpPutArtifact(a) => PutArtifactKeeps(db, a, c.now);
    case OpAppendEvent(aggregate, mission, typ, payload) =>
      AppendEventKeeps(db, aggregate, mission, typ, payload, c.actor, c.now);
  }

  lemma EmptyKeeps()
    ensures Inv(EMPTY)
  {}

  /** Every reachable state satisfies the invariant, and every later state grows from it. */
  lemma {:induction false} RunKeeps(calls: seq<Call>)
    requires Legal(calls)
    ensures Inv(Run(calls))
  {
    hide Inv, Step, Admissible, Grows;
    if calls == [] {
      EmptyKeeps();
    } else {
      RunKeeps(calls[..|calls| - 1]);
      StepKeeps(Run(calls[..|calls| - 1]), calls[|calls| - 1]);
    }
  }

  lemma {:induction false} RunGrows(calls: seq<Call>, more: seq<Call>)
    requires Legal(calls + more)
    ensures Legal(calls) && Grows(Run(calls), Run(calls + more))
  {
    hide Inv, Step, Admissible, Grows;
    var all := calls + more;
    if more == [] {
      assert all == calls;
      GrowsReflexive(Run(calls));
    } else {
      assert all[..|all| - 1] == calls + more[..|more| - 1];
      RunGrows(calls, more[..|more| - 1]);
      var db := Run(all[..|all| - 1]);
      RunKeeps(all[..|all| - 1]);
      StepKeeps(db, all[|all| - 1]);
      GrowsTransitive(Run(calls), db, Run(all));
    }
  }

  // ---- runs from any state ----

  ghost predicate StepsTo(db: DB, d: DB) { exists c :: Admissible(db, c) && d == Step(db, c).0 }

  ghost predicate Linked(states: seq<DB>, i: nat)
    requires i + 1 < |states|
  {
    StepsTo(states[i], states[i + 1])
  }

  /** Each state is one admissible call after the one before. */
  ghost predicate Chained(states: seq<DB>) { states != [] && forall i :: 0 <= i < |states| - 1 ==> Linked(states, i) }

  ghost predicate Joins(states: seq<DB>, db: DB, d: DB) {
    Chained(states) && states[0] == db && states[|states| - 1] == d
  }

  /** Some sequence of admissible store calls leads from one state to the other. */
  ghost predicate Reaches(db: DB, d: DB) { exists states :: Joins(states, db, d) }

  lemma ReachesItself(db: DB)
    ensures Reaches(db, db)
  {
    assert Joins([db], db, db);
  }

  lemma StepReaches(db: DB, c: Call)
    requires Admissible(db, c)
    ensures Reaches(db, Step(db, c).0)
  {
    hide Step, Admissible;
    var states := [db, Step(db, c).0];
    assert StepsTo(states[0], states[1]);
    assert Joins(states, db, Step(db, c).0);
  }

  lemma ReachesThen(db: DB, mid: DB, d: DB)
    requires Reaches(db, mid) && Reaches(mid, d)
    ensures Reaches(db, d)
  {
    hide StepsTo;
    var first :| Joins(first, db, mid);
    var second :| Joins(second, mid, d);
    var n, states := |first| - 1, first + second[1..];
    forall i | 0 <= i < |states| - 1 ensures Linked(states, i) {
      if i < n {
        assert Linked(first, i);
      } else {
        assert Linked(second, i - n);
        assert states[i] == second[i - n] && states[i + 1] == second[i + 1 - n];
      }
    }
    assert Joins(states, db, d);
  }

  lemma {:induction false} ChainKeeps(states: seq<DB>, i: nat)
    requires Chained(states) && i < |states| && Inv(states[0])
    ensures Sound(states[0], states[i])
  {
    hide Inv, Step, Admissible, Grows;
    if i == 0 {
      Unchanged(states[0]);
    } else {
      ChainKeeps(states, i - 1);
      assert Linked(states, i - 1);
      var c :| Admissible(states[i - 1], c) && states[i] == Step(states[i - 1], c).0;
      StepKeeps(states[i - 1], c);
      SoundThen(states[0], states[i - 1], states[i]);
    }
  }

  lemma ReachesSound(db: DB, d: DB)
    requires Inv(db) && Reaches(db, d)
    ensures Sound(db, d) && Inv(d)
  {
    hide Inv, StepsTo, Grows;
    var states :| Joins(states, db, d);
    ChainKeeps(states, |states| - 1);
  }

  /** What is reached from the empty store is the end of a legal run. */
  lemma {:induction false} ChainIsRun(states: seq<DB>, i: nat)
    requires Chained(states) && i < |states| && states[0] == EMPTY
    ensures exists calls :: Legal(calls) && Run(calls) == states[i]
  {
    hide Step, Admissible;
    if i == 0 {
      assert Legal([]) && Run([]) == EMPTY;
    } else {
      ChainIsRun(states, i - 1);
      var calls :| Legal(calls) && Run(calls) == states[i - 1];
      assert Linked(states, i - 1);
      var c :| Admissible(states[i - 1], c) && states[i] == Step(states[i - 1], c).0;
      assert (calls + [c])[..|calls|] == calls;
      assert Legal(calls + [c]) && Run(calls + [c]) == states[i];
    }
  }

  lemma ReachedIsRun(d: DB)
    requires Reaches(EMPTY, d)
    ensures exists calls :: Legal(calls) && Run(calls) == d
  {
    hide StepsTo, Legal, Run;
    var states :| Joins(states, EMPTY, d);
    ChainIsRun(states, |states| - 1);
  }

  // ---- event sourcing ----

  /** Folding a subtask's life-cycle events through the table from PENDING gives its stored state, its
      version counts them, and event i carries sequence number i + 1. */
  lemma EventSourcing(calls: seq<Call>, id: string)
    requires Legal(calls)
    ensures var db, history := Run(calls), History(Run(calls).events, id);
      && (forall i :: 0 <= i < |db.events| ==> db.events[i].number == i + 1) && db.eventSeq == |db.events|
      && (id in db.subtasks ==>
            && history != [] && history[0] == EvCreated
            && FoldEdges(Pending, history[1..]) == Some(db.subtasks[id].state)
            && db.subtasks[id].version == |history| - 1)
      && (id !in db.subtasks ==> history == [])
  {
    RunKeeps(calls);
    LogTracks(Run(calls), id);
    hide Inv;
    ReplayMeaning(Run(calls).events, id);
  }

  lemma LogTracks(db: DB, id: string)
    requires Inv(db)
    ensures Replay(db.events, id) == TrackOf(db.subtasks, id) && Numbered(db.events) && db.eventSeq == |db.events|
  {}

  /** Nothing is ever forgotten or undone: a subtask keeps existing with the same declaration, its
      version never falls, an unchanged version means an unchanged state, nothing returns to PENDING,
      and SUCCEEDED and CANCELLED are for ever. */
  lemma LifeIsForward(calls: seq<Call>, more: seq<Call>, id: string)
    requires Legal(calls + more) && Legal(calls) && id in Run(calls).subtasks
    ensures id in Run(calls + more).subtasks
    ensures var a, b := Run(calls).subtasks[id], Run(calls + more).subtasks[id];
      && a.spec == b.spec
      && a.version <= b.version && (a.version == b.version ==> a.state == b.state)
      && (b.state == Pending ==> a.state == Pending)
      && (a.state == Succeeded || a.state == Cancelled ==> b.state == a.state && b.version == a.version)
  {
    RunKeeps(calls);
    RunKeeps(calls + more);
    RunGrows(calls, more);
    StoresGoForward(Run(calls), Run(calls + more), id);
  }

  lemma StoresGoForward(a: DB, b: DB, id: string)
    requires Inv(a) && Inv(b) && Grows(a, b) && id in a.subtasks
    ensures id in b.subtasks
    ensures var s, t := a.subtasks[id], b.subtasks[id];
      && s.spec == t.spec
      && s.version <= t.version && (s.version == t.version ==> s.state == t.state)
      && (t.state == Pending ==> s.state == Pending)
      && (s.state == Succeeded || s.state == Cancelled ==> t.state == s.state && t.version == s.version)
  {
    hide Inv, Grows;
    GrownSubtask(a, b, id);
    LogTracks(a, id);
    LogTracks(b, id);
    TracksGoForward(a.events, b.events, id);
  }

  lemma GrownSubtask(a: DB, b: DB, id: string)
    requires Grows(a, b) && id in a.subtasks
    ensures id in b.subtasks && a.subtasks[id].spec == b.subtasks[id].spec && a.events <= b.events
  {}

  lemma TracksGoForward(early: seq<Event>, late: seq<Event>, id: string)
    requires early <= late && Replay(early, id).At? && Replay(late, id).At?
    ensures var s, t := Replay(early, id), Replay(late, id);
      && s.version <= t.version && (s.version == t.version ==> s.state == t.state)
      && (t.state == Pending ==> s.state == Pending)
      && (s.state == Succeeded || s.state == Cancelled ==> t == s)
  {
    var more := late[|early|..];
    assert late == early + more;
    ReplayMonotone(early, more, id);
  }

  // ---- the ledger ----

  /** Balances are the sums of the holds, no account is overdrawn, and the logged ledger events
      rebuild the balances and every availability they announced. */
  lemma LedgerIsExact(calls: seq<Call>, m: string)
    requires Legal(calls) && m in Run(calls).budgets
    ensures var db := Run(calls);
      var a := db.budgets[m];
      && a.held == HeldSum(db.holds, m) && a.spent == SpentSum(db.holds, m)
      && 0 <= a.held && 0 <= a.spent && a.held + a.spent <= a.total
      && BookOf(db.events, m, a.total) == Book(a.held, a.spent, true)
  {
    RunKeeps(calls);
    assert AccountOk(Run(calls).budgets[m], Run(calls).holds, Run(calls).events, m);
  }

  // ---- fencing ----

  /** A subtask an agent is engaged on has exactly one ACTIVE lease: the one it names, held by its
      assignee. */
  lemma EngagedMeansLeased(calls: seq<Call>, id: string)
    requires Legal(calls) && id in Run(calls).subtasks && Engaged(Run(calls).subtasks[id])
    ensures var db := Run(calls);
      var lease := db.subtasks[id].lease;
      && lease in db.leases && db.leases[lease].agent == db.subtasks[id].assignee
      && forall l :: l in db.leases && db.leases[l].subtask == id && db.leases[l].state == LActive <==> l == lease
  {
    RunKeeps(calls);
    var db := Run(calls);
    SubtaskFacts(db, id);
    LeaseParts(db);
    hide Inv;
  }

  /** Tokens identify leases. */
  lemma TokensUnique(db: DB, l: string, l': string)
    requires Inv(db) && l in db.leases && l' in db.leases && db.leases[l].token == db.leases[l'].token
    ensures l == l'
  {
    LeaseFacts(db, l);
    LeaseFacts(db, l');
  }

  /** Over a whole run a lease keeps its token and holder, never becomes ACTIVE again, and every lease
      issued later carries a larger token than all leases issued before. */
  lemma LeasesNeverReturn(calls: seq<Call>, more: seq<Call>, l: string, l': string)
    requires Legal(calls + more) && Legal(calls) && l in Run(calls).leases && l' in Run(calls + more).leases
    ensures l in Run(calls + more).leases && LaterLease(Run(calls).leases[l], Run(calls + more).leases[l])
    ensures l' !in Run(calls).leases ==> Run(calls + more).leases[l'].token > Run(calls).leases[l].token
    ensures Run(calls + more).leases[l].token == Run(calls + more).leases[l'].token ==> l == l'
  {
    RunKeeps(calls);
    RunKeeps(calls + more);
    RunGrows(calls, more);
    var a, b := Run(calls), Run(calls + more);
    LeaseFacts(a, l);
    assert l in b.leases && LaterLease(a.leases[l], b.leases[l]);
    if b.leases[l].token == b.leases[l'].token {
      TokensUnique(b, l, l');
    }
  }

  /** The token a call presents, if it presents one. */
  function TokenOf(op: Op): Option<int> {
    match op
    case OpAccept(_, token, _) => Some(token)
    case OpRenew(_, token, _) => Some(token)
    case OpStart(_, token, _) => Some(token)
    case OpBlock(_, token, _) => Some(token)
    case OpComplete(_, token, _, _, _, _) => Some(token)
    case OpFail(_, token, _, _) => Some(token)
    case OpSpawn(_, _, token, _, _) => Some(token)
    case OpIngest(_, _, token, _, _) => Some(token)
    case OpSnapshot(_, token, _, _, _) => Some(token)
    case OpSuspend(_, token, _, _, _) => Some(token)
    case OpCheckpoint(_, token, _) => Some(token)
    case OpAsk(_, _, asker) => asker
    case _ => None
  }

  /** No ACTIVE lease carries the token. */
  ghost predicate Stranded(db: DB, token: int) {
    forall l :: l in db.leases && db.leases[l].token == token ==> db.leases[l].state != LActive
  }

  /** Without an ACTIVE lease for its token a call changes nothing at all. */
  lemma StrandedCallsDoNothing(db: DB, c: Call, token: int)
    requires Stranded(db, token) && TokenOf(c.op) == Some(token)
    ensures Step(db, c) == (db, false)
  {
    hide Apply, Subset, SettleHold, Move, Retire, Enqueue, ReserveHold, AddSubtask, Log;
  }

  /** A zombie is powerless for ever: once a lease has left ACTIVE, every call with its token, at any
      later point of any continuation, leaves the whole store unchanged. */
  lemma FencedForever(calls: seq<Call>, more: seq<Call>, l: string, c: Call)
    requires Legal(calls + more) && Legal(calls) && l in Run(calls).leases && Run(calls).leases[l].state != LActive
    requires TokenOf(c.op) == Some(Run(calls).leases[l].token)
    ensures Step(Run(calls + more), c) == (Run(calls + more), false)
  {
    RunKeeps(calls + more);
    RunGrows(calls, more);
    var a, b := Run(calls), Run(calls + more);
    assert LaterLease(a.leases[l], b.leases[l]);
    var token := a.leases[l].token;
    forall k | k in b.leases && b.leases[k].token == token ensures b.leases[k].state != LActive {
      TokensUnique(b, k, l);
    }
    assert Stranded(b, token);
    hide Inv, Grows, Step;
    StrandedCallsDoNothing(b, c, token);
  }

  // ---- rejected calls ----

  /** In a reachable state a call that is not accepted changes nothing. */
  lemma RejectedChangesNothing(calls: seq<Call>, c: Call)
    requires Legal(calls) && !Step(Run(calls), c).1
    ensures Step(Run(calls), c).0 == Run(calls)
  {
    RunKeeps(calls);
    var db := Run(calls);
    if c.op.OpOffer? && c.op.id in db.subtasks {
      SubtaskFacts(db, c.op.id);
      ContextExists(db, LeaseId(db.leaseSeq + 1), db.subtasks[c.op.id]);
    }
    hide Inv, Run;
    RejectedIsNoOp(db, c);
  }

  /** On arbitrary states the only exception is an offer of a READY, unleased subtask whose stored
      envelope does not normalise: that burns one token and one lease number. */
  lemma RejectedIsNoOp(db: DB, c: Call)
    requires !Step(db, c).1
    ensures Step(db, c).0 == db <==> !Burns(db, c)
    ensures Burns(db, c) ==> Step(db, c).0 == db.(fencingSeq := db.fencingSeq + 1, leaseSeq := db.leaseSeq + 1)
  {
    if c.op.OpOffer? {
      RejectedOffer(db, c);
    } else {
      hide Step;
      RejectedOther(db, c);
    }
  }

  lemma RejectedOther(db: DB, c: Call)
    requires !Step(db, c).1 && !c.op.OpOffer?
    ensures Step(db, c).0 == db
  {
    if TokenOf(c.op).Some? {
      hide Step;
      RejectedFenced(db, c);
    } else {
      hide Step;
      RejectedFree(db, c);
    }
  }

  lemma RejectedFenced(db: DB, c: Call)
    requires !Step(db, c).1 && TokenOf(c.op).Some?
    ensures Step(db, c).0 == db
  {
    hide Apply, Subset, SettleHold, Move, Retire, Enqueue, ReserveHold, AddSubtask, Log, FencingOk, ReleaseHold;
  }

  lemma RejectedFree(db: DB, c: Call)
    requires !Step(db, c).1 && TokenOf(c.op).None? && !c.op.OpOffer?
    ensures Step(db, c).0 == db
  {
    hide Apply, Move, Retire, Log, AddSubtasks, OpenMission, ReleaseHold, Mutate, Overdue;
  }

  lemma RejectedOffer(db: DB, c: Call)
    requires !Step(db, c).1 && c.op.OpOffer?
    ensures Step(db, c).0 == if Burns(db, c) then db.(fencingSeq := db.fencingSeq + 1, leaseSeq := db.leaseSeq + 1) else db
  {
    hide Apply, Move, Grant, Log, LeaseId, ActivelyLeased, Normalize, BoardViews, ArtifactsFor, DecisionsFor;
  }

  ghost predicate Burns(db: DB, c: Call) {
    && c.op.OpOffer? && c.op.id in db.subtasks && db.subtasks[c.op.id].version == c.op.expected
    && Apply(db.subtasks[c.op.id].state, EvLeaseOffered).Some? && !ActivelyLeased(db.leases, c.op.id)
    && Normalize(db.subtasks[c.op.id].spec.grants).None?
  }

  // ---- counters and delegation ----

  /** The incremental counter is the number of ACTIVE leases the SQL store would count. */
  lemma RunningIsDerived(calls: seq<Call>, a: string)
    requires Legal(calls) && a in Run(calls).agents
    ensures Run(calls).agents[a].running == |ActiveOf(Run(calls).leases, a)|
  {
    RunKeeps(calls);
  }

  /** Registration overwrites the whole record. It keeps the counter derived if and only if the new record
      already carries the number of the agent's ACTIVE leases. */
  lemma RegistrationExactly(db: DB, a: Agent, now: int)
    requires Inv(db)
    ensures CountInv(UpsertAgent(db, a, now).agents, db.leases) <==> a.running == |ActiveOf(db.leases, a.id)|
    ensures Inv(UpsertAgent(db, a, now)) <==> a.running == |ActiveOf(db.leases, a.id)|
  {
    if a.running == |ActiveOf(db.leases, a.id)| {
      UpsertAgentKeeps(db, a, now);
      hide EventInv, LeaseInv, CountInv, LedgerInv, OwnerInv, TreeInv, BoardInv, MissionInv;
    } else {
      assert UpsertAgent(db, a, now).agents[a.id].running == a.running;
      hide EventInv, LeaseInv, LedgerInv, OwnerInv, TreeInv, BoardInv, MissionInv;
    }
  }

  /** So an agent that registers again with a fresh counter while it holds a lease breaks it, and the next
      release of that lease finds nothing to count down. */
  lemma FreshRegistrationBreaks(db: DB, a: Agent, l: string, now: int)
    requires Inv(db) && a.running == 0
    requires l in db.leases && db.leases[l].state == LActive && db.leases[l].agent == a.id
    ensures var d := UpsertAgent(db, a, now);
      !CountInv(d.agents, d.leases) && Retire(d, l, LReleased).agents == d.agents
  {
    assert l in ActiveOf(db.leases, a.id);
    RegistrationExactly(db, a, now);
  }
}
