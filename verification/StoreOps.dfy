/** Every store operation keeps the invariant and only grows the store. */
module StoreOps {
  import opened Basics
  import opened StateMachine
  import opened Permissions
  import opened Records
  import opened StoreSpec
  import opened EventLog
  import opened Leases
  import opened Ledger
  import opened Invariants

  ghost predicate Sound(db: DB, d: DB) { Inv(d) && Grows(db, d) }

  lemma SoundThen(db: DB, d: DB, d': DB)
    requires Sound(db, d) && Sound(d, d')
    ensures Sound(db, d')
  {
    GrowsTransitive(db, d, d');
  }

  // ---- missions ----

  /** What createMission passes: fresh distinct ids, PENDING, version 0, attempt 0, unleased, in this mission,
      not delegated, with normalised grants. */
  ghost predicate NewRoot(m: string, sub: Subtask) {
    && sub.id != "" && sub.state == Pending && sub.version == 0 && sub.attempt == 0 && sub.lease == ""
    && sub.spec.mission == m && sub.spec.parent == "" && sub.spec.reworkOf == "" && Normal(sub.spec.grants)
  }

  ghost predicate NewRoots(subtasks: map<string, Subtask>, m: string, subs: seq<Subtask>) {
    && (forall i :: 0 <= i < |subs| ==> NewRoot(m, subs[i]) && subs[i].id !in subtasks)
    && (forall i, j :: 0 <= i < j < |subs| ==> subs[i].id != subs[j].id)
  }

  ghost function WithSubtasks(subtasks: map<string, Subtask>, subs: seq<Subtask>): map<string, Subtask> {
    if subs == [] then subtasks
    else
      var last := subs[|subs| - 1];
      WithSubtasks(subtasks, subs[..|subs| - 1])[last.id := last]
  }

  /** Exactly the listed subtasks are added... */
  lemma {:induction false} WithSubtasksContents(subtasks: map<string, Subtask>, subs: seq<Subtask>)
    requires forall i, j :: 0 <= i < j < |subs| ==> subs[i].id != subs[j].id
    ensures forall i :: 0 <= i < |subs| ==>
      subs[i].id in WithSubtasks(subtasks, subs) && WithSubtasks(subtasks, subs)[subs[i].id] == subs[i]
    ensures forall id :: id in WithSubtasks(subtasks, subs) <==>
      id in subtasks || exists i :: 0 <= i < |subs| && subs[i].id == id
    ensures forall id :: id in subtasks && (forall i :: 0 <= i < |subs| ==> subs[i].id != id) ==>
      WithSubtasks(subtasks, subs)[id] == subtasks[id]
  {
    if subs != [] {
      WithSubtasksContents(subtasks, subs[..|subs| - 1]);
    }
  }

  /** ...and nothing else but the log moves. */
  lemma {:induction false} AddSubtasksFrame(db: DB, subs: seq<Subtask>, actor: Actor, now: int)
    ensures var d := AddSubtasks(db, subs, actor, now);
      d == db.(subtasks := WithSubtasks(db.subtasks, subs), events := d.events, eventSeq := db.eventSeq + |subs|)
  {
    if subs != [] {
      AddSubtasksFrame(db, subs[..|subs| - 1], actor, now);
    }
  }

  /** A subtask under an unused id has no hold. */
  lemma AddRootKeeps(db: DB, m: string, sub: Subtask, actor: Actor, now: int)
    requires Inv(db) && NewRoot(m, sub) && sub.id !in db.subtasks && m in db.missions
    ensures Sound(db, AddSubtask(db, sub, Birth(sub), actor, now))
  {
    hide EventInv, LeaseInv, CountInv, LedgerInv, TreeInv, BoardInv, MissionInv, Grows;
    AddKeeps(db, sub, Birth(sub), actor, now);
  }

  lemma {:induction false} AddSubtasksKeeps(db: DB, m: string, subs: seq<Subtask>, actor: Actor, now: int)
    requires Inv(db) && NewRoots(db.subtasks, m, subs) && m in db.missions
    ensures Sound(db, AddSubtasks(db, subs, actor, now))
  {
    hide Inv, Grows, AddSubtask, Birth;
    if subs == [] {
      GrowsReflexive(db);
    } else {
      var init, last := subs[..|subs| - 1], subs[|subs| - 1];
      AddSubtasksKeeps(db, m, init, actor, now);
      AddSubtasksFrame(db, init, actor, now);
      WithSubtasksContents(db.subtasks, init);
      var d := AddSubtasks(db, init, actor, now);
      AddRootKeeps(d, m, last, actor, now);
      SoundThen(db, d, AddSubtasks(db, subs, actor, now));
    }
  }

  /** A new mission opens with an empty account, or with none. */
  lemma AccountOpens(db: DB, m: Mission, budgets: map<string, Account>)
    requires Inv(db) && m.id !in db.missions
    requires budgets == if m.budget > 0 then db.budgets[m.id := Account(m.budget, 0, 0, m.budget, 0)] else db.budgets
    ensures Sound(db, db.(missions := db.missions[m.id := m], budgets := budgets))
  {
    hide EventInv, LeaseInv, CountInv, LedgerInv, OwnerInv, TreeInv, BoardInv, Grows;
    var d := db.(missions := db.missions[m.id := m], budgets := budgets);
    assert m.id !in db.budgets;
    if m.budget > 0 {
      OpenKeepsLedger(db, m.id, m.budget);
    }
    MissionAdded(db.missions, m, db.budgets, budgets, db.subtasks);
    MissionGrows(db, d);
  }

  lemma MissionAdded(missions: map<string, Mission>, m: Mission, before: map<string, Account>, after: map<string, Account>,
                     subtasks: map<string, Subtask>)
    requires MissionInv(missions, before, subtasks) && after.Keys <= before.Keys + {m.id}
    ensures MissionInv(missions[m.id := m], after, subtasks)
  {}

  lemma MissionGrows(db: DB, d: DB)
    requires d == db.(missions := d.missions, budgets := d.budgets) && db.missions.Keys <= d.missions.Keys
    ensures Grows(db, d)
  {}

  lemma OpenMissionKeeps(db: DB, m: Mission, actor: Actor, now: int)
    requires Inv(db) && m.id !in db.missions
    ensures Sound(db, OpenMission(db, m, actor, now))
  {
    hide Inv, Grows;
    var budgets := if m.budget > 0 then db.budgets[m.id := Account(m.budget, 0, 0, m.budget, 0)] else db.budgets;
    var d := db.(missions := db.missions[m.id := m], budgets := budgets);
    AccountOpens(db, m, budgets);
    var payload := Plain(map["goal" := JStr(m.goal), "owner" := JStr(m.owner), "budget_tokens" := JInt(m.budget)]);
    LogKeeps(d, m.id, m.id, Other("mission.created"), payload, actor, now);
    SoundThen(db, d, OpenMission(db, m, actor, now));
  }

  lemma CreateMissionKeeps(db: DB, m: Mission, subs: seq<Subtask>, actor: Actor, now: int)
    requires Inv(db) && (m.id !in db.missions ==> NewRoots(db.subtasks, m.id, subs))
    ensures Sound(db, CreateMission(db, m, subs, actor, now).0)
  {
    hide Inv, Grows;
    if m.id in db.missions {
      GrowsReflexive(db);
    } else {
      OpenMissionKeeps(db, m, actor, now);
      var d := OpenMission(db, m, actor, now);
      AddSubtasksKeeps(d, m.id, subs, actor, now);
      SoundThen(db, d, AddSubtasks(d, subs, actor, now));
    }
  }

  lemma SetMissionStatusKeeps(db: DB, id: string, status: MissionStatus, expected: int, actor: Actor, now: int)
    requires Inv(db)
    ensures Sound(db, SetMissionStatus(db, id, status, expected, actor, now).0)
  {
    hide Inv, Grows;
    if id in db.missions && db.missions[id].version == expected {
      var m := db.missions[id];
      var d := db.(missions := db.missions[id := m.(status := status, version := m.version + 1)]);
      MissionsTouch(db, d.missions);
      LogKeeps(d, id, id, StatusEvent(status), Plain(map["status" := JStr(StatusName(status))]), actor, now);
      SoundThen(db, d, SetMissionStatus(db, id, status, expected, actor, now).0);
    } else {
      GrowsReflexive(db);
    }
  }

  /** The events the service passes to TransitionSubtask. */
  predicate ServiceEvent(ev: EventType) {
    ev == EvDepsSatisfied || ev == EvCancelled || ev == EvDecisionApproved || ev == EvDecisionRejected
    || ev == EvCompleted || ev == EvRetried
  }

  /** Only an approval puts a subtask in flight, and then it was BLOCKED before. */
  lemma ServiceEventEffect(from: State, ev: EventType)
    requires ServiceEvent(ev) && Apply(from, ev).Some?
    ensures ev.Lifecycle() && Edge(from, ev) == Apply(from, ev)
    ensures Apply(from, ev).value.InFlight() ==> from == Blocked && ev == EvDecisionApproved
  {}

  /** A subtask may drop its lease, or keep it, unless it enters flight. */
  lemma SubLeaseCarries(leases: map<string, Lease>, sub: Subtask, sub': Subtask)
    requires SubLease(leases, sub.id, sub) && sub'.id == sub.id
    requires sub'.lease == "" || (sub'.lease == sub.lease && sub'.assignee == sub.assignee)
    requires Engaged(sub') ==> Engaged(sub) && sub'.lease == sub.lease
    ensures SubLease(leases, sub.id, sub')
  {}

  /** No mutation touches what the invariant ties down, except that a retry drops the lease. */
  lemma MutationFits(sub: Subtask, next: State, mut: Mutation)
    requires next.InFlight() ==> sub.state == Blocked && !mut.RetryMutation?
    ensures var sub' := Mutate(Moving(sub, next), mut);
      && sub'.id == sub.id && sub'.spec == sub.spec && sub'.state == next && sub'.version == sub.version + 1
      && (sub'.lease == "" || (sub'.lease == sub.lease && sub'.assignee == sub.assignee))
      && (Engaged(sub') ==> Engaged(sub) && sub'.lease == sub.lease)
  {}

  lemma MoveCarries(db: DB, sub: Subtask, sub': Subtask, ev: EventType, extra: Json0, actor: Actor, now: int)
    requires Inv(db) && sub.id in db.subtasks && db.subtasks[sub.id] == sub
    requires sub'.id == sub.id && sub'.spec == sub.spec && sub'.version == sub.version + 1
    requires ev.Lifecycle() && Edge(sub.state, ev) == Some(sub'.state)
    requires sub'.lease == "" || (sub'.lease == sub.lease && sub'.assignee == sub.assignee)
    requires Engaged(sub') ==> Engaged(sub) && sub'.lease == sub.lease
    ensures Sound(db, Move(db, sub', ev, extra, actor, now))
  {
    hide Inv, Grows, Edge, SubLease, Engaged, Move;
    SubtaskFacts(db, sub.id);
    SubLeaseCarries(db.leases, sub, sub');
    MoveKeeps(db, sub', ev, extra, actor, now);
  }

  lemma TransitionKeeps(db: DB, id: string, ev: EventType, expected: int, actor: Actor, extra: Json0, now: int,
                        mut: Mutation)
    requires Inv(db) && ServiceEvent(ev) && (mut.RetryMutation? ==> ev == EvRetried)
    ensures Sound(db, Transition(db, id, ev, expected, actor, extra, now, mut).0)
  {
    hide Inv, Grows, Sound, Apply, Edge, ServiceEvent, Mutate, Moving, Engaged, Move;
    if id in db.subtasks && db.subtasks[id].version == expected && Apply(db.subtasks[id].state, ev).Some? {
      var sub, next := db.subtasks[id], Apply(db.subtasks[id].state, ev).value;
      ServiceEventEffect(sub.state, ev);
      SubtaskFacts(db, id);
      MutationFits(sub, next, mut);
      MoveCarries(db, sub, Mutate(Moving(sub, next), mut), ev, extra, actor, now);
    } else {
      Unchanged(db);
    }
  }

  lemma Unchanged(db: DB)
    requires Inv(db)
    ensures Sound(db, db)
  {
    GrowsReflexive(db);
  }

  // ---- agents ----

  /** What RegisterAgent may pass: a counter that agrees with the agent's leases. */
  lemma UpsertAgentKeeps(db: DB, a: Agent, now: int)
    requires Inv(db) && a.running == |ActiveOf(db.leases, a.id)|
    ensures Sound(db, UpsertAgent(db, a, now))
  {
    hide Inv, Grows;
    UpsertKeeps(db, a.(heartbeat := now));
  }

  lemma HeartbeatAgentKeeps(db: DB, id: string, now: int)
    requires Inv(db)
    ensures Sound(db, HeartbeatAgent(db, id, now))
  {
    hide Inv, Grows;
    if id in db.agents {
      AgentsTouch(db, HeartbeatAgent(db, id, now).agents);
    } else {
      GrowsReflexive(db);
    }
  }

  lemma MarkAgentHealthKeeps(db: DB, id: string, health: string)
    requires Inv(db)
    ensures Sound(db, MarkAgentHealth(db, id, health))
  {
    hide Inv, Grows;
    if id in db.agents {
      AgentsTouch(db, MarkAgentHealth(db, id, health).agents);
    } else {
      GrowsReflexive(db);
    }
  }

  // ---- leases ----

  lemma LeaseIdNonEmpty(n: nat)
    ensures LeaseId(n) != ""
  {
    assert LeaseId(n)[0] == 'l';
  }

  lemma NoEmptyLease(db: DB)
    requires Inv(db)
    ensures "" !in db.leases
  {
    forall l | l in db.leases ensures l != "" {
      LeaseNamed(db, l);
    }
  }

  lemma LeaseNamed(db: DB, l: string)
    requires Inv(db) && l in db.leases
    ensures l != ""
  {
    LeaseFacts(db, l);
    LeaseIdNonEmpty(db.leases[l].token);
  }

  lemma ContextExists(db: DB, lease: string, sub: Subtask)
    requires Normal(sub.spec.grants)
    ensures ContextOf(db, lease, sub).Some?
  {}

  lemma OfferIssues(db: DB, id: string, agent: string, expected: int, ttl: int, actor: Actor, now: int)
    ensures var r := OfferLease(db, id, agent, expected, ttl, actor, now);
            r.1.Ok? ==> r.0.leaseSeq == db.leaseSeq + 1 && r.0.fencingSeq == db.fencingSeq + 1
  {
    hide LeaseId, ContextOf, Apply, ActivelyLeased;
  }

  lemma OfferLeaseKeeps(db: DB, id: string, agent: string, expected: int, ttl: int, actor: Actor, now: int)
    requires Inv(db) && OfferLease(db, id, agent, expected, ttl, actor, now).0.leaseSeq <= LEASE_SPACE
    ensures Sound(db, OfferLease(db, id, agent, expected, ttl, actor, now).0)
  {
    hide Inv, Grows, Apply, Edge, LeaseId, ContextOf, ActivelyLeased, Grant, Move;
    var r := OfferLease(db, id, agent, expected, ttl, actor, now);
    if id in db.subtasks {
      SubtaskFacts(db, id);
      ContextExists(db, LeaseId(db.leaseSeq + 1), db.subtasks[id]);
    }
    if r.1.Ok? {
      var sub, lease := db.subtasks[id], r.1.value;
      var pkg := ContextOf(db, lease.id, sub).value;
      OfferIssues(db, id, agent, expected, ttl, actor, now);
      GrantKeeps(db, lease, pkg);
      var d := Grant(db, lease, pkg);
      var sub' := Moving(sub, Offered).(assignee := agent, lease := lease.id);
      var extra := map["agent_id" := JStr(agent), "lease_id" := JStr(lease.id), "fencing_token" := JInt(lease.token)];
      OfferMoves(db, d, lease, pkg, sub', extra, actor, now);
      var d2 := Move(d, sub', EvLeaseOffered, extra, actor, now);
      SoundThen(db, d, d2);
      LogKeeps(d2, id, sub.spec.mission, Other("context.materialized"), Plain(map["lease_id" := JStr(lease.id)]),
               System("context-builder"), now);
      SoundThen(db, d2, r.0);
    } else {
      GrowsReflexive(db);
    }
  }

  lemma OfferMoves(db: DB, d: DB, lease: Lease, pkg: ContextPackage, sub: Subtask, extra: Json0, actor: Actor, now: int)
    requires d == Grant(db, lease, pkg) && Inv(d)
    requires sub.id in db.subtasks && sub.spec == db.subtasks[sub.id].spec
    requires sub.version == db.subtasks[sub.id].version + 1
    requires Apply(db.subtasks[sub.id].state, EvLeaseOffered).Some? && sub.state == Offered
    requires lease.subtask == sub.id && lease.agent == sub.assignee && lease.id == sub.lease && lease.state == LActive
    requires lease.id == LeaseId(db.leaseSeq + 1)
    ensures Sound(d, Move(d, sub, EvLeaseOffered, extra, actor, now))
  {
    hide Inv, Grows, Apply, Edge, LeaseId, Move;
    TableShape(db.subtasks[sub.id].state, EvLeaseOffered);
    LeaseIdNonEmpty(db.leaseSeq + 1);
    MoveKeeps(d, sub, EvLeaseOffered, extra, actor, now);
  }

  lemma AcceptLeaseKeeps(db: DB, lid: string, token: int, expected: int, actor: Actor, now: int)
    requires Inv(db)
    ensures Sound(db, AcceptLease(db, lid, token, expected, actor, now).0)
  {
    hide Inv, Grows, Apply, Edge;
    var r := AcceptLease(db, lid, token, expected, actor, now);
    if r.1.Ok? {
      TableShape(db.subtasks[db.leases[lid].subtask].state, EvLeaseAccepted);
      var sub := db.subtasks[db.leases[lid].subtask];
      SubtaskFacts(db, db.leases[lid].subtask);
      MoveKeeps(db, Moving(sub, Leased), EvLeaseAccepted, map["lease_id" := JStr(lid)], actor, now);
    } else {
      GrowsReflexive(db);
    }
  }

  lemma RenewLeaseKeeps(db: DB, lid: string, token: int, ttl: int, now: int)
    requires Inv(db)
    ensures Sound(db, RenewLease(db, lid, token, ttl, now).0)
  {
    hide Inv, Grows;
    if RenewLease(db, lid, token, ttl, now).1.Ok? {
      ExpiryKeepsInv(db, lid, now + ttl);
    } else {
      GrowsReflexive(db);
    }
  }

  /** Moving a subtask off its ACTIVE lease and then retiring the lease: the shape of expiry,
      takeover, suspension, completion, failure and cancellation. */
  lemma MoveOffLease(db: DB, sub: Subtask, ev: EventType, extra: Json0, actor: Actor, now: int, l: string,
                     to: LeaseState)
    requires Inv(db) && sub.id in db.subtasks
    requires sub.spec == db.subtasks[sub.id].spec && sub.version == db.subtasks[sub.id].version + 1
    requires ev.Lifecycle() && Edge(db.subtasks[sub.id].state, ev) == Some(sub.state)
    requires !Engaged(sub)
    requires sub.lease == "" || (sub.lease == db.subtasks[sub.id].lease && sub.assignee == db.subtasks[sub.id].assignee)
    requires l in db.leases && db.leases[l].state == LActive && db.leases[l].subtask == sub.id && to != LActive
    ensures Sound(db, Retire(Move(db, sub, ev, extra, actor, now), l, to))
  {
    hide Inv, Grows;
    SubtaskFacts(db, sub.id);
    MoveKeeps(db, sub, ev, extra, actor, now);
    var d := Move(db, sub, ev, extra, actor, now);
    RetireKeeps(d, l, to);
    SoundThen(db, d, Retire(d, l, to));
  }

  /** The moves of the three sweepers. */
  lemma SweeperEdges()
    ensures Edge(Offered, EvLeaseExpired) == Edge(Leased, EvLeaseExpired) == Edge(Running, EvTakeover) == Some(Ready)
    ensures Edge(Waiting, EvFailed) == Some(Failed) && Apply(Waiting, EvFailed) == None
  {}

  lemma ExpireLeaseKeeps(db: DB, lid: string, now: int)
    requires Inv(db)
    ensures Sound(db, ExpireLease(db, lid, now))
  {
    hide Inv, Grows, Apply, Edge;
    if Expirable(db, lid, now) {
      SweeperEdges();
      var sub := db.subtasks[db.leases[lid].subtask];
      SubtaskFacts(db, db.leases[lid].subtask);
      MoveOffLease(db, Moving(sub, Ready).(assignee := "", lease := ""), EvLeaseExpired,
                   map["lease_id" := JStr(lid)], System("lease-sweeper"), now, lid, LExpired);
    } else {
      GrowsReflexive(db);
    }
  }

  lemma {:induction false} ExpireLeasesKeeps(db: DB, order: seq<string>, now: int)
    requires Inv(db)
    ensures Sound(db, ExpireLeases(db, order, now))
  {
    hide Inv, Grows;
    if order == [] {
      GrowsReflexive(db);
    } else {
      ExpireLeasesKeeps(db, order[..|order| - 1], now);
      var d := ExpireLeases(db, order[..|order| - 1], now);
      ExpireLeaseKeeps(d, order[|order| - 1], now);
      SoundThen(db, d, ExpireLeases(db, order, now));
    }
  }

  /** checkFencing hands out the subtask's own lease. */
  lemma OwnLease(db: DB, id: string, token: int)
    requires Inv(db) && id in db.subtasks && FencingOk(db, db.subtasks[id], token)
    ensures db.leases[db.subtasks[id].lease].subtask == id == db.subtasks[id].id
  {
    hide Inv, Grows;
    SubtaskFacts(db, id);
  }

  lemma FencedMoveKeeps(db: DB, id: string, token: int, expected: int, ev: EventType, extra: Json0, actor: Actor,
                        now: int)
    requires Inv(db) && (ev == EvStarted || ev == EvBlocked)
    ensures Sound(db, FencedMove(db, id, token, expected, ev, extra, actor, now).0)
  {
    hide Inv, Grows, Apply, Edge;
    var r := FencedMove(db, id, token, expected, ev, extra, actor, now);
    if r.1.Ok? {
      TableShape(db.subtasks[id].state, ev);
      var sub := db.subtasks[id];
      SubtaskFacts(db, id);
      MoveKeeps(db, Moving(sub, Apply(sub.state, ev).value), ev, extra, actor, now);
    } else {
      GrowsReflexive(db);
    }
  }

  lemma StartSubtaskKeeps(db: DB, id: string, token: int, expected: int, actor: Actor, now: int)
    requires Inv(db)
    ensures Sound(db, StartSubtask(db, id, token, expected, actor, now).0)
  {
    hide Inv, Sound, FencedMove;
    var extra: Json0 := if id in db.subtasks then map["attempt" := JInt(db.subtasks[id].attempt)] else map[];
    FencedMoveKeeps(db, id, token, expected, EvStarted, extra, actor, now);
  }

  lemma EnqueueKeeps(db: DB, sub: Subtask, ref: string, now: int)
    requires Inv(db)
    ensures Sound(db, Enqueue(db, sub, ref, now))
  {
    hide Inv, Grows;
    var item := InboxId(sub.id);
    if sub.spec.parent == "" || item in db.inbox {
      GrowsReflexive(db);
    } else {
      var d := db.(inbox := db.inbox[item := InboxItem(item, sub.spec.mission, sub.spec.parent, sub.id, ref, false, "", "", 0)]);
      FreeTouch(db, db.decisions, db.artifacts, d.inbox);
      LogKeeps(d, sub.spec.parent, sub.spec.mission, Other("lead.inbox.enqueued"),
               Plain(map["item_id" := JStr(item), "source_subtask_id" := JStr(sub.id), "result_ref" := JStr(ref)]),
               System("lead-inbox"), now);
      SoundThen(db, d, Enqueue(db, sub, ref, now));
    }
  }

  lemma CompleteSubtaskKeeps(db: DB, id: string, token: int, key: string, ref: string, usage: int, expected: int,
                             actor: Actor, now: int)
    requires Inv(db)
    ensures Sound(db, CompleteSubtask(db, id, token, key, ref, usage, expected, actor, now).0)
  {
    hide Inv, Grows, Apply, Edge;
    var r := CompleteSubtask(db, id, token, key, ref, usage, expected, actor, now);
    if r.1.Ok? {
      TableShape(db.subtasks[id].state, EvCompleted);
      var sub := db.subtasks[id];
      OwnLease(db, id, token);
      SettleKeeps(db, sub, usage, actor, now);
      var d := SettleHold(db, sub, usage, actor, now).value;
      var d2 := d.(idem := d.idem[key := ref]);
      KeyTouch(d, key, ref);
      SoundThen(db, d, d2);
      var sub' := Moving(sub, Succeeded).(resultRef := ref);
      var extra := map["subtask_id" := JStr(id), "result_ref" := JStr(ref)];
      MoveOffLease(d2, sub', EvCompleted, extra, actor, now, sub.lease, LReleased);
      var d3 := Retire(Move(d2, sub', EvCompleted, extra, actor, now), sub.lease, LReleased);
      SoundThen(db, d2, d3);
      EnqueueKeeps(d3, sub', ref, now);
      SoundThen(db, d3, r.0);
    } else {
      GrowsReflexive(db);
    }
  }

  lemma FailSubtaskKeeps(db: DB, id: string, token: int, reason: string, expected: int, actor: Actor, now: int)
    requires Inv(db)
    ensures Sound(db, FailSubtask(db, id, token, reason, expected, actor, now).0)
  {
    hide Inv, Grows, Apply, Edge;
    var r := FailSubtask(db, id, token, reason, expected, actor, now);
    if r.1.Ok? {
      TableShape(db.subtasks[id].state, EvFailed);
      var sub := db.subtasks[id];
      OwnLease(db, id, token);
      var d := if sub.attempt >= sub.spec.maxAttempts then ReleaseHold(db, sub, "final_failure", actor, now) else db;
      ReleaseKeeps(db, sub, "final_failure", actor, now);
      GrowsReflexive(db);
      assert Sound(db, d) && d.subtasks == db.subtasks && d.leases == db.leases;
      MoveOffLease(d, Moving(sub, Failed), EvFailed, map["reason" := JStr(reason)], actor, now, sub.lease, LReleased);
      SoundThen(db, d, r.0);
    } else {
      GrowsReflexive(db);
    }
  }

  lemma CancelSubtaskKeeps(db: DB, id: string, expected: int, actor: Actor, now: int)
    requires Inv(db)
    ensures Sound(db, CancelSubtask(db, id, expected, actor, now).0)
  {
    hide Inv, Grows, Apply, Edge, ReleaseHold;
    var r := CancelSubtask(db, id, expected, actor, now);
    if r.1.Ok? {
      TableShape(db.subtasks[id].state, EvCancelled);
      var sub := db.subtasks[id];
      var sub' := Moving(sub, Cancelled).(assignee := "", lease := "");
      SubtaskFacts(db, id);
      ReleaseKeeps(db, sub, "cancelled", actor, now);
      var d := ReleaseHold(db, sub, "cancelled", actor, now);
      assert d.subtasks == db.subtasks && d.leases == db.leases;
      if sub.lease != "" && sub.lease in db.leases && db.leases[sub.lease].state == LActive {
        MoveOffLease(d, sub', EvCancelled, map[], actor, now, sub.lease, LReleased);
      } else {
        MoveKeeps(d, sub', EvCancelled, map[], actor, now);
      }
      SoundThen(db, d, r.0);
    } else {
      GrowsReflexive(db);
    }
  }

  // ---- delegation ----

  /** What intentDelegate passes to SpawnSubtask. */
  ghost predicate NewChild(db: DB, parentId: string, child: Subtask) {
    && child.id != "" && child.attempt == 0 && child.lease == "" && child.spec.parent == parentId && parentId != ""
    && Normal(child.spec.grants)
    && (parentId in db.subtasks ==> child.spec.mission == db.subtasks[parentId].spec.mission)
  }

  /** Reserving touches one account, one new hold and the log. */
  lemma ReserveFrame(db: DB, child: Subtask, amount: int, actor: Actor, now: int)
    ensures var d := ReserveHold(db, child, amount, actor, now);
      && d == db.(budgets := d.budgets, holds := d.holds, events := d.events, eventSeq := d.eventSeq)
      && d.budgets.Keys == db.budgets.Keys
      && (forall k :: k in d.holds && k != child.id ==> k in db.holds && d.holds[k] == db.holds[k])
      && (child.id in d.holds && child.id !in db.holds ==> d.holds[child.id].mission == child.spec.mission)
      && (child.spec.mission !in db.budgets ==> d == db)
  {}

  lemma ReserveKeepsEvents(db: DB, child: Subtask, amount: int, actor: Actor, now: int)
    requires EventInv(db.subtasks, db.events, db.eventSeq)
    ensures var d := ReserveHold(db, child, amount, actor, now);
            EventInv(d.subtasks, d.events, d.eventSeq) && db.events <= d.events
  {
    var d := ReserveHold(db, child, amount, actor, now);
    hide EventInv;
    if child.spec.mission in db.budgets {
      var e := d.events[|db.events|];
      LogKeepsEvents(db, e.aggregate, e.mission, e.typ, e.payload, e.actor, e.ts);
    }
  }

  /** The store after the budget check of a spawn passed, between the hold and its subtask. */
  ghost predicate Reserved(db: DB, d: DB, child: Subtask) {
    && d == db.(budgets := d.budgets, holds := d.holds, events := d.events, eventSeq := d.eventSeq)
    && EventInv(d.subtasks, d.events, d.eventSeq) && db.events <= d.events
    && LedgerInv(d.budgets, d.holds, d.events)
    && d.budgets.Keys == db.budgets.Keys
    && (forall k :: k in d.holds && k != child.id ==> k in db.holds && d.holds[k] == db.holds[k])
    && (child.id in d.holds ==> d.holds[child.id].mission == child.spec.mission)
  }

  lemma ReserveKeeps(db: DB, child: Subtask, amount: int, actor: Actor, now: int)
    requires Inv(db) && child.id !in db.subtasks
    requires child.spec.mission in db.budgets ==>
      var a := db.budgets[child.spec.mission]; 0 < amount <= a.total - a.held - a.spent
    ensures Reserved(db, ReserveHold(db, child, amount, actor, now), child)
  {
    assert child.id !in db.holds;
    hide EventInv, LeaseInv, CountInv, LedgerInv, OwnerInv, TreeInv, BoardInv, MissionInv;
    ReserveFrame(db, child, amount, actor, now);
    ReserveKeepsEvents(db, child, amount, actor, now);
    if child.spec.mission in db.budgets {
      ReserveKeepsLedger(db, child, amount, actor, now);
    }
    hide ReserveHold;
  }

  lemma AddReservedKeeps(db: DB, d: DB, child: Subtask, extra: Json0, actor: Actor, now: int)
    requires Inv(db) && Reserved(db, d, child)
    requires child.id !in db.subtasks && child.state == Pending && child.version == 0 && child.lease == ""
    requires Placed(db.subtasks, child.id, child.spec) && child.spec.mission in db.missions
    ensures Sound(db, AddSubtask(d, child, extra, actor, now))
  {
    hide EventInv, LeaseInv, CountInv, LedgerInv, TreeInv, BoardInv, Placed, Grows;
    AddKeeps(d, child, extra, actor, now);
    ReservedGrows(db, d, child);
    GrowsTransitive(db, d, AddSubtask(d, child, extra, actor, now));
  }

  lemma ReservedGrows(db: DB, d: DB, child: Subtask)
    requires Reserved(db, d, child)
    ensures Grows(db, d)
  {
    hide EventInv, LedgerInv;
  }

  lemma SpawnSubtaskKeeps(db: DB, key: string, parentId: string, token: int, parentVersion: int, child: Subtask,
                          actor: Actor, now: int)
    requires Inv(db) && NewChild(db, parentId, child)
    ensures Sound(db, SpawnSubtask(db, key, parentId, token, parentVersion, child, actor, now).0)
  {
    hide Inv, Grows, Reserved, ReserveHold, FencingOk, Placed, Subset, Normal;
    var r := SpawnSubtask(db, key, parentId, token, parentVersion, child, actor, now);
    if r.1.Ok? {
      var born := child.(state := Pending, version := 0);
      var d := db.(idem := db.idem[key := child.id]);
      KeyTouch(db, key, child.id);
      var d2 := ReserveHold(d, child, child.spec.tokens, actor, now);
      ReserveKeeps(d, child, child.spec.tokens, actor, now);
      var extra := ChildBirth(child, parentId);
      SubtaskFacts(db, parentId);
      ChildPlaced(db, parentId, child);
      AddBorn(d, d2, child, extra, actor, now);
      var d3 := AddSubtask(d2, born, extra, actor, now);
      SoundThen(db, d, d3);
      ReadyKeeps(d3, born, System("orchestrator"), now);
      SoundThen(db, d3, r.0);
    } else {
      GrowsReflexive(db);
    }
  }

  lemma ChildPlaced(db: DB, parentId: string, child: Subtask)
    requires parentId in db.subtasks && NewChild(db, parentId, child)
    requires Subset(db.subtasks[parentId].spec.grants, child.spec.grants)
    ensures Placed(db.subtasks, child.id, child.spec)
  {
    hide Subset, Normal;
  }

  lemma AddBorn(db: DB, d: DB, child: Subtask, extra: Json0, actor: Actor, now: int)
    requires Inv(db) && Reserved(db, d, child) && child.id !in db.subtasks && child.lease == ""
    requires Placed(db.subtasks, child.id, child.spec) && child.spec.mission in db.missions
    ensures Sound(db, AddSubtask(d, child.(state := Pending, version := 0), extra, actor, now))
  {
    hide EventInv, LedgerInv, Inv, Grows, Placed, AddSubtask;
    AddReservedKeeps(db, d, child.(state := Pending, version := 0), extra, actor, now);
  }

  lemma ReadyKeeps(db: DB, born: Subtask, actor: Actor, now: int)
    requires Inv(db) && born.id in db.subtasks && db.subtasks[born.id] == born && born.state == Pending
    ensures Sound(db, Move(db, Moving(born, Ready), EvDepsSatisfied, map[], actor, now))
  {
    hide Inv, Grows;
    SubtaskFacts(db, born.id);
    MoveKeeps(db, Moving(born, Ready), EvDepsSatisfied, map[], actor, now);
  }

  lemma IngestLeadInboxKeeps(db: DB, item: string, lead: string, token: int, expected: int, mode: string, actor: Actor,
                             now: int)
    requires Inv(db)
    ensures Sound(db, IngestLeadInbox(db, item, lead, token, expected, mode, actor, now).0)
  {
    hide Inv, Grows;
    var r := IngestLeadInbox(db, item, lead, token, expected, mode, actor, now);
    if r.1.Ok? {
      var d := db.(inbox := db.inbox[item := r.1.value]);
      FreeTouch(db, db.decisions, db.artifacts, d.inbox);
      LogKeeps(d, lead, db.subtasks[lead].spec.mission, Other("lead.inbox.ingested"),
               Plain(Ingestion(r.1.value)), actor, now);
      SoundThen(db, d, r.0);
    } else {
      GrowsReflexive(db);
    }
  }

  lemma SaveLeadSnapshotKeeps(db: DB, lead: string, token: int, expected: int, value: string, ttl: int, actor: Actor,
                              now: int)
    requires Inv(db)
    ensures Sound(db, SaveLeadSnapshot(db, lead, token, expected, value, ttl, actor, now).0)
  {
    hide Inv, Grows;
    var r := SaveLeadSnapshot(db, lead, token, expected, value, ttl, actor, now);
    if r.1.Ok? {
      var sub := db.subtasks[lead];
      ExpiryKeepsInv(db, sub.lease, now + ttl);
      var d := db.(leases := db.leases[sub.lease := db.leases[sub.lease].(expires := now + ttl)]);
      var d1, d2 := d.(board := r.0.board), d.(board := r.0.board, agents := r.0.agents);
      BoardFacts(db);
      BoardPutKeepsBoard(db.board, r.1.value);
      BoardTouch(d, d1.board);
      AgentsTouch(d1, d2.agents);
      SoundThen(db, d, d1);
      SoundThen(db, d1, d2);
      LogKeeps(d2, lead, sub.spec.mission, Other("lead.snapshot.saved"),
               Plain(map["version" := JInt(r.1.value.version)]), actor, now);
      SoundThen(db, d2, r.0);
    } else {
      GrowsReflexive(db);
    }
  }

  lemma TakeoverLeadKeeps(db: DB, id: string, now: int)
    requires Inv(db)
    ensures Sound(db, TakeoverLead(db, id, now))
  {
    hide Inv, Grows, Apply, Edge, IsLead;
    if Stale(db, id, now) {
      SweeperEdges();
      var lead := db.subtasks[id];
      SubtaskFacts(db, id);
      var lead' := Moving(lead, Ready).(assignee := "", lease := "");
      var extra := map["fenced_lease_id" := JStr(lead.lease), "previous_agent_id" := JStr(lead.assignee)];
      MoveOffLease(db, lead', EvTakeover, extra, System("lead-takeover"), now, lead.lease, LFenced);
      var d := Retire(Move(db, lead', EvTakeover, extra, System("lead-takeover"), now), lead.lease, LFenced);
      AgentsTouch(d, Suspected(d.agents, db.leases[lead.lease].agent));
      SoundThen(db, d, TakeoverLead(db, id, now));
    } else {
      GrowsReflexive(db);
    }
  }

  lemma {:induction false} TakeoverStaleLeadsKeeps(db: DB, order: seq<string>, now: int)
    requires Inv(db)
    ensures Sound(db, TakeoverStaleLeads(db, order, now))
  {
    hide Inv, Grows;
    if order == [] {
      GrowsReflexive(db);
    } else {
      TakeoverStaleLeadsKeeps(db, order[..|order| - 1], now);
      var d := TakeoverStaleLeads(db, order[..|order| - 1], now);
      TakeoverLeadKeeps(d, order[|order| - 1], now);
      SoundThen(db, d, TakeoverStaleLeads(db, order, now));
    }
  }

  // ---- suspend and wake ----

  lemma SuspendSubtaskKeeps(db: DB, id: string, token: int, expected: int, wake: WakeSpec, checkpoint: string,
                            actor: Actor, now: int)
    requires Inv(db)
    ensures Sound(db, SuspendSubtask(db, id, token, expected, wake, checkpoint, actor, now).0)
  {
    hide Inv, Grows, Apply, Edge;
    var r := SuspendSubtask(db, id, token, expected, wake, checkpoint, actor, now);
    if r.1.Ok? {
      TableShape(db.subtasks[id].state, EvSuspended);
      OwnLease(db, id, token);
      MoveOffLease(db, r.1.value, EvSuspended, map["wake_kind" := JStr(WakeName(wake.kind))], actor, now,
                   db.subtasks[id].lease, LReleased);
    } else {
      GrowsReflexive(db);
    }
  }

  lemma WakeSubtaskKeeps(db: DB, id: string, expected: int, actor: Actor, now: int)
    requires Inv(db)
    ensures Sound(db, WakeSubtask(db, id, expected, actor, now).0)
  {
    hide Inv, Grows, Apply, Edge;
    var r := WakeSubtask(db, id, expected, actor, now);
    if r.1.Ok? {
      TableShape(db.subtasks[id].state, EvWoken);
      SubtaskFacts(db, id);
      MoveKeeps(db, r.1.value, EvWoken, map[], actor, now);
    } else {
      GrowsReflexive(db);
    }
  }

  lemma ExpireWakeKeeps(db: DB, id: string, now: int)
    requires Inv(db)
    ensures Sound(db, ExpireWake(db, id, now))
  {
    hide Inv, Grows, Apply, Edge;
    if WakeExpired(db, id, now) {
      SweeperEdges();
      SubtaskFacts(db, id);
      MoveKeeps(db, Moving(db.subtasks[id], Failed).(wake := None), EvFailed,
                map["reason" := JStr("wake_timeout")], System("sweeper"), now);
    } else {
      GrowsReflexive(db);
    }
  }

  lemma {:induction false} ExpireWakesKeeps(db: DB, order: seq<string>, now: int)
    requires Inv(db)
    ensures Sound(db, ExpireWakes(db, order, now))
  {
    hide Inv, Grows;
    if order == [] {
      GrowsReflexive(db);
    } else {
      ExpireWakesKeeps(db, order[..|order| - 1], now);
      var d := ExpireWakes(db, order[..|order| - 1], now);
      ExpireWakeKeeps(d, order[|order| - 1], now);
      SoundThen(db, d, ExpireWakes(db, order, now));
    }
  }

  /** A checkpoint is no life-cycle fact. */
  lemma QuietRewrite(db: DB, sub: Subtask)
    requires Inv(db) && sub.id in db.subtasks && SubLease(db.leases, sub.id, sub)
    requires sub.spec == db.subtasks[sub.id].spec && sub.state == db.subtasks[sub.id].state
    requires sub.version == db.subtasks[sub.id].version
    ensures Sound(db, db.(subtasks := db.subtasks[sub.id := sub]))
  {
    hide EventInv, LeaseInv, CountInv, LedgerInv, OwnerInv, TreeInv, BoardInv, MissionInv, SubLease;
    TracksKeep(db, sub);
    HomesKeep(db, sub);
    SubKeepsLeases(db.subtasks, db.leases, db.fencingSeq, db.leaseSeq, sub);
    RewriteKeepsTree(db.subtasks, db.holds, sub);
  }

  lemma TracksKeep(db: DB, sub: Subtask)
    requires EventInv(db.subtasks, db.events, db.eventSeq) && sub.id in db.subtasks
    requires sub.state == db.subtasks[sub.id].state && sub.version == db.subtasks[sub.id].version
    ensures EventInv(db.subtasks[sub.id := sub], db.events, db.eventSeq)
  {
    forall x ensures Replay(db.events, x) == TrackOf(db.subtasks[sub.id := sub], x) {
      assert Replay(db.events, x) == TrackOf(db.subtasks, x);
    }
  }

  /** Records are stored under their own ids, part of the store invariant. */
  ghost predicate OwnKeys(subtasks: map<string, Subtask>) {
    forall id :: id in subtasks ==> subtasks[id].id == id
  }

  lemma InvOwnKeys(db: DB)
    requires Inv(db)
    ensures OwnKeys(db.subtasks)
  {}

  ghost function ExpiredWakes(db: DB, now: int): set<string> {
    set id | id in db.subtasks && WakeExpired(db, id, now)
  }

  /** The sweep fails exactly the overdue subtasks it visits. */
  lemma {:induction false} WakesLand(db: DB, order: seq<string>, now: int)
    requires OwnKeys(db.subtasks) && Distinct(order)
    ensures var d := ExpireWakes(db, order, now);
      && OwnKeys(d.subtasks) && d.subtasks.Keys == db.subtasks.Keys && d.missions == db.missions
      && (forall id :: id in db.subtasks && id in order && WakeExpired(db, id, now) ==>
            d.subtasks[id] == Moving(db.subtasks[id], Failed).(wake := None))
      && (forall id :: id in db.subtasks && !(id in order && WakeExpired(db, id, now)) ==> d.subtasks[id] == db.subtasks[id])
  {
    if order != [] {
      var init, last := order[..|order| - 1], order[|order| - 1];
      assert forall x :: x in order <==> x in init || x == last by {
        assert order == init + [last];
      }
      assert last !in init;
      WakesLand(db, init, now);
      var d := ExpireWakes(db, init, now);
      assert last in db.subtasks ==> d.subtasks[last] == db.subtasks[last];
      hide Distinct, ExpireWakes, OwnKeys;
      OneWake(d, last, now);
      ExpireLast(db, order, now);
    }
  }

  lemma ExpireLast(db: DB, order: seq<string>, now: int)
    requires order != []
    ensures ExpireWakes(db, order, now) == ExpireWake(ExpireWakes(db, order[..|order| - 1], now), order[|order| - 1], now)
  {}

  lemma OneWake(db: DB, id: string, now: int)
    requires OwnKeys(db.subtasks)
    ensures var d := ExpireWake(db, id, now);
      && OwnKeys(d.subtasks) && d.missions == db.missions
      && d.subtasks == (if WakeExpired(db, id, now) then db.subtasks[id := Moving(db.subtasks[id], Failed).(wake := None)]
                        else db.subtasks)
  {
    if WakeExpired(db, id, now) {
      WakeEnds(db, id, now);
    }
    hide WakeExpired;
  }

  lemma WakeEnds(db: DB, id: string, now: int)
    requires WakeExpired(db, id, now) && db.subtasks[id].id == id
    ensures var d := ExpireWake(db, id, now);
      d == db.(subtasks := db.subtasks[id := Moving(db.subtasks[id], Failed).(wake := None)], events := d.events,
               eventSeq := d.eventSeq)
  {
    hide Overdue;
  }

  lemma SaveCheckpointKeeps(db: DB, id: string, token: int, checkpoint: string)
    requires Inv(db)
    ensures Sound(db, SaveCheckpoint(db, id, token, checkpoint).0)
  {
    hide Inv, Grows;
    if SaveCheckpoint(db, id, token, checkpoint).1.Ok? {
      SubtaskFacts(db, id);
      QuietRewrite(db, db.subtasks[id].(checkpoint := checkpoint));
    } else {
      GrowsReflexive(db);
    }
  }

  // ---- the rest ----

  lemma PutIdempotentKeeps(db: DB, key: string, result: string)
    requires Inv(db)
    ensures Sound(db, PutIdempotent(db, key, result).0)
  {
    hide Inv, Grows;
    if key in db.idem {
      GrowsReflexive(db);
    } else {
      KeyTouch(db, key, result);
    }
  }

  /** The service passes no token only for human nodes. */
  lemma CreateDecisionAndBlockKeeps(db: DB, d: Decision, expected: int, token: Option<int>, actor: Actor, now: int)
    requires Inv(db)
    requires token.None? && d.subtask in db.subtasks ==> db.subtasks[d.subtask].spec.kind.Human()
    ensures Sound(db, CreateDecisionAndBlock(db, d, expected, token, actor, now).0)
  {
    hide Inv, Grows, Apply, Edge;
    var r := CreateDecisionAndBlock(db, d, expected, token, actor, now);
    if r.1.Ok? {
      TableShape(db.subtasks[d.subtask].state, EvBlocked);
      var sub := db.subtasks[d.subtask];
      SubtaskFacts(db, d.subtask);
      var d1 := db.(decisions := db.decisions[d.id := d.(status := DPending)]);
      FreeTouch(db, d1.decisions, db.artifacts, db.inbox);
      var extra := map["question" := JStr(d.question)];
      MoveKeeps(d1, Moving(sub, Blocked), EvBlocked, extra, actor, now);
      var d2 := Move(d1, Moving(sub, Blocked), EvBlocked, extra, actor, now);
      SoundThen(db, d1, d2);
      LogKeeps(d2, d.subtask, d.mission, Other("decision.requested"),
               Plain(Asking(d)), actor, now);
      SoundThen(db, d2, r.0);
    } else {
      GrowsReflexive(db);
    }
  }

  /** Decisions and artifacts are free of the invariant; writing them logs a free event. */
  lemma FreeLogKeeps(db: DB, decisions: map<string, Decision>, artifacts: map<string, Artifact>, aggregate: string,
                     mission: string, typ: EventType, payload: Payload, actor: Actor, now: int)
    requires Inv(db) && typ.Other?
    ensures Sound(db, Log(db.(decisions := decisions, artifacts := artifacts), aggregate, mission, typ, payload, actor, now))
  {
    hide Inv, Grows;
    FreeTouch(db, decisions, artifacts, db.inbox);
    var d := db.(decisions := decisions, artifacts := artifacts);
    LogKeeps(d, aggregate, mission, typ, payload, actor, now);
    SoundThen(db, d, Log(d, aggregate, mission, typ, payload, actor, now));
  }

  lemma ResolveDecisionKeeps(db: DB, id: string, choice: string, rationale: string, decider: string, now: int)
    requires Inv(db)
    ensures Sound(db, ResolveDecision(db, id, choice, rationale, decider, now).0)
  {
    hide Inv, Grows;
    var r := ResolveDecision(db, id, choice, rationale, decider, now);
    if r.1.Ok? {
      var d := r.1.value;
      FreeLogKeeps(db, db.decisions[id := d], db.artifacts, d.subtask, d.mission, Other("decision.resolved"),
                    Plain(map["decision_id" := JStr(id), "choice" := JStr(choice), "decider" := JStr(decider)]),
                    Actor("human", decider), now);
    } else {
      GrowsReflexive(db);
    }
  }

  lemma ExpireDecisionKeeps(db: DB, id: string, now: int)
    requires Inv(db)
    ensures Sound(db, ExpireDecision(db, id, now))
  {
    hide Inv, Grows;
    if id in db.decisions && DecisionDue(db.decisions[id], now) {
      var d := TimedOut(db.decisions[id]);
      FreeLogKeeps(db, db.decisions[id := d], db.artifacts, d.subtask, d.mission, Other("decision.expired"),
                    Plain(map["decision_id" := JStr(id), "on_timeout" := JStr(d.onTimeout), "choice" := JStr(d.choice)]),
                    System("decision-sweeper"), now);
    } else {
      GrowsReflexive(db);
    }
  }

  lemma {:induction false} ExpireDecisionsKeeps(db: DB, order: seq<string>, now: int)
    requires Inv(db)
    ensures Sound(db, ExpireDecisions(db, order, now))
  {
    hide Inv, Grows;
    if order == [] {
      GrowsReflexive(db);
    } else {
      ExpireDecisionsKeeps(db, order[..|order| - 1], now);
      var d := ExpireDecisions(db, order[..|order| - 1], now);
      ExpireDecisionKeeps(d, order[|order| - 1], now);
      SoundThen(db, d, ExpireDecisions(db, order, now));
    }
  }

  lemma BoardPutKeeps(db: DB, e: BoardEntry, expected: int)
    requires Inv(db)
    ensures Sound(db, BoardPut(db, e, expected).0)
  {
    hide Inv, Grows;
    var r := BoardPut(db, e, expected);
    if r.1.Ok? {
      BoardFacts(db);
      BoardPutKeepsBoard(db.board, r.1.value);
      BoardTouch(db, r.0.board);
    } else {
      GrowsReflexive(db);
    }
  }

  lemma PutArtifactKeeps(db: DB, a: Artifact, now: int)
    requires Inv(db)
    ensures Sound(db, PutArtifact(db, a, now).0)
  {
    hide Inv, Grows;
    if a.id in db.artifacts {
      GrowsReflexive(db);
    } else {
      FreeLogKeeps(db, db.decisions, db.artifacts[a.id := a], a.producedBy, a.mission, Other("artifact.produced"),
                    Plain(map["artifact_id" := JStr(a.id), "size" := JInt(a.size)]), System("artifact-store"), now);
    }
  }

  lemma AppendEventKeeps(db: DB, aggregate: string, mission: string, typ: EventType, payload: Payload, actor: Actor,
                         now: int)
    requires Inv(db) && typ.Other?
    ensures Sound(db, Log(db, aggregate, mission, typ, payload, actor, now))
  {
    hide Inv, Grows;
    LogKeeps(db, aggregate, mission, typ, payload, actor, now);
  }
}
