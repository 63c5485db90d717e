/** The invariant of the whole store, the order in which stores grow, and the effect of every
    primitive on both. */
module Invariants {
  import opened Basics
  import opened StateMachine
  import opened Permissions
  import opened Records
  import opened StoreSpec
  import opened EventLog
  import opened Leases
  import opened Ledger

  /** A subtask is stored under its own id with a normal envelope, and a delegated one lies within
      its parent's mission and envelope. */
  ghost predicate Placed(subtasks: map<string, Subtask>, id: string, spec: TaskSpec) {
    && id != "" && Normal(spec.grants)
    && (spec.parent != "" ==>
          && spec.parent in subtasks && subtasks[spec.parent].spec.mission == spec.mission
          && Subset(subtasks[spec.parent].spec.grants, spec.grants))
  }

  ghost predicate TreeInv(subtasks: map<string, Subtask>) {
    forall id :: id in subtasks ==> subtasks[id].id == id && Placed(subtasks, id, subtasks[id].spec)
  }

  ghost predicate OwnerInv(subtasks: map<string, Subtask>, holds: map<string, Hold>) {
    forall k :: k in holds ==> k in subtasks && holds[k].mission == subtasks[k].spec.mission
  }

  ghost predicate BoardInv(board: map<string, BoardEntry>) {
    forall k :: k in board ==> k == BoardKey(board[k].mission, board[k].ns, board[k].key)
  }

  /** Missions are stored under their own ids, and accounts and subtasks belong to stored missions. */
  ghost predicate MissionInv(missions: map<string, Mission>, budgets: map<string, Account>,
                             subtasks: map<string, Subtask>) {
    && (forall m :: m in missions ==> missions[m].id == m) && budgets.Keys <= missions.Keys
    && forall id :: id in subtasks ==> subtasks[id].spec.mission in missions
  }

  ghost predicate Inv(db: DB) {
    && EventInv(db.subtasks, db.events, db.eventSeq)
    && LeaseInv(db.subtasks, db.leases, db.fencingSeq, db.leaseSeq)
    && CountInv(db.agents, db.leases)
    && LedgerInv(db.budgets, db.holds, db.events)
    && OwnerInv(db.subtasks, db.holds)
    && TreeInv(db.subtasks)
    && BoardInv(db.board)
    && MissionInv(db.missions, db.budgets, db.subtasks)
  }

  /** What the invariant says about one stored subtask. */
  lemma SubtaskFacts(db: DB, id: string)
    requires Inv(db) && id in db.subtasks
    ensures var sub := db.subtasks[id];
      && sub.id == id && id != "" && Normal(sub.spec.grants) && SubLease(db.leases, id, sub)
      && (id in db.holds ==> db.holds[id].mission == sub.spec.mission)
      && sub.spec.mission in db.missions
  {
    assert Placed(db.subtasks, id, db.subtasks[id].spec);
  }

  /** What the invariant says about one stored lease. */
  lemma LeaseFacts(db: DB, l: string)
    requires Inv(db) && l in db.leases
    ensures var lease := db.leases[l];
      && lease.id == l && 1 <= lease.token <= db.fencingSeq && l == LeaseId(lease.token)
      && lease.subtask in db.subtasks && db.fencingSeq == db.leaseSeq
  {}

  lemma Sequences(db: DB)
    requires Inv(db)
    ensures db.fencingSeq == db.leaseSeq && db.eventSeq == |db.events|
  {}

  // ---- growth ----

  /** Identity, holder and token of a lease never change, and a lease that is not ACTIVE is final. */
  ghost predicate LaterLease(a: Lease, b: Lease) {
    && a.token == b.token && a.subtask == b.subtask && a.agent == b.agent
    && (a.state != LActive ==> b.state == a.state)
  }

  ghost predicate LaterLeases(a: map<string, Lease>, b: map<string, Lease>) {
    forall l :: l in a ==> l in b && LaterLease(a[l], b[l])
  }

  /** Leases that appear later carry larger tokens. */
  ghost predicate NewerTokens(a: map<string, Lease>, issued: nat, b: map<string, Lease>) {
    forall l :: l in b && l !in a ==> b[l].token > issued
  }

  ghost predicate SameSpecs(a: map<string, Subtask>, b: map<string, Subtask>) {
    forall id :: id in a ==> id in b && b[id].spec == a[id].spec
  }

  ghost predicate Extends<V>(a: map<string, V>, b: map<string, V>) {
    forall k :: k in a ==> k in b && b[k] == a[k]
  }

  /** The log is append-only, subtasks keep their declared part, idempotency keys are never rebound. */
  ghost predicate Grows(a: DB, b: DB) {
    && a.events <= b.events
    && SameSpecs(a.subtasks, b.subtasks)
    && LaterLeases(a.leases, b.leases)
    && NewerTokens(a.leases, a.fencingSeq, b.leases)
    && Extends(a.idem, b.idem)
    && a.missions.Keys <= b.missions.Keys
    && a.fencingSeq <= b.fencingSeq
  }

  lemma GrowsReflexive(a: DB)
    ensures Grows(a, a)
  {}

  lemma GrowsTransitive(a: DB, b: DB, c: DB)
    requires Grows(a, b) && Grows(b, c)
    ensures Grows(a, c)
  {
    forall l | l in a.leases ensures l in c.leases && LaterLease(a.leases[l], c.leases[l]) {
      assert LaterLease(a.leases[l], b.leases[l]) && LaterLease(b.leases[l], c.leases[l]);
    }
    forall l | l in c.leases && l !in a.leases ensures c.leases[l].token > a.fencingSeq {
      if l in b.leases {
        assert LaterLease(b.leases[l], c.leases[l]);
      }
    }
  }

  // ---- primitives ----

  ghost predicate SameCounters(a: map<string, Agent>, b: map<string, Agent>) {
    forall x :: x in b ==> x in a && b[x].id == a[x].id && b[x].running == a[x].running
  }

  ghost predicate SameMissions(a: map<string, Mission>, b: map<string, Mission>) {
    a.Keys == b.Keys && forall m :: m in a ==> b[m].id == a[m].id
  }

  /** Changes of fields that no part of the invariant looks at. */
  lemma MissionsTouch(db: DB, missions: map<string, Mission>)
    requires Inv(db) && SameMissions(db.missions, missions)
    ensures var d := db.(missions := missions); Inv(d) && Grows(db, d)
  {
    hide EventInv, LeaseInv, CountInv, LedgerInv, OwnerInv, TreeInv, BoardInv;
  }

  lemma AgentsTouch(db: DB, agents: map<string, Agent>)
    requires Inv(db) && SameCounters(db.agents, agents)
    ensures var d := db.(agents := agents); Inv(d) && Grows(db, d)
  {
    hide EventInv, LeaseInv, LedgerInv, OwnerInv, TreeInv, BoardInv, MissionInv;
  }

  lemma KeyTouch(db: DB, key: string, value: string)
    requires Inv(db) && key !in db.idem
    ensures var d := db.(idem := db.idem[key := value]); Inv(d) && Grows(db, d)
  {
    hide EventInv, LeaseInv, CountInv, LedgerInv, OwnerInv, TreeInv, BoardInv, MissionInv;
  }

  lemma BoardTouch(db: DB, board: map<string, BoardEntry>)
    requires Inv(db) && BoardInv(board)
    ensures var d := db.(board := board); Inv(d) && Grows(db, d)
  {
    hide EventInv, LeaseInv, CountInv, LedgerInv, OwnerInv, TreeInv, BoardInv, MissionInv;
  }

  lemma FreeTouch(db: DB, decisions: map<string, Decision>, artifacts: map<string, Artifact>,
                  inbox: map<string, InboxItem>)
    requires Inv(db)
    ensures var d := db.(decisions := decisions, artifacts := artifacts, inbox := inbox); Inv(d) && Grows(db, d)
  {
    hide EventInv, LeaseInv, CountInv, LedgerInv, OwnerInv, TreeInv, BoardInv, MissionInv;
  }

  lemma UpsertKeeps(db: DB, a: Agent)
    requires Inv(db) && a.running == |ActiveOf(db.leases, a.id)|
    ensures var d := db.(agents := db.agents[a.id := a]); Inv(d) && Grows(db, d)
  {}

  lemma BoardPutKeepsBoard(board: map<string, BoardEntry>, e: BoardEntry)
    requires BoardInv(board)
    ensures BoardInv(board[BoardKey(e.mission, e.ns, e.key) := e])
  {
    var k0 := BoardKey(e.mission, e.ns, e.key);
    var after := board[k0 := e];
    forall k | k in after ensures k == BoardKey(after[k].mission, after[k].ns, after[k].key) {
      if k != k0 {
        assert k in board;
      }
    }
  }

  lemma BoardFacts(db: DB)
    requires Inv(db)
    ensures BoardInv(db.board)
  {}

  lemma LogKeeps(db: DB, aggregate: string, mission: string, typ: EventType, payload: Payload, actor: Actor, now: int)
    requires Inv(db) && typ.Other?
    ensures var d := Log(db, aggregate, mission, typ, payload, actor, now); Inv(d) && Grows(db, d)
  {
    hide EventInv, LeaseInv, CountInv, LedgerInv, OwnerInv, TreeInv, BoardInv, MissionInv;
    LogKeepsEvents(db, aggregate, mission, typ, payload, actor, now);
    var e := Event(db.eventSeq + 1, aggregate, mission, typ, payload, actor, now);
    LogKeepsLedger(db, e);
  }

  /** Nothing in the tree depends on the moving part of a subtask. */
  lemma RewriteKeepsTree(subtasks: map<string, Subtask>, holds: map<string, Hold>, sub: Subtask)
    requires TreeInv(subtasks) && OwnerInv(subtasks, holds)
    requires sub.id in subtasks && sub.spec == subtasks[sub.id].spec
    ensures TreeInv(subtasks[sub.id := sub]) && OwnerInv(subtasks[sub.id := sub], holds)
  {
    var after := subtasks[sub.id := sub];
    forall id | id in after ensures after[id].id == id && Placed(after, id, after[id].spec) {
      assert Placed(subtasks, id, subtasks[id].spec);
    }
  }

  lemma HomesKeep(db: DB, sub: Subtask)
    requires MissionInv(db.missions, db.budgets, db.subtasks)
    requires sub.spec.mission in db.missions
      || (sub.id in db.subtasks && db.subtasks[sub.id].spec.mission == sub.spec.mission)
    ensures MissionInv(db.missions, db.budgets, db.subtasks[sub.id := sub])
  {}

  lemma MoveKeeps(db: DB, sub: Subtask, ev: EventType, extra: Json0, actor: Actor, now: int)
    requires Inv(db) && sub.id in db.subtasks
    requires sub.spec == db.subtasks[sub.id].spec && sub.version == db.subtasks[sub.id].version + 1
    requires ev.Lifecycle() && Edge(db.subtasks[sub.id].state, ev) == Some(sub.state)
    requires SubLease(db.leases, sub.id, sub)
    ensures var d := Move(db, sub, ev, extra, actor, now); Inv(d) && Grows(db, d)
  {
    hide EventInv, LeaseInv, CountInv, LedgerInv, OwnerInv, TreeInv, BoardInv, MissionInv;
    MoveKeepsEvents(db, sub, ev, extra, actor, now);
    SubKeepsLeases(db.subtasks, db.leases, db.fencingSeq, db.leaseSeq, sub);
    RewriteKeepsTree(db.subtasks, db.holds, sub);
    HomesKeep(db, sub);
    var e := Event(db.eventSeq + 1, sub.id, sub.spec.mission, ev, Moved(sub.state, extra), actor, now);
    LogKeepsLedger(db, e);
  }

  lemma AddKeepsTree(subtasks: map<string, Subtask>, holds: map<string, Hold>, sub: Subtask)
    requires TreeInv(subtasks) && sub.id !in subtasks && Placed(subtasks, sub.id, sub.spec)
    requires forall k :: k in holds ==> k in subtasks[sub.id := sub] && holds[k].mission == subtasks[sub.id := sub][k].spec.mission
    ensures TreeInv(subtasks[sub.id := sub]) && OwnerInv(subtasks[sub.id := sub], holds)
  {
    var after := subtasks[sub.id := sub];
    forall id | id in after ensures after[id].id == id && Placed(after, id, after[id].spec) {
      if id != sub.id {
        assert Placed(subtasks, id, subtasks[id].spec);
      }
    }
  }

  /** A hold may already be reserved for the subtask that is being added. */
  lemma AddKeeps(db: DB, sub: Subtask, extra: Json0, actor: Actor, now: int)
    requires EventInv(db.subtasks, db.events, db.eventSeq)
    requires LeaseInv(db.subtasks, db.leases, db.fencingSeq, db.leaseSeq)
    requires CountInv(db.agents, db.leases) && LedgerInv(db.budgets, db.holds, db.events)
    requires TreeInv(db.subtasks) && BoardInv(db.board) && MissionInv(db.missions, db.budgets, db.subtasks)
    requires sub.spec.mission in db.missions
    requires forall k :: k in db.holds && k != sub.id ==> k in db.subtasks && db.holds[k].mission == db.subtasks[k].spec.mission
    requires sub.id in db.holds ==> db.holds[sub.id].mission == sub.spec.mission
    requires sub.id !in db.subtasks && sub.state == Pending && sub.version == 0 && sub.lease == ""
    requires Placed(db.subtasks, sub.id, sub.spec)
    ensures var d := AddSubtask(db, sub, extra, actor, now); Inv(d) && Grows(db, d)
  {
    hide EventInv, LeaseInv, CountInv, LedgerInv, OwnerInv, TreeInv, BoardInv, MissionInv;
    AddKeepsEvents(db, sub, extra, actor, now);
    SubKeepsLeases(db.subtasks, db.leases, db.fencingSeq, db.leaseSeq, sub);
    AddKeepsTree(db.subtasks, db.holds, sub);
    HomesKeep(db, sub);
    var e := Event(db.eventSeq + 1, sub.id, sub.spec.mission, EvCreated, Plain(extra), actor, now);
    LogKeepsLedger(db, e);
  }

  /** Leases, counters, tokens and contexts may change as long as their own parts of the invariant hold. */
  lemma LeasePartKeeps(db: DB, agents: map<string, Agent>, leases: map<string, Lease>,
                       contexts: map<string, ContextPackage>, n: nat)
    requires Inv(db)
    requires LeaseInv(db.subtasks, leases, n, n) && CountInv(agents, leases)
    requires LaterLeases(db.leases, leases) && NewerTokens(db.leases, db.fencingSeq, leases) && db.fencingSeq <= n
    ensures var d := db.(agents := agents, leases := leases, contexts := contexts, fencingSeq := n, leaseSeq := n);
            Inv(d) && Grows(db, d)
  {
    hide EventInv, LeaseInv, CountInv, LedgerInv, OwnerInv, TreeInv, BoardInv, MissionInv, LaterLeases, NewerTokens;
  }

  lemma LaterUpdate(leases: map<string, Lease>, issued: nat, l: string, lease: Lease)
    requires if l in leases then LaterLease(leases[l], lease) else lease.token > issued
    ensures LaterLeases(leases, leases[l := lease]) && NewerTokens(leases, issued, leases[l := lease])
  {}

  /** What the invariant says about the leases as a whole. */
  lemma LeaseParts(db: DB)
    requires Inv(db)
    ensures db.fencingSeq == db.leaseSeq
    ensures LeaseInv(db.subtasks, db.leases, db.leaseSeq, db.leaseSeq) && CountInv(db.agents, db.leases)
  {}

  lemma RetireKeeps(db: DB, l: string, to: LeaseState)
    requires Inv(db) && l in db.leases && db.leases[l].state == LActive && to != LActive
    requires db.leases[l].subtask in db.subtasks
    requires db.subtasks[db.leases[l].subtask].lease == l ==> !Engaged(db.subtasks[db.leases[l].subtask])
    ensures var d := Retire(db, l, to); Inv(d) && Grows(db, d)
  {
    LeaseParts(db);
    hide Inv, Grows, LeaseInv, CountInv, LaterLeases, NewerTokens, Decremented;
    var lease := db.leases[l].(state := to);
    RetireKeepsLeases(db.subtasks, db.leases, db.fencingSeq, db.leaseSeq, l, to);
    RetireKeepsCounts(db.agents, db.leases, l, to);
    LaterUpdate(db.leases, db.fencingSeq, l, lease);
    LeasePartKeeps(db, Decremented(db.agents, db.leases[l].agent), db.leases[l := lease], db.contexts, db.leaseSeq);
  }

  /** Storing a lease whose parts are known to fit. */
  lemma GrantFits(db: DB, lease: Lease, pkg: ContextPackage)
    requires Inv(db) && lease.id !in db.leases && lease.token == db.fencingSeq + 1
    requires LeaseInv(db.subtasks, db.leases[lease.id := lease], db.leaseSeq + 1, db.leaseSeq + 1)
    requires CountInv(Incremented(db.agents, lease.agent), db.leases[lease.id := lease])
    ensures Inv(Grant(db, lease, pkg)) && Grows(db, Grant(db, lease, pkg))
  {
    hide Inv, Grows, LeaseInv, CountInv, LaterLeases, NewerTokens, Incremented;
    LeaseParts(db);
    LaterUpdate(db.leases, db.fencingSeq, lease.id, lease);
    LeasePartKeeps(db, Incremented(db.agents, lease.agent), db.leases[lease.id := lease],
                   db.contexts[lease.id := pkg], db.leaseSeq + 1);
  }

  lemma GrantKeeps(db: DB, lease: Lease, pkg: ContextPackage)
    requires Inv(db) && db.leaseSeq < LEASE_SPACE
    requires lease.id == LeaseId(db.leaseSeq + 1) && lease.token == db.fencingSeq + 1 && lease.state == LActive
    requires lease.subtask in db.subtasks && !ActivelyLeased(db.leases, lease.subtask)
    ensures Inv(Grant(db, lease, pkg)) && Grows(db, Grant(db, lease, pkg))
  {
    hide *;
    LeaseParts(db);
    FreshLease(db.subtasks, db.leases, db.leaseSeq);
    GrantKeepsLeases(db.subtasks, db.leases, db.leaseSeq, lease);
    GrantKeepsCounts(db.agents, db.leases, lease);
    GrantFits(db, lease, pkg);
  }

  lemma ExpiryKeepsInv(db: DB, l: string, expires: int)
    requires Inv(db) && l in db.leases
    ensures var d := db.(leases := db.leases[l := db.leases[l].(expires := expires)]); Inv(d) && Grows(db, d)
  {
    hide EventInv, LeaseInv, CountInv, LedgerInv, OwnerInv, TreeInv, BoardInv, MissionInv;
    ExpiryKeeps(db.subtasks, db.agents, db.leases, db.fencingSeq, db.leaseSeq, l, expires);
  }

  /** Only accounts, holds and the log change, by one ledger event. */
  ghost predicate LedgerEntry(db: DB, d: DB) {
    && |d.events| == |db.events| + 1 && d.events[..|db.events|] == db.events
    && d.events[|db.events|].typ.Ledger() && d.events[|db.events|].number == db.eventSeq + 1
    && d.budgets.Keys == db.budgets.Keys && d.holds.Keys == db.holds.Keys
    && (forall k :: k in db.holds ==> d.holds[k].mission == db.holds[k].mission)
    && d == db.(budgets := d.budgets, holds := d.holds, events := d.events, eventSeq := db.eventSeq + 1)
  }

  ghost predicate LedgerStep(db: DB, d: DB) { d == db || LedgerEntry(db, d) }

  lemma HoldersKeep(subtasks: map<string, Subtask>, holds: map<string, Hold>, holds': map<string, Hold>,
                    missions: map<string, Mission>, budgets: map<string, Account>, budgets': map<string, Account>)
    requires OwnerInv(subtasks, holds) && MissionInv(missions, budgets, subtasks)
    requires holds'.Keys == holds.Keys && budgets'.Keys == budgets.Keys
    requires forall k :: k in holds ==> holds'[k].mission == holds[k].mission
    ensures OwnerInv(subtasks, holds') && MissionInv(missions, budgets', subtasks)
  {}

  /** Ledger events are about no subtask's life cycle. */
  lemma LedgerEntryKeepsEvents(db: DB, d: DB)
    requires Inv(db) && LedgerEntry(db, d)
    ensures EventInv(d.subtasks, d.events, d.eventSeq) && db.events <= d.events
  {
    Sequences(db);
    hide EventInv, LeaseInv, CountInv, LedgerInv, OwnerInv, TreeInv, BoardInv, MissionInv;
    var e := d.events[|db.events|];
    assert d.events == db.events + [e];
    LogKeepsEvents(db, e.aggregate, e.mission, e.typ, e.payload, e.actor, e.ts);
  }

  lemma LedgerEntryKeeps(db: DB, d: DB)
    requires Inv(db) && LedgerEntry(db, d) && LedgerInv(d.budgets, d.holds, d.events)
    ensures Inv(d) && Grows(db, d)
  {
    hide EventInv, LeaseInv, CountInv, LedgerInv, OwnerInv, TreeInv, BoardInv, MissionInv;
    LedgerEntryKeepsEvents(db, d);
    HoldersKeep(db.subtasks, db.holds, d.holds, db.missions, db.budgets, d.budgets);
  }

  lemma LedgerStepKeeps(db: DB, d: DB)
    requires Inv(db) && LedgerStep(db, d) && LedgerInv(d.budgets, d.holds, d.events)
    ensures Inv(d) && Grows(db, d)
  {
    hide Inv, Grows;
    if d == db {
      GrowsReflexive(db);
    } else {
      LedgerEntryKeeps(db, d);
    }
  }

  lemma ReleaseIsLedgerStep(db: DB, sub: Subtask, reason: string, actor: Actor, now: int)
    ensures LedgerStep(db, ReleaseHold(db, sub, reason, actor, now))
  {}

  lemma SettleIsLedgerStep(db: DB, sub: Subtask, usage: int, actor: Actor, now: int)
    requires SettleHold(db, sub, usage, actor, now).Ok?
    ensures LedgerStep(db, SettleHold(db, sub, usage, actor, now).value)
  {}

  lemma ReleaseKeeps(db: DB, sub: Subtask, reason: string, actor: Actor, now: int)
    requires Inv(db) && sub.id in db.subtasks && sub.spec == db.subtasks[sub.id].spec
    ensures var d := ReleaseHold(db, sub, reason, actor, now); Inv(d) && Grows(db, d) && LedgerStep(db, d)
  {
    SubtaskFacts(db, sub.id);
    hide EventInv, LeaseInv, CountInv, LedgerInv, OwnerInv, TreeInv, BoardInv, MissionInv;
    ReleaseKeepsLedger(db, sub, reason, actor, now);
    ReleaseIsLedgerStep(db, sub, reason, actor, now);
    LedgerStepKeeps(db, ReleaseHold(db, sub, reason, actor, now));
  }

  lemma SettleKeeps(db: DB, sub: Subtask, usage: int, actor: Actor, now: int)
    requires Inv(db) && sub.id in db.subtasks && sub.spec == db.subtasks[sub.id].spec
    requires SettleHold(db, sub, usage, actor, now).Ok?
    ensures var d := SettleHold(db, sub, usage, actor, now).value; Inv(d) && Grows(db, d) && LedgerStep(db, d)
  {
    SubtaskFacts(db, sub.id);
    hide EventInv, LeaseInv, CountInv, LedgerInv, OwnerInv, TreeInv, BoardInv, MissionInv;
    SettleKeepsLedger(db, sub, usage, actor, now);
    SettleIsLedgerStep(db, sub, usage, actor, now);
    LedgerStepKeeps(db, SettleHold(db, sub, usage, actor, now).value);
  }
}
