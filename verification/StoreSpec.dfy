/** What each atomic operation of internal/store/memory/memory.go does to the store state.
    Every operation is a short chain of the primitives below. Folds over a Go map take the iteration
    order as an argument and apply its last element last. */
module StoreSpec {
  import opened Basics
  import opened StateMachine
  import opened Permissions
  import opened Records

  type Json0 = map<string, Json>

  // ---- primitives ----

  /** appendEventLocked */
  ghost function Log(db: DB, aggregate: string, mission: string, typ: EventType, payload: Payload,
                     actor: Actor, now: int): DB
  {
    db.(eventSeq := db.eventSeq + 1,
        events := db.events + [Event(db.eventSeq + 1, aggregate, mission, typ, payload, actor, now)])
  }

  /** Stores the moved subtask and logs the life-cycle event that moved it. */
  ghost function Move(db: DB, sub: Subtask, ev: EventType, extra: Json0, actor: Actor, now: int): DB {
    Log(db.(subtasks := db.subtasks[sub.id := sub]), sub.id, sub.spec.mission, ev,
        Moved(sub.state, extra), actor, now)
  }

  ghost function AddSubtask(db: DB, sub: Subtask, extra: Json0, actor: Actor, now: int): DB {
    Log(db.(subtasks := db.subtasks[sub.id := sub]), sub.id, sub.spec.mission, EvCreated,
        Plain(extra), actor, now)
  }

  /** The agent's counter is decremented only when it is positive. */
  ghost function Decremented(agents: map<string, Agent>, id: string): map<string, Agent> {
    if id in agents && agents[id].running > 0
    then agents[id := agents[id].(running := agents[id].running - 1)] else agents
  }

  ghost function Incremented(agents: map<string, Agent>, id: string): map<string, Agent> {
    if id in agents then agents[id := agents[id].(running := agents[id].running + 1)] else agents
  }

  /** An ACTIVE lease leaves that state for good. */
  ghost function Retire(db: DB, id: string, to: LeaseState): DB {
    if id !in db.leases then db
    else db.(leases := db.leases[id := db.leases[id].(state := to)],
        agents := Decremented(db.agents, db.leases[id].agent))
  }

  ghost function Grant(db: DB, lease: Lease, pkg: ContextPackage): DB {
    db.(fencingSeq := db.fencingSeq + 1, leaseSeq := db.leaseSeq + 1,
        leases := db.leases[lease.id := lease],
        contexts := db.contexts[lease.id := pkg],
        agents := Incremented(db.agents, lease.agent))
  }

  ghost function Balanced(a: Account): Account {
    a.(available := a.total - a.held - a.spent, version := a.version + 1)
  }

  ghost function ReserveHold(db: DB, child: Subtask, amount: int, actor: Actor, now: int): DB {
    var m := child.spec.mission;
    if m !in db.budgets then db else
    var account := Balanced(db.budgets[m].(held := db.budgets[m].held + amount));
    Log(db.(budgets := db.budgets[m := account],
            holds := db.holds[child.id := Hold(m, child.id, child.attempt, amount, 0, HHeld)]),
        child.id, m, EvBudgetHeld, Held(amount, account.available), actor, now)
  }

  ghost predicate HasHold(db: DB, id: string) { id in db.holds && db.holds[id].status == HHeld }

  ghost function SettleHold(db: DB, sub: Subtask, usage: int, actor: Actor, now: int): Result<DB> {
    if !HasHold(db, sub.id) then Ok(db)
    else if usage < 0 then Err(BudgetExceeded)
    else if sub.spec.mission !in db.budgets then Err(Conflict)
    else
      var m, hold := sub.spec.mission, db.holds[sub.id];
      var account := db.budgets[m];
      var otherHeld := account.held - hold.amount;
      if otherHeld < 0 || usage > account.total - account.spent - otherHeld then Err(BudgetExceeded)
      else
        var account' := Balanced(account.(held := otherHeld, spent := account.spent + usage));
        Ok(Log(db.(budgets := db.budgets[m := account'],
                   holds := db.holds[sub.id := hold.(actual := usage, status := HSettled)]),
               sub.id, m, EvBudgetSettled, Settled(hold.amount, usage, account'.available), actor, now))
  }

  ghost function ReleaseHold(db: DB, sub: Subtask, reason: string, actor: Actor, now: int): DB {
    if !HasHold(db, sub.id) || sub.spec.mission !in db.budgets then db
    else
      var m, hold := sub.spec.mission, db.holds[sub.id];
      var account := Balanced(db.budgets[m].(held := db.budgets[m].held - hold.amount));
      Log(db.(budgets := db.budgets[m := account],
              holds := db.holds[sub.id := hold.(status := HReleased)]),
          sub.id, m, EvBudgetReleased, Released(hold.amount, reason, account.available), actor, now)
  }

  // ---- missions and raw transitions ----

  ghost function AddSubtasks(db: DB, subs: seq<Subtask>, actor: Actor, now: int): DB {
    if subs == [] then db
    else AddSubtask(AddSubtasks(db, subs[..|subs| - 1], actor, now), subs[|subs| - 1], Birth(subs[|subs| - 1]), actor, now)
  }

  function Birth(sub: Subtask): Json0 { map["kind" := JStr(KindName(sub.spec.kind))] }

  ghost function OpenMission(db: DB, m: Mission, actor: Actor, now: int): DB {
    Log(db.(missions := db.missions[m.id := m],
            budgets := if m.budget > 0 then db.budgets[m.id := Account(m.budget, 0, 0, m.budget, 0)]
                       else db.budgets),
        m.id, m.id, Other("mission.created"),
        Plain(map["goal" := JStr(m.goal), "owner" := JStr(m.owner), "budget_tokens" := JInt(m.budget)]),
        actor, now)
  }

  ghost function CreateMission(db: DB, m: Mission, subs: seq<Subtask>, actor: Actor, now: int): (DB, Result<()>) {
    if m.id in db.missions then (db, Err(Conflict))
    else (AddSubtasks(OpenMission(db, m, actor, now), subs, actor, now), Ok(()))
  }

  function StatusEvent(status: MissionStatus): EventType {
    match status
    case MSucceeded => Other("mission.succeeded")
    case MFailed => Other("mission.failed")
    case MCancelled => Other("mission.cancelled")
    case Active => Other("mission.active")
  }

  ghost function SetMissionStatus(db: DB, id: string, status: MissionStatus, expected: int, actor: Actor,
                                  now: int): (DB, Result<()>)
  {
    if id !in db.missions then (db, Err(NotFound))
    else
      var m := db.missions[id];
      if m.version != expected then (db, Err(Conflict))
      else (Log(db.(missions := db.missions[id := m.(status := status, version := m.version + 1)]),
                id, id, StatusEvent(status), Plain(map["status" := JStr(StatusName(status))]), actor, now), Ok(()))
  }

  /** What the service's `mutate` callbacks do. */
  datatype Mutation = NoMutation | RetryMutation | ResultMutation(ref: string)

  function Mutate(sub: Subtask, mut: Mutation): Subtask {
    match mut
    case NoMutation => sub
    case RetryMutation => sub.(attempt := sub.attempt + 1, assignee := "", lease := "")
    case ResultMutation(ref) => sub.(resultRef := ref)
  }

  /** The subtask after a legal event. */
  function Moving(sub: Subtask, next: State): Subtask { sub.(state := next, version := sub.version + 1) }

  ghost function Transition(db: DB, id: string, ev: EventType, expected: int, actor: Actor, extra: Json0,
                            now: int, mut: Mutation): (DB, Result<Subtask>)
  {
    if id !in db.subtasks then (db, Err(NotFound))
    else
      var sub := db.subtasks[id];
      if sub.version != expected || Apply(sub.state, ev).None? then (db, Err(Conflict))
      else
        var sub' := Mutate(Moving(sub, Apply(sub.state, ev).value), mut);
        (Move(db, sub', ev, extra, actor, now), Ok(sub'))
  }

  // ---- agents ----

  ghost function UpsertAgent(db: DB, a: Agent, now: int): DB {
    db.(agents := db.agents[a.id := a.(heartbeat := now)])
  }

  ghost function HeartbeatAgent(db: DB, id: string, now: int): DB {
    if id !in db.agents then db
    else
      var a := db.agents[id];
      db.(agents := db.agents[id := a.(heartbeat := now,
          health := if a.health == "" || a.health == "suspect" then "healthy" else a.health)])
  }

  ghost function MarkAgentHealth(db: DB, id: string, health: string): DB {
    if id !in db.agents then db else db.(agents := db.agents[id := db.agents[id].(health := health)])
  }

  // ---- context packages ----

  predicate Admits(g: BoardGrant, e: BoardEntry) {
    e.ns == g.ns && (g.keys == [] || e.key in g.keys)
  }

  ghost predicate Visible(views: seq<BoardGrant>, mission: string, e: BoardEntry) {
    e.mission == mission && exists g :: g in views && Admits(g, e)
  }

  ghost predicate Writable(views: seq<BoardGrant>, e: BoardEntry) {
    exists g :: g in views && Admits(g, e) && g.mode == READ_WRITE
  }

  /** Every board entry of the mission that some grant admits, once, writable exactly when some
      admitting grant is. */
  ghost function BoardViews(board: map<string, BoardEntry>, mission: string, views: seq<BoardGrant>):
    map<string, ContextView>
  {
    map k | k in board && Visible(views, mission, board[k]) ::
      ContextView(board[k].ns, board[k].key, board[k].value, board[k].version, Writable(views, board[k]))
  }

  ghost function ArtifactsFor(artifacts: map<string, Artifact>, mission: string, refs: seq<string>):
    map<string, Artifact>
  {
    map id | id in artifacts && id in refs && artifacts[id].mission == mission :: artifacts[id]
  }

  ghost function DecisionsFor(decisions: map<string, Decision>, sub: Subtask): map<string, Decision> {
    map id | id in decisions && decisions[id].subtask == sub.id && decisions[id].mission == sub.spec.mission
      :: decisions[id]
  }

  ghost function ContextOf(db: DB, lease: string, sub: Subtask): Option<ContextPackage> {
    var m := sub.spec.mission;
    if Normalize(sub.spec.grants).None? then None
    else Some(ContextPackage(
      lease, sub, ArtifactsFor(db.artifacts, m, sub.spec.grants.artifactRefs),
      BoardViews(db.board, m, sub.spec.grants.views), DecisionsFor(db.decisions, sub),
      if m in db.budgets
      then Some(db.budgets[m].(available := db.budgets[m].total - db.budgets[m].held - db.budgets[m].spent))
      else None))
  }

  // ---- leases ----

  ghost predicate ActivelyLeased(leases: map<string, Lease>, subtask: string) {
    exists l :: l in leases && leases[l].subtask == subtask && leases[l].state == LActive
  }

  ghost function OfferLease(db: DB, id: string, agent: string, expected: int, ttl: int, actor: Actor,
                            now: int): (DB, Result<Lease>)
  {
    if id !in db.subtasks then (db, Err(NotFound))
    else
      var sub := db.subtasks[id];
      if sub.version != expected || Apply(sub.state, EvLeaseOffered).None? || ActivelyLeased(db.leases, id)
      then (db, Err(Conflict))
      else
        var lid := LeaseId(db.leaseSeq + 1);
        var pkg := ContextOf(db, lid, sub);
        if pkg.None? then
          (db.(fencingSeq := db.fencingSeq + 1, leaseSeq := db.leaseSeq + 1), Err(BadEnvelope))
        else
          var lease := Lease(lid, id, agent, db.fencingSeq + 1, now + ttl, LActive, now);
          var sub' := Moving(sub, Offered).(assignee := agent, lease := lid);
          var moved := Move(Grant(db, lease, pkg.value), sub', EvLeaseOffered,
                            map["agent_id" := JStr(agent), "lease_id" := JStr(lid),
                                "fencing_token" := JInt(lease.token)], actor, now);
          (Log(moved, id, sub.spec.mission, Other("context.materialized"),
               Plain(map["lease_id" := JStr(lid)]), System("context-builder"), now), Ok(lease))
  }

  ghost function AcceptLease(db: DB, lid: string, token: int, expected: int, actor: Actor, now: int):
    (DB, Result<Subtask>)
  {
    if lid !in db.leases then (db, Err(NotFound))
    else if db.leases[lid].state != LActive || db.leases[lid].token != token then (db, Err(Fenced))
    else if db.leases[lid].subtask !in db.subtasks then (db, Err(NotFound))
    else
      var sub := db.subtasks[db.leases[lid].subtask];
      if sub.version != expected || Apply(sub.state, EvLeaseAccepted).None? then (db, Err(Conflict))
      else
        var sub' := Moving(sub, Leased);
        (Move(db, sub', EvLeaseAccepted, map["lease_id" := JStr(lid)], actor, now), Ok(sub'))
  }

  ghost function RenewLease(db: DB, lid: string, token: int, ttl: int, now: int): (DB, Result<()>) {
    if lid !in db.leases then (db, Err(NotFound))
    else if db.leases[lid].state != LActive || db.leases[lid].token != token then (db, Err(Fenced))
    else (db.(leases := db.leases[lid := db.leases[lid].(expires := now + ttl)]), Ok(()))
  }

  ghost predicate Expirable(db: DB, lid: string, now: int) {
    && lid in db.leases && db.leases[lid].state == LActive && db.leases[lid].expires <= now
    && db.leases[lid].subtask in db.subtasks
    && (db.subtasks[db.leases[lid].subtask].state == Offered || db.subtasks[db.leases[lid].subtask].state == Leased)
  }

  ghost function ExpireLease(db: DB, lid: string, now: int): DB {
    if !Expirable(db, lid, now) then db
    else
      var sub := db.subtasks[db.leases[lid].subtask];
      Retire(Move(db, Moving(sub, Ready).(assignee := "", lease := ""), EvLeaseExpired,
                  map["lease_id" := JStr(lid)], System("lease-sweeper"), now), lid, LExpired)
  }

  ghost function ExpireLeases(db: DB, order: seq<string>, now: int): DB {
    if order == [] then db
    else ExpireLease(ExpireLeases(db, order[..|order| - 1], now), order[|order| - 1], now)
  }

  // ---- execution callbacks ----

  /** checkFencingLocked: the subtask's own lease, when it is ACTIVE and carries this token. */
  ghost predicate FencingOk(db: DB, sub: Subtask, token: int) {
    && sub.lease != "" && sub.lease in db.leases
    && db.leases[sub.lease].state == LActive && db.leases[sub.lease].token == token
  }

  /** The shared shape of start and block: check version, token and table, then move. */
  ghost function FencedMove(db: DB, id: string, token: int, expected: int, ev: EventType, extra: Json0,
                            actor: Actor, now: int): (DB, Result<Subtask>)
  {
    if id !in db.subtasks then (db, Err(NotFound))
    else
      var sub := db.subtasks[id];
      if sub.version != expected then (db, Err(Conflict))
      else if !FencingOk(db, sub, token) then (db, Err(Fenced))
      else if Apply(sub.state, ev).None? then (db, Err(Conflict))
      else
        var sub' := Moving(sub, Apply(sub.state, ev).value);
        (Move(db, sub', ev, extra, actor, now), Ok(sub'))
  }

  ghost function StartSubtask(db: DB, id: string, token: int, expected: int, actor: Actor, now: int):
    (DB, Result<Subtask>)
  {
    FencedMove(db, id, token, expected, EvStarted,
               if id in db.subtasks then map["attempt" := JInt(db.subtasks[id].attempt)] else map[], actor, now)
  }

  ghost function BlockSubtask(db: DB, id: string, token: int, expected: int, actor: Actor, now: int):
    (DB, Result<Subtask>)
  {
    FencedMove(db, id, token, expected, EvBlocked, map[], actor, now)
  }

  function InboxId(source: string): string { "lin_" + source }

  ghost function Enqueue(db: DB, sub: Subtask, ref: string, now: int): DB {
    var item := InboxId(sub.id);
    if sub.spec.parent == "" || item in db.inbox then db
    else Log(db.(inbox := db.inbox[item := InboxItem(item, sub.spec.mission, sub.spec.parent, sub.id, ref,
                                                     false, "", "", 0)]),
             sub.spec.parent, sub.spec.mission, Other("lead.inbox.enqueued"),
             Plain(map["item_id" := JStr(item), "source_subtask_id" := JStr(sub.id), "result_ref" := JStr(ref)]),
             System("lead-inbox"), now)
  }

  ghost function CompleteSubtask(db: DB, id: string, token: int, key: string, ref: string, usage: int,
                                 expected: int, actor: Actor, now: int): (DB, Result<Subtask>)
  {
    if id !in db.subtasks then (db, Err(NotFound))
    else
      var sub := db.subtasks[id];
      if key in db.idem then (db, Duplicate(sub))
      else if sub.version != expected then (db, Err(Conflict))
      else if !FencingOk(db, sub, token) then (db, Err(Fenced))
      else if Apply(sub.state, EvCompleted).None? then (db, Err(Conflict))
      else
        var settled := SettleHold(db, sub, usage, actor, now);
        if settled.Err? then (db, Err(settled.error))
        else
          var sub' := Moving(sub, Succeeded).(resultRef := ref);
          var keyed := settled.value.(idem := settled.value.idem[key := ref]);
          var moved := Move(keyed, sub', EvCompleted,
                            map["subtask_id" := JStr(id), "result_ref" := JStr(ref)], actor, now);
          (Enqueue(Retire(moved, sub.lease, LReleased), sub', ref, now), Ok(sub'))
  }

  ghost function FailSubtask(db: DB, id: string, token: int, reason: string, expected: int, actor: Actor,
                             now: int): (DB, Result<Subtask>)
  {
    if id !in db.subtasks then (db, Err(NotFound))
    else
      var sub := db.subtasks[id];
      if sub.version != expected then (db, Err(Conflict))
      else if !FencingOk(db, sub, token) then (db, Err(Fenced))
      else if Apply(sub.state, EvFailed).None? then (db, Err(Conflict))
      else
        var sub' := Moving(sub, Failed);
        var freed := if sub.attempt >= sub.spec.maxAttempts
                     then ReleaseHold(db, sub, "final_failure", actor, now) else db;
        (Retire(Move(freed, sub', EvFailed, map["reason" := JStr(reason)], actor, now), sub.lease, LReleased),
         Ok(sub'))
  }

  ghost function CancelSubtask(db: DB, id: string, expected: int, actor: Actor, now: int): (DB, Result<Subtask>) {
    if id !in db.subtasks then (db, Err(NotFound))
    else
      var sub := db.subtasks[id];
      if sub.version != expected || Apply(sub.state, EvCancelled).None? then (db, Err(Conflict))
      else
        var sub' := Moving(sub, Cancelled).(assignee := "", lease := "");
        var moved := Move(ReleaseHold(db, sub, "cancelled", actor, now), sub', EvCancelled, map[], actor, now);
        var active := sub.lease != "" && sub.lease in db.leases && db.leases[sub.lease].state == LActive;
        (if active then Retire(moved, sub.lease, LReleased) else moved, Ok(sub'))
  }

  // ---- delegation ----

  function ChildBirth(child: Subtask, parentId: string): Json0 {
    map["kind" := JStr(KindName(child.spec.kind)), "parent_subtask_id" := JStr(parentId),
        "rework_of" := JStr(child.spec.reworkOf)]
  }

  ghost function SpawnSubtask(db: DB, key: string, parentId: string, token: int, parentVersion: int,
                              child: Subtask, actor: Actor, now: int): (DB, Result<string>)
  {
    if key in db.idem then (db, Duplicate(db.idem[key]))
    else if parentId !in db.subtasks then (db, Err(NotFound))
    else
      var parent := db.subtasks[parentId];
      var m := child.spec.mission;
      if parent.version != parentVersion then (db, Err(Conflict))
      else if !FencingOk(db, parent, token) then (db, Err(Fenced))
      else if db.leases[parent.lease].agent != actor.id || db.leases[parent.lease].expires <= now then
        (db, Err(Fenced))
      else if parent.state != Running then (db, Err(Conflict))
      else if !Subset(parent.spec.grants, child.spec.grants) then (db, Err(PermissionExceeded))
      else if child.id in db.subtasks then (db, Err(Conflict))
      else if m in db.budgets && child.spec.tokens <= 0 then (db, Err(BudgetRequired))
      else if m in db.budgets && db.budgets[m].total - db.budgets[m].held - db.budgets[m].spent < child.spec.tokens
      then (db, Err(BudgetExceeded))
      else
        var born := child.(state := Pending, version := 0);
        var keyed := db.(idem := db.idem[key := child.id]);
        var held := ReserveHold(keyed, child, child.spec.tokens, actor, now);
        var added := AddSubtask(held, born, ChildBirth(child, parentId), actor, now);
        (Move(added, Moving(born, Ready), EvDepsSatisfied, map[], System("orchestrator"), now), Ok(""))
  }

  function Ingestion(item: InboxItem): Json0 {
    map["item_id" := JStr(item.id), "source_subtask_id" := JStr(item.source), "mode" := JStr(item.mode)]
  }

  ghost function IngestLeadInbox(db: DB, item: string, lead: string, token: int, expected: int, mode: string,
                                 actor: Actor, now: int): (DB, Result<InboxItem>)
  {
    if item !in db.inbox || db.inbox[item].lead != lead || lead !in db.subtasks then (db, Err(NotFound))
    else
      var sub, entry := db.subtasks[lead], db.inbox[item];
      if sub.state != Running then (db, Err(Conflict))
      else if !FencingOk(db, sub, token) then (db, Err(Fenced))
      else if db.leases[sub.lease].agent != actor.id || db.leases[sub.lease].expires <= now then (db, Err(Fenced))
      else if entry.ingested || entry.version != expected then (db, Err(Conflict))
      else
        var entry' := entry.(ingested := true, mode := mode, ingestedBy := actor.id, version := entry.version + 1);
        (Log(db.(inbox := db.inbox[item := entry']), lead, sub.spec.mission, Other("lead.inbox.ingested"),
             Plain(Ingestion(entry')), actor, now), Ok(entry'))
  }

  /** A sign of life: the heartbeat is noted and suspicion ends. */
  ghost function Refreshed(agents: map<string, Agent>, id: string, now: int): map<string, Agent> {
    if id in agents
    then agents[id := agents[id].(heartbeat := now,
                                  health := if agents[id].health == "suspect" then "healthy" else agents[id].health)]
    else agents
  }

  ghost function SaveLeadSnapshot(db: DB, lead: string, token: int, expected: int, value: string, ttl: int,
                                  actor: Actor, now: int): (DB, Result<BoardEntry>)
  {
    if lead !in db.subtasks then (db, Err(NotFound))
    else
      var sub := db.subtasks[lead];
      if sub.state != Running then (db, Err(Conflict))
      else if !FencingOk(db, sub, token) then (db, Err(Fenced))
      else if db.leases[sub.lease].agent != actor.id || db.leases[sub.lease].expires <= now then (db, Err(Fenced))
      else
        var k := BoardKey(sub.spec.mission, "lead-plan", lead);
        if (if expected == -1 then k in db.board else k !in db.board || db.board[k].version != expected)
        then (db, Err(Conflict))
        else
          var version := if k in db.board then db.board[k].version + 1 else 0;
          var entry := BoardEntry(sub.spec.mission, "lead-plan", lead, value, version);
          (Log(db.(board := db.board[k := entry], agents := Refreshed(db.agents, actor.id, now),
                   leases := db.leases[sub.lease := db.leases[sub.lease].(expires := now + ttl)]),
               lead, sub.spec.mission, Other("lead.snapshot.saved"), Plain(map["version" := JInt(version)]),
               actor, now), Ok(entry))
  }

  ghost predicate IsLead(db: DB, sub: Subtask) {
    || BoardKey(sub.spec.mission, "lead-plan", sub.id) in db.board
    || exists c :: c in db.subtasks && db.subtasks[c].spec.parent == sub.id
  }

  ghost predicate Stale(db: DB, id: string, now: int) {
    && id in db.subtasks && db.subtasks[id].state == Running && db.subtasks[id].lease != ""
    && db.subtasks[id].lease in db.leases && db.leases[db.subtasks[id].lease].state == LActive
    && db.leases[db.subtasks[id].lease].expires <= now
    && IsLead(db, db.subtasks[id])
  }

  ghost function Suspected(agents: map<string, Agent>, id: string): map<string, Agent> {
    if id in agents && agents[id].health != "down"
    then agents[id := agents[id].(health := "suspect")] else agents
  }

  ghost function TakeoverLead(db: DB, id: string, now: int): DB {
    if !Stale(db, id, now) then db
    else
      var lead := db.subtasks[id];
      var fenced := Retire(Move(db, Moving(lead, Ready).(assignee := "", lease := ""), EvTakeover,
                                map["fenced_lease_id" := JStr(lead.lease), "previous_agent_id" := JStr(lead.assignee)],
                                System("lead-takeover"), now), lead.lease, LFenced);
      fenced.(agents := Suspected(fenced.agents, db.leases[lead.lease].agent))
  }

  ghost function TakeoverStaleLeads(db: DB, order: seq<string>, now: int): DB {
    if order == [] then db
    else TakeoverLead(TakeoverStaleLeads(db, order[..|order| - 1], now), order[|order| - 1], now)
  }

  // ---- suspend and wake ----

  ghost function SuspendSubtask(db: DB, id: string, token: int, expected: int, wake: WakeSpec,
                                checkpoint: string, actor: Actor, now: int): (DB, Result<Subtask>)
  {
    if id !in db.subtasks then (db, Err(NotFound))
    else
      var sub := db.subtasks[id];
      if sub.version != expected then (db, Err(Conflict))
      else if !FencingOk(db, sub, token) then (db, Err(Fenced))
      else if Apply(sub.state, EvSuspended).None? then (db, Err(Conflict))
      else
        var sub' := Moving(sub, Waiting).(assignee := "", lease := "", wake := Some(wake),
                    checkpoint := if checkpoint != "" then checkpoint else sub.checkpoint);
        (Retire(Move(db, sub', EvSuspended, map["wake_kind" := JStr(WakeName(wake.kind))], actor, now), sub.lease, LReleased), Ok(sub'))
  }

  predicate Overdue(sub: Subtask, now: int) {
    sub.wake.Some? && sub.wake.value.deadline.Some? && sub.wake.value.deadline.value <= now
  }

  ghost function WakeSubtask(db: DB, id: string, expected: int, actor: Actor, now: int): (DB, Result<Subtask>) {
    if id !in db.subtasks then (db, Err(NotFound))
    else
      var sub := db.subtasks[id];
      if sub.version != expected || Overdue(sub, now) || Apply(sub.state, EvWoken).None? then (db, Err(Conflict))
      else
        var sub' := Moving(sub, Ready).(wake := None);
        (Move(db, sub', EvWoken, map[], actor, now), Ok(sub'))
  }

  ghost predicate WakeExpired(db: DB, id: string, now: int) {
    id in db.subtasks && db.subtasks[id].state == Waiting && Overdue(db.subtasks[id], now)
  }

  ghost function ExpireWake(db: DB, id: string, now: int): DB {
    if !WakeExpired(db, id, now) then db
    else Move(db, Moving(db.subtasks[id], Failed).(wake := None), EvFailed,
              map["reason" := JStr("wake_timeout")], System("sweeper"), now)
  }

  ghost function ExpireWakes(db: DB, order: seq<string>, now: int): DB {
    if order == [] then db
    else ExpireWake(ExpireWakes(db, order[..|order| - 1], now), order[|order| - 1], now)
  }

  ghost function SaveCheckpoint(db: DB, id: string, token: int, checkpoint: string): (DB, Result<()>) {
    if id !in db.subtasks then (db, Err(NotFound))
    else
      var sub := db.subtasks[id];
      if !FencingOk(db, sub, token) then (db, Err(Fenced))
      else if sub.state != Running && sub.state != Blocked then (db, Err(Conflict))
      else (db.(subtasks := db.subtasks[id := sub.(checkpoint := checkpoint)]), Ok(()))
  }

  // ---- idempotency keys, decisions, board, artifacts, free events ----

  ghost function PutIdempotent(db: DB, key: string, result: string): (DB, Result<string>) {
    if key in db.idem then (db, Duplicate(db.idem[key]))
    else (db.(idem := db.idem[key := result]), Ok(""))
  }

  function Asking(d: Decision): Json0 {
    map["decision_id" := JStr(d.id), "question" := JStr(d.question), "options" := JStrings(d.options)]
  }

  ghost function CreateDecisionAndBlock(db: DB, d: Decision, expected: int, token: Option<int>, actor: Actor,
                                        now: int): (DB, Result<Subtask>)
  {
    if d.id in db.decisions then (db, Err(Conflict))
    else if d.subtask !in db.subtasks then (db, Err(NotFound))
    else
      var sub := db.subtasks[d.subtask];
      if sub.version != expected then (db, Err(Conflict))
      else if token.Some? && !FencingOk(db, sub, token.value) then (db, Err(Fenced))
      else if Apply(sub.state, EvBlocked).None? then (db, Err(Conflict))
      else
        var sub' := Moving(sub, Blocked);
        var moved := Move(db.(decisions := db.decisions[d.id := d.(status := DPending)]), sub', EvBlocked,
                          map["question" := JStr(d.question)], actor, now);
        (Log(moved, d.subtask, d.mission, Other("decision.requested"),
             Plain(Asking(d)), actor, now), Ok(sub'))
  }

  ghost function ResolveDecision(db: DB, id: string, choice: string, rationale: string, decider: string,
                                 now: int): (DB, Result<Decision>)
  {
    if id !in db.decisions then (db, Err(NotFound))
    else if db.decisions[id].status != DPending then (db, Err(Conflict))
    else
      var d := db.decisions[id].(status := DResolved, choice := choice, rationale := rationale, decider := decider);
      (Log(db.(decisions := db.decisions[id := d]), d.subtask, d.mission, Other("decision.resolved"),
           Plain(map["decision_id" := JStr(id), "choice" := JStr(choice), "decider" := JStr(decider)]),
           Actor("human", decider), now), Ok(d))
  }

  function TimedOut(d: Decision): Decision {
    if d.onTimeout == "auto_approve" then d.(status := DResolved, choice := "approve", decider := "system:timeout")
    else if d.onTimeout == "auto_reject" then d.(status := DResolved, choice := "reject", decider := "system:timeout")
    else d.(status := DExpired)
  }

  predicate DecisionDue(d: Decision, now: int) {
    d.status == DPending && d.deadline.Some? && d.deadline.value <= now
  }

  ghost function ExpireDecision(db: DB, id: string, now: int): DB {
    if id !in db.decisions || !DecisionDue(db.decisions[id], now) then db
    else
      var d := TimedOut(db.decisions[id]);
      Log(db.(decisions := db.decisions[id := d]), d.subtask, d.mission, Other("decision.expired"),
          Plain(map["decision_id" := JStr(id), "on_timeout" := JStr(d.onTimeout), "choice" := JStr(d.choice)]),
          System("decision-sweeper"), now)
  }

  ghost function ExpireDecisions(db: DB, order: seq<string>, now: int): DB {
    if order == [] then db
    else ExpireDecision(ExpireDecisions(db, order[..|order| - 1], now), order[|order| - 1], now)
  }

  ghost function BoardPut(db: DB, e: BoardEntry, expected: int): (DB, Result<BoardEntry>) {
    var k := BoardKey(e.mission, e.ns, e.key);
    var current := if k in db.board then db.board[k].version else -1;
    if expected >= 0 && current != expected then (db, Err(Conflict))
    else
      var entry := e.(version := if k in db.board then current + 1 else 0);
      (db.(board := db.board[k := entry]), Ok(entry))
  }

  ghost function PutArtifact(db: DB, a: Artifact, now: int): (DB, Result<()>) {
    if a.id in db.artifacts then (db, Err(Conflict))
    else (Log(db.(artifacts := db.artifacts[a.id := a]), a.producedBy, a.mission, Other("artifact.produced"),
              Plain(map["artifact_id" := JStr(a.id), "size" := JInt(a.size)]), System("artifact-store"), now), Ok(()))
  }
}
