/** internal/store/memory/memory.go: the in-memory store. Every public method runs under one mutex and
    is one atomic step; each is proved to make exactly the step of StoreSpec. Map iteration order is
    free: the sweeps pick any remaining key and report the order they took. */
module MemoryStore {
  import opened Basics
  import opened StateMachine
  import opened Permissions
  import opened Records
  import opened StoreSpec
  import opened StoreOps
  import opened ReadyQueue

  class Store {
    var missions: map<string, Mission>
    var subtasks: map<string, Subtask>
    var agents: map<string, Agent>
    var leases: map<string, Lease>
    var events: seq<Event>
    var idem: map<string, string>
    var decisions: map<string, Decision>
    var board: map<string, BoardEntry>
    var artifacts: map<string, Artifact>
    var leadInbox: map<string, InboxItem>
    var budgets: map<string, Account>
    var budgetHolds: map<string, Hold>
    var contexts: map<string, ContextPackage>
    var eventSeq: nat
    var fencingSeq: nat
    var leaseSeq: nat

    ghost function Db(): DB
      reads this
    {
      DB(missions, subtasks, agents, leases, events, idem, decisions, board, artifacts, leadInbox, budgets,
         budgetHolds, contexts, eventSeq, fencingSeq, leaseSeq)
    }

    constructor ()
      ensures Db() == EMPTY
    {
      missions, subtasks, agents, leases, events, idem := map[], map[], map[], map[], [], map[];
      decisions, board, artifacts, leadInbox := map[], map[], map[], map[];
      budgets, budgetHolds, contexts := map[], map[], map[];
      eventSeq, fencingSeq, leaseSeq := 0, 0, 0;
    }

    method AppendEvent(aggregate: string, mission: string, typ: EventType, payload: Payload, actor: Actor, now: int)
      modifies this`events, this`eventSeq
      ensures Db() == Log(old(Db()), aggregate, mission, typ, payload, actor, now)
    {
      eventSeq := eventSeq + 1;
      events := events + [Event(eventSeq, aggregate, mission, typ, payload, actor, now)];
    }

    // ---- missions ----

    method CreateMission(m: Mission, subs: seq<Subtask>, actor: Actor, now: int) returns (r: Result<()>)
      requires forall i :: 0 <= i < |subs| ==> subs[i].spec.mission == m.id
      modifies this
      ensures (Db(), r) == StoreSpec.CreateMission(old(Db()), m, subs, actor, now)
    {
      if m.id in missions {
        return Err(Conflict);
      }
      missions := missions[m.id := m];
      if m.budget > 0 {
        budgets := budgets[m.id := Account(m.budget, 0, 0, m.budget, 0)];
      }
      AppendEvent(m.id, m.id, Other("mission.created"),
        Plain(map["goal" := JStr(m.goal), "owner" := JStr(m.owner), "budget_tokens" := JInt(m.budget)]), actor, now);
      AddAll(subs, m.id, actor, now);
      r := Ok(());
    }

    method AddAll(subs: seq<Subtask>, mission: string, actor: Actor, now: int)
      requires forall i :: 0 <= i < |subs| ==> subs[i].spec.mission == mission
      modifies this`subtasks, this`events, this`eventSeq
      ensures Db() == AddSubtasks(old(Db()), subs, actor, now)
    {
      for i := 0 to |subs|
        invariant Db() == AddSubtasks(old(Db()), subs[..i], actor, now)
      {
        assert subs[..i + 1][..i] == subs[..i];
        subtasks := subtasks[subs[i].id := subs[i]];
        AppendEvent(subs[i].id, mission, EvCreated, Plain(Birth(subs[i])), actor, now);
      }
      assert subs[..|subs|] == subs;
    }

    /** The mission's subtasks, each once. */
    method ListSubtasks(m: string) returns (out: seq<Subtask>)
      requires OwnKeys(subtasks)
      ensures Listing(out, subtasks, m)
    {
      out := [];
      var todo := subtasks.Keys;
      while todo != {}
        invariant todo <= subtasks.Keys
        invariant forall i :: 0 <= i < |out| ==>
          out[i].id in subtasks && out[i].id !in todo && out[i] == subtasks[out[i].id] && out[i].spec.mission == m
        invariant forall i, j :: 0 <= i < j < |out| ==> out[i].id != out[j].id
        invariant forall id :: id in subtasks && id !in todo && subtasks[id].spec.mission == m ==> Names(out, id)
      {
        var id :| id in todo;
        todo := todo - {id};
        if subtasks[id].spec.mission == m {
          ghost var before := out;
          out := out + [subtasks[id]];
          assert out[|before|].id == id;
          assert forall i :: 0 <= i < |before| ==> out[i] == before[i];
        }
      }
    }

    method ListSubtasksByState(state: State) returns (out: seq<Subtask>)
      requires OwnKeys(subtasks)
      ensures ListingBy(out, subtasks, state)
    {
      out := [];
      var todo := subtasks.Keys;
      while todo != {}
        invariant todo <= subtasks.Keys
        invariant forall i :: 0 <= i < |out| ==>
          out[i].id in subtasks && out[i].id !in todo && out[i] == subtasks[out[i].id] && out[i].state == state
        invariant forall i, j :: 0 <= i < j < |out| ==> out[i].id != out[j].id
        invariant forall id :: id in subtasks && id !in todo && subtasks[id].state == state ==> Names(out, id)
      {
        var id :| id in todo;
        todo := todo - {id};
        if subtasks[id].state == state {
          ghost var before := out;
          out := out + [subtasks[id]];
          assert out[|before|].id == id;
          assert forall i :: 0 <= i < |before| ==> out[i] == before[i];
        }
      }
    }

    /** All agents in the order of their ids. */
    method ListAgents() returns (out: seq<Agent>)
      requires forall a :: a in agents ==> agents[a].id == a
      ensures Roster(out, agents)
    {
      var ids: seq<string> := [];
      var todo := agents.Keys;
      while todo != {}
        invariant todo <= agents.Keys && StrictlySorted(ids)
        invariant forall a :: a in ids <==> a in agents && a !in todo
      {
        var a :| a in todo;
        ids := Permissions.Insert(a, ids);
        todo := todo - {a};
      }
      out := [];
      for i := 0 to |ids|
        invariant |out| == i && forall j :: 0 <= j < i ==> out[j] == agents[ids[j]]
      {
        assert ids[i] in ids;
        out := out + [agents[ids[i]]];
      }
      forall a | a in agents ensures Enrolled(out, a) {
        var i :| 0 <= i < |ids| && ids[i] == a;
        assert out[i].id == a;
      }
    }

    /** The most urgent READY subtasks, at most `limit` of them. */
    method DequeueReady(limit: nat) returns (q: seq<Subtask>)
      requires OwnKeys(subtasks)
      ensures Dequeued(q, ReadyOnes(subtasks), limit)
    {
      var ready := ListSubtasksByState(Ready);
      q := SortReady(ready);
      SortedListing(ready, q, subtasks);
      CutIsDequeued(q, ReadyOnes(subtasks), limit);
      if |q| > limit {
        q := q[..limit];
      }
    }

    /** The WAITING subtasks with a registration of one kind, each once. */
    method ListWaiting(kind: WakeKind) returns (out: seq<Subtask>)
      requires OwnKeys(subtasks)
      ensures ListingWaiting(out, subtasks, kind)
    {
      out := [];
      var todo := subtasks.Keys;
      while todo != {}
        invariant todo <= subtasks.Keys
        invariant forall i :: 0 <= i < |out| ==>
          out[i].id in subtasks && out[i].id !in todo && out[i] == subtasks[out[i].id] && WaitsFor(out[i], kind)
        invariant forall i, j :: 0 <= i < j < |out| ==> out[i].id != out[j].id
        invariant forall id :: id in subtasks && id !in todo && WaitsFor(subtasks[id], kind) ==> Names(out, id)
      {
        var id :| id in todo;
        todo := todo - {id};
        if WaitsFor(subtasks[id], kind) {
          ghost var before := out;
          out := out + [subtasks[id]];
          assert out[|before|].id == id;
          assert forall i :: 0 <= i < |before| ==> out[i] == before[i];
        }
      }
    }

    method SetMissionStatus(id: string, status: MissionStatus, expected: int, actor: Actor, now: int)
      returns (r: Result<()>)
      modifies this`missions, this`events, this`eventSeq
      ensures (Db(), r) == StoreSpec.SetMissionStatus(old(Db()), id, status, expected, actor, now)
    {
      if id !in missions {
        return Err(NotFound);
      }
      var m := missions[id];
      if m.version != expected {
        return Err(Conflict);
      }
      missions := missions[id := m.(status := status, version := m.version + 1)];
      AppendEvent(id, id, StatusEvent(status), Plain(map["status" := JStr(StatusName(status))]), actor, now);
      r := Ok(());
    }

    /** Stores the moved record and logs its event: the tail that all transitions share. */
    method Put(sub: Subtask, ev: EventType, extra: Json0, actor: Actor, now: int)
      modifies this`subtasks, this`events, this`eventSeq
      ensures Db() == Move(old(Db()), sub, ev, extra, actor, now)
    {
      subtasks := subtasks[sub.id := sub];
      AppendEvent(sub.id, sub.spec.mission, ev, Moved(sub.state, extra), actor, now);
    }

    method TransitionSubtask(id: string, ev: EventType, expected: int, actor: Actor, extra: Json0, now: int,
                             mut: Mutation) returns (r: Result<Subtask>)
      modifies this`subtasks, this`events, this`eventSeq
      ensures (Db(), r) == Transition(old(Db()), id, ev, expected, actor, extra, now, mut)
    {
      hide Apply, Mutate, Move, Moving;
      if id !in subtasks {
        return Err(NotFound);
      }
      var sub := subtasks[id];
      if sub.version != expected {
        return Err(Conflict);
      }
      var next := Apply(sub.state, ev);
      if next.None? {
        return Err(Conflict);
      }
      sub := Mutate(Moving(sub, next.value), mut);
      r := Ok(sub);
      assert (Move(Db(), sub, ev, extra, actor, now), r) == Transition(old(Db()), id, ev, expected, actor, extra, now, mut);
      Put(sub, ev, extra, actor, now);
    }

    // ---- agents ----

    method UpsertAgent(a: Agent, now: int)
      modifies this`agents
      ensures Db() == StoreSpec.UpsertAgent(old(Db()), a, now)
    {
      agents := agents[a.id := a.(heartbeat := now)];
    }

    method HeartbeatAgent(id: string, now: int) returns (found: bool)
      modifies this`agents
      ensures Db() == StoreSpec.HeartbeatAgent(old(Db()), id, now) && found == (id in agents)
    {
      if id !in agents {
        return false;
      }
      var a := agents[id].(heartbeat := now);
      if a.health == "" || a.health == "suspect" {
        a := a.(health := "healthy");
      }
      agents := agents[id := a];
      found := true;
    }

    method MarkAgentHealth(id: string, health: string) returns (found: bool)
      modifies this`agents
      ensures Db() == StoreSpec.MarkAgentHealth(old(Db()), id, health) && found == (id in agents)
    {
      found := id in agents;
      if found {
        agents := agents[id := agents[id].(health := health)];
      }
    }

    // ---- context packages ----

    /** The board loop of buildContextPackageLocked: grants outside, entries in any order inside; a
        later grant overwrites a view only to make a read-only one writable. */
    method BoardViewsFor(mission: string, grants: seq<BoardGrant>) returns (views: map<string, ContextView>)
      ensures views == BoardViews(board, mission, grants)
    {
      views := map[];
      for i := 0 to |grants|
        invariant views == BoardViews(board, mission, grants[..i])
      {
        ghost var before := views;
        var todo := board.Keys;
        while todo != {}
          invariant todo <= board.Keys
          invariant forall k :: k in todo ==> (k in views <==> k in before) && (k in views ==> views[k] == before[k])
          invariant forall k :: k in views ==> k in board
          invariant forall k :: k in board && k !in todo ==> (k in views <==> Visible(grants[..i + 1], mission, board[k]))
          invariant forall k :: k in views && k !in todo ==> views[k] == ViewOf(board[k], grants[..i + 1])
        {
          var k :| k in todo;
          var entry := board[k];
          OneMoreGrant(grants, i, mission, entry);
          if entry.mission == mission && Admits(grants[i], entry) {
            var writable := grants[i].mode == READ_WRITE;
            if k !in views || (!views[k].writable && writable) {
              views := views[k := ContextView(entry.ns, entry.key, entry.value, entry.version, writable)];
            }
          }
          todo := todo - {k};
        }
        assert views.Keys == BoardViews(board, mission, grants[..i + 1]).Keys;
      }
      assert grants[..|grants|] == grants;
    }

    method ArtifactsOf(refs: seq<string>, mission: string) returns (found: map<string, Artifact>)
      ensures found == ArtifactsFor(artifacts, mission, refs)
    {
      found := map[];
      for i := 0 to |refs|
        invariant found == ArtifactsFor(artifacts, mission, refs[..i])
      {
        assert refs[..i + 1] == refs[..i] + [refs[i]];
        if refs[i] in artifacts && artifacts[refs[i]].mission == mission {
          found := found[refs[i] := artifacts[refs[i]]];
        }
        assert found.Keys == ArtifactsFor(artifacts, mission, refs[..i + 1]).Keys;
      }
      assert refs[..|refs|] == refs;
    }

    method DecisionsOf(sub: Subtask) returns (found: map<string, Decision>)
      ensures found == DecisionsFor(decisions, sub)
    {
      found := map[];
      var todo := decisions.Keys;
      while todo != {}
        invariant todo <= decisions.Keys
        invariant forall id :: id in found <==>
          id in decisions && id !in todo && decisions[id].subtask == sub.id && decisions[id].mission == sub.spec.mission
        invariant forall id :: id in found ==> found[id] == decisions[id]
      {
        var id :| id in todo;
        if decisions[id].mission == sub.spec.mission && decisions[id].subtask == sub.id {
          found := found[id := decisions[id]];
        }
        todo := todo - {id};
      }
      assert found.Keys == DecisionsFor(decisions, sub).Keys;
    }

    method BuildContextPackage(lease: string, sub: Subtask) returns (pkg: Option<ContextPackage>)
      ensures pkg == ContextOf(Db(), lease, sub)
    {
      hide BoardViews, ArtifactsFor, DecisionsFor, Normalize;
      var mission := sub.spec.mission;
      var found := ArtifactsOf(sub.spec.grants.artifactRefs, mission);
      var views := BoardViewsFor(mission, sub.spec.grants.views);
      var digest := DecisionsOf(sub);
      var budget := None;
      if mission in budgets {
        var a := budgets[mission];
        budget := Some(a.(available := a.total - a.held - a.spent));
      }
      if Normalize(sub.spec.grants).None? {
        return None;
      }
      pkg := Some(ContextPackage(lease, sub, found, views, digest, budget));
    }

    // ---- leases ----

    method HasActiveLease(id: string) returns (found: bool)
      ensures found <==> ActivelyLeased(leases, id)
    {
      var todo := leases.Keys;
      while todo != {}
        invariant todo <= leases.Keys
        invariant forall l :: l in leases && l !in todo ==> !(leases[l].subtask == id && leases[l].state == LActive)
      {
        var l :| l in todo;
        if leases[l].subtask == id && leases[l].state == LActive {
          return true;
        }
        todo := todo - {l};
      }
      found := false;
    }

    method OfferLease(id: string, agent: string, expected: int, ttl: int, actor: Actor, now: int)
      returns (r: Result<Lease>)
      modifies this
      ensures (Db(), r) == StoreSpec.OfferLease(old(Db()), id, agent, expected, ttl, actor, now)
    {
      hide Apply, LeaseId, ContextOf, ActivelyLeased, Move, Log;
      if id !in subtasks {
        return Err(NotFound);
      }
      var sub := subtasks[id];
      if sub.version != expected {
        return Err(Conflict);
      }
      if Apply(sub.state, EvLeaseOffered).None? {
        return Err(Conflict);
      }
      var leased := HasActiveLease(id);
      if leased {
        return Err(Conflict);
      }
      ghost var db := Db();
      ContextIgnoresSequences(db, LeaseId(leaseSeq + 1), sub);
      fencingSeq := fencingSeq + 1;
      leaseSeq := leaseSeq + 1;
      var lid := LeaseIdBuffer(leaseSeq);
      var lease := Lease(lid, id, agent, fencingSeq, now + ttl, LActive, now);
      var pkg := BuildContextPackage(lid, sub);
      if pkg.None? {
        return Err(BadEnvelope);
      }
      r := Ok(lease);
      sub := Moving(sub, Offered).(assignee := agent, lease := lid);
      var extra := map["agent_id" := JStr(agent), "lease_id" := JStr(lid), "fencing_token" := JInt(lease.token)];
      assert StoreSpec.OfferLease(db, id, agent, expected, ttl, actor, now)
          == (Log(Move(Grant(db, lease, pkg.value), sub, EvLeaseOffered, extra, actor, now), id, sub.spec.mission,
                  Other("context.materialized"), Plain(map["lease_id" := JStr(lid)]), System("context-builder"), now), r);
      hide StoreSpec.OfferLease;
      assert Grant(db, lease, pkg.value) == Issued(Db(), lease, pkg.value);
      StoreLease(lease, pkg.value);
      Put(sub, EvLeaseOffered, extra, actor, now);
      AppendEvent(id, sub.spec.mission, Other("context.materialized"), Plain(map["lease_id" := JStr(lid)]),
                  System("context-builder"), now);
    }

    method StoreLease(lease: Lease, pkg: ContextPackage)
      modifies this`leases, this`contexts, this`agents
      ensures Db() == Issued(old(Db()), lease, pkg)
    {
      leases := leases[lease.id := lease];
      contexts := contexts[lease.id := pkg];
      if lease.agent in agents {
        var a := agents[lease.agent];
        agents := agents[lease.agent := a.(running := a.running + 1)];
      }
    }

    method AcceptLease(lid: string, token: int, expected: int, actor: Actor, now: int) returns (r: Result<Subtask>)
      modifies this`subtasks, this`events, this`eventSeq
      ensures (Db(), r) == StoreSpec.AcceptLease(old(Db()), lid, token, expected, actor, now)
    {
      hide Apply, Move;
      if lid !in leases {
        return Err(NotFound);
      }
      var l := leases[lid];
      if l.state != LActive || l.token != token {
        return Err(Fenced);
      }
      if l.subtask !in subtasks {
        return Err(NotFound);
      }
      var sub := subtasks[l.subtask];
      if sub.version != expected {
        return Err(Conflict);
      }
      if Apply(sub.state, EvLeaseAccepted).None? {
        return Err(Conflict);
      }
      sub := Moving(sub, Leased);
      r := Ok(sub);
      assert (Move(Db(), sub, EvLeaseAccepted, map["lease_id" := JStr(lid)], actor, now), r)
          == StoreSpec.AcceptLease(Db(), lid, token, expected, actor, now);
      Put(sub, EvLeaseAccepted, map["lease_id" := JStr(lid)], actor, now);
    }

    method RenewLease(lid: string, token: int, ttl: int, now: int) returns (r: Result<()>)
      modifies this`leases
      ensures (Db(), r) == StoreSpec.RenewLease(old(Db()), lid, token, ttl, now)
    {
      if lid !in leases {
        return Err(NotFound);
      }
      if leases[lid].state != LActive || leases[lid].token != token {
        return Err(Fenced);
      }
      leases := leases[lid := leases[lid].(expires := now + ttl)];
      r := Ok(());
    }

    /** releaseLeaseLocked, and the same two effects where the sweepers write them out. */
    method RetireLease(lid: string, to: LeaseState)
      modifies this`leases, this`agents
      ensures Db() == Retire(old(Db()), lid, to)
    {
      if lid !in leases {
        return;
      }
      var l := leases[lid];
      leases := leases[lid := l.(state := to)];
      if l.agent in agents && agents[l.agent].running > 0 {
        agents := agents[l.agent := agents[l.agent].(running := agents[l.agent].running - 1)];
      }
    }

    /** The body of the sweep for one lease. */
    method ExpireOne(lid: string, now: int) returns (n: nat)
      modifies this`subtasks, this`events, this`eventSeq, this`leases, this`agents
      ensures Db() == ExpireLease(old(Db()), lid, now) && leases.Keys == old(leases.Keys)
      ensures n == eventSeq - old(eventSeq)
    {
      hide Move, Decremented;
      if lid !in leases || leases[lid].state != LActive || leases[lid].expires > now {
        return 0;
      }
      var l := leases[lid];
      if l.subtask !in subtasks || (subtasks[l.subtask].state != Offered && subtasks[l.subtask].state != Leased) {
        return 0;
      }
      var sub := Moving(subtasks[l.subtask], Ready).(assignee := "", lease := "");
      MoveTouches(Db(), sub, EvLeaseExpired, map["lease_id" := JStr(lid)], System("lease-sweeper"), now);
      Put(sub, EvLeaseExpired, map["lease_id" := JStr(lid)], System("lease-sweeper"), now);
      RetireLease(lid, LExpired);
      n := 1;
    }

    /** Every lease is visited once, in some order; n is the number of leases expired, one event each. */
    method ExpireLeases(now: int) returns (n: nat, ghost order: seq<string>)
      modifies this`subtasks, this`events, this`eventSeq, this`leases, this`agents
      ensures Lists(order, old(leases.Keys)) && Db() == StoreSpec.ExpireLeases(old(Db()), order, now)
      ensures n == eventSeq - old(eventSeq)
    {
      n, order := 0, [];
      var todo := leases.Keys;
      while todo != {}
        invariant leases.Keys == old(leases.Keys) && todo <= leases.Keys && Lists(order, leases.Keys - todo)
        invariant Db() == StoreSpec.ExpireLeases(old(Db()), order, now) && n == eventSeq - old(eventSeq)
      {
        hide ExpireLease, Expirable, Lists;
        var lid :| lid in todo;
        ListsMore(order, leases.Keys, todo, lid);
        var more := ExpireOne(lid, now);
        order := order + [lid];
        assert order[..|order| - 1] + [lid] == order;
        todo := todo - {lid};
        n := n + more;
      }
      assert leases.Keys - todo == leases.Keys;
    }

    // ---- execution callbacks ----

    /** checkFencingLocked: the subtask's own ACTIVE lease carrying this token, or nothing. */
    method CheckFencing(sub: Subtask, token: int) returns (l: Option<Lease>)
      ensures l.Some? <==> FencingOk(Db(), sub, token)
      ensures l.Some? ==> l.value == leases[sub.lease]
    {
      if sub.lease == "" || sub.lease !in leases {
        return None;
      }
      if leases[sub.lease].state != LActive || leases[sub.lease].token != token {
        return None;
      }
      l := Some(leases[sub.lease]);
    }

    /** StartSubtask and BlockSubtask differ in the event alone. */
    method FencedTransition(id: string, token: int, expected: int, ev: EventType, extra: Json0, actor: Actor, now: int)
      returns (r: Result<Subtask>)
      modifies this`subtasks, this`events, this`eventSeq
      ensures (Db(), r) == FencedMove(old(Db()), id, token, expected, ev, extra, actor, now)
    {
      hide Apply, Move, FencingOk;
      if id !in subtasks {
        return Err(NotFound);
      }
      var sub := subtasks[id];
      if sub.version != expected {
        return Err(Conflict);
      }
      var l := CheckFencing(sub, token);
      if l.None? {
        return Err(Fenced);
      }
      if Apply(sub.state, ev).None? {
        return Err(Conflict);
      }
      sub := Moving(sub, Apply(sub.state, ev).value);
      r := Ok(sub);
      assert (Move(Db(), sub, ev, extra, actor, now), r) == FencedMove(Db(), id, token, expected, ev, extra, actor, now);
      Put(sub, ev, extra, actor, now);
    }

    method StartSubtask(id: string, token: int, expected: int, actor: Actor, now: int) returns (r: Result<Subtask>)
      modifies this`subtasks, this`events, this`eventSeq
      ensures (Db(), r) == StoreSpec.StartSubtask(old(Db()), id, token, expected, actor, now)
    {
      hide FencedMove;
      var extra: Json0 := if id in subtasks then map["attempt" := JInt(subtasks[id].attempt)] else map[];
      r := FencedTransition(id, token, expected, EvStarted, extra, actor, now);
    }

    method BlockSubtask(id: string, token: int, expected: int, actor: Actor, now: int) returns (r: Result<Subtask>)
      modifies this`subtasks, this`events, this`eventSeq
      ensures (Db(), r) == StoreSpec.BlockSubtask(old(Db()), id, token, expected, actor, now)
    {
      hide FencedMove;
      r := FencedTransition(id, token, expected, EvBlocked, map[], actor, now);
    }

    method SettleBudgetHold(sub: Subtask, usage: int, actor: Actor, now: int) returns (r: Result<()>)
      modifies this`budgets, this`budgetHolds, this`events, this`eventSeq
      ensures match SettleHold(old(Db()), sub, usage, actor, now)
              case Ok(d) => r == Ok(()) && Db() == d
              case Err(e) => r == Err(e) && Db() == old(Db())
              case Duplicate(_) => false
    {
      if sub.id !in budgetHolds || budgetHolds[sub.id].status != HHeld {
        return Ok(());
      }
      if usage < 0 {
        return Err(BudgetExceeded);
      }
      if sub.spec.mission !in budgets {
        return Err(Conflict);
      }
      var hold, account := budgetHolds[sub.id], budgets[sub.spec.mission];
      var otherHeld := account.held - hold.amount;
      if otherHeld < 0 || usage > account.total - account.spent - otherHeld {
        return Err(BudgetExceeded);
      }
      account := account.(held := otherHeld, spent := account.spent + usage, version := account.version + 1);
      account := account.(available := account.total - account.held - account.spent);
      budgets := budgets[sub.spec.mission := account];
      budgetHolds := budgetHolds[sub.id := hold.(actual := usage, status := HSettled)];
      AppendEvent(sub.id, sub.spec.mission, EvBudgetSettled, Settled(hold.amount, usage, account.available), actor,
                  now);
      r := Ok(());
    }

    method ReleaseBudgetHold(sub: Subtask, reason: string, actor: Actor, now: int)
      modifies this`budgets, this`budgetHolds, this`events, this`eventSeq
      ensures Db() == ReleaseHold(old(Db()), sub, reason, actor, now)
    {
      if sub.id !in budgetHolds || budgetHolds[sub.id].status != HHeld || sub.spec.mission !in budgets {
        return;
      }
      var hold, account := budgetHolds[sub.id], budgets[sub.spec.mission];
      account := account.(held := account.held - hold.amount, version := account.version + 1);
      account := account.(available := account.total - account.held - account.spent);
      budgets := budgets[sub.spec.mission := account];
      budgetHolds := budgetHolds[sub.id := hold.(status := HReleased)];
      AppendEvent(sub.id, sub.spec.mission, EvBudgetReleased, Released(hold.amount, reason, account.available), actor,
                  now);
    }

    method EnqueueResult(sub: Subtask, ref: string, now: int)
      modifies this`leadInbox, this`events, this`eventSeq
      ensures Db() == Enqueue(old(Db()), sub, ref, now)
    {
      var item := InboxId(sub.id);
      if sub.spec.parent == "" || item in leadInbox {
        return;
      }
      leadInbox := leadInbox[item := InboxItem(item, sub.spec.mission, sub.spec.parent, sub.id, ref, false, "", "", 0)];
      AppendEvent(sub.spec.parent, sub.spec.mission, Other("lead.inbox.enqueued"),
        Plain(map["item_id" := JStr(item), "source_subtask_id" := JStr(sub.id), "result_ref" := JStr(ref)]),
        System("lead-inbox"), now);
    }

    method PutKey(key: string, value: string)
      modifies this`idem
      ensures Db() == old(Db()).(idem := old(idem)[key := value])
    {
      idem := idem[key := value];
    }

    method CompleteSubtask(id: string, token: int, key: string, ref: string, usage: int, expected: int, actor: Actor,
                           now: int) returns (r: Result<Subtask>)
      modifies this
      ensures (Db(), r) == StoreSpec.CompleteSubtask(old(Db()), id, token, key, ref, usage, expected, actor, now)
    {
      hide Apply, Move, FencingOk, SettleHold, Retire, Enqueue;
      if id !in subtasks {
        return Err(NotFound);
      }
      var sub := subtasks[id];
      if key in idem {
        return Duplicate(sub);
      }
      if sub.version != expected {
        return Err(Conflict);
      }
      var l := CheckFencing(sub, token);
      if l.None? {
        return Err(Fenced);
      }
      if Apply(sub.state, EvCompleted).None? {
        return Err(Conflict);
      }
      ghost var settledDb := SettleHold(Db(), sub, usage, actor, now);
      var done := Moving(sub, Succeeded).(resultRef := ref);
      var extra := map["subtask_id" := JStr(id), "result_ref" := JStr(ref)];
      assert StoreSpec.CompleteSubtask(Db(), id, token, key, ref, usage, expected, actor, now)
          == if settledDb.Err? then (Db(), Err(settledDb.error)) else
             (Enqueue(Retire(Move(settledDb.value.(idem := settledDb.value.idem[key := ref]), done, EvCompleted, extra,
                                  actor, now), sub.lease, LReleased), done, ref, now), Ok(done));
      hide StoreSpec.CompleteSubtask;
      var settled := SettleBudgetHold(sub, usage, actor, now);
      if settled.Err? {
        return Err(settled.error);
      }
      PutKey(key, ref);
      Put(done, EvCompleted, extra, actor, now);
      RetireLease(sub.lease, LReleased);
      EnqueueResult(done, ref, now);
      r := Ok(done);
    }

    method FailSubtask(id: string, token: int, reason: string, expected: int, actor: Actor, now: int)
      returns (r: Result<Subtask>)
      modifies this
      ensures (Db(), r) == StoreSpec.FailSubtask(old(Db()), id, token, reason, expected, actor, now)
    {
      hide Apply, Move, FencingOk, ReleaseHold, Retire;
      if id !in subtasks {
        return Err(NotFound);
      }
      var sub := subtasks[id];
      if sub.version != expected {
        return Err(Conflict);
      }
      var l := CheckFencing(sub, token);
      if l.None? {
        return Err(Fenced);
      }
      if Apply(sub.state, EvFailed).None? {
        return Err(Conflict);
      }
      var last := sub.attempt >= sub.spec.maxAttempts;
      var failed := Moving(sub, Failed);
      var extra := map["reason" := JStr(reason)];
      assert StoreSpec.FailSubtask(Db(), id, token, reason, expected, actor, now)
          == (Retire(Move(if last then ReleaseHold(Db(), sub, "final_failure", actor, now) else Db(), failed, EvFailed,
                          extra, actor, now), sub.lease, LReleased), Ok(failed));
      hide StoreSpec.FailSubtask;
      if last {
        ReleaseBudgetHold(sub, "final_failure", actor, now);
      }
      Put(failed, EvFailed, extra, actor, now);
      RetireLease(sub.lease, LReleased);
      r := Ok(failed);
    }

    method CancelSubtask(id: string, expected: int, actor: Actor, now: int) returns (r: Result<Subtask>)
      modifies this
      ensures (Db(), r) == StoreSpec.CancelSubtask(old(Db()), id, expected, actor, now)
    {
      hide Apply, Move, ReleaseHold, Retire;
      if id !in subtasks {
        return Err(NotFound);
      }
      var sub := subtasks[id];
      if sub.version != expected || Apply(sub.state, EvCancelled).None? {
        return Err(Conflict);
      }
      var active := sub.lease != "" && sub.lease in leases && leases[sub.lease].state == LActive;
      var cancelled := Moving(sub, Cancelled).(assignee := "", lease := "");
      ghost var moved := Move(ReleaseHold(Db(), sub, "cancelled", actor, now), cancelled, EvCancelled, map[], actor,
                              now);
      assert StoreSpec.CancelSubtask(Db(), id, expected, actor, now)
          == (if active then Retire(moved, sub.lease, LReleased) else moved, Ok(cancelled));
      hide StoreSpec.CancelSubtask;
      ReleaseBudgetHold(sub, "cancelled", actor, now);
      Put(cancelled, EvCancelled, map[], actor, now);
      if active {
        RetireLease(sub.lease, LReleased);
      }
      r := Ok(cancelled);
    }

    // ---- delegation ----

    method ReserveBudgetHold(child: Subtask, amount: int, actor: Actor, now: int)
      modifies this`budgets, this`budgetHolds, this`events, this`eventSeq
      ensures Db() == ReserveHold(old(Db()), child, amount, actor, now)
    {
      var m := child.spec.mission;
      if m !in budgets {
        return;
      }
      var account := budgets[m].(held := budgets[m].held + amount, version := budgets[m].version + 1);
      account := account.(available := account.total - account.held - account.spent);
      budgetHolds := budgetHolds[child.id := Hold(m, child.id, child.attempt, amount, 0, HHeld)];
      budgets := budgets[m := account];
      AppendEvent(child.id, m, EvBudgetHeld, Held(amount, account.available), actor, now);
    }

    /** The child is inserted READY at version 1 and its two events follow. */
    method InsertChild(child: Subtask, parentId: string, actor: Actor, now: int)
      modifies this`subtasks, this`events, this`eventSeq
      ensures var born := child.(state := Pending, version := 0);
        Db() == Move(AddSubtask(old(Db()), born, ChildBirth(child, parentId), actor, now), Moving(born, Ready),
                     EvDepsSatisfied, map[], System("orchestrator"), now)
    {
      ghost var born := child.(state := Pending, version := 0);
      var ready := child.(state := Ready, version := 1);
      assert subtasks[child.id := born][child.id := ready] == subtasks[child.id := ready];
      subtasks := subtasks[child.id := ready];
      AppendEvent(child.id, child.spec.mission, EvCreated, Plain(ChildBirth(child, parentId)), actor, now);
      AppendEvent(child.id, child.spec.mission, EvDepsSatisfied, Moved(Ready, map[]), System("orchestrator"), now);
    }

    method SpawnSubtask(key: string, parentId: string, token: int, parentVersion: int, child: Subtask, actor: Actor,
                        now: int) returns (r: Result<string>)
      modifies this
      ensures (Db(), r) == StoreSpec.SpawnSubtask(old(Db()), key, parentId, token, parentVersion, child, actor, now)
    {
      hide Move, FencingOk, ReserveHold, AddSubtask, Permissions.Subset;
      if key in idem {
        return Duplicate(idem[key]);
      }
      if parentId !in subtasks {
        return Err(NotFound);
      }
      var parent, m := subtasks[parentId], child.spec.mission;
      if parent.version != parentVersion {
        return Err(Conflict);
      }
      var l := CheckFencing(parent, token);
      if l.None? {
        return Err(Fenced);
      }
      FencingLease(Db(), parent, token);
      if l.value.agent != actor.id || l.value.expires <= now {
        return Err(Fenced);
      }
      if parent.state != Running {
        return Err(Conflict);
      }
      var within := PermissionEnvelopeSubset(parent.spec.grants, child.spec.grants);
      if !within {
        return Err(PermissionExceeded);
      }
      if child.id in subtasks {
        return Err(Conflict);
      }
      if m in budgets {
        if child.spec.tokens <= 0 {
          return Err(BudgetRequired);
        }
        if budgets[m].total - budgets[m].held - budgets[m].spent < child.spec.tokens {
          return Err(BudgetExceeded);
        }
      }
      r := Ok("");
      ghost var born := child.(state := Pending, version := 0);
      ghost var held := ReserveHold(Db().(idem := idem[key := child.id]), child, child.spec.tokens, actor, now);
      assert StoreSpec.SpawnSubtask(Db(), key, parentId, token, parentVersion, child, actor, now)
          == (Move(AddSubtask(held, born, ChildBirth(child, parentId), actor, now), Moving(born, Ready), EvDepsSatisfied,
                   map[], System("orchestrator"), now), r);
      hide StoreSpec.SpawnSubtask;
      PutKey(key, child.id);
      ReserveBudgetHold(child, child.spec.tokens, actor, now);
      InsertChild(child, parentId, actor, now);
    }

    method CountChildren(parentId: string) returns (n: nat)
      ensures n == |set c | c in subtasks && subtasks[c].spec.parent == parentId|
    {
      n := 0;
      var todo := subtasks.Keys;
      ghost var seen: set<string> := {};
      while todo != {}
        invariant todo <= subtasks.Keys && n == |seen|
        invariant seen == set c | c in subtasks && c !in todo && subtasks[c].spec.parent == parentId
      {
        var c :| c in todo;
        if subtasks[c].spec.parent == parentId {
          n := n + 1;
          seen := seen + {c};
        }
        todo := todo - {c};
      }
      assert seen == set c | c in subtasks && subtasks[c].spec.parent == parentId;
    }

    /** The guard that the lead's callbacks share: RUNNING, fenced, own lease, not expired. */
    method CheckLead(lead: string, token: int, actor: Actor, now: int) returns (e: Option<Error>)
      requires lead in subtasks
      ensures e.None? <==>
        && subtasks[lead].state == Running && FencingOk(Db(), subtasks[lead], token)
        && leases[subtasks[lead].lease].agent == actor.id && leases[subtasks[lead].lease].expires > now
      ensures e.Some? ==> e.value == if subtasks[lead].state != Running then Conflict else Fenced
    {
      if subtasks[lead].state != Running {
        return Some(Conflict);
      }
      var l := CheckFencing(subtasks[lead], token);
      if l.None? || l.value.agent != actor.id || l.value.expires <= now {
        return Some(Fenced);
      }
      e := None;
    }

    method IngestLeadInbox(item: string, lead: string, token: int, expected: int, mode: string, actor: Actor, now: int)
      returns (r: Result<InboxItem>)
      modifies this`leadInbox, this`events, this`eventSeq
      ensures (Db(), r) == StoreSpec.IngestLeadInbox(old(Db()), item, lead, token, expected, mode, actor, now)
    {
      hide FencingOk;
      if item !in leadInbox || leadInbox[item].lead != lead {
        return Err(NotFound);
      }
      if lead !in subtasks {
        return Err(NotFound);
      }
      var e := CheckLead(lead, token, actor, now);
      if e.Some? {
        return Err(e.value);
      }
      var entry := leadInbox[item];
      if entry.ingested || entry.version != expected {
        return Err(Conflict);
      }
      entry := entry.(ingested := true, mode := mode, ingestedBy := actor.id, version := entry.version + 1);
      r := Ok(entry);
      ghost var touched := Db().(inbox := leadInbox[item := entry]);
      assert StoreSpec.IngestLeadInbox(Db(), item, lead, token, expected, mode, actor, now)
          == (Log(touched, lead, subtasks[lead].spec.mission, Other("lead.inbox.ingested"), Plain(Ingestion(entry)),
                  actor, now), r);
      hide StoreSpec.IngestLeadInbox;
      leadInbox := leadInbox[item := entry];
      AppendEvent(lead, subtasks[lead].spec.mission, Other("lead.inbox.ingested"), Plain(Ingestion(entry)), actor, now);
    }

    method SaveLeadSnapshot(lead: string, token: int, expected: int, value: string, ttl: int, actor: Actor, now: int)
      returns (r: Result<BoardEntry>)
      modifies this`board, this`leases, this`agents, this`events, this`eventSeq
      ensures (Db(), r) == StoreSpec.SaveLeadSnapshot(old(Db()), lead, token, expected, value, ttl, actor, now)
    {
      hide FencingOk, BoardKey;
      if lead !in subtasks {
        return Err(NotFound);
      }
      var e := CheckLead(lead, token, actor, now);
      if e.Some? {
        return Err(e.value);
      }
      var sub := subtasks[lead];
      FencingLease(Db(), sub, token);
      var m := sub.spec.mission;
      var k := BoardKey(m, "lead-plan", lead);
      var present := k in board;
      if expected == -1 {
        if present {
          return Err(Conflict);
        }
      } else if !present || board[k].version != expected {
        return Err(Conflict);
      }
      var version := 0;
      if present {
        version := board[k].version + 1;
      }
      var entry := BoardEntry(m, "lead-plan", lead, value, version);
      r := Ok(entry);
      ghost var touched := Db().(board := board[k := entry], agents := Refreshed(agents, actor.id, now),
                                 leases := leases[sub.lease := leases[sub.lease].(expires := now + ttl)]);
      assert StoreSpec.SaveLeadSnapshot(Db(), lead, token, expected, value, ttl, actor, now)
          == (Log(touched, lead, m, Other("lead.snapshot.saved"), Plain(map["version" := JInt(version)]), actor, now), r);
      hide StoreSpec.SaveLeadSnapshot, Refreshed;
      board := board[k := entry];
      leases := leases[sub.lease := leases[sub.lease].(expires := now + ttl)];
      Refresh(actor.id, now);
      AppendEvent(lead, m, Other("lead.snapshot.saved"), Plain(map["version" := JInt(version)]), actor, now);
    }

    method Refresh(agent: string, now: int)
      modifies this`agents
      ensures Db() == old(Db()).(agents := Refreshed(old(agents), agent, now))
    {
      if agent in agents {
        var a := agents[agent].(heartbeat := now);
        if a.health == "suspect" {
          a := a.(health := "healthy");
        }
        agents := agents[agent := a];
      }
    }

    method HasChild(id: string) returns (found: bool)
      ensures found <==> exists c :: c in subtasks && subtasks[c].spec.parent == id
    {
      var todo := subtasks.Keys;
      while todo != {}
        invariant todo <= subtasks.Keys
        invariant forall c :: c in subtasks && c !in todo ==> subtasks[c].spec.parent != id
      {
        var c :| c in todo;
        if subtasks[c].spec.parent == id {
          return true;
        }
        todo := todo - {c};
      }
      found := false;
    }

    method MarkSuspect(agent: string)
      modifies this`agents
      ensures Db() == old(Db()).(agents := Suspected(old(agents), agent))
    {
      if agent in agents && agents[agent].health != "down" {
        agents := agents[agent := agents[agent].(health := "suspect")];
      }
    }

    method TakeoverOne(id: string, now: int) returns (n: nat)
      modifies this`subtasks, this`events, this`eventSeq, this`leases, this`agents
      ensures Db() == TakeoverLead(old(Db()), id, now)
      ensures n == eventSeq - old(eventSeq)
    {
      hide Move, Retire, Suspected, BoardKey;
      if id !in subtasks || subtasks[id].state != Running || subtasks[id].lease == "" {
        return 0;
      }
      var lead := subtasks[id];
      if lead.lease !in leases || leases[lead.lease].state != LActive || leases[lead.lease].expires > now {
        return 0;
      }
      var isLead := BoardKey(lead.spec.mission, "lead-plan", lead.id) in board;
      if !isLead {
        isLead := HasChild(lead.id);
      }
      if !isLead {
        return 0;
      }
      var l, holder := lead.lease, leases[lead.lease].agent;
      var extra := map["fenced_lease_id" := JStr(l), "previous_agent_id" := JStr(lead.assignee)];
      var freed := Moving(lead, Ready).(assignee := "", lease := "");
      ghost var moved := Move(Db(), freed, EvTakeover, extra, System("lead-takeover"), now);
      ghost var fenced := Retire(moved, l, LFenced);
      assert TakeoverLead(Db(), id, now) == fenced.(agents := Suspected(fenced.agents, holder));
      MoveTouches(Db(), freed, EvTakeover, extra, System("lead-takeover"), now);
      RetireTouches(moved, l, LFenced);
      hide TakeoverLead;
      Put(freed, EvTakeover, extra, System("lead-takeover"), now);
      RetireLease(l, LFenced);
      MarkSuspect(holder);
      n := 1;
    }

    method TakeoverStaleLeads(now: int) returns (n: nat, ghost order: seq<string>)
      requires OwnKeys(subtasks)
      modifies this`subtasks, this`events, this`eventSeq, this`leases, this`agents
      ensures Lists(order, old(subtasks.Keys)) && Db() == StoreSpec.TakeoverStaleLeads(old(Db()), order, now)
      ensures n == eventSeq - old(eventSeq)
    {
      n, order := 0, [];
      var todo := subtasks.Keys;
      while todo != {}
        invariant subtasks.Keys == old(subtasks.Keys) && todo <= subtasks.Keys && Lists(order, subtasks.Keys - todo)
        invariant Db() == StoreSpec.TakeoverStaleLeads(old(Db()), order, now) && n == eventSeq - old(eventSeq)
        invariant OwnKeys(subtasks)
      {
        hide TakeoverLead, Stale, Lists, OwnKeys;
        var id :| id in todo;
        ListsMore(order, subtasks.Keys, todo, id);
        TakeoverKeys(Db(), id, now);
        var more := TakeoverOne(id, now);
        order := order + [id];
        assert order[..|order| - 1] + [id] == order;
        todo := todo - {id};
        n := n + more;
      }
      assert subtasks.Keys - todo == subtasks.Keys;
    }

    // ---- suspend and wake ----

    method SuspendSubtask(id: string, token: int, expected: int, wake: WakeSpec, checkpoint: string, actor: Actor,
                          now: int) returns (r: Result<Subtask>)
      modifies this
      ensures (Db(), r) == StoreSpec.SuspendSubtask(old(Db()), id, token, expected, wake, checkpoint, actor, now)
    {
      hide Apply, Move, FencingOk, Retire;
      if id !in subtasks {
        return Err(NotFound);
      }
      var sub := subtasks[id];
      if sub.version != expected {
        return Err(Conflict);
      }
      var l := CheckFencing(sub, token);
      if l.None? {
        return Err(Fenced);
      }
      if Apply(sub.state, EvSuspended).None? {
        return Err(Conflict);
      }
      var waiting := Moving(sub, Waiting).(wake := Some(wake));
      if checkpoint != "" {
        waiting := waiting.(checkpoint := checkpoint);
      }
      waiting := waiting.(assignee := "", lease := "");
      r := Ok(waiting);
      var extra := map["wake_kind" := JStr(WakeName(wake.kind))];
      assert StoreSpec.SuspendSubtask(Db(), id, token, expected, wake, checkpoint, actor, now)
          == (Retire(Move(Db(), waiting, EvSuspended, extra, actor, now), sub.lease, LReleased), r);
      hide StoreSpec.SuspendSubtask;
      Put(waiting, EvSuspended, extra, actor, now);
      RetireLease(sub.lease, LReleased);
    }

    method WakeSubtask(id: string, expected: int, actor: Actor, now: int) returns (r: Result<Subtask>)
      modifies this`subtasks, this`events, this`eventSeq
      ensures (Db(), r) == StoreSpec.WakeSubtask(old(Db()), id, expected, actor, now)
    {
      hide Apply, Move, Overdue;
      if id !in subtasks {
        return Err(NotFound);
      }
      var sub := subtasks[id];
      if sub.version != expected || Overdue(sub, now) || Apply(sub.state, EvWoken).None? {
        return Err(Conflict);
      }
      sub := Moving(sub, Ready).(wake := None);
      r := Ok(sub);
      assert StoreSpec.WakeSubtask(Db(), id, expected, actor, now) == (Move(Db(), sub, EvWoken, map[], actor, now), r);
      Put(sub, EvWoken, map[], actor, now);
    }

    method ExpireWakeOne(id: string, now: int) returns (n: nat)
      modifies this`subtasks, this`events, this`eventSeq
      ensures Db() == ExpireWake(old(Db()), id, now)
      ensures n == if WakeExpired(old(Db()), id, now) then 1 else 0
    {
      hide Move, Overdue;
      if id !in subtasks || subtasks[id].state != Waiting || !Overdue(subtasks[id], now) {
        return 0;
      }
      var failed := Moving(subtasks[id], Failed).(wake := None);
      var extra := map["reason" := JStr("wake_timeout")];
      assert ExpireWake(Db(), id, now) == Move(Db(), failed, EvFailed, extra, System("sweeper"), now);
      Put(failed, EvFailed, extra, System("sweeper"), now);
      n := 1;
    }

    /** `failed` are the ids of the subtasks whose wake-up came too late. */
    method ExpireWakes(now: int) returns (failed: seq<string>, ghost order: seq<string>)
      requires OwnKeys(subtasks)
      modifies this`subtasks, this`events, this`eventSeq
      ensures Lists(order, old(subtasks.Keys)) && Db() == StoreSpec.ExpireWakes(old(Db()), order, now)
      ensures Lists(failed, ExpiredWakes(old(Db()), now))
    {
      hide ExpireWake, StoreSpec.ExpireWakes, WakeExpired, Lists, OwnKeys;
      failed, order := [], [];
      var todo := subtasks.Keys;
      ghost var db := Db();
      NothingSwept(db, now);
      while todo != {}
        invariant Swept(db, Db(), order, failed, db.subtasks.Keys - todo, now) && todo <= db.subtasks.Keys
      {
        var id :| id in todo;
        SweepFacts(db, Db(), order, failed, todo, id, now);
        var n := ExpireWakeOne(id, now);
        order := order + [id];
        if n == 1 {
          failed := failed + [id];
        }
        todo := todo - {id};
      }
      SweptAll(db, Db(), order, failed, now);
    }

    method SaveCheckpoint(id: string, token: int, checkpoint: string) returns (r: Result<()>)
      modifies this`subtasks
      ensures (Db(), r) == StoreSpec.SaveCheckpoint(old(Db()), id, token, checkpoint)
    {
      hide FencingOk;
      if id !in subtasks {
        return Err(NotFound);
      }
      var l := CheckFencing(subtasks[id], token);
      if l.None? {
        return Err(Fenced);
      }
      if subtasks[id].state != Running && subtasks[id].state != Blocked {
        return Err(Conflict);
      }
      subtasks := subtasks[id := subtasks[id].(checkpoint := checkpoint)];
      r := Ok(());
    }

    // ---- idempotency keys, decisions, board, artifacts ----

    method PutIdempotent(key: string, value: string) returns (r: Result<string>)
      modifies this`idem
      ensures (Db(), r) == StoreSpec.PutIdempotent(old(Db()), key, value)
    {
      if key in idem {
        return Duplicate(idem[key]);
      }
      idem := idem[key := value];
      r := Ok("");
    }

    method PutDecision(d: Decision)
      modifies this`decisions
      ensures Db() == old(Db()).(decisions := old(decisions)[d.id := d])
    {
      decisions := decisions[d.id := d];
    }

    method CreateDecisionAndBlock(d: Decision, expected: int, token: Option<int>, actor: Actor, now: int)
      returns (r: Result<Subtask>)
      modifies this`decisions, this`subtasks, this`events, this`eventSeq
      ensures (Db(), r) == StoreSpec.CreateDecisionAndBlock(old(Db()), d, expected, token, actor, now)
    {
      hide Apply, Move, FencingOk;
      if d.id in decisions {
        return Err(Conflict);
      }
      if d.subtask !in subtasks {
        return Err(NotFound);
      }
      var sub := subtasks[d.subtask];
      if sub.version != expected {
        return Err(Conflict);
      }
      if token.Some? {
        var l := CheckFencing(sub, token.value);
        if l.None? {
          return Err(Fenced);
        }
      }
      if Apply(sub.state, EvBlocked).None? {
        return Err(Conflict);
      }
      sub := Moving(sub, Blocked);
      r := Ok(sub);
      var pending := d.(status := DPending);
      var extra := map["question" := JStr(d.question)];
      var asked := Asking(d);
      assert StoreSpec.CreateDecisionAndBlock(Db(), d, expected, token, actor, now)
          == (Log(Move(Db().(decisions := decisions[d.id := pending]), sub, EvBlocked, extra, actor, now), d.subtask,
                  d.mission, Other("decision.requested"), Plain(asked), actor, now), r);
      hide StoreSpec.CreateDecisionAndBlock;
      PutDecision(pending);
      Put(sub, EvBlocked, extra, actor, now);
      AppendEvent(d.subtask, d.mission, Other("decision.requested"), Plain(asked), actor, now);
    }

    method ResolveDecision(id: string, choice: string, rationale: string, decider: string, now: int)
      returns (r: Result<Decision>)
      modifies this`decisions, this`events, this`eventSeq
      ensures (Db(), r) == StoreSpec.ResolveDecision(old(Db()), id, choice, rationale, decider, now)
    {
      if id !in decisions {
        return Err(NotFound);
      }
      if decisions[id].status != DPending {
        return Err(Conflict);
      }
      var d := decisions[id].(status := DResolved, choice := choice, rationale := rationale, decider := decider);
      decisions := decisions[id := d];
      AppendEvent(d.subtask, d.mission, Other("decision.resolved"),
        Plain(map["decision_id" := JStr(id), "choice" := JStr(choice), "decider" := JStr(decider)]),
        Actor("human", decider), now);
      r := Ok(d);
    }

    method ExpireDecisionOne(id: string, now: int) returns (n: nat)
      modifies this`decisions, this`events, this`eventSeq
      ensures Db() == ExpireDecision(old(Db()), id, now) && decisions.Keys == old(decisions.Keys)
      ensures n == eventSeq - old(eventSeq)
    {
      if id !in decisions || !DecisionDue(decisions[id], now) {
        return 0;
      }
      var d := decisions[id];
      if d.onTimeout == "auto_approve" || d.onTimeout == "auto_reject" {
        d := d.(status := DResolved, choice := if d.onTimeout == "auto_approve" then "approve" else "reject",
                decider := "system:timeout");
      } else {
        d := d.(status := DExpired);
      }
      assert d == TimedOut(decisions[id]);
      hide TimedOut;
      decisions := decisions[id := d];
      AppendEvent(d.subtask, d.mission, Other("decision.expired"),
        Plain(map["decision_id" := JStr(id), "on_timeout" := JStr(d.onTimeout), "choice" := JStr(d.choice)]),
        System("decision-sweeper"), now);
      n := 1;
    }

    method ExpireDecisions(now: int) returns (n: nat, ghost order: seq<string>)
      modifies this`decisions, this`events, this`eventSeq
      ensures Lists(order, old(decisions.Keys)) && Db() == StoreSpec.ExpireDecisions(old(Db()), order, now)
      ensures n == eventSeq - old(eventSeq)
    {
      n, order := 0, [];
      var todo := decisions.Keys;
      while todo != {}
        invariant decisions.Keys == old(decisions.Keys) && todo <= decisions.Keys
        invariant Lists(order, decisions.Keys - todo)
        invariant Db() == StoreSpec.ExpireDecisions(old(Db()), order, now) && n == eventSeq - old(eventSeq)
      {
        hide ExpireDecision, Lists;
        var id :| id in todo;
        ListsMore(order, decisions.Keys, todo, id);
        var more := ExpireDecisionOne(id, now);
        order := order + [id];
        assert order[..|order| - 1] + [id] == order;
        todo := todo - {id};
        n := n + more;
      }
      assert decisions.Keys - todo == decisions.Keys;
    }

    method BoardPut(e: BoardEntry, expected: int) returns (r: Result<BoardEntry>)
      modifies this`board
      ensures (Db(), r) == StoreSpec.BoardPut(old(Db()), e, expected)
    {
      hide BoardKey;
      var k := BoardKey(e.mission, e.ns, e.key);
      if expected >= 0 {
        var current := -1;
        if k in board {
          current := board[k].version;
        }
        if current != expected {
          return Err(Conflict);
        }
      }
      var version := 0;
      if k in board {
        version := board[k].version + 1;
      }
      var entry := e.(version := version);
      board := board[k := entry];
      r := Ok(entry);
    }

    /** The entries whose board key continues the prefix: of one namespace, or of all for an empty name. */
    method BoardList(mission: string, ns: string) returns (out: seq<BoardEntry>, ghost keys: seq<string>)
      ensures Lists(keys, set k | k in board && ListPrefix(mission, ns) < k) && |out| == |keys|
      ensures forall i :: 0 <= i < |out| ==> keys[i] in board && out[i] == board[keys[i]]
    {
      var prefix := ListPrefix(mission, ns);
      out, keys := [], [];
      var todo := board.Keys;
      while todo != {}
        invariant todo <= board.Keys && |out| == |keys| && Distinct(keys)
        invariant forall k :: k in keys <==> k in board && k !in todo && prefix < k
        invariant forall i :: 0 <= i < |out| ==> keys[i] in board && out[i] == board[keys[i]]
      {
        var k :| k in todo;
        todo := todo - {k};
        if prefix < k {
          out, keys := out + [board[k]], keys + [k];
        }
      }
    }

    method PutArtifact(a: Artifact, now: int) returns (r: Result<()>)
      modifies this`artifacts, this`events, this`eventSeq
      ensures (Db(), r) == StoreSpec.PutArtifact(old(Db()), a, now)
    {
      if a.id in artifacts {
        return Err(Conflict);
      }
      artifacts := artifacts[a.id := a];
      AppendEvent(a.producedBy, a.mission, Other("artifact.produced"),
        Plain(map["artifact_id" := JStr(a.id), "size" := JInt(a.size)]), System("artifact-store"), now);
      r := Ok(());
    }
  }

  /** A grant once the two sequences have been bumped. */
  ghost function Issued(db: DB, lease: Lease, pkg: ContextPackage): DB {
    db.(leases := db.leases[lease.id := lease], contexts := db.contexts[lease.id := pkg],
        agents := Incremented(db.agents, lease.agent))
  }

  ghost function ViewOf(e: BoardEntry, views: seq<BoardGrant>): ContextView {
    ContextView(e.ns, e.key, e.value, e.version, Writable(views, e))
  }

  lemma OneMoreGrant(grants: seq<BoardGrant>, i: nat, mission: string, e: BoardEntry)
    requires i < |grants|
    ensures var earlier, now := grants[..i], grants[..i + 1];
      && (Visible(now, mission, e) <==> Visible(earlier, mission, e) || (e.mission == mission && Admits(grants[i], e)))
      && (Writable(now, e) <==> Writable(earlier, e) || (Admits(grants[i], e) && grants[i].mode == READ_WRITE))
      && (Visible(earlier, mission, e) || !Writable(earlier, e) || e.mission != mission)
  {
    assert grants[..i + 1] == grants[..i] + [grants[i]];
  }

  /** The package depends on the data, not on the sequences. */
  lemma ContextIgnoresSequences(db: DB, lease: string, sub: Subtask)
    ensures ContextOf(db.(fencingSeq := db.fencingSeq + 1, leaseSeq := db.leaseSeq + 1), lease, sub)
         == ContextOf(db, lease, sub)
  {}

  /** The records of a mission's subtasks, in some order, without repetition. */
  ghost predicate Listing(out: seq<Subtask>, subtasks: map<string, Subtask>, m: string) {
    && (forall i :: 0 <= i < |out| ==>
          out[i].id in subtasks && out[i] == subtasks[out[i].id] && out[i].spec.mission == m)
    && (forall i, j :: 0 <= i < j < |out| ==> out[i].id != out[j].id)
    && (forall id :: id in subtasks && subtasks[id].spec.mission == m ==> Names(out, id))
  }

  /** The records of all subtasks in one state, in some order, without repetition. */
  ghost predicate ListingBy(out: seq<Subtask>, subtasks: map<string, Subtask>, state: State) {
    && (forall i :: 0 <= i < |out| ==> out[i].id in subtasks && out[i] == subtasks[out[i].id] && out[i].state == state)
    && (forall i, j :: 0 <= i < j < |out| ==> out[i].id != out[j].id)
    && (forall id :: id in subtasks && subtasks[id].state == state ==> Names(out, id))
  }

  lemma SortedListing(ready: seq<Subtask>, q: seq<Subtask>, subtasks: map<string, Subtask>)
    requires ListingBy(ready, subtasks, Ready) && forall x :: x in q <==> x in ready
    ensures forall i :: 0 <= i < |q| ==> q[i].id in ReadyOnes(subtasks) && ReadyOnes(subtasks)[q[i].id] == q[i]
    ensures forall id :: id in ReadyOnes(subtasks) ==> Names(q, id)
  {
    forall i | 0 <= i < |q| ensures q[i].id in ReadyOnes(subtasks) && ReadyOnes(subtasks)[q[i].id] == q[i] {
      assert q[i] in ready;
    }
    forall id | id in ReadyOnes(subtasks) ensures Names(q, id) {
      assert Names(ready, id);
      var k :| 0 <= k < |ready| && ready[k].id == id;
      assert ready[k] in q;
    }
  }

  ghost predicate Enrolled(roster: seq<Agent>, a: string) { exists i :: 0 <= i < |roster| && roster[i].id == a }

  /** Every agent as the table has it, sorted by id. */
  ghost predicate Roster(roster: seq<Agent>, agents: map<string, Agent>) {
    && (forall i :: 0 <= i < |roster| ==> roster[i].id in agents && agents[roster[i].id] == roster[i])
    && (forall i, j :: 0 <= i < j < |roster| ==> Less(roster[i].id, roster[j].id))
    && (forall a :: a in agents ==> Enrolled(roster, a))
  }

  function ListPrefix(mission: string, ns: string): string {
    if ns == "" then mission + "/" else mission + "/" + ns + "/"
  }

  predicate WaitsFor(sub: Subtask, kind: WakeKind) {
    sub.state == Waiting && sub.wake.Some? && sub.wake.value.kind == kind
  }

  ghost predicate ListingWaiting(out: seq<Subtask>, subtasks: map<string, Subtask>, kind: WakeKind) {
    && (forall i :: 0 <= i < |out| ==>
          out[i].id in subtasks && out[i] == subtasks[out[i].id] && WaitsFor(out[i], kind))
    && (forall i, j :: 0 <= i < j < |out| ==> out[i].id != out[j].id)
    && (forall id :: id in subtasks && WaitsFor(subtasks[id], kind) ==> Names(out, id))
  }

  lemma TakeoverKeys(db: DB, id: string, now: int)
    requires OwnKeys(db.subtasks)
    ensures var d := TakeoverLead(db, id, now); d.subtasks.Keys == db.subtasks.Keys && OwnKeys(d.subtasks)
  {
    hide Stale, Retire, Suspected;
    if Stale(db, id, now) {
      StaleStored(db, id, now);
      var lead := db.subtasks[id];
      var moved := Move(db, Moving(lead, Ready).(assignee := "", lease := ""), EvTakeover,
                        map["fenced_lease_id" := JStr(lead.lease), "previous_agent_id" := JStr(lead.assignee)],
                        System("lead-takeover"), now);
      RetireTouches(moved, lead.lease, LFenced);
    }
  }

  lemma StaleStored(db: DB, id: string, now: int)
    requires Stale(db, id, now)
    ensures id in db.subtasks && db.subtasks[id].lease in db.leases
  {}

  /** The wake sweep under way. */
  ghost predicate Swept(db: DB, d: DB, order: seq<string>, failed: seq<string>, visited: set<string>, now: int) {
    && OwnKeys(db.subtasks) && Lists(order, visited) && d == StoreSpec.ExpireWakes(db, order, now)
    && Distinct(failed) && forall id :: id in failed <==> id in visited && WakeExpired(db, id, now)
  }

  lemma NothingSwept(db: DB, now: int)
    requires OwnKeys(db.subtasks)
    ensures Swept(db, db, [], [], db.subtasks.Keys - db.subtasks.Keys, now)
  {}

  lemma SweepFacts(db: DB, d: DB, order: seq<string>, failed: seq<string>, todo: set<string>, id: string, now: int)
    requires Swept(db, d, order, failed, db.subtasks.Keys - todo, now) && id in todo && todo <= db.subtasks.Keys
    ensures WakeExpired(d, id, now) <==> WakeExpired(db, id, now)
    ensures Swept(db, ExpireWake(d, id, now), order + [id],
                  if WakeExpired(d, id, now) then failed + [id] else failed, db.subtasks.Keys - (todo - {id}), now)
  {
    hide ExpireWake;
    var visited := db.subtasks.Keys - todo;
    WakesLand(db, order, now);
    assert id in d.subtasks && d.subtasks[id] == db.subtasks[id];
    assert (order + [id])[..|order|] == order;
    ListsMore(order, db.subtasks.Keys, todo, id);
    assert db.subtasks.Keys - (todo - {id}) == visited + {id};
    hide WakeExpired, StoreSpec.ExpireWakes;
  }

  lemma SweptAll(db: DB, d: DB, order: seq<string>, failed: seq<string>, now: int)
    requires Swept(db, d, order, failed, db.subtasks.Keys - {}, now)
    ensures Lists(order, db.subtasks.Keys) && d == StoreSpec.ExpireWakes(db, order, now)
    ensures Lists(failed, ExpiredWakes(db, now))
  {
    hide StoreSpec.ExpireWakes;
    assert db.subtasks.Keys - {} == db.subtasks.Keys;
  }

  lemma FencingLease(db: DB, sub: Subtask, token: int)
    requires FencingOk(db, sub, token)
    ensures sub.lease in db.leases
  {}

  lemma RetireTouches(db: DB, l: string, to: LeaseState)
    ensures var d := Retire(db, l, to); d == db.(leases := d.leases, agents := d.agents)
  {}

  lemma MoveTouches(db: DB, sub: Subtask, ev: EventType, extra: Json0, actor: Actor, now: int)
    ensures var d := Move(db, sub, ev, extra, actor, now);
            d == db.(subtasks := db.subtasks[sub.id := sub], events := d.events, eventSeq := db.eventSeq + 1)
  {}

  lemma ListsMore(order: seq<string>, all: set<string>, todo: set<string>, x: string)
    requires Lists(order, all - todo) && x in todo && todo <= all
    ensures Lists(order + [x], all - (todo - {x}))
  {}
}
