/** When the remaining store calls of internal/store/memory/memory.go are accepted and what they then leave
    behind, told by states, versions and tokens alone. */
module Promises {
  import opened Basics
  import opened StateMachine
  import opened Records
  import opened StoreSpec
  import opened Invariants
  import opened StoreOps
  import opened Orchestrator
  import opened Charges

  /** The subtask is in one of the states, at this version. */
  ghost predicate Stands(db: DB, id: string, states: set<State>, version: int) {
    id in db.subtasks && db.subtasks[id].state in states && db.subtasks[id].version == version
  }

  /** Only this subtask is rewritten, and the log grows. */
  ghost predicate Rewrites(db: DB, d: DB, id: string, sub: Subtask) {
    d == db.(subtasks := db.subtasks[id := sub], events := d.events, eventSeq := d.eventSeq)
  }

  /** The same, and its lease ends as RELEASED. */
  ghost predicate LetsGo(db: DB, d: DB, id: string, sub: Subtask)
    requires id in db.subtasks && db.subtasks[id].lease in db.leases
  {
    var l := db.subtasks[id].lease;
    d == db.(subtasks := db.subtasks[id := sub], leases := db.leases[l := db.leases[l].(state := LReleased)],
             agents := d.agents, events := d.events, eventSeq := d.eventSeq)
  }

  // ---- leases ----

  ghost predicate UnderLease(db: DB, id: string) {
    exists l :: l in db.leases && db.leases[l].subtask == id && db.leases[l].state == LActive
  }

  /** An offer is accepted exactly for a READY subtask at the expected version that is under no ACTIVE lease. */
  lemma OfferExactly(db: DB, id: string, agent: string, expected: int, ttl: int, actor: Actor, now: int)
    requires Inv(db)
    ensures OfferLease(db, id, agent, expected, ttl, actor, now).1.Ok? <==>
      Stands(db, id, {Ready}, expected) && !UnderLease(db, id)
  {
    if id in db.subtasks {
      SubtaskFacts(db, id);
      ContextExists(db, LeaseId(db.leaseSeq + 1), db.subtasks[id]);
      OnlyReadyIsOffered(db.subtasks[id].state);
    }
    hide Inv, Apply, LeaseId, ContextOf, Grant, Move, Log, Moving;
  }

  lemma OnlyReadyIsOffered(from: State)
    ensures Apply(from, EvLeaseOffered).Some? <==> from == Ready
    ensures Apply(from, EvLeaseAccepted).Some? <==> from == Offered
    ensures Apply(from, EvStarted).Some? <==> from == Leased
    ensures Apply(from, EvBlocked).Some? <==> from == Running || from == Ready
    ensures Apply(from, EvSuspended).Some? <==> from == Running || from == Ready
  {}

  /** A lease is accepted exactly under its token while it is ACTIVE, for an OFFERED subtask at the expected
      version; the subtask is LEASED then. */
  lemma AcceptExactly(db: DB, l: string, token: int, expected: int, actor: Actor, now: int)
    requires Inv(db)
    ensures var r := AcceptLease(db, l, token, expected, actor, now);
      && (r.1.Ok? <==> l in db.leases && db.leases[l].state == LActive && db.leases[l].token == token
                       && Stands(db, db.leases[l].subtask, {Offered}, expected))
      && (if r.1.Ok?
          then var id := db.leases[l].subtask;
            Rewrites(db, r.0, id, db.subtasks[id].(state := Leased, version := expected + 1))
          else r.0 == db)
  {
    hide Inv, Apply, AcceptLease;
    if l in db.leases && db.leases[l].subtask in db.subtasks {
      SubtaskFacts(db, db.leases[l].subtask);
      OnlyReadyIsOffered(db.subtasks[db.leases[l].subtask].state);
    }
    AcceptUnfolds(db, l, token, expected, actor, now);
  }

  lemma AcceptUnfolds(db: DB, l: string, token: int, expected: int, actor: Actor, now: int)
    requires l in db.leases && db.leases[l].subtask in db.subtasks ==> db.subtasks[db.leases[l].subtask].id == db.leases[l].subtask
    ensures var r := AcceptLease(db, l, token, expected, actor, now);
      if l in db.leases && db.leases[l].state == LActive && db.leases[l].token == token && db.leases[l].subtask in db.subtasks
         && db.subtasks[db.leases[l].subtask].version == expected
         && Apply(db.subtasks[db.leases[l].subtask].state, EvLeaseAccepted).Some?
      then
        var id := db.leases[l].subtask;
        r.1.Ok? && Rewrites(db, r.0, id, db.subtasks[id].(state := Leased, version := expected + 1))
      else !r.1.Ok? && r.0 == db
  {
    hide Apply;
  }

  /** Work starts exactly on a LEASED subtask at the expected version under its ACTIVE lease's token... */
  lemma StartExactly(db: DB, id: string, token: int, expected: int, actor: Actor, now: int)
    requires Inv(db)
    ensures var r := StartSubtask(db, id, token, expected, actor, now);
      && (r.1.Ok? <==> Stands(db, id, {Leased}, expected) && Holds(db, id, token))
      && (if r.1.Ok? then Rewrites(db, r.0, id, db.subtasks[id].(state := Running, version := expected + 1)) else r.0 == db)
  {
    hide Inv, FencedMove, Holds, Rewrites, Stands;
    var extra: Json0 := if id in db.subtasks then map["attempt" := JInt(db.subtasks[id].attempt)] else map[];
    FencedExactly(db, id, token, expected, EvStarted, extra, actor, now);
  }

  /** ...and is blocked exactly while RUNNING, or READY. */
  lemma BlockExactly(db: DB, id: string, token: int, expected: int, actor: Actor, now: int)
    requires Inv(db)
    ensures var r := BlockSubtask(db, id, token, expected, actor, now);
      && (r.1.Ok? <==> Stands(db, id, {Running, Ready}, expected) && Holds(db, id, token))
      && (if r.1.Ok? then Rewrites(db, r.0, id, db.subtasks[id].(state := Blocked, version := expected + 1)) else r.0 == db)
  {
    hide Inv, FencedMove, Holds, Rewrites, Stands;
    FencedExactly(db, id, token, expected, EvBlocked, map[], actor, now);
  }

  lemma FencedExactly(db: DB, id: string, token: int, expected: int, ev: EventType, extra: Json0, actor: Actor, now: int)
    requires Inv(db) && (ev == EvStarted || ev == EvBlocked)
    ensures var r := FencedMove(db, id, token, expected, ev, extra, actor, now);
      && (r.1.Ok? <==> Stands(db, id, if ev == EvStarted then {Leased} else {Running, Ready}, expected) && Holds(db, id, token))
      && (if r.1.Ok?
          then Rewrites(db, r.0, id, db.subtasks[id].(state := if ev == EvStarted then Running else Blocked, version := expected + 1))
          else r.0 == db)
  {
    hide Inv, Apply, FencingOk, Holds, FencedMove;
    if id in db.subtasks {
      SubtaskFacts(db, id);
      HoldsIsFencing(db, id, token);
      OnlyReadyIsOffered(db.subtasks[id].state);
      TableShape(db.subtasks[id].state, ev);
    }
    FencedUnfolds(db, id, token, expected, ev, extra, actor, now);
  }

  lemma FencedUnfolds(db: DB, id: string, token: int, expected: int, ev: EventType, extra: Json0, actor: Actor, now: int)
    requires id in db.subtasks ==> db.subtasks[id].id == id
    ensures var r := FencedMove(db, id, token, expected, ev, extra, actor, now);
      if id in db.subtasks && db.subtasks[id].version == expected && FencingOk(db, db.subtasks[id], token)
         && Apply(db.subtasks[id].state, ev).Some?
      then r.1.Ok? && Rewrites(db, r.0, id, db.subtasks[id].(state := Apply(db.subtasks[id].state, ev).value, version := expected + 1))
      else !r.1.Ok? && r.0 == db
  {
    hide Apply, FencingOk;
  }

  /** A suspension is accepted exactly while RUNNING, or READY, at the expected version under the ACTIVE lease's
      token. The subtask waits without agent or lease, the lease is RELEASED, and an empty checkpoint keeps the old
      one. */
  lemma SuspendExactly(db: DB, id: string, token: int, expected: int, wake: WakeSpec, checkpoint: string, actor: Actor,
                       now: int)
    requires Inv(db)
    ensures var r := SuspendSubtask(db, id, token, expected, wake, checkpoint, actor, now);
      && (r.1.Ok? <==> Stands(db, id, {Running, Ready}, expected) && Holds(db, id, token))
      && (if r.1.Ok?
          then LetsGo(db, r.0, id, db.subtasks[id].(state := Waiting, version := expected + 1, assignee := "", lease := "",
                                                    wake := Some(wake),
                                                    checkpoint := if checkpoint == "" then db.subtasks[id].checkpoint else checkpoint))
          else r.0 == db)
  {
    hide Inv, Apply, FencingOk, SuspendSubtask;
    if id in db.subtasks {
      SubtaskFacts(db, id);
      HoldsIsFencing(db, id, token);
      OnlyReadyIsOffered(db.subtasks[id].state);
    }
    SuspendUnfolds(db, id, token, expected, wake, checkpoint, actor, now);
  }

  lemma SuspendUnfolds(db: DB, id: string, token: int, expected: int, wake: WakeSpec, checkpoint: string, actor: Actor,
                       now: int)
    requires id in db.subtasks ==> db.subtasks[id].id == id
    ensures var r := SuspendSubtask(db, id, token, expected, wake, checkpoint, actor, now);
      if id in db.subtasks && db.subtasks[id].version == expected && FencingOk(db, db.subtasks[id], token)
         && Apply(db.subtasks[id].state, EvSuspended).Some?
      then
        && r.1.Ok? && db.subtasks[id].lease in db.leases
        && LetsGo(db, r.0, id, db.subtasks[id].(state := Waiting, version := expected + 1, assignee := "", lease := "",
                                                wake := Some(wake),
                                                checkpoint := if checkpoint == "" then db.subtasks[id].checkpoint else checkpoint))
      else !r.1.Ok? && r.0 == db
  {
    hide Apply, Decremented;
  }

  /** A checkpoint is stored exactly while RUNNING or BLOCKED under the ACTIVE lease's token; nothing else moves. */
  lemma CheckpointExactly(db: DB, id: string, token: int, checkpoint: string)
    requires Inv(db)
    ensures var r := SaveCheckpoint(db, id, token, checkpoint);
      && (r.1.Ok? <==> id in db.subtasks && db.subtasks[id].state in {Running, Blocked} && Holds(db, id, token))
      && r.0 == if r.1.Ok? then db.(subtasks := db.subtasks[id := db.subtasks[id].(checkpoint := checkpoint)]) else db
  {
    if id in db.subtasks {
      HoldsIsFencing(db, id, token);
    }
    hide Inv, FencingOk, Holds;
  }

  // ---- what a lead is told ----

  /** The entry under which a lead finds the result of a subtask. */
  ghost predicate Reported(inbox: map<string, InboxItem>, sub: Subtask, ref: string) {
    exists k :: k in inbox && inbox[k].lead == sub.spec.parent && inbox[k].source == sub.id
      && inbox[k].mission == sub.spec.mission && inbox[k].resultRef == ref && !inbox[k].ingested
  }

  /** A completed delegated subtask is reported to its lead, unless it has an entry already; entries that exist stay
      as they are, and a subtask that nobody delegated is reported to nobody. */
  lemma CompletionReports(db: DB, id: string, token: int, key: string, ref: string, usage: int, expected: int,
                          actor: Actor, now: int)
    requires Inv(db) && CompleteSubtask(db, id, token, key, ref, usage, expected, actor, now).1.Ok?
    ensures id in db.subtasks
    ensures var d, sub := CompleteSubtask(db, id, token, key, ref, usage, expected, actor, now).0, db.subtasks[id];
      && Extends(db.inbox, d.inbox)
      && (sub.spec.parent == "" ==> d.inbox == db.inbox)
      && (sub.spec.parent != "" && "lin_" + id !in db.inbox ==>
            Reported(d.inbox, sub, ref) && d.inbox.Keys == db.inbox.Keys + {"lin_" + id})
  {
    hide Inv, CompleteSubtask, SettleHold, Apply, Move, Retire, Enqueue, Extends, Reported;
    CompleteUnfolds(db, id, token, key, ref, usage, expected, actor, now);
    SubtaskFacts(db, id);
    var sub := db.subtasks[id];
    SettleInbox(db, sub, usage, actor, now);
    var settled := SettleHold(db, sub, usage, actor, now).value;
    var keyed := settled.(idem := settled.idem[key := ref]);
    var done := Moving(sub, Succeeded).(resultRef := ref);
    var extra := map["subtask_id" := JStr(id), "result_ref" := JStr(ref)];
    MoveContents(keyed, done, EvCompleted, extra, actor, now);
    var moved := Move(keyed, done, EvCompleted, extra, actor, now);
    RetireInbox(moved, sub.lease, LReleased);
    EnqueueReports(Retire(moved, sub.lease, LReleased), done, ref, now);
    SameReport(CompleteSubtask(db, id, token, key, ref, usage, expected, actor, now).0.inbox, sub, done, ref);
  }

  lemma SettleInbox(db: DB, sub: Subtask, usage: int, actor: Actor, now: int)
    requires SettleHold(db, sub, usage, actor, now).Ok?
    ensures SettleHold(db, sub, usage, actor, now).value.inbox == db.inbox
  {
    hide Balanced;
  }

  lemma RetireInbox(db: DB, l: string, to: LeaseState)
    ensures Retire(db, l, to).inbox == db.inbox
  {
    hide Decremented;
  }

  lemma SameReport(inbox: map<string, InboxItem>, sub: Subtask, done: Subtask, ref: string)
    requires done.id == sub.id && done.spec == sub.spec
    ensures Reported(inbox, done, ref) <==> Reported(inbox, sub, ref)
  {}

  lemma EnqueueReports(db: DB, sub: Subtask, ref: string, now: int)
    ensures var d := Enqueue(db, sub, ref, now);
      && Extends(db.inbox, d.inbox)
      && (sub.spec.parent == "" ==> d.inbox == db.inbox)
      && (sub.spec.parent != "" && "lin_" + sub.id !in db.inbox ==>
            Reported(d.inbox, sub, ref) && d.inbox.Keys == db.inbox.Keys + {"lin_" + sub.id})
  {
    var k := "lin_" + sub.id;
    assert InboxId(sub.id) == k;
    hide InboxId;
    if sub.spec.parent != "" && k !in db.inbox {
      var item := InboxItem(k, sub.spec.mission, sub.spec.parent, sub.id, ref, false, "", "", 0);
      var d := Enqueue(db, sub, ref, now);
      assert d.inbox == db.inbox[k := item];
      hide Enqueue;
      assert d.inbox[k] == item;
    }
  }

  // ---- board, inbox, decisions ----

  /** A guarded write is accepted exactly when the entry is stored at the expected version, a blind one always;
      the entry's version grows by one, from 0, and no other entry moves. */
  lemma BoardWriteExactly(db: DB, e: BoardEntry, expected: int)
    ensures var r, k := BoardPut(db, e, expected), BoardKey(e.mission, e.ns, e.key);
      && (r.1.Ok? <==> expected < 0 || (k in db.board && db.board[k].version == expected))
      && (if r.1.Ok?
          then r.0 == db.(board := db.board[k := r.1.value])
            && r.1.value == e.(version := if k in db.board then db.board[k].version + 1 else 0)
          else r.0 == db)
  {
    hide BoardKey;
  }

  /** Of two guarded writes that expect the same version at most one is accepted. */
  lemma GuardedWritesExclude(db: DB, a: BoardEntry, b: BoardEntry, expected: int)
    requires expected >= 0 && a.mission == b.mission && a.ns == b.ns && a.key == b.key
    ensures BoardPut(db, a, expected).1.Ok? ==> !BoardPut(BoardPut(db, a, expected).0, b, expected).1.Ok?
  {
    hide BoardKey;
  }

  /** A lead ingests an item of its own inbox exactly once: while it is RUNNING under an ACTIVE lease that has time
      left, and only at the item's version. Afterwards every ingestion of the item is refused. */
  lemma IngestOnce(db: DB, item: string, lead: string, token: int, expected: int, mode: string, actor: Actor, now: int)
    requires Inv(db)
    ensures var r := IngestLeadInbox(db, item, lead, token, expected, mode, actor, now);
      && (r.1.Ok? <==>
            && item in db.inbox && db.inbox[item].lead == lead && !db.inbox[item].ingested && db.inbox[item].version == expected
            && lead in db.subtasks && db.subtasks[lead].state == Running && Holds(db, lead, token)
            && db.leases[db.subtasks[lead].lease].agent == actor.id && now < db.leases[db.subtasks[lead].lease].expires)
      && (if r.1.Ok?
          then r.0.inbox == db.inbox[item := db.inbox[item].(ingested := true, mode := mode, ingestedBy := actor.id, version := expected + 1)]
            && forall l, t, e, m, a, n :: !IngestLeadInbox(r.0, item, l, t, e, m, a, n).1.Ok?
          else r.0 == db)
  {
    hide Inv, FencingOk, Holds, IngestLeadInbox;
    if lead in db.subtasks {
      HoldsIsFencing(db, lead, token);
      FencedLease(db, lead, token);
    }
    IngestUnfolds(db, item, lead, token, expected, mode, actor, now);
    var r := IngestLeadInbox(db, item, lead, token, expected, mode, actor, now);
    if r.1.Ok? {
      IngestedIsRefused(r.0, item);
    }
  }

  lemma IngestUnfolds(db: DB, item: string, lead: string, token: int, expected: int, mode: string, actor: Actor, now: int)
    requires lead in db.subtasks && FencingOk(db, db.subtasks[lead], token) ==> db.subtasks[lead].lease in db.leases
    ensures var r := IngestLeadInbox(db, item, lead, token, expected, mode, actor, now);
      if item in db.inbox && db.inbox[item].lead == lead && !db.inbox[item].ingested && db.inbox[item].version == expected
         && lead in db.subtasks && db.subtasks[lead].state == Running && FencingOk(db, db.subtasks[lead], token)
         && db.leases[db.subtasks[lead].lease].agent == actor.id && now < db.leases[db.subtasks[lead].lease].expires
      then r.1.Ok?
        && r.0 == db.(inbox := db.inbox[item := db.inbox[item].(ingested := true, mode := mode, ingestedBy := actor.id,
                                                                version := expected + 1)],
                      events := r.0.events, eventSeq := r.0.eventSeq)
      else !r.1.Ok? && r.0 == db
  {
    hide FencingOk, Ingestion;
  }

  lemma IngestedIsRefused(db: DB, item: string)
    requires item in db.inbox && db.inbox[item].ingested
    ensures forall l, t, e, m, a, n :: !IngestLeadInbox(db, item, l, t, e, m, a, n).1.Ok?
  {
    forall l, t, e, m, a, n ensures !IngestLeadInbox(db, item, l, t, e, m, a, n).1.Ok? {
      hide FencingOk, Ingestion, Log;
    }
  }

  /** A decision is resolved exactly once, while it is PENDING, with the given choice; nobody's subtask moves. */
  lemma ResolveOnce(db: DB, id: string, choice: string, rationale: string, decider: string, now: int)
    ensures var r := ResolveDecision(db, id, choice, rationale, decider, now);
      && (r.1.Ok? <==> id in db.decisions && db.decisions[id].status == DPending)
      && (if r.1.Ok?
          then r.1.value == db.decisions[id].(status := DResolved, choice := choice, rationale := rationale, decider := decider)
            && r.0 == db.(decisions := db.decisions[id := r.1.value], events := r.0.events, eventSeq := r.0.eventSeq)
            && forall c, w, x, n :: !ResolveDecision(r.0, id, c, w, x, n).1.Ok?
          else r.0 == db)
  {}

  /** A question is asked exactly under a new id about a RUNNING or READY subtask at the expected version, under the
      ACTIVE lease's token when one is given. The order is PENDING and the subtask BLOCKED; its lease stays. */
  lemma AskExactly(db: DB, q: Decision, expected: int, token: Option<int>, actor: Actor, now: int)
    requires Inv(db)
    ensures var r := CreateDecisionAndBlock(db, q, expected, token, actor, now);
      && (r.1.Ok? <==> q.id !in db.decisions && Stands(db, q.subtask, {Running, Ready}, expected)
                       && (token.Some? ==> Holds(db, q.subtask, token.value)))
      && (if r.1.Ok?
          then r.0 == db.(decisions := db.decisions[q.id := q.(status := DPending)],
                          subtasks := db.subtasks[q.subtask := db.subtasks[q.subtask].(state := Blocked, version := expected + 1)],
                          events := r.0.events, eventSeq := r.0.eventSeq)
          else r.0 == db)
  {
    hide Inv, Apply, FencingOk, Holds, CreateDecisionAndBlock;
    if q.subtask in db.subtasks {
      SubtaskFacts(db, q.subtask);
      OnlyReadyIsOffered(db.subtasks[q.subtask].state);
      if token.Some? {
        HoldsIsFencing(db, q.subtask, token.value);
      }
    }
    AskUnfolds(db, q, expected, token, actor, now);
  }

  lemma AskUnfolds(db: DB, q: Decision, expected: int, token: Option<int>, actor: Actor, now: int)
    requires q.subtask in db.subtasks ==> db.subtasks[q.subtask].id == q.subtask
    ensures var r := CreateDecisionAndBlock(db, q, expected, token, actor, now);
      if q.id !in db.decisions && q.subtask in db.subtasks && db.subtasks[q.subtask].version == expected
         && (token.Some? ==> FencingOk(db, db.subtasks[q.subtask], token.value))
         && Apply(db.subtasks[q.subtask].state, EvBlocked).Some?
      then r.1.Ok?
        && r.0 == db.(decisions := db.decisions[q.id := q.(status := DPending)],
                      subtasks := db.subtasks[q.subtask := db.subtasks[q.subtask].(state := Blocked, version := expected + 1)],
                      events := r.0.events, eventSeq := r.0.eventSeq)
      else !r.1.Ok? && r.0 == db
  {
    hide Apply, FencingOk, Asking;
  }

  /** A lead's snapshot is saved exactly while it is RUNNING under an ACTIVE lease that has time left, by its
      holder; the first one while there is none, each later one at the stored version. It extends the lease. */
  lemma SnapshotExactly(db: DB, lead: string, token: int, expected: int, value: string, ttl: int, actor: Actor, now: int)
    requires Inv(db)
    ensures var r := SaveLeadSnapshot(db, lead, token, expected, value, ttl, actor, now);
      && (r.1.Ok? <==>
            && lead in db.subtasks && db.subtasks[lead].state == Running && Holds(db, lead, token)
            && db.leases[db.subtasks[lead].lease].agent == actor.id && now < db.leases[db.subtasks[lead].lease].expires
            && var k := BoardKey(db.subtasks[lead].spec.mission, "lead-plan", lead);
               if expected == -1 then k !in db.board else k in db.board && db.board[k].version == expected)
      && (if r.1.Ok?
          then
            var l, m := db.subtasks[lead].lease, db.subtasks[lead].spec.mission;
            var k := BoardKey(m, "lead-plan", lead);
            && r.0.leases == db.leases[l := db.leases[l].(expires := now + ttl)] && r.0.subtasks == db.subtasks
            && r.0.board == db.board[k := BoardEntry(m, "lead-plan", lead, value, expected + 1)]
          else r.0 == db)
  {
    hide Inv, FencingOk, Holds, SaveLeadSnapshot, BoardKey;
    if lead in db.subtasks {
      HoldsIsFencing(db, lead, token);
      FencedLease(db, lead, token);
    }
    SnapshotUnfolds(db, lead, token, expected, value, ttl, actor, now);
  }

  lemma SnapshotUnfolds(db: DB, lead: string, token: int, expected: int, value: string, ttl: int, actor: Actor, now: int)
    requires lead in db.subtasks && FencingOk(db, db.subtasks[lead], token) ==> db.subtasks[lead].lease in db.leases
    ensures var r := SaveLeadSnapshot(db, lead, token, expected, value, ttl, actor, now);
      if lead in db.subtasks && db.subtasks[lead].state == Running && FencingOk(db, db.subtasks[lead], token)
         && db.leases[db.subtasks[lead].lease].agent == actor.id && now < db.leases[db.subtasks[lead].lease].expires
         && (var k := BoardKey(db.subtasks[lead].spec.mission, "lead-plan", lead);
             if expected == -1 then k !in db.board else k in db.board && db.board[k].version == expected)
      then
        var l, m := db.subtasks[lead].lease, db.subtasks[lead].spec.mission;
        var k := BoardKey(m, "lead-plan", lead);
        && r.1.Ok?
        && r.0 == db.(board := db.board[k := BoardEntry(m, "lead-plan", lead, value, expected + 1)], agents := r.0.agents,
                      leases := db.leases[l := db.leases[l].(expires := now + ttl)], events := r.0.events,
                      eventSeq := r.0.eventSeq)
      else !r.1.Ok? && r.0 == db
  {
    hide FencingOk, BoardKey, Refreshed;
  }
}
