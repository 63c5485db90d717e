/** What happens when time runs out for a wait, a decision, an offer or a renewed lease. */
module Deadlines {
  import opened Basics
  import opened StateMachine
  import opened Records
  import opened StoreSpec
  import opened Invariants
  import opened StoreOps
  import opened Orchestrator
  import opened Delegation
  import opened CallFrames
  import opened Charges
  import opened Outcomes
  import opened Sweeps

  // ---- waits ----

  /** The subtask waits for something that did not happen in time. */
  ghost predicate WaitedTooLong(sub: Subtask, now: int) {
    && sub.state == Waiting && sub.wake.Some? && sub.wake.value.deadline.Some?
    && sub.wake.value.deadline.value <= now
  }

  /** The wake sweep fails exactly the waits whose deadline has passed, drops their registrations, and moves
      nothing else. */
  lemma OverdueWaitsFail(db: DB, order: seq<string>, now: int)
    requires Inv(db) && Lists(order, db.subtasks.Keys)
    ensures var d := ExpireWakes(db, order, now);
      && d.subtasks.Keys == db.subtasks.Keys && d.missions == db.missions
      && (forall id :: id in db.subtasks ==>
            var sub := db.subtasks[id];
            d.subtasks[id] == if WaitedTooLong(sub, now) then sub.(state := Failed, version := sub.version + 1, wake := None) else sub)
      && (forall id :: id in d.subtasks ==> !WaitedTooLong(d.subtasks[id], now))
  {
    hide Inv, ExpireWakes, OwnKeys, Distinct, WakeExpired, WaitedTooLong;
    InvOwnKeys(db);
    WakesLand(db, order, now);
    WaitMeans(db, now);
    FailedWaitIsOver(now);
  }

  lemma WaitMeans(db: DB, now: int)
    ensures forall id :: WakeExpired(db, id, now) <==> id in db.subtasks && WaitedTooLong(db.subtasks[id], now)
  {}

  lemma FailedWaitIsOver(now: int)
    ensures forall sub: Subtask :: sub.state == Failed ==> !WaitedTooLong(sub, now)
  {}

  /** A wake-up is accepted exactly for a WAITING subtask at the expected version whose deadline has not passed;
      it is READY then, and its registration is gone. */
  lemma WakeInTime(db: DB, id: string, expected: int, actor: Actor, now: int)
    requires Inv(db)
    ensures var r := WakeSubtask(db, id, expected, actor, now);
      && (r.1.Ok? <==> id in db.subtasks && db.subtasks[id].state == Waiting && db.subtasks[id].version == expected
                       && !WaitedTooLong(db.subtasks[id], now))
      && (if r.1.Ok?
          then r.0.subtasks == db.subtasks[id := db.subtasks[id].(state := Ready, version := expected + 1, wake := None)]
          else r.0 == db)
  {
    hide Inv, Apply, WakeSubtask;
    if id in db.subtasks {
      SubtaskFacts(db, id);
      WakesOnlyWaiting(db.subtasks[id].state);
    }
    WakeUnfolds(db, id, expected, actor, now);
  }

  lemma WakeUnfolds(db: DB, id: string, expected: int, actor: Actor, now: int)
    requires id in db.subtasks ==> db.subtasks[id].id == id
    ensures var r := WakeSubtask(db, id, expected, actor, now);
      if id in db.subtasks && db.subtasks[id].version == expected && !Overdue(db.subtasks[id], now)
         && Apply(db.subtasks[id].state, EvWoken).Some?
      then r.1.Ok?
        && r.0 == db.(subtasks := db.subtasks[id := db.subtasks[id].(state := Ready, version := expected + 1, wake := None)],
                      events := r.0.events, eventSeq := r.0.eventSeq)
      else !r.1.Ok? && r.0 == db
  {
    hide Apply, Overdue;
  }

  lemma WakesOnlyWaiting(from: State)
    ensures Apply(from, EvWoken).Some? <==> from == Waiting
    ensures Apply(from, EvSuspended).Some? <==> from == Ready || from == Running
  {}

  // ---- decisions ----

  /** Nobody has decided in time. */
  ghost predicate Unanswered(d: Decision, now: int) { d.status == DPending && d.deadline.Some? && d.deadline.value <= now }

  /** What the order says about a missing answer. */
  function Presumed(d: Decision): Decision {
    match d.onTimeout
    case "auto_approve" => d.(status := DResolved, choice := "approve", decider := "system:timeout")
    case "auto_reject" => d.(status := DResolved, choice := "reject", decider := "system:timeout")
    case _ => d.(status := DExpired)
  }

  lemma ExpireOneDecision(db: DB, id: string, now: int)
    ensures var d := ExpireDecision(db, id, now);
      d == db.(decisions := d.decisions, events := d.events, eventSeq := d.eventSeq)
      && d.decisions == if id in db.decisions && Unanswered(db.decisions[id], now)
                        then db.decisions[id := Presumed(db.decisions[id])] else db.decisions
  {}

  lemma {:induction false} DecisionsClose(db: DB, order: seq<string>, now: int)
    requires Distinct(order)
    ensures var d := ExpireDecisions(db, order, now);
      && d == db.(decisions := d.decisions, events := d.events, eventSeq := d.eventSeq)
      && d.decisions.Keys == db.decisions.Keys
      && forall id :: id in db.decisions ==>
           d.decisions[id] == if id in order && Unanswered(db.decisions[id], now) then Presumed(db.decisions[id]) else db.decisions[id]
  {
    hide ExpireDecision, Presumed, Unanswered;
    if order != [] {
      var init, last := order[..|order| - 1], order[|order| - 1];
      assert order == init + [last] && last !in init;
      DecisionsClose(db, init, now);
      ExpireOneDecision(ExpireDecisions(db, init, now), last, now);
    }
  }

  /** The decision sweep settles exactly the unanswered decisions by what their orders say. */
  lemma UnansweredAreSettled(db: DB, order: seq<string>, now: int)
    requires Lists(order, db.decisions.Keys)
    ensures var d := ExpireDecisions(db, order, now);
      && d.decisions.Keys == db.decisions.Keys && d.subtasks == db.subtasks && d.missions == db.missions
      && (forall id :: id in db.decisions ==>
            d.decisions[id] == if Unanswered(db.decisions[id], now) then Presumed(db.decisions[id]) else db.decisions[id])
      && (forall id :: id in d.decisions ==> !Unanswered(d.decisions[id], now))
  {
    DecisionsClose(db, order, now);
    hide ExpireDecisions, Distinct;
  }

  /** Silence is rejection where the order says so: the sweep and the outcome after it fail the subtask and cut
      off what depends on it. */
  lemma SilenceRejects(db: DB, order: seq<string>, id: string, limits: Limits, actor: Actor, now: int, d: DB)
    requires Inv(db) && Lists(order, db.decisions.Keys) && Asked(db, id)
    requires Unanswered(db.decisions[id], now) && db.decisions[id].onTimeout == "auto_reject"
    requires Does(ExpireDecisions(db, order, now), DecisionOutcome(id), limits, actor, now, d)
    ensures var s := db.decisions[id].subtask;
      s in d.subtasks && d.subtasks[s].state == Failed && Severed(db, d, s)
  {
    hide Inv, ExpireDecisions, Does, Lists;
    ExpireDecisionsKeeps(db, order, now);
    UnansweredAreSettled(db, order, now);
    var e := ExpireDecisions(db, order, now);
    RejectionFails(e, id, limits, actor, now, d);
    SameSevered(db, e, d, db.decisions[id].subtask);
  }

  lemma SameSevered(db: DB, e: DB, d: DB, id: string)
    requires id in db.subtasks && e.subtasks == db.subtasks && Severed(e, d, id)
    ensures Severed(db, d, id)
  {
    assert forall x :: CutOff(e, d, x) <==> CutOff(db, d, x);
    hide CutOff, DependsOn;
  }

  /** ...and approval where it says that: an agent runs on, a human node is done. */
  lemma SilenceApproves(db: DB, order: seq<string>, id: string, limits: Limits, actor: Actor, now: int, d: DB)
    requires Inv(db) && Lists(order, db.decisions.Keys) && Asked(db, id)
    requires Unanswered(db.decisions[id], now) && db.decisions[id].onTimeout == "auto_approve"
    requires Does(ExpireDecisions(db, order, now), DecisionOutcome(id), limits, actor, now, d)
    ensures var s := db.decisions[id].subtask;
      s in d.subtasks && d.subtasks[s].state == if db.subtasks[s].spec.kind.Human() then Succeeded else Running
  {
    hide Inv, ExpireDecisions, Does, Lists, Unlocked;
    ExpireDecisionsKeeps(db, order, now);
    UnansweredAreSettled(db, order, now);
    var e := ExpireDecisions(db, order, now);
    if db.subtasks[db.decisions[id].subtask].spec.kind.Human() {
      ApprovalCompletes(e, id, limits, actor, now, d);
    } else {
      ApprovalResumes(e, id, limits, actor, now, d);
    }
  }

  // ---- the life of a lease ----

  /** An offer lasts exactly until its time to live is over: a sweep before leaves it alone, one at that moment
      or later takes it back. */
  lemma OfferLasts(db: DB, id: string, agent: string, expected: int, ttl: int, actor: Actor, start: int,
                   order: seq<string>, now: int)
    requires Inv(db) && OfferLease(db, id, agent, expected, ttl, actor, start).0.leaseSeq <= LEASE_SPACE
    requires OfferLease(db, id, agent, expected, ttl, actor, start).1.Ok?
    requires Lists(order, OfferLease(db, id, agent, expected, ttl, actor, start).0.leases.Keys)
    ensures var (given, lease) := OfferLease(db, id, agent, expected, ttl, actor, start);
      var d := ExpireLeases(given, order, now);
      && id in given.subtasks && given.subtasks[id].state == Offered && given.subtasks[id].assignee == agent
      && lease.value.id in d.leases && id in d.subtasks
      && (if now < start + ttl
          then d.subtasks[id] == given.subtasks[id] && d.leases[lease.value.id] == lease.value
          else d.subtasks[id].state == Ready && d.subtasks[id].assignee == "" && d.leases[lease.value.id].state == LExpired)
  {
    hide Inv, Grows, OfferLease, ExpireLeases, Lists;
    OfferLeaseKeeps(db, id, agent, expected, ttl, actor, start);
    OfferGives(db, id, agent, expected, ttl, actor, start);
    var given, lease := OfferLease(db, id, agent, expected, ttl, actor, start).0, OfferLease(db, id, agent, expected, ttl, actor, start).1.value;
    LeaseMeetsSweep(given, lease.id, order, now);
  }

  lemma OfferGives(db: DB, id: string, agent: string, expected: int, ttl: int, actor: Actor, start: int)
    requires Inv(db) && OfferLease(db, id, agent, expected, ttl, actor, start).1.Ok?
    ensures var r := OfferLease(db, id, agent, expected, ttl, actor, start);
      var lease := r.1.value;
      && id in db.subtasks
      && lease.subtask == id && lease.agent == agent && lease.state == LActive && lease.expires == start + ttl
      && lease.token == db.fencingSeq + 1
      && lease.id in r.0.leases && r.0.leases[lease.id] == lease
      && r.0.subtasks == db.subtasks[id := db.subtasks[id].(state := Offered, version := db.subtasks[id].version + 1,
                                                            assignee := agent, lease := lease.id)]
  {
    hide Inv, OfferLease, LeaseId, ContextOf, Incremented, Move, Log;
    OfferUnfolds(db, id, agent, expected, ttl, actor, start);
    SubtaskFacts(db, id);
    var sub, lid := db.subtasks[id], LeaseId(db.leaseSeq + 1);
    var lease := Lease(lid, id, agent, db.fencingSeq + 1, start + ttl, LActive, start);
    var extra := map["agent_id" := JStr(agent), "lease_id" := JStr(lid), "fencing_token" := JInt(lease.token)];
    var granted := Grant(db, lease, ContextOf(db, lid, sub).value);
    var taken := Moving(sub, Offered).(assignee := agent, lease := lid);
    MoveContents(granted, taken, EvLeaseOffered, extra, actor, start);
    LogContents(Move(granted, taken, EvLeaseOffered, extra, actor, start), id, sub.spec.mission, Other("context.materialized"),
                Plain(map["lease_id" := JStr(lid)]), System("context-builder"), start);
  }

  /** A sweep takes an offered or accepted subtask back exactly when the time of its ACTIVE lease is up. */
  lemma LeaseMeetsSweep(db: DB, l: string, order: seq<string>, now: int)
    requires Inv(db) && Lists(order, db.leases.Keys) && l in db.leases && db.leases[l].state == LActive
    requires var id := db.leases[l].subtask; id in db.subtasks && db.subtasks[id].state in {Offered, Leased}
    ensures var d, id := ExpireLeases(db, order, now), db.leases[l].subtask;
      && l in d.leases && id in d.subtasks
      && (if now < db.leases[l].expires then d.leases[l] == db.leases[l] && d.subtasks[id] == db.subtasks[id]
          else d.leases[l].state == LExpired && d.subtasks[id] == Returned(db.subtasks[id]))
  {
    hide Inv, ExpireLeases, Ended;
    ExpiryCloses(db, order, now);
    SparedByExpiry(db, ExpireLeases(db, order, now), order, now);
    AllOverdues(db, order, now);
    if db.leases[l].expires <= now {
      EndedOne(db, ExpireLeases(db, order, now), TimedOutLeases(db, now), l);
    }
  }

  lemma EndedOne(db: DB, d: DB, gone: set<string>, l: string)
    requires Ended(db, d, gone, LExpired) && l in gone
    ensures l in db.leases && l in d.leases && d.leases[l].state == LExpired
    ensures var id := db.leases[l].subtask; id in d.subtasks && id in db.subtasks && d.subtasks[id] == Returned(db.subtasks[id])
  {}

  /** So does a renewal, accepted exactly under the token of the ACTIVE lease. */
  lemma RenewalLasts(db: DB, l: string, token: int, ttl: int, start: int, order: seq<string>, now: int)
    requires Inv(db) && Lists(order, db.leases.Keys)
    ensures var r := RenewLease(db, l, token, ttl, start);
      && (r.1.Ok? <==> l in db.leases && db.leases[l].state == LActive && db.leases[l].token == token)
      && (!r.1.Ok? ==> r.0 == db)
      && (r.1.Ok? && db.leases[l].subtask in db.subtasks && db.subtasks[db.leases[l].subtask].state in {Offered, Leased} ==>
            var d, id := ExpireLeases(r.0, order, now), db.leases[l].subtask;
            && l in d.leases && id in d.subtasks
            && (if now < start + ttl then d.leases[l].state == LActive && d.subtasks[id] == db.subtasks[id]
                else d.leases[l].state == LExpired && d.subtasks[id] == Returned(db.subtasks[id])))
  {
    hide Inv, Grows, ExpireLeases;
    RenewLeaseKeeps(db, l, token, ttl, start);
    var r := RenewLease(db, l, token, ttl, start);
    if r.1.Ok? && db.leases[l].subtask in db.subtasks && db.subtasks[db.leases[l].subtask].state in {Offered, Leased} {
      assert r.0 == db.(leases := db.leases[l := db.leases[l].(expires := start + ttl)]);
      assert r.0.leases.Keys == db.leases.Keys;
      hide RenewLease;
      LeaseMeetsSweep(r.0, l, order, now);
    }
  }
}
