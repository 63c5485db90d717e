/** What the sweepers of internal/store/memory/memory.go do to a whole reachable state, told by states, expiry
    times and deadlines alone. */
module Sweeps {
  import opened Basics
  import opened StateMachine
  import opened Records
  import opened StoreSpec
  import opened Leases
  import opened Invariants
  import opened StoreOps

  // ---- expired leases ----

  /** The subtask is unassigned and READY again, one version later. */
  function Returned(sub: Subtask): Subtask {
    sub.(state := Ready, version := sub.version + 1, assignee := "", lease := "")
  }

  /** A sweep writes subtasks, leases, counters and the log. */
  ghost predicate LeaseSide(db: DB, d: DB) {
    && d == db.(subtasks := d.subtasks, leases := d.leases, agents := d.agents, events := d.events, eventSeq := d.eventSeq)
    && d.subtasks.Keys == db.subtasks.Keys && d.leases.Keys == db.leases.Keys && d.agents.Keys == db.agents.Keys
  }

  /** Only the counters of the agents move. */
  ghost predicate OnlyCounters(a: map<string, Agent>, b: map<string, Agent>) {
    a.Keys == b.Keys && forall x :: x in a ==> b[x] == a[x].(running := b[x].running)
  }

  /** Exactly these leases have been retired to the state `to`, and their subtasks are READY again. */
  ghost predicate Ended(db: DB, d: DB, gone: set<string>, to: LeaseState) {
    && LeaseSide(db, d) && gone <= db.leases.Keys
    && (forall l :: l in db.leases ==> d.leases[l] == if l in gone then db.leases[l].(state := to) else db.leases[l])
    && (forall l :: l in gone ==> var id := db.leases[l].subtask; id in db.subtasks && d.subtasks[id] == Returned(db.subtasks[id]))
    && (forall id :: id in db.subtasks && (forall l :: l in gone ==> db.leases[l].subtask != id) ==>
          d.subtasks[id] == db.subtasks[id])
  }

  lemma NothingEnded(db: DB, to: LeaseState)
    ensures Ended(db, db, {}, to)
  {}

  /** One more lease, on a subtask of its own. */
  lemma OneMoreEnded(db: DB, mid: DB, d: DB, gone: set<string>, l: string, to: LeaseState)
    requires Ended(db, mid, gone, to) && l in db.leases && l !in gone && db.leases[l].subtask in db.subtasks
    requires forall k :: k in gone ==> db.leases[k].subtask != db.leases[l].subtask
    requires LeaseSide(mid, d) && d.leases == mid.leases[l := mid.leases[l].(state := to)]
    requires var id := db.leases[l].subtask; d.subtasks == mid.subtasks[id := Returned(mid.subtasks[id])]
    ensures Ended(db, d, gone + {l}, to)
  {}

  lemma CountersChain(a: map<string, Agent>, b: map<string, Agent>, c: map<string, Agent>)
    requires OnlyCounters(a, b) && OnlyCounters(b, c)
    ensures OnlyCounters(a, c)
  {}

  /** The leases of a listing that the sweep retires. */
  ghost function Overdues(db: DB, order: seq<string>, now: int): set<string> {
    set l | l in order && Expirable(db, l, now)
  }

  lemma ExpireOneEffect(db: DB, l: string, now: int)
    requires Inv(db) && Expirable(db, l, now)
    ensures var id, d := db.leases[l].subtask, ExpireLease(db, l, now);
      && LeaseSide(db, d) && OnlyCounters(db.agents, d.agents)
      && d.leases == db.leases[l := db.leases[l].(state := LExpired)]
      && d.subtasks == db.subtasks[id := Returned(db.subtasks[id])]
  {
    hide Inv, Decremented, OnlyCounters;
    SubtaskFacts(db, db.leases[l].subtask);
    DecrementedCounters(db.agents, db.leases[l].agent);
    hide Expirable;
    ExpireUnfolds(db, l, now);
    hide ExpireLease;
  }

  lemma DecrementedCounters(agents: map<string, Agent>, a: string)
    ensures OnlyCounters(agents, Decremented(agents, a)) && Decremented(agents, a).Keys == agents.Keys
  {}

  lemma ExpireUnfolds(db: DB, l: string, now: int)
    requires Expirable(db, l, now) && db.subtasks[db.leases[l].subtask].id == db.leases[l].subtask
    ensures var id, d := db.leases[l].subtask, ExpireLease(db, l, now);
      d == db.(subtasks := db.subtasks[id := Returned(db.subtasks[id])], leases := db.leases[l := db.leases[l].(state := LExpired)],
               agents := Decremented(db.agents, db.leases[l].agent), events := d.events, eventSeq := d.eventSeq)
  {
    hide Decremented;
  }

  /** No two leases of a sweep are on the same subtask. */
  lemma SubtasksDiffer(db: DB, a: string, b: string)
    requires Inv(db) && a in db.leases && b in db.leases && a != b
    requires db.leases[a].state == LActive && db.leases[b].state == LActive
    ensures db.leases[a].subtask != db.leases[b].subtask
  {}

  lemma SameCounters0(a: map<string, Agent>)
    ensures OnlyCounters(a, a)
  {}

  lemma {:induction false} ExpiryCloses(db: DB, order: seq<string>, now: int)
    requires Inv(db) && Distinct(order)
    ensures var d := ExpireLeases(db, order, now);
      Ended(db, d, Overdues(db, order, now), LExpired) && OnlyCounters(db.agents, d.agents)
  {
    hide Inv, Grows, Ended, ExpireLease, LeaseSide, OnlyCounters, Expirable;
    if order == [] {
      NothingEnded(db, LExpired);
      SameCounters0(db.agents);
      assert Overdues(db, order, now) == {};
    } else {
      var init := order[..|order| - 1];
      ExpiryCloses(db, init, now);
      ExpireLeasesKeeps(db, init, now);
      OverduesMore(db, order, now);
      ExpiryStep(db, ExpireLeases(db, init, now), Overdues(db, init, now), order[|order| - 1], now);
    }
  }

  /** Whether a lease is expired does not depend on the ones before. */
  lemma ExpiryStep(db: DB, mid: DB, gone: set<string>, l: string, now: int)
    requires Inv(db) && Inv(mid) && Ended(db, mid, gone, LExpired) && OnlyCounters(db.agents, mid.agents)
    requires l !in gone && forall k :: k in gone ==> Expirable(db, k, now)
    ensures var d := ExpireLease(mid, l, now);
      && Ended(db, d, gone + (if Expirable(db, l, now) then {l} else {}), LExpired)
      && OnlyCounters(db.agents, d.agents)
  {
    hide Inv, Ended, LeaseSide, OnlyCounters, Expirable, ExpireLease;
    LastIsSame(db, mid, gone, l, now);
    if Expirable(db, l, now) {
      var d := ExpireLease(mid, l, now);
      LastFits(db, mid, gone, l, now);
      ExpireOneEffect(mid, l, now);
      OneMoreEnded(db, mid, d, gone, l, LExpired);
      CountersChain(db.agents, mid.agents, d.agents);
    } else {
      NotExpired(mid, l, now);
      assert gone + {} == gone;
    }
  }

  lemma NotExpired(db: DB, l: string, now: int)
    requires !Expirable(db, l, now)
    ensures ExpireLease(db, l, now) == db
  {}

  lemma OverduesMore(db: DB, order: seq<string>, now: int)
    requires order != [] && Distinct(order)
    ensures var init, l := order[..|order| - 1], order[|order| - 1];
      && l !in Overdues(db, init, now)
      && Overdues(db, order, now) == Overdues(db, init, now) + if Expirable(db, l, now) then {l} else {}
  {
    hide Expirable;
    var init, l := order[..|order| - 1], order[|order| - 1];
    assert order == init + [l];
    assert l !in init;
  }

  lemma LastIsSame(db: DB, mid: DB, gone: set<string>, l: string, now: int)
    requires Inv(db) && Ended(db, mid, gone, LExpired) && l !in gone
    requires forall k :: k in gone ==> Expirable(db, k, now)
    ensures Expirable(mid, l, now) <==> Expirable(db, l, now)
  {
    hide Inv, Expirable, LeaseSide;
    EndedKeys(db, mid, gone, LExpired);
    if l in db.leases && db.leases[l].state == LActive {
      ExpirableAreActive(db, gone, now);
      forall k | k in gone ensures db.leases[k].subtask != db.leases[l].subtask {
        SubtasksDiffer(db, k, l);
      }
      LeaseFacts(db, l);
      SameExpirable(db, mid, l, now);
    } else {
      NotActive(db, l, now);
      NotActive(mid, l, now);
    }
  }

  lemma ExpirableAreActive(db: DB, gone: set<string>, now: int)
    requires forall k :: k in gone ==> Expirable(db, k, now)
    ensures forall k :: k in gone ==> k in db.leases && db.leases[k].state == LActive
  {}

  lemma NotActive(db: DB, l: string, now: int)
    requires !(l in db.leases && db.leases[l].state == LActive)
    ensures !Expirable(db, l, now)
  {}

  lemma EndedKeys(db: DB, d: DB, gone: set<string>, to: LeaseState)
    requires Ended(db, d, gone, to)
    ensures d.leases.Keys == db.leases.Keys && d.subtasks.Keys == db.subtasks.Keys
  {}

  lemma SameExpirable(db: DB, d: DB, l: string, now: int)
    requires l in db.leases && l in d.leases && d.leases[l] == db.leases[l]
    requires var id := db.leases[l].subtask; id in db.subtasks && id in d.subtasks && d.subtasks[id] == db.subtasks[id]
    ensures Expirable(d, l, now) <==> Expirable(db, l, now)
  {}

  lemma LastFits(db: DB, mid: DB, gone: set<string>, l: string, now: int)
    requires Inv(db) && Ended(db, mid, gone, LExpired) && l !in gone && Expirable(db, l, now)
    requires forall k :: k in gone ==> Expirable(db, k, now)
    ensures l in db.leases && db.leases[l].subtask in db.subtasks && mid.leases[l] == db.leases[l]
    ensures forall k :: k in gone ==> db.leases[k].subtask != db.leases[l].subtask
  {
    hide Inv, LeaseSide;
    forall k | k in gone ensures db.leases[k].subtask != db.leases[l].subtask {
      SubtasksDiffer(db, k, l);
    }
  }

  // ---- stale leads ----

  /** Counters move, and these agents come under suspicion unless they are marked down. */
  ghost predicate CountersAndSuspicion(a: map<string, Agent>, b: map<string, Agent>, suspects: set<string>) {
    && a.Keys == b.Keys
    && forall x :: x in a ==>
      b[x] == a[x].(running := b[x].running,
                    health := if x in suspects && a[x].health != "down" then "suspect" else a[x].health)
  }

  lemma NoSuspects(a: map<string, Agent>)
    ensures CountersAndSuspicion(a, a, {})
  {}

  lemma OneMoreSuspect(a: map<string, Agent>, b: map<string, Agent>, suspects: set<string>, x: string)
    requires CountersAndSuspicion(a, b, suspects)
    ensures CountersAndSuspicion(a, Suspected(Decremented(b, x), x), suspects + {x})
  {}

  ghost function Holders(leases: map<string, Lease>, gone: set<string>): set<string> {
    set l | l in gone && l in leases :: leases[l].agent
  }

  lemma HoldersMore(leases: map<string, Lease>, gone: set<string>, l: string)
    requires l in leases
    ensures Holders(leases, gone + {l}) == Holders(leases, gone) + {leases[l].agent}
  {}

  ghost function LeaseOf(db: DB, id: string): string { if id in db.subtasks then db.subtasks[id].lease else "" }

  /** The leases of the stale leads of a listing. */
  ghost function Fallen(db: DB, order: seq<string>, now: int): set<string> {
    set l | l in db.leases && db.leases[l].subtask in order && OwnStale(db, l, now)
  }

  ghost predicate OwnStale(db: DB, l: string, now: int)
    requires l in db.leases
  {
    Stale(db, db.leases[l].subtask, now) && LeaseOf(db, db.leases[l].subtask) == l
  }

  lemma FallenMore(db: DB, order: seq<string>, now: int)
    requires Inv(db) && order != [] && Distinct(order)
    ensures var init, id := order[..|order| - 1], order[|order| - 1];
      && Fallen(db, order, now) == Fallen(db, init, now) + (if Stale(db, id, now) then {LeaseOf(db, id)} else {})
      && (Stale(db, id, now) ==> LeaseOf(db, id) !in Fallen(db, init, now))
  {
    hide Inv, Stale, LeaseOf;
    var init, id := order[..|order| - 1], order[|order| - 1];
    assert order == init + [id];
    assert id !in init;
    if Stale(db, id, now) {
      StaleFacts(db, id, now);
      assert OwnStale(db, LeaseOf(db, id), now);
    }
  }

  /** The lease of a stale lead is its own. */
  lemma StaleFacts(db: DB, id: string, now: int)
    requires Inv(db) && Stale(db, id, now)
    ensures id in db.subtasks && db.subtasks[id].id == id && LeaseOf(db, id) == db.subtasks[id].lease
    ensures var l := LeaseOf(db, id);
      l in db.leases && db.leases[l].subtask == id && db.leases[l].state == LActive && db.leases[l].expires <= now
  {
    SubtaskFacts(db, id);
  }

  lemma FallenAreActive(db: DB, order: seq<string>, now: int)
    requires Inv(db)
    ensures forall l :: l in Fallen(db, order, now) ==>
      && l in db.leases && db.leases[l].state == LActive && db.leases[l].subtask in order && db.leases[l].subtask in db.subtasks
      && db.subtasks[db.leases[l].subtask].lease == l && Stale(db, db.leases[l].subtask, now)
  {
    hide Inv, Stale, LeaseOf;
    forall l | l in Fallen(db, order, now)
      ensures db.leases[l].state == LActive && db.leases[l].subtask in db.subtasks
      ensures db.subtasks[db.leases[l].subtask].lease == l
    {
      StaleFacts(db, db.leases[l].subtask, now);
    }
  }

  lemma TakeoverOneEffect(db: DB, id: string, now: int)
    requires Inv(db) && Stale(db, id, now)
    ensures var l, d := LeaseOf(db, id), TakeoverLead(db, id, now);
      && id in db.subtasks && l in db.leases
      && LeaseSide(db, d) && d.agents == Suspected(Decremented(db.agents, db.leases[l].agent), db.leases[l].agent)
      && d.leases == db.leases[l := db.leases[l].(state := LFenced)]
      && d.subtasks == db.subtasks[id := Returned(db.subtasks[id])]
  {
    hide Inv, Stale, Decremented, Suspected;
    StaleFacts(db, id, now);
    TakeoverUnfolds(db, id, now);
    SuspectKeys(db.agents, db.leases[LeaseOf(db, id)].agent);
    hide TakeoverLead;
  }

  lemma TakeoverUnfolds(db: DB, id: string, now: int)
    requires Stale(db, id, now) && db.subtasks[id].id == id
    ensures var l, d := LeaseOf(db, id), TakeoverLead(db, id, now);
      && id in db.subtasks && l in db.leases
      && d == db.(subtasks := db.subtasks[id := Returned(db.subtasks[id])], leases := db.leases[l := db.leases[l].(state := LFenced)],
                  agents := Suspected(Decremented(db.agents, db.leases[l].agent), db.leases[l].agent),
                  events := d.events, eventSeq := d.eventSeq)
  {
    hide Decremented, Suspected, IsLead;
  }

  lemma SuspectKeys(agents: map<string, Agent>, x: string)
    ensures Suspected(Decremented(agents, x), x).Keys == agents.Keys
  {}

  /** Nothing that makes a lead changes. */
  lemma SameLeads(db: DB, d: DB, gone: set<string>, to: LeaseState, sub: Subtask)
    requires Ended(db, d, gone, to)
    ensures IsLead(d, sub) <==> IsLead(db, sub)
  {
    hide BoardKey;
    forall c | c in db.subtasks ensures d.subtasks[c].spec == db.subtasks[c].spec {
      if l :| l in gone && db.leases[l].subtask == c {
      }
    }
  }

  lemma SameStale(db: DB, d: DB, id: string, now: int)
    requires Inv(db) && id in db.subtasks && id in d.subtasks && d.subtasks[id] == db.subtasks[id]
    requires d.leases.Keys == db.leases.Keys
    requires var l := db.subtasks[id].lease; l in db.leases ==> d.leases[l] == db.leases[l]
    requires IsLead(d, db.subtasks[id]) <==> IsLead(db, db.subtasks[id])
    ensures Stale(d, id, now) <==> Stale(db, id, now)
  {
    hide Inv, IsLead;
  }

  lemma TakeoverStep(db: DB, mid: DB, gone: set<string>, id: string, now: int)
    requires Inv(db) && Inv(mid) && Ended(db, mid, gone, LFenced)
    requires CountersAndSuspicion(db.agents, mid.agents, Holders(db.leases, gone))
    requires Stale(db, id, now) ==> LeaseOf(db, id) !in gone
    requires forall l :: l in gone ==>
      && l in db.leases && db.leases[l].state == LActive && db.leases[l].subtask in db.subtasks
      && db.subtasks[db.leases[l].subtask].lease == l && db.leases[l].subtask != id
    ensures var d := TakeoverLead(mid, id, now);
      var more := gone + (if Stale(db, id, now) then {LeaseOf(db, id)} else {});
      Ended(db, d, more, LFenced) && CountersAndSuspicion(db.agents, d.agents, Holders(db.leases, more))
  {
    hide Inv, Ended, LeaseSide, CountersAndSuspicion, Stale, TakeoverLead;
    StaleStays(db, mid, gone, id, now);
    if Stale(db, id, now) {
      var d, l := TakeoverLead(mid, id, now), LeaseOf(db, id);
      StaleFacts(db, id, now);
      StaleFacts(mid, id, now);
      TakeoverOneEffect(mid, id, now);
      EndedAt(db, mid, gone, LFenced, id);
      OneMoreEnded(db, mid, d, gone, l, LFenced);
      OneMoreSuspect(db.agents, mid.agents, Holders(db.leases, gone), db.leases[l].agent);
      HoldersMore(db.leases, gone, l);
    } else {
      NotStale(mid, id, now);
      assert gone + {} == gone;
    }
  }

  lemma NotStale(db: DB, id: string, now: int)
    requires !Stale(db, id, now)
    ensures TakeoverLead(db, id, now) == db
  {}

  lemma EndedAt(db: DB, d: DB, gone: set<string>, to: LeaseState, id: string)
    requires Ended(db, d, gone, to) && id in db.subtasks && forall l :: l in gone ==> db.leases[l].subtask != id
    ensures id in d.subtasks && d.subtasks[id] == db.subtasks[id]
    ensures var l := db.subtasks[id].lease; l in db.leases && l !in gone ==> l in d.leases && d.leases[l] == db.leases[l]
  {}

  lemma StaleStays(db: DB, mid: DB, gone: set<string>, id: string, now: int)
    requires Inv(db) && Ended(db, mid, gone, LFenced)
    requires forall l :: l in gone ==>
      && l in db.leases && db.leases[l].subtask in db.subtasks
      && db.subtasks[db.leases[l].subtask].lease == l && db.leases[l].subtask != id
    ensures Stale(mid, id, now) <==> Stale(db, id, now)
  {
    EndedKeys(db, mid, gone, LFenced);
    hide Inv, Stale, IsLead;
    if id in db.subtasks {
      OwnLeases(db, gone, id);
      EndedAt(db, mid, gone, LFenced, id);
      SameLeads(db, mid, gone, LFenced, db.subtasks[id]);
      hide Ended;
      SameStale(db, mid, id, now);
    } else {
      UnknownIsNotStale(db, id, now);
      UnknownIsNotStale(mid, id, now);
    }
  }

  lemma UnknownIsNotStale(db: DB, id: string, now: int)
    requires id !in db.subtasks
    ensures !Stale(db, id, now)
  {}

  lemma OwnLeases(db: DB, gone: set<string>, id: string)
    requires Inv(db) && id in db.subtasks
    requires forall l :: l in gone ==> l in db.leases && db.leases[l].subtask != id
    ensures db.subtasks[id].lease !in gone
  {
    SubtaskFacts(db, id);
    NoEmptyLease(db);
  }

  lemma {:induction false} TakeoverCloses(db: DB, order: seq<string>, now: int)
    requires Inv(db) && Distinct(order)
    ensures var d, gone := TakeoverStaleLeads(db, order, now), Fallen(db, order, now);
      Ended(db, d, gone, LFenced) && CountersAndSuspicion(db.agents, d.agents, Holders(db.leases, gone))
  {
    hide Inv, Grows, Ended, TakeoverLead, LeaseSide, CountersAndSuspicion, Stale;
    if order == [] {
      NothingEnded(db, LFenced);
      NoSuspects(db.agents);
      assert Fallen(db, order, now) == {} && Holders(db.leases, {}) == {};
    } else {
      var init, id := order[..|order| - 1], order[|order| - 1];
      TakeoverCloses(db, init, now);
      TakeoverStaleLeadsKeeps(db, init, now);
      FallenMore(db, order, now);
      FallenAreActive(db, init, now);
      assert order == init + [id] && id !in init;
      TakeoverStep(db, TakeoverStaleLeads(db, init, now), Fallen(db, init, now), id, now);
    }
  }

  // ---- the promises of the lease sweep ----

  /** After the sweep nobody sits on an offer or an accepted lease whose time is up. */
  lemma NoOfferOverstays(db: DB, order: seq<string>, now: int)
    requires Inv(db) && Lists(order, db.leases.Keys)
    ensures var d := ExpireLeases(db, order, now);
      forall id :: id in d.subtasks && (d.subtasks[id].state == Offered || d.subtasks[id].state == Leased) ==>
        var l := d.subtasks[id].lease; l in d.leases && d.leases[l].state == LActive ==> now < d.leases[l].expires
  {
    hide Inv, Grows, ExpireLeases, TakeoverStaleLeads;
    ExpiryCloses(db, order, now);
    ExpireLeasesKeeps(db, order, now);
    AfterExpiry(db, ExpireLeases(db, order, now), order, now);
  }

  lemma AfterExpiry(db: DB, d: DB, order: seq<string>, now: int)
    requires Inv(db) && Inv(d) && Lists(order, db.leases.Keys) && Ended(db, d, Overdues(db, order, now), LExpired)
    ensures forall id :: id in d.subtasks && (d.subtasks[id].state == Offered || d.subtasks[id].state == Leased) ==>
      var l := d.subtasks[id].lease; l in d.leases && d.leases[l].state == LActive ==> now < d.leases[l].expires
  {
    hide Inv;
    forall id | id in d.subtasks && (d.subtasks[id].state == Offered || d.subtasks[id].state == Leased)
        && d.subtasks[id].lease in d.leases && d.leases[d.subtasks[id].lease].state == LActive
      ensures now < d.leases[d.subtasks[id].lease].expires
    {
      var l := d.subtasks[id].lease;
      SubtaskFacts(d, id);
      LeaseNamed(d, l);
      EndedKept(db, d, Overdues(db, order, now), LExpired, id, l);
      assert l !in Overdues(db, order, now);
    }
  }

  /** What still has an ACTIVE lease after a sweep had it before, and is as it was. */
  lemma EndedKept(db: DB, d: DB, gone: set<string>, to: LeaseState, id: string, l: string)
    requires Ended(db, d, gone, to) && to != LActive && id in d.subtasks && d.subtasks[id].lease == l && l != ""
    requires l in d.leases && d.leases[l].state == LActive && d.leases[l].subtask == id
    ensures l !in gone && l in db.leases && d.leases[l] == db.leases[l]
    ensures id in db.subtasks && d.subtasks[id] == db.subtasks[id]
  {
    forall k | k in gone ensures db.leases[k].subtask != id {}
  }

  /** A lease whose time is not up stays, and so does its subtask; work that has started, and everything else
      that is neither offered nor accepted, stays whatever its lease says. */
  lemma UnexpiredLeasesStay(db: DB, order: seq<string>, now: int)
    requires Inv(db) && Lists(order, db.leases.Keys)
    ensures var d := ExpireLeases(db, order, now);
      && (forall l :: l in db.leases && db.leases[l].state == LActive && now < db.leases[l].expires ==>
            && l in d.leases && d.leases[l] == db.leases[l]
            && db.leases[l].subtask in d.subtasks && db.leases[l].subtask in db.subtasks
            && d.subtasks[db.leases[l].subtask] == db.subtasks[db.leases[l].subtask])
      && (forall id :: id in db.subtasks && db.subtasks[id].state != Offered && db.subtasks[id].state != Leased ==>
            id in d.subtasks && d.subtasks[id] == db.subtasks[id])
      && LeaseSide(db, d) && OnlyCounters(db.agents, d.agents)
  {
    hide Inv, Grows, ExpireLeases, TakeoverStaleLeads;
    ExpiryCloses(db, order, now);
    SparedByExpiry(db, ExpireLeases(db, order, now), order, now);
  }

  lemma SparedByExpiry(db: DB, d: DB, order: seq<string>, now: int)
    requires Inv(db) && Lists(order, db.leases.Keys) && Ended(db, d, Overdues(db, order, now), LExpired)
    ensures forall l :: l in db.leases && db.leases[l].state == LActive && now < db.leases[l].expires ==>
      && l in d.leases && d.leases[l] == db.leases[l]
      && db.leases[l].subtask in d.subtasks && db.leases[l].subtask in db.subtasks
      && d.subtasks[db.leases[l].subtask] == db.subtasks[db.leases[l].subtask]
    ensures forall id :: id in db.subtasks && db.subtasks[id].state != Offered && db.subtasks[id].state != Leased ==>
      id in d.subtasks && d.subtasks[id] == db.subtasks[id]
  {
    hide Inv;
    var gone := Overdues(db, order, now);
    forall l | l in db.leases && db.leases[l].state == LActive && now < db.leases[l].expires
      ensures d.leases[l] == db.leases[l] && db.leases[l].subtask in db.subtasks
      ensures d.subtasks[db.leases[l].subtask] == db.subtasks[db.leases[l].subtask]
    {
      LeaseFacts(db, l);
      assert l !in gone;
      forall k | k in gone ensures db.leases[k].subtask != db.leases[l].subtask {
        SubtasksDiffer(db, k, l);
      }
    }
  }

  /** An offered or accepted lease whose time is up ends as EXPIRED, its subtask goes back to READY without
      agent or lease, and each holder's counter falls by the number of such leases it held. */
  lemma ExpiredLeasesEnd(db: DB, order: seq<string>, now: int)
    requires Inv(db) && Lists(order, db.leases.Keys)
    ensures var d := ExpireLeases(db, order, now);
      && (forall l :: l in TimedOutLeases(db, now) ==>
            && l in d.leases && d.leases[l] == db.leases[l].(state := LExpired)
            && db.leases[l].subtask in d.subtasks
            && d.subtasks[db.leases[l].subtask] == Returned(db.subtasks[db.leases[l].subtask]))
      && (forall a :: a in db.agents ==>
            a in d.agents && d.agents[a].running == db.agents[a].running - |HeldBy(db, TimedOutLeases(db, now), a)|)
  {
    hide Inv, Grows, ExpireLeases, TakeoverStaleLeads;
    ExpiryCloses(db, order, now);
    ExpireLeasesKeeps(db, order, now);
    AllOverdues(db, order, now);
    var d := ExpireLeases(db, order, now);
    EndedCounts(db, d, TimedOutLeases(db, now), LExpired);
  }

  ghost function TimedOutLeases(db: DB, now: int): set<string> {
    set l | l in db.leases && db.leases[l].state == LActive && db.leases[l].expires <= now
      && db.leases[l].subtask in db.subtasks && db.subtasks[db.leases[l].subtask].state in {Offered, Leased}
  }

  ghost function HeldBy(db: DB, ls: set<string>, a: string): set<string> {
    set l | l in ls && l in db.leases && db.leases[l].agent == a
  }

  lemma AllOverdues(db: DB, order: seq<string>, now: int)
    requires Lists(order, db.leases.Keys)
    ensures Overdues(db, order, now) == TimedOutLeases(db, now)
  {}

  lemma EndedCounts(db: DB, d: DB, gone: set<string>, to: LeaseState)
    requires Inv(db) && Inv(d) && Ended(db, d, gone, to) && to != LActive
    requires forall l :: l in gone ==> db.leases[l].state == LActive
    ensures forall a :: a in db.agents ==>
      a in d.agents && d.agents[a].running == db.agents[a].running - |HeldBy(db, gone, a)|
  {
    Counters(db);
    Counters(d);
    hide Inv;
    forall a | a in db.agents ensures d.agents[a].running == db.agents[a].running - |HeldBy(db, gone, a)| {
      hide CountInv;
      ActiveRest(db, d, gone, to, a);
    }
  }

  lemma Counters(db: DB)
    requires Inv(db)
    ensures forall a :: a in db.agents ==> db.agents[a].running == |ActiveOf(db.leases, a)|
  {}

  lemma ActiveRest(db: DB, d: DB, gone: set<string>, to: LeaseState, a: string)
    requires Ended(db, d, gone, to) && to != LActive && forall l :: l in gone ==> db.leases[l].state == LActive
    ensures |ActiveOf(d.leases, a)| == |ActiveOf(db.leases, a)| - |HeldBy(db, gone, a)|
  {
    EndedLeases(db, d, gone, to);
    hide Ended;
    assert ActiveOf(d.leases, a) == ActiveOf(db.leases, a) - HeldBy(db, gone, a);
    assert HeldBy(db, gone, a) <= ActiveOf(db.leases, a);
  }

  lemma EndedLeases(db: DB, d: DB, gone: set<string>, to: LeaseState)
    requires Ended(db, d, gone, to)
    ensures d.leases.Keys == db.leases.Keys && gone <= db.leases.Keys
    ensures forall l :: l in db.leases ==> d.leases[l].agent == db.leases[l].agent
    ensures forall l :: l in db.leases ==> d.leases[l].state == if l in gone then to else db.leases[l].state
  {
  }

  // ---- the promises of the takeover ----

  /** It coordinates others: it has saved a snapshot, or somebody was delegated under it. */
  ghost predicate Coordinates(db: DB, id: string) {
    id in db.subtasks &&
    (BoardKey(db.subtasks[id].spec.mission, "lead-plan", id) in db.board
     || exists c :: c in db.subtasks && db.subtasks[c].spec.parent == id)
  }

  /** The leases under which a coordinating subtask is RUNNING although their time is up. */
  ghost function StaleLeases(db: DB, now: int): set<string> {
    set l | l in db.leases && db.leases[l].state == LActive && db.leases[l].expires <= now
      && db.leases[l].subtask in db.subtasks && db.subtasks[db.leases[l].subtask].state == Running
      && db.subtasks[db.leases[l].subtask].lease == l && Coordinates(db, db.leases[l].subtask)
  }

  lemma AllFallen(db: DB, order: seq<string>, now: int)
    requires Inv(db) && Lists(order, db.subtasks.Keys)
    ensures Fallen(db, order, now) == StaleLeases(db, now)
  {
    hide Inv, Coordinates, Stale, IsLead;
    forall l | l in db.leases ensures l in Fallen(db, order, now) <==> l in StaleLeases(db, now) {
      LeaseFacts(db, l);
      LeaseNamed(db, l);
      SubtaskFacts(db, db.leases[l].subtask);
      LeadsCoordinate(db, db.leases[l].subtask);
      StaleMeans(db, l, now);
    }
  }

  lemma LeadsCoordinate(db: DB, id: string)
    requires id in db.subtasks && db.subtasks[id].id == id
    ensures IsLead(db, db.subtasks[id]) <==> Coordinates(db, id)
  {
    hide BoardKey;
  }

  lemma StaleMeans(db: DB, l: string, now: int)
    requires l in db.leases && l != "" && db.leases[l].subtask in db.subtasks
    ensures OwnStale(db, l, now) <==>
      && db.leases[l].state == LActive && db.leases[l].expires <= now
      && db.subtasks[db.leases[l].subtask].state == Running && db.subtasks[db.leases[l].subtask].lease == l
      && IsLead(db, db.subtasks[db.leases[l].subtask])
  {
    hide IsLead;
  }

  /** After the sweep no coordinating subtask is RUNNING under a lease whose time is up. */
  lemma NoLeadOverstays(db: DB, order: seq<string>, now: int)
    requires Inv(db) && Lists(order, db.subtasks.Keys)
    ensures var d := TakeoverStaleLeads(db, order, now);
      forall id :: id in d.subtasks && d.subtasks[id].state == Running && Coordinates(d, id) ==>
        var l := d.subtasks[id].lease; l in d.leases && d.leases[l].state == LActive ==> now < d.leases[l].expires
  {
    hide Inv, Grows, ExpireLeases, TakeoverStaleLeads;
    TakeoverCloses(db, order, now);
    AllFallen(db, order, now);
    TakeoverStaleLeadsKeeps(db, order, now);
    AfterTakeover(db, TakeoverStaleLeads(db, order, now), now);
  }

  lemma AfterTakeover(db: DB, d: DB, now: int)
    requires Inv(db) && Inv(d) && Ended(db, d, StaleLeases(db, now), LFenced)
    ensures forall id :: id in d.subtasks && d.subtasks[id].state == Running && Coordinates(d, id) ==>
      var l := d.subtasks[id].lease; l in d.leases && d.leases[l].state == LActive ==> now < d.leases[l].expires
  {
    hide Inv, Coordinates;
    forall id | id in d.subtasks && d.subtasks[id].state == Running && Coordinates(d, id)
        && d.subtasks[id].lease in d.leases && d.leases[d.subtasks[id].lease].state == LActive
      ensures now < d.leases[d.subtasks[id].lease].expires
    {
      var l := d.subtasks[id].lease;
      SubtaskFacts(d, id);
      LeaseNamed(d, l);
      EndedKept(db, d, StaleLeases(db, now), LFenced, id, l);
      SameCoordination(db, d, StaleLeases(db, now), LFenced, id);
      assert l !in StaleLeases(db, now);
    }
  }

  lemma SameCoordination(db: DB, d: DB, gone: set<string>, to: LeaseState, id: string)
    requires Ended(db, d, gone, to) && id in db.subtasks
    ensures Coordinates(d, id) <==> Coordinates(db, id)
  {
    hide BoardKey;
    forall c | c in db.subtasks ensures d.subtasks[c].spec == db.subtasks[c].spec {
      if l :| l in gone && db.leases[l].subtask == c {
      }
    }
  }

  /** Everybody else stays: under a lease whose time is not up, not RUNNING, or coordinating nobody. */
  lemma OtherWorkStays(db: DB, order: seq<string>, now: int)
    requires Inv(db) && Lists(order, db.subtasks.Keys)
    ensures var d := TakeoverStaleLeads(db, order, now);
      && (forall l :: l in db.leases && l !in StaleLeases(db, now) ==> l in d.leases && d.leases[l] == db.leases[l])
      && (forall id :: id in db.subtasks && db.subtasks[id].lease !in StaleLeases(db, now) ==>
            id in d.subtasks && d.subtasks[id] == db.subtasks[id])
      && LeaseSide(db, d)
  {
    hide Inv, Grows, ExpireLeases, TakeoverStaleLeads;
    TakeoverCloses(db, order, now);
    AllFallen(db, order, now);
    hide TakeoverStaleLeads;
  }

  /** A stale lead loses its lease for good, goes back to READY without agent or lease, and its agent's counter
      falls; the agent comes under suspicion unless it is marked down. */
  lemma StaleLeadsFall(db: DB, order: seq<string>, now: int)
    requires Inv(db) && Lists(order, db.subtasks.Keys)
    ensures var d := TakeoverStaleLeads(db, order, now);
      && (forall l :: l in StaleLeases(db, now) ==>
            && l in d.leases && d.leases[l] == db.leases[l].(state := LFenced)
            && db.leases[l].subtask in d.subtasks
            && d.subtasks[db.leases[l].subtask] == Returned(db.subtasks[db.leases[l].subtask]))
      && (forall a :: a in db.agents ==>
            var n := |HeldBy(db, StaleLeases(db, now), a)|;
            && a in d.agents && d.agents[a].running == db.agents[a].running - n
            && d.agents[a].health == if n > 0 && db.agents[a].health != "down" then "suspect" else db.agents[a].health)
  {
    hide Inv, Grows, ExpireLeases, TakeoverStaleLeads;
    TakeoverCloses(db, order, now);
    AllFallen(db, order, now);
    TakeoverStaleLeadsKeeps(db, order, now);
    var d, gone := TakeoverStaleLeads(db, order, now), StaleLeases(db, now);
    FallCounts(db, d, gone);
    hide TakeoverStaleLeads, StaleLeases, Inv, HeldBy, CountersAndSuspicion;
  }

  lemma FallCounts(db: DB, d: DB, gone: set<string>)
    requires Inv(db) && Inv(d) && Ended(db, d, gone, LFenced) && forall l :: l in gone ==> db.leases[l].state == LActive
    requires CountersAndSuspicion(db.agents, d.agents, Holders(db.leases, gone))
    ensures forall a :: a in db.agents ==>
      var n := |HeldBy(db, gone, a)|;
      && a in d.agents && d.agents[a].running == db.agents[a].running - n
      && d.agents[a].health == if n > 0 && db.agents[a].health != "down" then "suspect" else db.agents[a].health
  {
    EndedCounts(db, d, gone, LFenced);
    hide Inv, Ended, HeldBy, Holders;
    forall a ensures a in Holders(db.leases, gone) <==> |HeldBy(db, gone, a)| > 0 {
      HolderHolds(db, gone, a);
    }
  }

  lemma HolderHolds(db: DB, gone: set<string>, a: string)
    ensures a in Holders(db.leases, gone) <==> |HeldBy(db, gone, a)| > 0
  {
    if l :| l in gone && l in db.leases && db.leases[l].agent == a {
      assert l in HeldBy(db, gone, a);
    } else {
      assert HeldBy(db, gone, a) == {};
    }
  }
}
