/** Placement of internal/core/scheduler.go: eligibility, the scheduling round and round-robin fairness. */
module Scheduler {
  import opened Basics
  import opened StateMachine
  import opened Records
  import opened StoreSpec
  import opened Leases
  import opened Invariants
  import opened Permissions
  import opened StoreOps
  import opened ReadyQueue
  import opened MemoryStore

  // ---- eligibility ----

  ghost predicate HasSkill(a: Agent, skill: string) { exists c :: c in a.capabilities && c.skill == skill }

  ghost predicate Skilled(a: Agent, required: seq<string>) { forall s :: s in required ==> HasSkill(a, s) }

  /** A capped agent is full when it has as many leases as its cap; 0 means no cap. */
  predicate Full(a: Agent) { a.maxConcurrency > 0 && a.running >= a.maxConcurrency }

  ghost predicate Eligible(a: Agent, sub: Subtask) {
    && (a.health == "" || a.health == "healthy") && !Full(a) && Skilled(a, sub.spec.skills)
  }

  /** The level a skill counts with: of repeated declarations the last one. */
  ghost function LevelOf(cs: seq<Capability>, skill: string): Option<real> {
    if cs == [] then None
    else if cs[|cs| - 1].skill == skill then Some(cs[|cs| - 1].level)
    else LevelOf(cs[..|cs| - 1], skill)
  }

  lemma {:induction false} LevelExists(cs: seq<Capability>, skill: string)
    ensures LevelOf(cs, skill).Some? <==> exists c :: c in cs && c.skill == skill
  {
    if cs != [] {
      LevelExists(cs[..|cs| - 1], skill);
      assert cs == cs[..|cs| - 1] + [cs[|cs| - 1]];
    }
  }

  /** The weakest required level, capped at 1; one half when nothing is required. */
  method MatchSkills(a: Agent, required: seq<string>) returns (level: real, ok: bool)
    ensures ok <==> Skilled(a, required)
    ensures ok && required == [] ==> level == 0.5
    ensures ok && required != [] ==>
      && level <= 1.0
      && (forall s :: s in required ==> LevelOf(a.capabilities, s).Some? && level <= LevelOf(a.capabilities, s).value)
      && (level == 1.0 || exists s :: s in required && LevelOf(a.capabilities, s) == Some(level))
  {
    if |required| == 0 {
      return 0.5, true;
    }
    var levels: map<string, real> := map[];
    for i := 0 to |a.capabilities|
      invariant forall s :: (if s in levels then Some(levels[s]) else None) == LevelOf(a.capabilities[..i], s)
    {
      assert a.capabilities[..i + 1][..i] == a.capabilities[..i];
      levels := levels[a.capabilities[i].skill := a.capabilities[i].level];
    }
    assert a.capabilities[..|a.capabilities|] == a.capabilities;
    level := 1.0;
    for i := 0 to |required|
      invariant level <= 1.0
      invariant forall j :: 0 <= j < i ==> required[j] in levels && level <= levels[required[j]]
      invariant level == 1.0 || exists j :: 0 <= j < i && required[j] in levels && levels[required[j]] == level
    {
      LevelExists(a.capabilities, required[i]);
      if required[i] !in levels {
        assert required[i] in required;
        return 0.0, false;
      }
      if levels[required[i]] < level {
        level := levels[required[i]];
      }
    }
    forall s | s in required ensures HasSkill(a, s) {
      LevelExists(a.capabilities, s);
    }
    ok := true;
  }

  method IsEligible(a: Agent, sub: Subtask) returns (ok: bool)
    ensures ok <==> Eligible(a, sub)
  {
    if a.health != "" && a.health != "healthy" {
      return false;
    }
    if a.maxConcurrency > 0 && a.running >= a.maxConcurrency {
      return false;
    }
    var level;
    level, ok := MatchSkills(a, sub.spec.skills);
  }

  /** 0.1, amplified up to three times by priority and by the closeness of the deadline (seconds). */
  function LoadPenalty(priority: int, deadline: Option<int>, now: int): (r: real)
    ensures 0.1 <= r <= 0.3
    ensures priority <= 0 && deadline.None? ==> r == 0.1
    ensures priority >= 10 && deadline.Some? && deadline.value - now <= 3600 ==> r == 0.3
  {
    var urgency := if priority > 0 then (if priority < 10 then priority as real else 10.0) / 10.0 else 0.0;
    var closeness :=
      if deadline.None? then 0.0
      else if deadline.value - now <= 3600 then 1.0
      else if deadline.value - now <= 6 * 3600 then 0.5
      else if deadline.value - now <= 24 * 3600 then 0.2
      else 0.0;
    var boost := urgency + closeness;
    0.1 * (1.0 + if boost < 2.0 then boost else 2.0)
  }

  // ---- strategies ----

  /** One more than the index of the last placement of the agent, 0 if it was never placed. */
  ghost function LastPlaced(history: seq<string>, a: string): nat {
    if history == [] then 0
    else if history[|history| - 1] == a then |history|
    else LastPlaced(history[..|history| - 1], a)
  }

  /** No candidate was last placed longer ago. */
  ghost predicate LongestAgo(history: seq<string>, a: string, candidates: set<string>) {
    a in candidates && forall b :: b in candidates ==> LastPlaced(history, a) <= LastPlaced(history, b)
  }

  class RoundRobin {
    var serial: nat
    var last: map<string, nat>
    /** The agents placed so far, and among which candidates each was chosen. */
    ghost var history: seq<string>
    ghost var eligible: seq<set<string>>

    ghost predicate Valid()
      reads this
    {
      && serial == |history|
      && (forall a :: (if a in last then last[a] else 0) == LastPlaced(history, a))
      && FairRun(history, eligible)
    }

    constructor ()
      ensures Valid() && history == [] && eligible == []
    {
      serial, last, history, eligible := 0, map[], [], [];
    }

    /** The longer ago the last placement, the higher the score. */
    method Score(sub: Subtask, a: Agent) returns (score: Option<real>)
      requires Valid()
      ensures score.Some? <==> Eligible(a, sub)
      ensures score.Some? ==> score.value + LastPlaced(history, a.id) as real == 0.0
    {
      var ok := IsEligible(a, sub);
      if !ok {
        return None;
      }
      var longAgo: nat := if a.id in last then last[a.id] else 0;
      score := Some(-(longAgo as real));
    }

    method OnPlaced(agent: string, ghost candidates: set<string>)
      requires Valid() && LongestAgo(history, agent, candidates)
      modifies this
      ensures Valid() && history == old(history) + [agent] && eligible == old(eligible) + [candidates]
    {
      FairStep(history, eligible, agent, candidates);
      serial := serial + 1;
      last := last[agent := serial];
      history, eligible := history + [agent], eligible + [candidates];
      assert history[..|history| - 1] == old(history);
    }
  }

  /** Any score function of the number of placements made, the subtask and the agent (capability-first with
      whatever reputation it reads is one), or round robin, which also observes placements. */
  datatype Strategy = Scored(score: (nat, Subtask, Agent) -> Option<real>) | Rotating(r: RoundRobin)

  function Objects(p: Strategy): set<object> { if p.Rotating? then {p.r} else {} }

  /** A strategy scores exactly the eligible agents. */
  ghost predicate Sane(p: Strategy)
    reads Objects(p)
  {
    match p
    case Scored(score) => forall k, s, a :: score(k, s, a).Some? <==> Eligible(a, s)
    case Rotating(r) => r.Valid()
  }

  ghost function ScoreOf(p: Strategy, k: nat, sub: Subtask, a: Agent): Option<real>
    reads Objects(p)
  {
    match p
    case Scored(score) => score(k, sub, a)
    case Rotating(r) => if Eligible(a, sub) then Some(-(LastPlaced(r.history, a.id) as real)) else None
  }

  ghost function HistoryOf(p: Strategy): seq<string>
    reads Objects(p)
  {
    if p.Rotating? then p.r.history else []
  }

  ghost function EligibleOf(p: Strategy): seq<set<string>>
    reads Objects(p)
  {
    if p.Rotating? then p.r.eligible else []
  }

  // ---- one scheduling round ----

  /** The first agent of the highest score; none if and only if nobody is eligible. */
  method PickAgent(agents: seq<Agent>, sub: Subtask, p: Strategy, k: nat) returns (best: Option<nat>)
    requires Sane(p)
    ensures best.None? <==> forall i :: 0 <= i < |agents| ==> !Eligible(agents[i], sub)
    ensures best.Some? ==> best.value < |agents| && Eligible(agents[best.value], sub)
    ensures best.Some? ==> forall i :: 0 <= i < |agents| && Eligible(agents[i], sub) ==>
      var s, b := ScoreOf(p, k, sub, agents[i]), ScoreOf(p, k, sub, agents[best.value]);
      s.Some? && b.Some? && if i < best.value then s.value < b.value else s.value <= b.value
  {
    hide Eligible;
    best := None;
    var bestScore := 0.0;
    for i := 0 to |agents|
      invariant best.None? <==> forall j :: 0 <= j < i ==> !Eligible(agents[j], sub)
      invariant best.Some? ==>
        best.value < i && Eligible(agents[best.value], sub) && ScoreOf(p, k, sub, agents[best.value]) == Some(bestScore)
      invariant best.Some? ==> forall j :: 0 <= j < i && Eligible(agents[j], sub) ==>
        && ScoreOf(p, k, sub, agents[j]).Some?
        && if j < best.value then ScoreOf(p, k, sub, agents[j]).value < bestScore
           else ScoreOf(p, k, sub, agents[j]).value <= bestScore
    {
      var score;
      match p {
        case Scored(f) => score := f(k, sub, agents[i]);
        case Rotating(r) => score := r.Score(sub, agents[i]);
      }
      assert score == ScoreOf(p, k, sub, agents[i]) && (score.Some? <==> Eligible(agents[i], sub));
      if score.Some? && (best.None? || score.value > bestScore) {
        best, bestScore := Some(i), score.value;
      }
    }
  }

  /** The agents after the placements `who`, each of which took one lease. */
  ghost function AgentsAfter(agents: map<string, Agent>, who: seq<string>): map<string, Agent> {
    if who == [] then agents else Incremented(AgentsAfter(agents, who[..|who| - 1]), who[|who| - 1])
  }

  ghost function EligibleIds(agents: map<string, Agent>, sub: Subtask): set<string> {
    set a | a in agents && Eligible(agents[a], sub)
  }

  /** Who was eligible each time: the candidates for tasks[k] are judged after the first k placements. */
  ghost function Candidates(agents: map<string, Agent>, tasks: seq<Subtask>, who: seq<string>): (r: seq<set<string>>)
    requires |tasks| == |who|
    ensures |r| == |who|
  {
    if who == [] then []
    else
      var n := |who| - 1;
      Candidates(agents, tasks[..n], who[..n]) + [EligibleIds(AgentsAfter(agents, who[..n]), tasks[n])]
  }

  /** Nobody is placed over its cap: each placement goes to an agent that was eligible for the task. */
  ghost predicate WellPlaced(agents: map<string, Agent>, tasks: seq<Subtask>, who: seq<string>) {
    |tasks| == |who| && forall k :: 0 <= k < |who| ==> who[k] in Candidates(agents, tasks, who)[k]
  }

  /** The agent holds more leases than before only within its cap. */
  ghost predicate WithinCap(before: Agent, after: Agent) {
    && after == before.(running := after.running) && after.running >= before.running
    && (after.running > before.running && after.maxConcurrency > 0 ==> after.running <= after.maxConcurrency)
  }

  lemma {:induction false} PlacementsWithinCaps(agents: map<string, Agent>, tasks: seq<Subtask>, who: seq<string>)
    requires WellPlaced(agents, tasks, who)
    ensures AgentsAfter(agents, who).Keys == agents.Keys
    ensures forall a :: a in agents ==> WithinCap(agents[a], AgentsAfter(agents, who)[a])
  {
    if who != [] {
      var n := |who| - 1;
      assert WellPlaced(agents, tasks[..n], who[..n]) by {
        var all, init := Candidates(agents, tasks, who), Candidates(agents, tasks[..n], who[..n]);
        assert forall k :: 0 <= k < n ==> all[k] == init[k] && who[..n][k] == who[k];
      }
      PlacementsWithinCaps(agents, tasks[..n], who[..n]);
      assert who[n] in Candidates(agents, tasks, who)[n];
    }
  }

  /** What becomes of a dequeued task: a person's is skipped; otherwise it is OFFERED, unless it was under
      lease already or nobody is eligible. */
  ghost predicate Served(db: DB, d: DB, sub: Subtask) {
    || sub.spec.kind.Human()
    || (sub.id in d.subtasks && d.subtasks[sub.id].state == Offered)
    || ActivelyLeased(db.leases, sub.id)
    || EligibleIds(d.agents, sub) == {}
  }

  ghost predicate Untouched(db: DB, d: DB, id: string) {
    && id in db.subtasks && id in d.subtasks && d.subtasks[id] == db.subtasks[id]
    && (ActivelyLeased(d.leases, id) <==> ActivelyLeased(db.leases, id))
  }

  ghost predicate GivenTo(d: DB, sub: Subtask, a: string) {
    sub.id in d.subtasks && d.subtasks[sub.id].state == Offered && d.subtasks[sub.id].assignee == a
  }

  /** The placed tasks are queued ones, and each is OFFERED to its agent. */
  ghost predicate Given(d: DB, queue: seq<Subtask>, tasks: seq<Subtask>, who: seq<string>) {
    |tasks| == |who| && forall k :: 0 <= k < |tasks| ==> tasks[k] in queue && GivenTo(d, tasks[k], who[k])
  }

  /** The round after its first i tasks. */
  ghost predicate RoundState(db: DB, d: DB, queue: seq<Subtask>, i: nat, tasks: seq<Subtask>, who: seq<string>) {
    && Sound(db, d) && WellPlaced(db.agents, tasks, who) && d.agents == AgentsAfter(db.agents, who)
    && |who| <= i <= |queue| && d.leaseSeq == db.leaseSeq + |who| && Given(d, queue[..i], tasks, who)
    && (forall j :: 0 <= j < i ==> Served(db, d, queue[j]))
    && (forall j :: i <= j < |queue| ==> Untouched(db, d, queue[j].id))
    && (forall id :: id in db.subtasks && !Names(queue, id) ==> Untouched(db, d, id))
  }

  /** What one offer does to the store. */
  ghost predicate OfferedTo(db: DB, d: DB, sub: Subtask, a: string) {
    && Sound(db, d) && d.agents == Incremented(db.agents, a) && d.leaseSeq == db.leaseSeq + 1
    && GivenTo(d, sub, a)
    && (forall id :: id in db.subtasks && id != sub.id ==> Untouched(db, d, id))
  }

  /** An offer of a READY task that is under no lease is always accepted. */
  lemma OfferAccepted(db: DB, sub: Subtask, agent: string, ttl: int, now: int)
    requires Inv(db) && sub.id in db.subtasks && db.subtasks[sub.id] == sub && sub.state == Ready
    requires !ActivelyLeased(db.leases, sub.id) && db.leaseSeq < LEASE_SPACE
    ensures var r := OfferLease(db, sub.id, agent, sub.version, ttl, System("scheduler"), now);
      r.1.Ok? && OfferedTo(db, r.0, sub, agent)
  {
    hide Inv, Grows, Apply, LeaseId, Incremented, ActivelyLeased, Normalize, OfferLease, Untouched;
    var r := OfferLease(db, sub.id, agent, sub.version, ttl, System("scheduler"), now);
    OfferEvent();
    OfferReady(db, sub);
    OfferUnfolds(db, sub, agent, ttl, now);
    OfferLeaseKeeps(db, sub.id, agent, sub.version, ttl, System("scheduler"), now);
    forall id | id in db.subtasks && id != sub.id ensures Untouched(db, r.0, id) {
      OthersUntouched(db, r.0, LeaseId(db.leaseSeq + 1), sub.id, id);
    }
  }

  lemma OfferReady(db: DB, sub: Subtask)
    requires Inv(db) && sub.id in db.subtasks && db.subtasks[sub.id] == sub && db.leaseSeq < LEASE_SPACE
    ensures Normal(sub.spec.grants) && LeaseId(db.leaseSeq + 1) !in db.leases
  {
    hide Inv, LeaseId, Normalize, ActivelyLeased, OneActive, LeaseRecords, SubLease;
    SubtaskFacts(db, sub.id);
    LeaseParts(db);
    FreshLease(db.subtasks, db.leases, db.leaseSeq);
  }

  lemma OthersUntouched(db: DB, d: DB, lid: string, sub: string, id: string)
    requires id in db.subtasks && id != sub && sub in d.subtasks && d.subtasks == db.subtasks[sub := d.subtasks[sub]]
    requires lid !in db.leases && lid in d.leases && d.leases[lid].subtask == sub
    requires d.leases == db.leases[lid := d.leases[lid]]
    ensures Untouched(db, d, id)
  {
    hide ActivelyLeased;
    OtherLeases(db.leases, d.leases, lid, sub, id);
  }

  lemma OfferEvent()
    ensures Apply(Ready, EvLeaseOffered) == Some(Offered)
  {}

  lemma OtherLeases(leases: map<string, Lease>, after: map<string, Lease>, lid: string, sub: string, id: string)
    requires lid !in leases && lid in after && after[lid].subtask == sub && after == leases[lid := after[lid]] && id != sub
    ensures ActivelyLeased(after, id) <==> ActivelyLeased(leases, id)
  {
    if ActivelyLeased(leases, id) {
      var l :| l in leases && leases[l].subtask == id && leases[l].state == LActive;
      assert after[l] == leases[l];
    }
  }

  lemma OfferUnfolds(db: DB, sub: Subtask, agent: string, ttl: int, now: int)
    requires sub.id in db.subtasks && db.subtasks[sub.id] == sub && Apply(sub.state, EvLeaseOffered) == Some(Offered)
    requires !ActivelyLeased(db.leases, sub.id) && Normal(sub.spec.grants)
    ensures var r := OfferLease(db, sub.id, agent, sub.version, ttl, System("scheduler"), now);
      var lid := LeaseId(db.leaseSeq + 1);
      && r.1.Ok? && r.0.agents == Incremented(db.agents, agent) && r.0.leaseSeq == db.leaseSeq + 1
      && lid in r.0.leases && r.0.leases == db.leases[lid := r.0.leases[lid]] && r.0.leases[lid].subtask == sub.id
      && sub.id in r.0.subtasks && r.0.subtasks == db.subtasks[sub.id := r.0.subtasks[sub.id]]
      && GivenTo(r.0, sub, agent)
  {
    hide Apply, LeaseId, Incremented, ActivelyLeased, Normalize, ArtifactsFor, BoardViews, DecisionsFor;
  }

  /** Leases only ever make agents less eligible. */
  lemma LessEligible(agents: map<string, Agent>, a: string, sub: Subtask)
    requires EligibleIds(agents, sub) == {}
    ensures EligibleIds(Incremented(agents, a), sub) == {}
  {
    forall b | b in agents ensures !Eligible(Incremented(agents, a)[b], sub) {
      assert b !in EligibleIds(agents, sub);
      BusierIsLessEligible(agents[b], sub);
    }
  }

  lemma BusierIsLessEligible(a: Agent, sub: Subtask)
    ensures Eligible(a.(running := a.running + 1), sub) ==> Eligible(a, sub)
  {
    var busier := a.(running := a.running + 1);
    forall s ensures HasSkill(busier, s) ==> HasSkill(a, s) {}
  }

  lemma RoundStarts(db: DB, queue: seq<Subtask>)
    requires Inv(db) && forall j :: 0 <= j < |queue| ==> queue[j].id in db.subtasks
    ensures RoundState(db, db, queue, 0, [], [])
  {
    hide Inv;
    Unchanged(db);
  }

  /** A task without a placement. */
  lemma RoundSkips(db: DB, d: DB, queue: seq<Subtask>, i: nat, tasks: seq<Subtask>, who: seq<string>)
    requires RoundState(db, d, queue, i, tasks, who) && i < |queue|
    requires queue[i].spec.kind.Human() || ActivelyLeased(d.leases, queue[i].id) || EligibleIds(d.agents, queue[i]) == {}
    ensures RoundState(db, d, queue, i + 1, tasks, who)
  {
    hide Sound, WellPlaced, ActivelyLeased, AgentsAfter, EligibleIds, GivenTo;
    assert Untouched(db, d, queue[i].id);
    assert Served(db, d, queue[i]);
    hide Served, Untouched;
    assert queue[..i + 1] == queue[..i] + [queue[i]];
  }

  ghost predicate DistinctIds(queue: seq<Subtask>) { forall i, j :: 0 <= i < j < |queue| ==> queue[i].id != queue[j].id }

  lemma RoundPlaces(db: DB, d: DB, e: DB, queue: seq<Subtask>, i: nat, tasks: seq<Subtask>, who: seq<string>, a: string)
    requires RoundState(db, d, queue, i, tasks, who) && i < |queue| && DistinctIds(queue)
    requires a in EligibleIds(d.agents, queue[i])
    requires OfferedTo(d, e, queue[i], a)
    ensures RoundState(db, e, queue, i + 1, tasks + [queue[i]], who + [a])
    ensures Candidates(db.agents, tasks + [queue[i]], who + [a])
         == Candidates(db.agents, tasks, who) + [EligibleIds(d.agents, queue[i])]
  {
    hide Inv, Grows, AgentsAfter, Candidates, WellPlaced, Eligible, EligibleIds, ActivelyLeased, Incremented;
    OneMorePlaced(db.agents, tasks, who, queue[i], a);
    OneMoreGiven(d, e, queue, i, tasks, who, a);
    hide Given;
    SoundThen(db, d, e);
    forall j | 0 <= j < i + 1 ensures Served(db, e, queue[j]) {
      if j < i {
        ServedStays(db, d, e, queue[j], queue[i].id, a);
      }
    }
    forall id | id in db.subtasks && !Names(queue, id) ensures Untouched(db, e, id) {
      assert Untouched(db, d, id) && id != queue[i].id;
      assert Untouched(d, e, id);
    }
    forall j | i + 1 <= j < |queue| ensures Untouched(db, e, queue[j].id) {
      assert Untouched(db, d, queue[j].id) && Untouched(d, e, queue[j].id);
    }
  }

  lemma OneMoreGiven(d: DB, e: DB, queue: seq<Subtask>, i: nat, tasks: seq<Subtask>, who: seq<string>, a: string)
    requires i < |queue| && DistinctIds(queue) && Given(d, queue[..i], tasks, who) && OfferedTo(d, e, queue[i], a)
    ensures Given(e, queue[..i + 1], tasks + [queue[i]], who + [a])
  {
    hide Sound, Incremented, ActivelyLeased;
    assert queue[..i + 1] == queue[..i] + [queue[i]];
    forall k | 0 <= k < |tasks| ensures GivenTo(e, tasks[k], who[k]) {
      assert tasks[k] in queue[..i] && GivenTo(d, tasks[k], who[k]);
      var j :| 0 <= j < i && queue[..i][j] == tasks[k];
      assert queue[j].id != queue[i].id;
      assert Untouched(d, e, tasks[k].id);
    }
  }

  lemma OneMorePlaced(agents: map<string, Agent>, tasks: seq<Subtask>, who: seq<string>, sub: Subtask, a: string)
    requires WellPlaced(agents, tasks, who) && a in EligibleIds(AgentsAfter(agents, who), sub)
    ensures WellPlaced(agents, tasks + [sub], who + [a])
    ensures AgentsAfter(agents, who + [a]) == Incremented(AgentsAfter(agents, who), a)
    ensures Candidates(agents, tasks + [sub], who + [a])
         == Candidates(agents, tasks, who) + [EligibleIds(AgentsAfter(agents, who), sub)]
  {
    hide Eligible, EligibleIds, Incremented;
    var tasks', who' := tasks + [sub], who + [a];
    assert tasks'[..|who|] == tasks && who'[..|who|] == who;
  }

  lemma ServedStays(db: DB, d: DB, e: DB, sub: Subtask, moved: string, a: string)
    requires Served(db, d, sub) && sub.id != moved && e.agents == Incremented(d.agents, a)
    requires forall id :: id in d.subtasks && id != moved ==> Untouched(d, e, id)
    ensures Served(db, e, sub)
  {
    hide Eligible, ActivelyLeased, Incremented, EligibleIds;
    if sub.id in d.subtasks {
      assert Untouched(d, e, sub.id);
    }
    if EligibleIds(d.agents, sub) == {} {
      LessEligible(d.agents, a, sub);
    }
  }

  /** The fairness of a round-robin object, about every placement it has ever observed. */
  ghost predicate Fair(history: seq<string>, eligible: seq<set<string>>) {
    PlacedBetween(history, eligible) && RoundsServeAll(history, eligible)
  }

  /** Between two placements of one agent, everybody eligible at the second is placed. */
  ghost predicate PlacedBetween(history: seq<string>, eligible: seq<set<string>>) {
    && |eligible| == |history|
    && forall first, second, b ::
         0 <= first < second < |history| && history[first] == history[second] && b in eligible[second] && b != history[first]
         ==> exists t :: first < t < second && history[t] == b
  }

  /** While the same n agents are eligible, every n consecutive placements use each of them once. */
  ghost predicate RoundsServeAll(history: seq<string>, eligible: seq<set<string>>) {
    |eligible| == |history| && forall start :: 0 <= start < |history| ==> RoundServesAll(history, eligible, start)
  }

  ghost predicate RoundServesAll(history: seq<string>, eligible: seq<set<string>>, start: nat)
    requires start < |history| == |eligible|
  {
    var n := |eligible[start]|;
    start + n <= |history| && (forall t :: start <= t < start + n ==> eligible[t] == eligible[start]) ==>
      var round := history[start..start + n]; Distinct(round) && Elements(round) == eligible[start]
  }

  /** ScheduleOnce: the most urgent READY tasks in their order, each to the first of the best-scored
      agents. Every placed agent was eligible for its task when it got it, every task that could be placed
      is, nothing else moves, and under round robin the placements are fair for ever. */
  method ScheduleOnce(st: Store, p: Strategy, batch: nat, ttl: int, now: int)
    returns (placed: nat, ghost queue: seq<Subtask>, ghost tasks: seq<Subtask>, ghost who: seq<string>)
    requires Inv(st.Db()) && Sane(p) && st.leaseSeq + batch <= LEASE_SPACE
    modifies st, Objects(p)
    ensures Sound(old(st.Db()), st.Db()) && Sane(p) && placed == |who|
    ensures Dequeued(queue, ReadyOnes(old(st.subtasks)), batch)
    ensures Given(st.Db(), queue, tasks, who)
    ensures WellPlaced(old(st.agents), tasks, who) && st.agents == AgentsAfter(old(st.agents), who)
    ensures forall j :: 0 <= j < |queue| ==> Served(old(st.Db()), st.Db(), queue[j])
    ensures forall id :: id in old(st.subtasks) && !Names(queue, id) ==> Untouched(old(st.Db()), st.Db(), id)
    ensures p.Rotating? ==>
      && HistoryOf(p) == old(HistoryOf(p)) + who
      && EligibleOf(p) == old(EligibleOf(p)) + Candidates(old(st.agents), tasks, who)
      && Fair(HistoryOf(p), EligibleOf(p))
  {
    hide Inv, Sound, Dequeued, RoundState, WellPlaced, Served, Untouched, AgentsAfter, Candidates, Fair, Roster;
    hide OfferedTo, Given, EligibleIds, ActivelyLeased, HistoryOf, EligibleOf, Sane, Names, Incremented;
    ghost var db := st.Db();
    ghost var history, eligible := HistoryOf(p), EligibleOf(p);
    InvOwnKeys(db);
    OwnAgents(db);
    var ready := st.DequeueReady(batch);
    queue := ready;
    QueueFacts(db, ready, batch);
    var view := st.ListAgents();
    placed, tasks, who := 0, [], [];
    RoundStarts(db, ready);
    NoCandidates(db.agents);
    for i := 0 to |ready|
      invariant RoundState(db, st.Db(), ready, i, tasks, who) && |tasks| == |who| == placed
      invariant Roster(view, st.agents) && Sane(p)
      invariant p.Rotating? ==>
        HistoryOf(p) == history + who && EligibleOf(p) == eligible + Candidates(db.agents, tasks, who)
    {
      ghost var before := st.Db();
      QueueHead(db, before, ready, i, tasks, who);
      var agent;
      view, agent := PlaceOne(st, ready[i], view, p, placed, ttl, now);
      if agent.Some? {
        RoundPlaces(db, before, st.Db(), ready, i, tasks, who, agent.value);
        tasks, who := tasks + [ready[i]], who + [agent.value];
        placed := placed + 1;
      } else {
        RoundSkips(db, before, ready, i, tasks, who);
      }
    }
    RoundEnds(db, st.Db(), ready, tasks, who);
    RotatesFairly(p);
  }

  /** One READY task of the queue. */
  method PlaceOne(st: Store, sub: Subtask, view: seq<Agent>, p: Strategy, k: nat, ttl: int, now: int)
    returns (view': seq<Agent>, agent: Option<string>)
    requires Inv(st.Db()) && Sane(p) && st.leaseSeq < LEASE_SPACE && Roster(view, st.agents)
    requires sub.id in st.subtasks && st.subtasks[sub.id] == sub && sub.state == Ready
    modifies st, Objects(p)
    ensures Sane(p) && Roster(view', st.agents)
    ensures agent.None? ==>
      && st.Db() == old(st.Db()) && HistoryOf(p) == old(HistoryOf(p)) && EligibleOf(p) == old(EligibleOf(p))
      && (sub.spec.kind.Human() || ActivelyLeased(st.leases, sub.id) || EligibleIds(st.agents, sub) == {})
    ensures agent.Some? ==>
      && agent.value in EligibleIds(old(st.agents), sub) && OfferedTo(old(st.Db()), st.Db(), sub, agent.value)
      && (p.Rotating? ==> HistoryOf(p) == old(HistoryOf(p)) + [agent.value]
                          && EligibleOf(p) == old(EligibleOf(p)) + [EligibleIds(old(st.agents), sub)])
  {
    hide Inv, Incremented, StoreSpec.OfferLease, Roster, Eligible, EligibleIds, ActivelyLeased, OfferedTo, LastPlaced;
    view', agent := view, None;
    if sub.spec.kind.Human() {
      return;
    }
    var best := PickAgent(view, sub, p, k);
    PickedAmongAll(view, st.agents, sub, p, k, best);
    if best.None? {
      return;
    }
    var chosen := view[best.value];
    ghost var db := st.Db();
    Offering(db, sub, chosen.id, ttl, now);
    RosterOneMore(view, db.agents, best.value);
    var r := st.OfferLease(sub.id, chosen.id, sub.version, ttl, System("scheduler"), now);
    if r.Ok? {
      view' := view[best.value := chosen.(running := chosen.running + 1)];
      agent := Some(chosen.id);
      match p
      case Scored(_) =>
      case Rotating(rr) => rr.OnPlaced(chosen.id, EligibleIds(db.agents, sub));
    }
  }

  lemma Offering(db: DB, sub: Subtask, a: string, ttl: int, now: int)
    requires Inv(db) && sub.id in db.subtasks && db.subtasks[sub.id] == sub && sub.state == Ready
    requires db.leaseSeq < LEASE_SPACE
    ensures var r := OfferLease(db, sub.id, a, sub.version, ttl, System("scheduler"), now);
      if ActivelyLeased(db.leases, sub.id) then r.0 == db && !r.1.Ok?
      else r.1.Ok? && OfferedTo(db, r.0, sub, a) && r.0.agents == Incremented(db.agents, a)
  {
    if ActivelyLeased(db.leases, sub.id) {
      hide Apply, LeaseId, ContextOf, ActivelyLeased;
    } else {
      hide OfferLease, Inv, Sound, Untouched, Incremented, ActivelyLeased, Apply, LeaseId, ContextOf;
      OfferAccepted(db, sub, a, ttl, now);
    }
  }

  lemma RosterOneMore(view: seq<Agent>, agents: map<string, Agent>, i: nat)
    requires Roster(view, agents) && i < |view|
    ensures Roster(view[i := view[i].(running := view[i].running + 1)], Incremented(agents, view[i].id))
  {
    var after := view[i := view[i].(running := view[i].running + 1)];
    assert forall j :: 0 <= j < |view| ==> after[j].id == view[j].id;
    forall j | 0 <= j < |view| && j != i ensures view[j].id != view[i].id {
      LessTotal(view[i].id, view[i].id);
    }
    forall a | a in agents ensures Enrolled(after, a) {
      assert Enrolled(view, a);
      var j :| 0 <= j < |view| && view[j].id == a;
      assert after[j].id == a;
    }
  }

  /** The picked agent is the best of all agents of the store; under round robin, one whose last placement
      is longest ago. */
  lemma PickedAmongAll(view: seq<Agent>, agents: map<string, Agent>, sub: Subtask, p: Strategy, k: nat, best: Option<nat>)
    requires Roster(view, agents) && Sane(p)
    requires best.None? <==> forall i :: 0 <= i < |view| ==> !Eligible(view[i], sub)
    requires best.Some? ==> best.value < |view| && Eligible(view[best.value], sub)
    requires best.Some? ==> forall i :: 0 <= i < |view| && Eligible(view[i], sub) ==>
      var s, b := ScoreOf(p, k, sub, view[i]), ScoreOf(p, k, sub, view[best.value]);
      s.Some? && b.Some? && s.value <= b.value
    ensures best.None? ==> EligibleIds(agents, sub) == {}
    ensures best.Some? ==> view[best.value].id in EligibleIds(agents, sub)
    ensures best.Some? && p.Rotating? ==> LongestAgo(HistoryOf(p), view[best.value].id, EligibleIds(agents, sub))
  {
    hide Eligible;
    forall a | a in EligibleIds(agents, sub)
      ensures best.Some? && (p.Rotating? ==> LastPlaced(HistoryOf(p), view[best.value].id) <= LastPlaced(HistoryOf(p), a))
    {
      assert Enrolled(view, a);
      var i :| 0 <= i < |view| && view[i].id == a;
      assert Eligible(view[i], sub);
    }
  }

  // ---- helpers about the round ----

  lemma RotatesFairly(p: Strategy)
    requires Sane(p)
    ensures p.Rotating? ==> Fair(HistoryOf(p), EligibleOf(p))
  {
    if p.Rotating? {
      FairAlways(p.r.history, p.r.eligible);
    }
  }

  lemma OwnAgents(db: DB)
    requires Inv(db)
    ensures forall a :: a in db.agents ==> db.agents[a].id == a
  {
    LeaseParts(db);
    hide Inv, LeaseInv;
  }

  lemma QueueFacts(db: DB, queue: seq<Subtask>, limit: nat)
    requires Dequeued(queue, ReadyOnes(db.subtasks), limit)
    ensures |queue| <= limit && DistinctIds(queue)
    ensures forall j :: 0 <= j < |queue| ==>
      queue[j].id in db.subtasks && db.subtasks[queue[j].id] == queue[j] && queue[j].state == Ready
  {
    forall i, j | 0 <= i < j < |queue| ensures queue[i].id != queue[j].id {
      BeforeTotal(queue[i], queue[j]);
    }
  }

  /** The next task is still READY, as it was when the queue was taken. */
  lemma QueueHead(db: DB, d: DB, queue: seq<Subtask>, i: nat, tasks: seq<Subtask>, who: seq<string>)
    requires RoundState(db, d, queue, i, tasks, who) && i < |queue|
    requires queue[i].id in db.subtasks && db.subtasks[queue[i].id] == queue[i]
    ensures Inv(d) && queue[i].id in d.subtasks && d.subtasks[queue[i].id] == queue[i]
    ensures ActivelyLeased(d.leases, queue[i].id) <==> ActivelyLeased(db.leases, queue[i].id)
    ensures d.leaseSeq <= db.leaseSeq + i
  {
    hide Inv, Grows, Served, WellPlaced, ActivelyLeased, AgentsAfter;
    assert Untouched(db, d, queue[i].id);
  }

  lemma RoundEnds(db: DB, d: DB, queue: seq<Subtask>, tasks: seq<Subtask>, who: seq<string>)
    requires RoundState(db, d, queue, |queue|, tasks, who)
    ensures Sound(db, d) && WellPlaced(db.agents, tasks, who) && d.agents == AgentsAfter(db.agents, who)
    ensures Given(d, queue, tasks, who)
    ensures forall j :: 0 <= j < |queue| ==> Served(db, d, queue[j])
    ensures forall id :: id in db.subtasks && !Names(queue, id) ==> Untouched(db, d, id)
  {
    hide Sound, WellPlaced, Served, Untouched, AgentsAfter, Given;
    assert queue[..|queue|] == queue;
  }

  lemma NoCandidates(agents: map<string, Agent>)
    ensures Candidates(agents, [], []) == []
  {}

  /** What the counters say about leases, by the store invariant: after a round an agent that was within its
      cap holds no more ACTIVE leases than the cap. */
  lemma CapsHold(db: DB, d: DB, tasks: seq<Subtask>, who: seq<string>, a: string)
    requires Sound(db, d) && WellPlaced(db.agents, tasks, who) && d.agents == AgentsAfter(db.agents, who)
    requires a in db.agents && db.agents[a].maxConcurrency > 0 && db.agents[a].running <= db.agents[a].maxConcurrency
    ensures a in d.agents && |ActiveOf(d.leases, a)| <= d.agents[a].maxConcurrency == db.agents[a].maxConcurrency
  {
    PlacementsWithinCaps(db.agents, tasks, who);
    LeaseParts(d);
    hide Inv, Grows;
  }

  // ---- fairness ----

  /** A run of placements: each goes to a candidate whose last placement is longest ago. */
  ghost predicate FairRun(history: seq<string>, eligible: seq<set<string>>) {
    && |eligible| == |history|
    && forall t :: 0 <= t < |history| ==> LongestAgo(history[..t], history[t], eligible[t])
  }

  lemma FairStep(history: seq<string>, eligible: seq<set<string>>, a: string, candidates: set<string>)
    requires FairRun(history, eligible) && LongestAgo(history, a, candidates)
    ensures FairRun(history + [a], eligible + [candidates])
  {
    hide LongestAgo;
    var h, e := history + [a], eligible + [candidates];
    forall t | 0 <= t < |h| ensures LongestAgo(h[..t], h[t], e[t]) {
      if t < |history| {
        assert h[..t] == history[..t];
      } else {
        assert h[..t] == history;
      }
    }
  }

  lemma {:induction false} LastPlacedMeaning(history: seq<string>, a: string)
    ensures LastPlaced(history, a) <= |history|
    ensures LastPlaced(history, a) > 0 ==> history[LastPlaced(history, a) - 1] == a
    ensures forall t :: LastPlaced(history, a) <= t < |history| ==> history[t] != a
  {
    if history != [] && history[|history| - 1] != a {
      LastPlacedMeaning(history[..|history| - 1], a);
    }
  }

  /** If A is placed twice and B is eligible at the second time, B was placed in between. */
  lemma PlacedInBetween(history: seq<string>, eligible: seq<set<string>>, first: nat, second: nat, b: string)
    requires FairRun(history, eligible) && first < second < |history| && history[first] == history[second]
    requires b in eligible[second] && b != history[first]
    ensures exists t :: first < t < second && history[t] == b
  {
    var before, a := history[..second], history[first];
    assert LongestAgo(before, history[second], eligible[second]);
    LastPlacedMeaning(before, a);
    LastPlacedMeaning(before, b);
    assert before[first] == a;
    var t := LastPlaced(before, b) - 1;
    assert LastPlaced(before, a) > first;
    assert before[t] == b && before[LastPlaced(before, a) - 1] == a;
    assert first < t < second && history[t] == b;
  }

  /** The slots at which the members of a set of agents were placed between two moments. */
  lemma {:induction false} SlotsBetween(history: seq<string>, agents: set<string>, lo: int, hi: int)
    requires 0 <= lo <= hi <= |history|
    requires forall b :: b in agents ==> exists t :: lo <= t < hi && history[t] == b
    ensures |agents| <= hi - lo
    decreases hi - lo
  {
    if agents != {} {
      assert lo < hi by {
        var b :| b in agents;
      }
      var rest := agents - {history[lo]};
      forall b | b in rest ensures exists t :: lo + 1 <= t < hi && history[t] == b {
        var t :| lo <= t < hi && history[t] == b;
      }
      SlotsBetween(history, rest, lo + 1, hi);
    }
  }

  /** While the same n agents are eligible, n consecutive placements use each of them exactly once. */
  lemma EveryRoundServesAll(history: seq<string>, eligible: seq<set<string>>, agents: set<string>, start: nat)
    requires FairRun(history, eligible) && start + |agents| <= |history|
    requires forall t :: start <= t < start + |agents| ==> eligible[t] == agents
    ensures var round := history[start..start + |agents|]; Distinct(round) && Elements(round) == agents
  {
    var n := |agents|;
    var round := history[start..start + n];
    hide FairRun;
    RoundDistinct(history, eligible, agents, start);
    forall a | a in round ensures a in agents {
      var i :| 0 <= i < n && round[i] == a;
      PlacedIsEligible(history, eligible, start + i);
    }
    DistinctIsAll(round, agents);
  }

  lemma RoundDistinct(history: seq<string>, eligible: seq<set<string>>, agents: set<string>, start: nat)
    requires FairRun(history, eligible) && start + |agents| <= |history|
    requires forall t :: start <= t < start + |agents| ==> eligible[t] == agents
    ensures Distinct(history[start..start + |agents|])
  {
    hide FairRun;
    forall i, j | start <= i < j < start + |agents| ensures history[i] != history[j] {
      if history[i] == history[j] {
        RepeatIsFar(history, eligible, agents, i, j);
      }
    }
  }

  lemma PlacedIsEligible(history: seq<string>, eligible: seq<set<string>>, t: nat)
    requires FairRun(history, eligible) && t < |history|
    ensures history[t] in eligible[t]
  {
    assert LongestAgo(history[..t], history[t], eligible[t]);
  }

  lemma SameLengths(history: seq<string>, eligible: seq<set<string>>)
    requires FairRun(history, eligible)
    ensures |eligible| == |history|
  {}

  lemma AlwaysBetween(history: seq<string>, eligible: seq<set<string>>)
    requires FairRun(history, eligible)
    ensures PlacedBetween(history, eligible)
  {
    SameLengths(history, eligible);
    hide FairRun;
    forall first, second, b | 0 <= first < second < |history| && history[first] == history[second]
                              && b in eligible[second] && b != history[first]
      ensures exists t :: first < t < second && history[t] == b
    {
      PlacedInBetween(history, eligible, first, second, b);
    }
  }

  lemma AlwaysRounds(history: seq<string>, eligible: seq<set<string>>)
    requires FairRun(history, eligible)
    ensures RoundsServeAll(history, eligible)
  {
    SameLengths(history, eligible);
    hide FairRun, RoundServesAll;
    forall start | 0 <= start < |history| ensures RoundServesAll(history, eligible, start) {
      OneRound(history, eligible, start);
    }
  }

  lemma OneRound(history: seq<string>, eligible: seq<set<string>>, start: nat)
    requires FairRun(history, eligible) && start < |history| == |eligible|
    ensures RoundServesAll(history, eligible, start)
  {
    hide FairRun, Distinct, Elements;
    var n := |eligible[start]|;
    if start + n <= |history| && forall t :: start <= t < start + n ==> eligible[t] == eligible[start] {
      EveryRoundServesAll(history, eligible, eligible[start], start);
    }
  }

  lemma FairAlways(history: seq<string>, eligible: seq<set<string>>)
    requires FairRun(history, eligible)
    ensures Fair(history, eligible)
  {
    hide FairRun, PlacedBetween, RoundsServeAll;
    AlwaysBetween(history, eligible);
    AlwaysRounds(history, eligible);
  }

  /** |s| distinct members of s are all of s. */
  lemma DistinctIsAll(p: seq<string>, s: set<string>)
    requires Distinct(p) && |p| == |s| && forall a :: a in p ==> a in s
    ensures forall a :: a in s ==> a in p
  {
    assert Lists(p, Elements(p));
    ListsLength(p, Elements(p));
    forall a | a in s ensures a in p {
      if a !in p {
        assert |s - {a}| == |s| - 1;
        SubsetCardinality(Elements(p), s - {a});
      }
    }
  }

  lemma RepeatIsFar(history: seq<string>, eligible: seq<set<string>>, agents: set<string>, first: nat, second: nat)
    requires FairRun(history, eligible) && first < second < |history| && history[first] == history[second]
    requires eligible[second] == agents
    ensures second - first >= |agents|
  {
    var others := agents - {history[first]};
    forall b | b in others ensures exists t :: first + 1 <= t < second && history[t] == b {
      PlacedInBetween(history, eligible, first, second, b);
    }
    SlotsBetween(history, others, first + 1, second);
    assert LongestAgo(history[..second], history[second], agents);
    assert agents == others + {history[first]};
  }
}
