/** Health and placement: who is suspected gets no work until it shows signs of life, and who is marked down
    gets none until somebody marks it otherwise. */
module AgentHealth {
  import opened Basics
  import opened Records
  import opened StoreSpec
  import opened Invariants
  import opened Scheduler
  import opened Sweeps

  /** Every required skill is declared. */
  ghost predicate Declares(a: Agent, skills: seq<string>) {
    forall s :: s in skills ==> exists i :: 0 <= i < |a.capabilities| && a.capabilities[i].skill == s
  }

  /** After a takeover nobody who lost a stale lead is eligible for anything. */
  lemma SuspectsGetNothing(db: DB, order: seq<string>, now: int, a: string, sub: Subtask)
    requires Inv(db) && Lists(order, db.subtasks.Keys) && a in db.agents && HeldBy(db, StaleLeases(db, now), a) != {}
    ensures var d := TakeoverStaleLeads(db, order, now); a in d.agents && !Eligible(d.agents[a], sub)
  {
    hide Inv, TakeoverStaleLeads, StaleLeases, HeldBy, Lists, Skilled, Full;
    StaleLeadsFall(db, order, now);
    assert |HeldBy(db, StaleLeases(db, now), a)| > 0;
  }

  /** A heartbeat makes exactly those eligible again who are healthy or merely suspected, are below their cap, and
      have the skills. */
  lemma HeartbeatRestores(db: DB, a: string, now: int, sub: Subtask)
    requires a in db.agents
    ensures var d, agent := HeartbeatAgent(db, a, now), db.agents[a];
      && a in d.agents
      && (Eligible(d.agents[a], sub) <==>
            && agent.health in {"", "healthy", "suspect"}
            && (agent.maxConcurrency <= 0 || agent.running < agent.maxConcurrency)
            && Declares(agent, sub.spec.skills))
  {
    SkilledDeclares(db.agents[a], sub.spec.skills);
    SkilledDeclares(HeartbeatAgent(db, a, now).agents[a], sub.spec.skills);
    hide Skilled, Declares;
  }

  lemma SkilledDeclares(a: Agent, skills: seq<string>)
    ensures Skilled(a, skills) <==> Declares(a, skills)
  {
    forall s ensures HasSkill(a, s) <==> exists i :: 0 <= i < |a.capabilities| && a.capabilities[i].skill == s {
      if HasSkill(a, s) {
        var c :| c in a.capabilities && c.skill == s;
        var i :| 0 <= i < |a.capabilities| && a.capabilities[i] == c;
      }
      if i :| 0 <= i < |a.capabilities| && a.capabilities[i].skill == s {
        assert a.capabilities[i] in a.capabilities;
      }
    }
  }

  /** A manual outage survives heartbeats and takeovers. */
  lemma DownStaysDown(db: DB, order: seq<string>, a: string, now: int, sub: Subtask)
    requires Inv(db) && Lists(order, db.subtasks.Keys) && a in db.agents && db.agents[a].health == "down"
    ensures a in HeartbeatAgent(db, a, now).agents && !Eligible(HeartbeatAgent(db, a, now).agents[a], sub)
    ensures var d := TakeoverStaleLeads(db, order, now); a in d.agents && !Eligible(d.agents[a], sub)
  {
    hide Inv, TakeoverStaleLeads, StaleLeases, HeldBy, Lists, Skilled, Full;
    StaleLeadsFall(db, order, now);
  }
}
