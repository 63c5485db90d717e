/** Leases and fencing tokens: the invariant, and what the lease primitives do to it. */
module Leases {
  import opened Records
  import opened StoreSpec

  /** An agent's subtask that is offered, leased, running or blocked. Human nodes pass through
      RUNNING and BLOCKED without a lease. */
  predicate Engaged(sub: Subtask) { sub.state.InFlight() && !sub.spec.kind.Human() }

  /** One subtask's side of the lease relation. */
  ghost predicate SubLease(leases: map<string, Lease>, id: string, sub: Subtask) {
    && (sub.lease != "" ==>
          sub.lease in leases && leases[sub.lease].subtask == id && leases[sub.lease].agent == sub.assignee)
    && (Engaged(sub) ==> sub.lease != "" && leases[sub.lease].state == LActive)
  }

  /** Lease ids are issued from the same counter as tokens, so an id determines its token. */
  ghost predicate LeaseRecords(subtasks: map<string, Subtask>, leases: map<string, Lease>, issued: nat) {
    forall l :: l in leases ==>
      && leases[l].id == l && 1 <= leases[l].token <= issued && l == LeaseId(leases[l].token)
      && leases[l].subtask in subtasks
  }

  ghost predicate OneActive(leases: map<string, Lease>) {
    forall l, l' :: l in leases && l' in leases && leases[l].state == LActive && leases[l'].state == LActive ==>
      leases[l].subtask == leases[l'].subtask ==> l == l'
  }

  ghost predicate LeaseInv(subtasks: map<string, Subtask>, leases: map<string, Lease>, tokens: nat, serial: nat) {
    && tokens == serial
    && LeaseRecords(subtasks, leases, tokens)
    && OneActive(leases)
    && forall id :: id in subtasks ==> SubLease(leases, id, subtasks[id])
  }

  /** The ACTIVE leases of one agent: the count the SQL store derives by query. */
  ghost function ActiveOf(leases: map<string, Lease>, agent: string): set<string> {
    set l | l in leases && leases[l].agent == agent && leases[l].state == LActive
  }

  /** Agents are stored under their own ids, with an accurate counter. */
  ghost predicate CountInv(agents: map<string, Agent>, leases: map<string, Lease>) {
    forall a :: a in agents ==> agents[a].id == a && agents[a].running == |ActiveOf(leases, a)|
  }

  lemma SubKeepsLeases(subtasks: map<string, Subtask>, leases: map<string, Lease>, n: nat, k: nat, sub: Subtask)
    requires LeaseInv(subtasks, leases, n, k) && SubLease(leases, sub.id, sub)
    ensures LeaseInv(subtasks[sub.id := sub], leases, n, k)
  {}

  /** The lease a grant creates is not yet stored: ids of earlier tokens differ. */
  lemma FreshLease(subtasks: map<string, Subtask>, leases: map<string, Lease>, n: nat)
    requires LeaseInv(subtasks, leases, n, n) && n < LEASE_SPACE
    ensures LeaseId(n + 1) !in leases
  {
    if LeaseId(n + 1) in leases {
      LeaseIdInjective(leases[LeaseId(n + 1)].token, n + 1);
    }
  }

  lemma GrantKeepsLeases(subtasks: map<string, Subtask>, leases: map<string, Lease>, n: nat, lease: Lease)
    requires LeaseInv(subtasks, leases, n, n) && n < LEASE_SPACE
    requires lease.id == LeaseId(n + 1) && lease.token == n + 1 && lease.subtask in subtasks
    requires !ActivelyLeased(leases, lease.subtask)
    ensures LeaseInv(subtasks, leases[lease.id := lease], n + 1, n + 1)
  {
    FreshLease(subtasks, leases, n);
  }

  lemma GrantCount(leases: map<string, Lease>, lease: Lease, a: string)
    requires lease.id !in leases && lease.state == LActive
    ensures |ActiveOf(leases[lease.id := lease], a)| == |ActiveOf(leases, a)| + if a == lease.agent then 1 else 0
  {
    var after := leases[lease.id := lease];
    if a == lease.agent {
      assert ActiveOf(after, a) == ActiveOf(leases, a) + {lease.id};
    } else {
      assert ActiveOf(after, a) == ActiveOf(leases, a);
    }
  }

  lemma GrantKeepsCounts(agents: map<string, Agent>, leases: map<string, Lease>, lease: Lease)
    requires CountInv(agents, leases) && lease.id !in leases && lease.state == LActive
    ensures CountInv(Incremented(agents, lease.agent), leases[lease.id := lease])
  {
    forall a | a in agents
      ensures Incremented(agents, lease.agent)[a].running == |ActiveOf(leases[lease.id := lease], a)|
    {
      GrantCount(leases, lease, a);
    }
  }

  lemma RetireKeepsLeases(subtasks: map<string, Subtask>, leases: map<string, Lease>, n: nat, k: nat, l: string,
                          to: LeaseState)
    requires LeaseInv(subtasks, leases, n, k) && l in leases && to != LActive
    requires leases[l].subtask in subtasks
      && (subtasks[leases[l].subtask].lease == l ==> !Engaged(subtasks[leases[l].subtask]))
    ensures LeaseInv(subtasks, leases[l := leases[l].(state := to)], n, k)
  {}

  /** The `> 0` guard never skips a decrement: a registered owner of an ACTIVE lease counts it. */
  lemma GuardHolds(agents: map<string, Agent>, leases: map<string, Lease>, l: string)
    requires CountInv(agents, leases) && l in leases && leases[l].state == LActive && leases[l].agent in agents
    ensures agents[leases[l].agent].running > 0
  {
    assert l in ActiveOf(leases, leases[l].agent);
  }

  lemma RetireKeepsCounts(agents: map<string, Agent>, leases: map<string, Lease>, l: string, to: LeaseState)
    requires CountInv(agents, leases) && l in leases && leases[l].state == LActive && to != LActive
    ensures CountInv(Decremented(agents, leases[l].agent), leases[l := leases[l].(state := to)])
  {
    var after := leases[l := leases[l].(state := to)];
    if leases[l].agent in agents {
      GuardHolds(agents, leases, l);
    }
    forall a | a in agents
      ensures |ActiveOf(after, a)| == |ActiveOf(leases, a)| - if a == leases[l].agent then 1 else 0
    {
      if a == leases[l].agent {
        assert ActiveOf(after, a) == ActiveOf(leases, a) - {l};
        assert l in ActiveOf(leases, a);
      } else {
        assert ActiveOf(after, a) == ActiveOf(leases, a);
      }
    }
  }

  /** Renewing a lease, or any change of its expiry, is invisible to both invariants. */
  lemma ExpiryKeeps(subtasks: map<string, Subtask>, agents: map<string, Agent>, leases: map<string, Lease>, n: nat,
                    k: nat, l: string, expires: int)
    requires LeaseInv(subtasks, leases, n, k) && CountInv(agents, leases) && l in leases
    ensures var after := leases[l := leases[l].(expires := expires)];
            LeaseInv(subtasks, after, n, k) && CountInv(agents, after)
  {
    var after := leases[l := leases[l].(expires := expires)];
    forall a | a in agents ensures ActiveOf(after, a) == ActiveOf(leases, a) {}
  }
}
