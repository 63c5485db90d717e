/** What a context package (internal/store/memory/memory.go, buildContextPackageLocked) may hold and must hold,
    told by the task's grants and the stored entries alone. */
module ContextGrants {
  import opened Basics
  import opened StateMachine
  import opened Permissions
  import opened Records
  import opened StoreSpec
  import opened Ledger
  import opened Invariants
  import opened StoreOps
  import opened StoreRuns
  import opened Orchestrator
  import opened CallFrames
  import opened Charges
  import opened Attenuation

  /** A grant of the namespace whose key list is empty or contains the key. */
  predicate Reads(g: BoardGrant, ns: string, key: string) { g.ns == ns && (|g.keys| == 0 || key in g.keys) }

  ghost predicate MayRead(e: Envelope, ns: string, key: string) { exists g :: g in e.views && Reads(g, ns, key) }

  ghost predicate MayWrite(e: Envelope, ns: string, key: string) {
    exists g :: g in e.views && Reads(g, ns, key) && g.mode == "rw"
  }

  /** Nothing in the package exceeds the grants: each view is an entry of the task's mission that some grant lets
      the task read, writable only where some grant lets it write; each artifact is one that the grants name. */
  ghost predicate Covered(spec: TaskSpec, pkg: ContextPackage) {
    && (forall k :: k in pkg.views ==>
          var v := pkg.views[k];
          && k == BoardKey(spec.mission, v.ns, v.key) && MayRead(spec.grants, v.ns, v.key)
          && (v.writable ==> MayWrite(spec.grants, v.ns, v.key)))
    && (forall a :: a in pkg.artifacts ==> a in spec.grants.artifactRefs && pkg.artifacts[a].mission == spec.mission)
    && (forall x :: x in pkg.decisions ==> pkg.decisions[x].subtask == pkg.task.id && pkg.decisions[x].mission == spec.mission)
    && pkg.task.spec == spec
  }

  /** Nothing that is granted is missing: every stored entry that some grant lets the task read is there as it is
      stored, writable if some grant lets the task write it, and so is every artifact that the grants name and
      every decision about the task; the account is the stored one. */
  ghost predicate Complete(db: DB, sub: Subtask, pkg: ContextPackage) {
    && (forall k :: k in db.board ==>
          var e := db.board[k];
          e.mission == sub.spec.mission && MayRead(sub.spec.grants, e.ns, e.key) ==>
            k in pkg.views
            && pkg.views[k] == ContextView(e.ns, e.key, e.value, e.version, MayWrite(sub.spec.grants, e.ns, e.key)))
    && (forall a :: a in db.artifacts && a in sub.spec.grants.artifactRefs && db.artifacts[a].mission == sub.spec.mission ==>
          a in pkg.artifacts && pkg.artifacts[a] == db.artifacts[a])
    && (forall x :: x in db.decisions && db.decisions[x].subtask == sub.id && db.decisions[x].mission == sub.spec.mission ==>
          x in pkg.decisions && pkg.decisions[x] == db.decisions[x])
    && pkg.task == sub
    && pkg.budget == if sub.spec.mission in db.budgets then Some(db.budgets[sub.spec.mission]) else None
  }

  lemma VisibleMeans(views: seq<BoardGrant>, m: string, e: BoardEntry, env: Envelope)
    requires env.views == views
    ensures Visible(views, m, e) <==> e.mission == m && MayRead(env, e.ns, e.key)
    ensures Writable(views, e) <==> MayWrite(env, e.ns, e.key)
  {
    forall g | g in views ensures Admits(g, e) <==> Reads(g, e.ns, e.key) {}
  }

  lemma ViewsMean(db: DB, sub: Subtask)
    requires BoardInv(db.board)
    ensures var views := BoardViews(db.board, sub.spec.mission, sub.spec.grants.views);
      && (forall k :: k in views ==>
            var v := views[k];
            && k == BoardKey(sub.spec.mission, v.ns, v.key) && MayRead(sub.spec.grants, v.ns, v.key)
            && (v.writable ==> MayWrite(sub.spec.grants, v.ns, v.key)))
      && (forall k :: k in db.board ==>
            var e := db.board[k];
            e.mission == sub.spec.mission && MayRead(sub.spec.grants, e.ns, e.key) ==>
              k in views
              && views[k] == ContextView(e.ns, e.key, e.value, e.version, MayWrite(sub.spec.grants, e.ns, e.key)))
  {
    forall k | k in db.board
      ensures Visible(sub.spec.grants.views, sub.spec.mission, db.board[k])
          <==> db.board[k].mission == sub.spec.mission && MayRead(sub.spec.grants, db.board[k].ns, db.board[k].key)
      ensures Writable(sub.spec.grants.views, db.board[k]) <==> MayWrite(sub.spec.grants, db.board[k].ns, db.board[k].key)
    {
      VisibleMeans(sub.spec.grants.views, sub.spec.mission, db.board[k], sub.spec.grants);
    }
    hide Visible, Writable, MayRead, MayWrite, BoardKey;
  }

  /** A package built in a state that satisfies the store invariant holds exactly what the task's grants name. */
  lemma PackageIsGranted(db: DB, lease: string, id: string)
    requires Inv(db) && id in db.subtasks
    ensures var pkg := ContextOf(db, lease, db.subtasks[id]);
      pkg.Some? && pkg.value.lease == lease && Covered(db.subtasks[id].spec, pkg.value)
      && Complete(db, db.subtasks[id], pkg.value)
  {
    SubtaskFacts(db, id);
    BoardFacts(db);
    var sub := db.subtasks[id];
    ViewsMean(db, sub);
    AccountIsCurrent(db, sub.spec.mission);
    hide Inv, BoardViews, MayRead, MayWrite, BoardKey, Covered, Complete;
    PackageParts(db, lease, sub);
    var pkg := ContextOf(db, lease, sub).value;
    hide ContextOf, Normalize;
    assert Covered(sub.spec, pkg) by {
      CoveredBy(db, sub, pkg);
    }
    CompleteBy(db, sub, pkg);
  }

  lemma AccountIsCurrent(db: DB, m: string)
    requires Inv(db)
    ensures m in db.budgets ==> var a := db.budgets[m]; a == a.(available := a.total - a.held - a.spent)
  {
    if m in db.budgets {
      assert AccountOk(db.budgets[m], db.holds, db.events, m);
    }
  }

  lemma PackageParts(db: DB, lease: string, sub: Subtask)
    requires Normal(sub.spec.grants)
    ensures var pkg := ContextOf(db, lease, sub);
      pkg.Some? && pkg.value.lease == lease && PartsOf(db, sub, pkg.value)
  {
    hide BoardViews, ArtifactsFor, DecisionsFor;
  }

  ghost predicate PartsOf(db: DB, sub: Subtask, pkg: ContextPackage) {
    && pkg.task == sub && pkg.views == BoardViews(db.board, sub.spec.mission, sub.spec.grants.views)
    && pkg.artifacts == ArtifactsFor(db.artifacts, sub.spec.mission, sub.spec.grants.artifactRefs)
    && pkg.decisions == DecisionsFor(db.decisions, sub)
    && pkg.budget == if sub.spec.mission in db.budgets
                     then Some(db.budgets[sub.spec.mission].(available := db.budgets[sub.spec.mission].total
                                                             - db.budgets[sub.spec.mission].held - db.budgets[sub.spec.mission].spent))
                     else None
  }

  lemma CoveredBy(db: DB, sub: Subtask, pkg: ContextPackage)
    requires PartsOf(db, sub, pkg)
    requires forall k :: k in pkg.views ==>
      var v := pkg.views[k];
      && k == BoardKey(sub.spec.mission, v.ns, v.key) && MayRead(sub.spec.grants, v.ns, v.key)
      && (v.writable ==> MayWrite(sub.spec.grants, v.ns, v.key))
    ensures Covered(sub.spec, pkg)
  {
    hide BoardViews, MayRead, MayWrite, BoardKey;
  }

  lemma CompleteBy(db: DB, sub: Subtask, pkg: ContextPackage)
    requires PartsOf(db, sub, pkg)
    requires sub.spec.mission in db.budgets ==>
      var a := db.budgets[sub.spec.mission]; a == a.(available := a.total - a.held - a.spent)
    requires forall k :: k in db.board ==>
      var e := db.board[k];
      e.mission == sub.spec.mission && MayRead(sub.spec.grants, e.ns, e.key) ==>
        k in pkg.views
        && pkg.views[k] == ContextView(e.ns, e.key, e.value, e.version, MayWrite(sub.spec.grants, e.ns, e.key))
    ensures Complete(db, sub, pkg)
  {
    hide BoardViews, MayRead, MayWrite, BoardKey;
  }

  // ---- over runs ----

  /** Every stored package belongs to a lease and stays within the grants of that lease's subtask. */
  ghost predicate AllCovered(db: DB) {
    forall l :: l in db.contexts ==>
      l in db.leases && db.leases[l].subtask in db.subtasks && Covered(db.subtasks[db.leases[l].subtask].spec, db.contexts[l])
  }

  lemma CoverageStays(db: DB, d: DB)
    requires AllCovered(db) && Sound(db, d) && d.contexts == db.contexts
    ensures AllCovered(d)
  {
    hide Inv, Covered;
  }

  /** Only an accepted offer writes a package. */
  lemma CallKeepsContexts(db: DB, c: Call)
    requires !c.op.OpOffer?
    ensures Step(db, c).0.contexts == db.contexts
  {
    if Ordinary(c.op) {
      hide Step;
      OrdinaryKeepsBooks(db, c);
    } else {
      hide CreateMission, SetMissionStatus, CompleteSubtask, FailSubtask, CancelSubtask, SpawnSubtask, MoneyOnly;
      match c.op
      case OpCreateMission(m, subs) => CreationContexts(db, m, subs, c.actor, c.now);
      case OpSetStatus(id, status, expected) => StatusContexts(db, id, status, expected, c.actor, c.now);
      case OpComplete(id, token, key, ref, usage, expected) =>
        CompletionContexts(db, id, token, key, ref, usage, expected, c.actor, c.now);
      case OpFail(id, token, reason, expected) =>
        FailFrame(db, id, token, reason, expected, c.actor, c.now);
        MoneyKeepsKeys(db, FailSubtask(db, id, token, reason, expected, c.actor, c.now).0);
      case OpCancel(id, expected) =>
        CancelFrame(db, id, expected, c.actor, c.now);
        MoneyKeepsKeys(db, CancelSubtask(db, id, expected, c.actor, c.now).0);
      case OpSpawn(key, parent, token, parentVersion, child) =>
        SpawnContexts(db, key, parent, token, parentVersion, child, c.actor, c.now);
      case OpPutIdempotent(key, value) =>
    }
  }

  lemma CreationContexts(db: DB, m: Mission, subs: seq<Subtask>, actor: Actor, now: int)
    ensures CreateMission(db, m, subs, actor, now).0.contexts == db.contexts
  {
    hide AddSubtasks, WithSubtasks;
    AddSubtasksFrame(OpenMission(db, m, actor, now), subs, actor, now);
  }

  lemma StatusContexts(db: DB, id: string, status: MissionStatus, expected: int, actor: Actor, now: int)
    ensures SetMissionStatus(db, id, status, expected, actor, now).0.contexts == db.contexts
  {
    if SetMissionStatus(db, id, status, expected, actor, now).1.Ok? {
      StatusUnfolds(db, id, status, expected, actor, now);
      hide SetMissionStatus;
    }
  }

  lemma CompletionContexts(db: DB, id: string, token: int, key: string, ref: string, usage: int, expected: int,
                           actor: Actor, now: int)
    ensures CompleteSubtask(db, id, token, key, ref, usage, expected, actor, now).0.contexts == db.contexts
  {
    if CompleteSubtask(db, id, token, key, ref, usage, expected, actor, now).1.Ok? {
      hide CompleteSubtask;
      CompletionBooks(db, id, token, key, ref, usage, expected, actor, now);
      SettleContexts(db, db.subtasks[id], usage, actor, now);
    } else {
      CompleteDecides(db, id, token, key, ref, usage, expected, actor, now);
      hide CompleteSubtask;
    }
    hide SettleHold, FencingOk, Apply;
  }

  lemma SettleContexts(db: DB, sub: Subtask, usage: int, actor: Actor, now: int)
    requires SettleHold(db, sub, usage, actor, now).Ok?
    ensures SettleHold(db, sub, usage, actor, now).value.contexts == db.contexts
  {
    hide Balanced;
  }

  lemma SpawnContexts(db: DB, key: string, parent: string, token: int, parentVersion: int, child: Subtask,
                      actor: Actor, now: int)
    ensures SpawnSubtask(db, key, parent, token, parentVersion, child, actor, now).0.contexts == db.contexts
  {
    if SpawnSubtask(db, key, parent, token, parentVersion, child, actor, now).1.Ok? {
      hide SpawnSubtask, ReserveHold, AddSubtask, Move, ChildBirth;
      SpawnUnfolds(db, key, parent, token, parentVersion, child, actor, now);
      var born, keyed := child.(state := Pending, version := 0), db.(idem := db.idem[key := child.id]);
      var held := ReserveHold(keyed, child, child.spec.tokens, actor, now);
      ReserveFrame(keyed, child, child.spec.tokens, actor, now);
      AddContents(held, born, ChildBirth(child, parent), actor, now);
      MoveContents(AddSubtask(held, born, ChildBirth(child, parent), actor, now), Moving(born, Ready), EvDepsSatisfied,
                   map[], System("orchestrator"), now);
    } else {
      SpawnRejected(db, key, parent, token, parentVersion, child, actor, now);
      hide SpawnSubtask;
    }
  }

  /** The package of an accepted offer is the one built for its subtask. */
  lemma OfferKeepsCoverage(db: DB, c: Call)
    requires Inv(db) && AllCovered(db) && Admissible(db, c) && c.op.OpOffer?
    ensures AllCovered(Step(db, c).0)
  {
    hide Inv, OfferLease, ContextOf, Covered, LeaseId;
    var r := OfferLease(db, c.op.id, c.op.agent, c.op.expected, c.op.ttl, c.actor, c.now);
    OfferLeaseKeeps(db, c.op.id, c.op.agent, c.op.expected, c.op.ttl, c.actor, c.now);
    OfferFrame(db, c.op.id, c.op.agent, c.op.expected, c.op.ttl, c.actor, c.now);
    if r.1.Ok? {
      OfferStores(db, c.op.id, c.op.agent, c.op.expected, c.op.ttl, c.actor, c.now);
      PackageIsGranted(db, r.1.value.id, c.op.id);
      OfferCovered(db, r.0, r.1.value, ContextOf(db, r.1.value.id, db.subtasks[c.op.id]).value);
    } else {
      CoverageStays(db, r.0);
    }
  }

  lemma OfferStores(db: DB, id: string, agent: string, expected: int, ttl: int, actor: Actor, now: int)
    requires OfferLease(db, id, agent, expected, ttl, actor, now).1.Ok?
    ensures var r := OfferLease(db, id, agent, expected, ttl, actor, now);
      r.1.value.id in r.0.leases && r.0.leases[r.1.value.id] == r.1.value && r.1.value.subtask == id
  {
    hide OfferLease, LeaseId, ContextOf, Incremented;
    OfferUnfolds(db, id, agent, expected, ttl, actor, now);
  }

  lemma OfferCovered(db: DB, d: DB, lease: Lease, pkg: ContextPackage)
    requires AllCovered(db) && Sound(db, d) && d.contexts == db.contexts[lease.id := pkg]
    requires lease.id in d.leases && d.leases[lease.id] == lease && lease.subtask in db.subtasks
    requires Covered(db.subtasks[lease.subtask].spec, pkg)
    ensures AllCovered(d)
  {
    hide Inv, Covered;
  }

  /** In every reachable state each stored package, whatever has happened since it was built, holds nothing that
      the grants of its lease's subtask do not name. */
  lemma {:induction false} PackagesStayGranted(calls: seq<Call>)
    requires Legal(calls)
    ensures AllCovered(Run(calls))
  {
    hide Step, Admissible, AllCovered;
    if calls == [] {
      NothingStored();
    } else {
      var init, c := calls[..|calls| - 1], calls[|calls| - 1];
      PackagesStayGranted(init);
      RunKeeps(init);
      if c.op.OpOffer? {
        OfferKeepsCoverage(Run(init), c);
      } else {
        StepKeeps(Run(init), c);
        CallKeepsContexts(Run(init), c);
        CoverageStays(Run(init), Run(calls));
      }
    }
  }

  lemma NothingStored()
    ensures AllCovered(EMPTY)
  {}

  // ---- delegation ----

  const LEVELS := ["public", "internal", "confidential", "restricted"]

  /** The lower envelope allows nothing that the higher one does not: no higher level, no other tool or artifact,
      nothing more to read or to write. */
  ghost predicate NoWider(high: Envelope, low: Envelope) {
    && (exists a, b :: 0 <= a <= b < |LEVELS| && low.classification == LEVELS[a] && high.classification == LEVELS[b])
    && (forall t :: t in low.toolScopes ==> t in high.toolScopes)
    && (forall a :: a in low.artifactRefs ==> a in high.artifactRefs)
    && (forall ns, key :: MayRead(low, ns, key) ==> MayRead(high, ns, key))
    && (forall ns, key :: MayWrite(low, ns, key) ==> MayWrite(high, ns, key))
  }

  /** Along every delegation chain, whatever its length, the permissions only narrow. */
  lemma DelegationNarrows(db: DB, chain: seq<string>, i: nat)
    requires Inv(db) && Chain(db.subtasks, chain) && i < |chain|
    ensures NoWider(db.subtasks[chain[i]].spec.grants, db.subtasks[chain[0]].spec.grants)
  {
    ChainAttenuates(db, chain, i);
    SubtaskFacts(db, chain[0]);
    SubtaskFacts(db, chain[i]);
    hide Inv, Chain;
    SubsetNarrows(db.subtasks[chain[i]].spec.grants, db.subtasks[chain[0]].spec.grants);
  }

  lemma SubsetNarrows(high: Envelope, low: Envelope)
    requires Normal(high) && Normal(low) && Subset(high, low)
    ensures NoWider(high, low)
  {
    RankIsLevel(high.classification);
    RankIsLevel(low.classification);
    forall ns, key ensures MayRead(low, ns, key) ==> MayRead(high, ns, key)
      ensures MayWrite(low, ns, key) ==> MayWrite(high, ns, key)
    {
      forall c | c in low.views && Reads(c, ns, key)
        ensures exists p :: p in high.views && Reads(p, ns, key) && (c.mode == "rw" ==> p.mode == "rw")
      {
        var p :| p in high.views && Covers(p, c);
        NormalViewsValid(high, p);
      }
    }
  }

  lemma RankIsLevel(c: string)
    ensures Rank(c).Some? ==> Rank(c).value < |LEVELS| && c == LEVELS[Rank(c).value]
  {}
}
