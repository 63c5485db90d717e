/** intentCreateMission of internal/core/intent.go: exactly-once mission creation. Submissions with one
    idempotency key run step by step, interleaved with each other and with all other traffic, and any
    of them may be cut off between two store calls for ever. */
module Intents {
  import opened Basics
  import opened StateMachine
  import opened Records
  import opened StoreSpec
  import opened EventLog
  import opened Invariants
  import opened StoreOps
  import opened StoreRuns
  import opened Flow
  import opened FlowKeeps
  import opened FlowChanges
  import opened Orchestrator
  import opened DelegationRuns
  import opened CallFrames
  import opened Dag
  import opened Plans

  /** What one submission carries besides the key; `id` is its random mission id. */
  datatype Submission = Submission(id: string, owner: string, goal: string, budget: int, tasks: seq<Task>, source: Actor)

  /** Where a submission stands: what its next store call will be. */
  datatype Stage =
    | Reserving
    | Looking(m: string)
    | Creating(m: string, duplicate: bool)
    | Rechecking(m: string)
    | Sweeping(m: string, rounds: nat)
    | Activating(m: string, todo: seq<string>, rounds: nat)
    | Replied(m: string)
    | Rejected

  function MissionOf(s: Submission, m: string): Mission { Mission(m, s.owner, s.goal, s.budget, Active, 0) }

  /** The store key of the submissions with idempotency key k. */
  function IntentKey(k: string): string { "intent-" + k }

  /** newID("msn"): a prefix and twenty hexadecimal digits. */
  predicate MissionId(m: string) { |m| == 24 && m[..4] == "msn_" }

  ghost predicate Sane(s: Submission) {
    MissionId(s.id) && s.budget >= 0 && s.tasks != [] && ValidGrants(s.tasks) && ValidDag(s.tasks)
  }

  ghost predicate PendingRoots(order: seq<string>, subs: map<string, Subtask>, m: string) {
    forall id :: id in order <==> IdleRoot(subs, m, id)
  }

  /** One store call of one submission. A duplicate that had to create activates twice, once inside
      createMission and once after it. */
  ghost predicate Moves(key: string, s: Submission, db: DB, p: Stage, now: int, d: DB, q: Stage) {
    match p
    case Reserving =>
      var r := PutIdempotent(db, key, s.id);
      d == r.0 && q == if r.1.Duplicate? then Looking(r.1.value) else Creating(s.id, false)
    case Looking(m) =>
      d == db && q == if m in db.missions then Sweeping(m, 1) else Creating(m, true)
    case Creating(m, duplicate) =>
      |m| >= 4 && ValidGrants(s.tasks) &&
      var r := CreateMission(db, MissionOf(s, m), PlanOf(m, s.tasks), s.source, now);
      d == r.0 && q == if r.1.Ok? then Sweeping(m, if duplicate then 2 else 1)
                       else if duplicate then Rechecking(m) else Rejected
    case Rechecking(m) =>
      d == db && q == if m in db.missions then Sweeping(m, 1) else Rejected
    case Sweeping(m, rounds) =>
      d == db && q.Activating? && q.m == m && q.rounds == rounds && PendingRoots(q.todo, db.subtasks, m)
    case Activating(m, todo, rounds) =>
      if todo == [] then d == db && q == if rounds > 1 then Sweeping(m, rounds - 1) else Replied(m)
      else
        && d == Transition(db, todo[0], EvDepsSatisfied, 0, s.source, map[], now, NoMutation).0
        && q == Activating(m, todo[1..], rounds)
    case Replied(_) => d == db && q == p
    case Rejected => d == db && q == p
  }

  // ---- what any traffic preserves ----

  /** New PENDING subtasks belong to new missions. */
  ghost predicate NoLateRoots(db: DB, d: DB) {
    forall id :: id in d.subtasks && id !in db.subtasks && d.subtasks[id].state == Pending ==>
      d.subtasks[id].spec.mission !in db.missions
  }

  ghost predicate Calm(db: DB, d: DB) { Sound(db, d) && NoLateRoots(db, d) }

  /** Where a submission stands is consistent with the store. */
  ghost predicate Consistent(key: string, db: DB, p: Stage) {
    match p
    case Reserving => true
    case Looking(m) => Bound(key, db, m)
    case Creating(m, _) => Bound(key, db, m)
    case Rechecking(m) => Bound(key, db, m)
    case Sweeping(m, rounds) => Bound(key, db, m) && m in db.missions
    case Activating(m, todo, rounds) =>
      Bound(key, db, m) && m in db.missions && forall id :: IdleRoot(db.subtasks, m, id) ==> id in todo
    case Replied(m) => Bound(key, db, m) && m in db.missions && forall id :: !IdleRoot(db.subtasks, m, id)
    case Rejected => true
  }

  ghost predicate Bound(key: string, db: DB, m: string) { key in db.idem && db.idem[key] == m }

  lemma RootsDoNotReturn(db: DB, d: DB, m: string, id: string)
    requires Inv(db) && Calm(db, d) && m in db.missions && IdleRoot(d.subtasks, m, id)
    ensures IdleRoot(db.subtasks, m, id)
  {
    hide Inv, Grows;
    if id in db.subtasks {
      StoresGoForward(db, d, id);
    }
  }

  lemma CalmBound(key: string, db: DB, d: DB, m: string)
    requires Calm(db, d)
    ensures Bound(key, db, m) ==> Bound(key, d, m)
    ensures m in db.missions ==> m in d.missions
  {
    hide Inv;
  }

  lemma CalmKeeps(key: string, db: DB, d: DB, p: Stage)
    requires Inv(db) && Calm(db, d) && Consistent(key, db, p)
    ensures Consistent(key, d, p)
  {
    hide Inv, Calm, Bound, IdleRoot;
    if !p.Reserving? && !p.Rejected? {
      CalmBound(key, db, d, p.m);
    }
    if p.Activating? || p.Replied? {
      forall id | IdleRoot(d.subtasks, p.m, id) ensures IdleRoot(db.subtasks, p.m, id) {
        RootsDoNotReturn(db, d, p.m, id);
      }
    }
  }

  // ---- admissible store calls are calm ----

  lemma ShapeCalm(db: DB, d: DB)
    requires SameShape(db.subtasks, d.subtasks)
    ensures NoLateRoots(db, d)
  {}

  lemma CreateCallCalm(db: DB, m: Mission, subs: seq<Subtask>, actor: Actor, now: int)
    requires m.id !in db.missions ==> NewRoots(db.subtasks, m.id, subs)
    ensures NoLateRoots(db, CreateMission(db, m, subs, actor, now).0)
  {
    if m.id !in db.missions {
      hide AddSubtasks, WithSubtasks;
      AddSubtasksFrame(OpenMission(db, m, actor, now), subs, actor, now);
      WithSubtasksContents(db.subtasks, subs);
      var all := WithSubtasks(db.subtasks, subs);
      forall id | id in all && id !in db.subtasks ensures all[id].spec.mission == m.id {
        var i :| 0 <= i < |subs| && subs[i].id == id;
        assert NewRoot(m.id, subs[i]);
      }
    }
  }

  lemma SpawnCallCalm(db: DB, key: string, parent: string, token: int, parentVersion: int, child: Subtask,
                      actor: Actor, now: int)
    ensures NoLateRoots(db, SpawnSubtask(db, key, parent, token, parentVersion, child, actor, now).0)
  {
    hide Permissions.Subset, FencingOk, ReserveHold;
    ReserveFrame(db.(idem := db.idem[key := child.id]), child, child.spec.tokens, actor, now);
  }

  /** Whatever else goes on in the store, by any interleaving of admissible calls, is calm. */
  lemma CallsAreCalm(db: DB, c: Call)
    requires Inv(db) && Admissible(db, c)
    ensures Calm(db, Step(db, c).0)
  {
    hide Inv, Sound, Quiet, SameShape, NoLateRoots;
    StepKeeps(db, c);
    var d := Step(db, c).0;
    if PassThrough(c.op) {
      PassThroughQuiet(db, c);
      QuietIsShape(BoardOf(db), BoardOf(d));
      ShapeCalm(db, d);
    } else {
      FlowCallsCalm(db, c);
    }
  }

  lemma QuietIsShape(a: Board, b: Board)
    requires Quiet(a, b)
    ensures SameShape(a.subs, b.subs)
  {}

  lemma FlowCallsCalm(db: DB, c: Call)
    requires Inv(db) && Admissible(db, c) && !PassThrough(c.op)
    ensures NoLateRoots(db, Step(db, c).0)
  {
    hide Inv, SameShape, NoLateRoots, NewRoots, NewChild, ServiceEvent;
    hide CreateMission, SetMissionStatus, Transition, CompleteSubtask, FailSubtask, CancelSubtask, SpawnSubtask,
      ExpireWakes;
    var d := Step(db, c).0;
    match c.op
    case OpCreateMission(m, subs) => CreateCallCalm(db, m, subs, c.actor, c.now);
    case OpSetStatus(id, status, expected) =>
      StatusCallShape(db, id, status, expected, c.actor, c.now);
      ShapeCalm(db, d);
    case OpTransition(id, ev, expected, extra, mut) =>
      TransitionShape(db, id, ev, expected, c.actor, extra, c.now, mut);
      ShapeCalm(db, d);
    case OpComplete(id, token, key, ref, usage, expected) =>
      CompleteCallShape(db, id, token, key, ref, usage, expected, c.actor, c.now);
      ShapeCalm(db, d);
    case OpFail(id, token, reason, expected) =>
      FailCallShape(db, id, token, reason, expected, c.actor, c.now);
      ShapeCalm(db, d);
    case OpCancel(id, expected) => CancelCallShape(db, id, expected, c.actor, c.now); ShapeCalm(db, d);
    case OpSpawn(key, parent, token, parentVersion, child) =>
      SpawnCallCalm(db, key, parent, token, parentVersion, child, c.actor, c.now);
    case OpExpireWakes(order) => WakesCallShape(db, order, c.now); KeysCalm(db, d);
  }

  lemma KeysCalm(db: DB, d: DB)
    requires db.subtasks.Keys == d.subtasks.Keys
    ensures NoLateRoots(db, d)
  {}

  // ---- the submissions of one key ----

  /** The store as the submissions of `key` see it: their random ids are used by nobody else. */
  ghost predicate Reserved(key: string, ids: set<string>, db: DB) {
    && Inv(db)
    && (forall m :: m in ids ==> MissionId(m) && (m !in db.missions ==> FreshMission(db.subtasks, m)))
    && (key in db.idem ==> db.idem[key] in ids)
    && (forall m :: m in ids && m in db.missions ==> Bound(key, db, m))
  }

  /** Other traffic: calm, binding neither the key nor the random ids. */
  ghost predicate Others(key: string, ids: set<string>, db: DB, d: DB) {
    && Calm(db, d) && (key in d.idem ==> key in db.idem)
    && forall m :: m in ids ==> (m in d.missions ==> m in db.missions) && (m !in d.missions && |m| >= 4 ==> FreshMission(d.subtasks, m))
  }

  /** The subtask id is not one that a task of the mission gets. */
  predicate Apart(m: string, id: string) { |m| >= 4 ==> !(SubId(m, "") <= id) }

  /** What a caller can check before a store call: it brings neither the submissions' key, nor one of their
      mission ids, nor a subtask id of theirs for another mission. A task of a submitted mission may delegate
      under any name. */
  ghost predicate Foreign(key: string, ids: set<string>, op: Op) {
    && (Binding(op).Some? ==> Binding(op).value.0 != key)
    && match op
       case OpCreateMission(m, subs) =>
         m.id !in ids && forall x, i :: x in ids && 0 <= i < |subs| ==> Apart(x, subs[i].id)
       case OpSpawn(_, _, _, _, child) => forall x :: x in ids && x != child.spec.mission ==> Apart(x, child.id)
       case _ => true
  }

  datatype World = World(db: DB, progress: seq<Stage>)

  ghost function IdsFor(subs: seq<Submission>): set<string> { set i | 0 <= i < |subs| :: subs[i].id }

  /** One call of one submission, or any admissible foreign call by anybody. */
  ghost predicate WorldStep(k: string, subs: seq<Submission>, w: World, v: World) {
    || (v.progress == w.progress && exists c ::
          Admissible(w.db, c) && Foreign(IntentKey(k), IdsFor(subs), c.op) && v.db == Step(w.db, c).0)
    || exists i, now, q :: 0 <= i < |subs| == |w.progress| && v.progress == w.progress[i := q]
         && Moves(IntentKey(k), subs[i], w.db, w.progress[i], now, v.db, q)
  }

  ghost predicate WorldInv(key: string, subs: seq<Submission>, w: World) {
    && |w.progress| == |subs| && Reserved(key, IdsFor(subs), w.db)
    && forall i :: 0 <= i < |subs| ==> Consistent(key, w.db, w.progress[i])
  }

  lemma OthersKeep(key: string, subs: seq<Submission>, w: World, v: World)
    requires WorldInv(key, subs, w) && v.progress == w.progress && Others(key, IdsFor(subs), w.db, v.db)
    ensures WorldInv(key, subs, v)
  {
    var ids := IdsFor(subs);
    hide Inv, Grows, IdsFor, FreshMission, Consistent, NoLateRoots;
    forall i | 0 <= i < |subs| ensures Consistent(key, v.db, v.progress[i]) {
      CalmKeeps(key, w.db, v.db, w.progress[i]);
    }
    assert key in v.db.idem ==> v.db.idem[key] in ids by { CalmKey(key, w.db, v.db); }
    forall m | m in ids && m in v.db.missions ensures Bound(key, v.db, m) {
      CalmBound(key, w.db, v.db, m);
    }
  }

  // ---- foreign calls ----

  lemma SubIdPrefix(m: string, name: string)
    requires |m| >= 4
    ensures SubId(m, "") <= SubId(m, name)
  {
    assert SubId(m, name) == SubId(m, "") + name;
  }

  lemma ApartStaysFresh(subtasks: map<string, Subtask>, after: map<string, Subtask>, m: string)
    requires |m| >= 4 && FreshMission(subtasks, m)
    requires forall id :: id in after && id !in subtasks ==> Apart(m, id)
    ensures FreshMission(after, m)
  {
    hide SubId;
    forall name ensures SubId(m, name) !in after {
      SubIdPrefix(m, name);
    }
  }

  /** The new subtasks of a foreign call are apart from every mission that the submissions have still to
      create: a child's mission is stored, because its parent is. */
  lemma ForeignSubtasks(key: string, ids: set<string>, db: DB, c: Call, m: string)
    requires Inv(db) && Admissible(db, c) && Foreign(key, ids, c.op) && m in ids && m !in db.missions
    ensures forall id :: id in Step(db, c).0.subtasks && id !in db.subtasks ==> Apart(m, id)
  {
    hide Inv, Apart, CreateMission, SpawnSubtask, NewRoots;
    match c.op
    case OpCreateMission(n, subs) => CreateCallSubtasks(db, n, subs, c.actor, c.now);
    case OpSpawn(k, parent, token, parentVersion, child) =>
      SpawnCallSubtasks(db, k, parent, token, parentVersion, child, c.actor, c.now);
      if parent in db.subtasks {
        SubtaskFacts(db, parent);
      } else {
        SpawnUnderUnknown(db, k, parent, token, parentVersion, child, c.actor, c.now);
      }
    case _ => hide Step; CallKeepsKeys(db, c);
  }

  lemma SpawnUnderUnknown(db: DB, key: string, parent: string, token: int, parentVersion: int, child: Subtask,
                          actor: Actor, now: int)
    requires parent !in db.subtasks
    ensures SpawnSubtask(db, key, parent, token, parentVersion, child, actor, now).0 == db
  {}

  lemma ForeignMissions(key: string, ids: set<string>, db: DB, c: Call, m: string)
    requires Inv(db) && Foreign(key, ids, c.op) && m in ids
    ensures m in Step(db, c).0.missions ==> m in db.missions
  {
    hide Inv, CreateMission, SpawnSubtask;
    match c.op
    case OpCreateMission(n, subs) =>
      CreateCallMissions(db, n, subs, c.actor, c.now);
      CreateAgain(db, n, subs, c.actor, c.now);
    case OpSpawn(k, parent, token, parentVersion, child) =>
      SpawnCallSubtasks(db, k, parent, token, parentVersion, child, c.actor, c.now);
    case _ => hide Step; CallKeepsKeys(db, c);
  }

  /** Admissible calls that pass the check are harmless to the submissions. */
  lemma ForeignIsOthers(key: string, ids: set<string>, db: DB, c: Call)
    requires Reserved(key, ids, db) && Admissible(db, c) && Foreign(key, ids, c.op)
    ensures Others(key, ids, db, Step(db, c).0)
  {
    hide Inv, Calm, FreshMission, Step, Admissible, Apart;
    var d := Step(db, c).0;
    CallsAreCalm(db, c);
    CallBindsExactly(db, c);
    forall m | m in ids
      ensures (m in d.missions ==> m in db.missions) && (m !in d.missions && |m| >= 4 ==> FreshMission(d.subtasks, m))
    {
      ForeignMissions(key, ids, db, c, m);
      if m !in d.missions && |m| >= 4 {
        MissionsStay(db, d, m);
        ForeignSubtasks(key, ids, db, c, m);
        ApartStaysFresh(db.subtasks, d.subtasks, m);
      }
    }
  }

  lemma MissionsStay(db: DB, d: DB, m: string)
    requires Calm(db, d)
    ensures m in db.missions ==> m in d.missions
  {
    hide Inv;
  }

  /** Who is foreign by construction: completions under keys without the prefix, other submissions, and
      delegations unless k itself continues the prefix to theirs. */
  lemma PrefixesApart(k: string, other: string)
    ensures IntentKey(other) == IntentKey(k) <==> other == k
    ensures "intent-delegate-" + other == IntentKey(k) <==> k == "delegate-" + other
    ensures !("intent-" <= other) ==> other != IntentKey(k)
  {
    assert IntentKey(k)[7..] == k && IntentKey(other)[7..] == other;
    assert ("intent-delegate-" + other) == IntentKey("delegate-" + other);
    assert IntentKey("delegate-" + other)[7..] == "delegate-" + other;
    assert IntentKey(k)[..7] == "intent-";
  }

  /** The subtasks of another mission are apart, and so is every id of at most 24 characters. */
  lemma OtherIdsApart(m: string, n: string, id: string)
    requires MissionId(m)
    ensures MissionId(n) && n != m && SubId(n, "") <= id ==> Apart(m, id)
    ensures |id| <= 24 ==> Apart(m, id)
  {
    if MissionId(n) && n != m && SubId(n, "") <= id && SubId(m, "") <= id {
      assert SubId(m, "") == id[..25] == SubId(n, "");
      SubIdsApart(m, n, "", "");
    }
  }

  /** Every delegation, named or not and in whatever mission, is foreign, unless the keys collide. */
  lemma DelegationsAreForeign(k: string, ids: set<string>, x: string, parent: string, token: int, parentVersion: int,
                              child: Subtask, name: string)
    requires (forall m :: m in ids ==> MissionId(m)) && MissionId(child.spec.mission)
    requires child.id == SubId(child.spec.mission, name) || |child.id| <= 24
    ensures Foreign(IntentKey(k), ids, OpSpawn("intent-delegate-" + x, parent, token, parentVersion, child))
       <==> k != "delegate-" + x
  {
    hide IntentKey, Apart, SubId;
    PrefixesApart(k, x);
    forall m | m in ids && m != child.spec.mission ensures Apart(m, child.id) {
      SubIdPrefix(child.spec.mission, name);
      OtherIdsApart(m, child.spec.mission, child.id);
    }
  }

  /** So is the creation of every other mission. */
  lemma CreationsAreForeign(key: string, ids: set<string>, m: Mission, tasks: seq<Task>)
    requires (forall x :: x in ids ==> MissionId(x)) && MissionId(m.id) && m.id !in ids && ValidGrants(tasks)
    ensures Foreign(key, ids, OpCreateMission(m, PlanOf(m.id, tasks)))
  {
    hide Apart, SubId, ValidGrants;
    var subs := PlanOf(m.id, tasks);
    forall x, i | x in ids && 0 <= i < |subs| ensures Apart(x, subs[i].id) {
      SubIdPrefix(m.id, tasks[i].name);
      OtherIdsApart(x, m.id, subs[i].id);
    }
  }

  // ---- what the check is for ----

  /** A completion under a key of the form "intent-" + k takes the key: every later submission of k is sent
      to a mission named like the result, and its own id is never used. Under a key that is already bound
      the completion is answered as a duplicate and does nothing. */
  lemma CollidingCompletion(db: DB, k: string, id: string, token: int, ref: string, usage: int, expected: int,
                            actor: Actor, now: int, s: Submission, later: int, e: DB, q: Stage)
    ensures var r := CompleteSubtask(db, id, token, IntentKey(k), ref, usage, expected, actor, now);
      if r.1.Ok?
      then
        && Bound(IntentKey(k), r.0, ref) && !Foreign(IntentKey(k), {s.id}, OpComplete(id, token, IntentKey(k), ref, usage, expected))
        && (Moves(IntentKey(k), s, r.0, Reserving, later, e, q) ==> e == r.0 && q == Looking(ref))
      else
        && r.0 == db && (IntentKey(k) in db.idem && id in db.subtasks ==> r.1.Duplicate?)
  {
    hide CompleteSubtask;
    CompleteBinds(db, id, token, IntentKey(k), ref, usage, expected, actor, now);
    if IntentKey(k) in db.idem && id in db.subtasks {
      CompleteReplays(db, id, token, IntentKey(k), ref, usage, expected, actor, now);
    }
  }

  lemma CompleteReplays(db: DB, id: string, token: int, key: string, ref: string, usage: int, expected: int,
                        actor: Actor, now: int)
    requires key in db.idem && id in db.subtasks
    ensures CompleteSubtask(db, id, token, key, ref, usage, expected, actor, now).1.Duplicate?
  {}

  /** A delegation under key x and a submission with k = "delegate-" + x share their store key: whichever
      comes second is answered with the other's id. */
  lemma CollidingDelegation(db: DB, x: string, parent: string, token: int, parentVersion: int, child: Subtask,
                            actor: Actor, now: int, s: Submission, later: int, e: DB, q: Stage)
    ensures var key := "intent-delegate-" + x;
      var r := SpawnSubtask(db, key, parent, token, parentVersion, child, actor, now);
      && key == IntentKey("delegate-" + x)
      && (r.1.Ok? ==> Bound(key, r.0, child.id)
                      && (Moves(key, s, r.0, Reserving, later, e, q) ==> e == r.0 && q == Looking(child.id)))
      && (key in db.idem ==> r == (db, Duplicate(db.idem[key])))
  {
    var key := "intent-delegate-" + x;
    PrefixesApart("delegate-" + x, x);
    SpawnBinds(db, key, parent, token, parentVersion, child, actor, now);
    if key in db.idem {
      SpawnReplays(db, key, parent, token, parentVersion, child, actor, now);
    }
    hide SpawnSubtask;
  }

  lemma SpawnReplays(db: DB, key: string, parent: string, token: int, parentVersion: int, child: Subtask, actor: Actor,
                     now: int)
    requires key in db.idem
    ensures SpawnSubtask(db, key, parent, token, parentVersion, child, actor, now) == (db, Duplicate(db.idem[key]))
  {}

  // ---- the submissions' own calls ----

  lemma CalmKey(key: string, db: DB, d: DB)
    requires Calm(db, d)
    ensures key in db.idem ==> key in d.idem && d.idem[key] == db.idem[key]
  {
    hide Inv;
  }

  /** PENDING subtasks have made no move, so a listed PENDING root still has version 0. */
  lemma {:induction false} PendingIsNew(events: seq<Event>, id: string)
    ensures Replay(events, id).At? ==> 0 <= Replay(events, id).version
    ensures Replay(events, id).At? && Replay(events, id).state == Pending ==> Replay(events, id).version == 0
  {
    if events != [] {
      PendingIsNew(events[..|events| - 1], id);
    }
  }

  /** After its activation call a root is not PENDING, whether the call won or lost. */
  lemma ActivatedAtLast(db: DB, id: string, actor: Actor, now: int)
    requires Inv(db)
    ensures var d := Transition(db, id, EvDepsSatisfied, 0, actor, map[], now, NoMutation).0;
      id in d.subtasks ==> d.subtasks[id].state != Pending
  {
    if id in db.subtasks {
      SubtaskFacts(db, id);
      LogTracks(db, id);
      PendingIsNew(db.events, id);
      CompletionEvent(Pending);
      hide Inv;
      TableShape(db.subtasks[id].state, EvDepsSatisfied);
      hide Apply;
    }
  }

  lemma ActivationCalm(db: DB, id: string, actor: Actor, now: int)
    requires Inv(db)
    ensures Calm(db, Transition(db, id, EvDepsSatisfied, 0, actor, map[], now, NoMutation).0)
  {
    hide Inv, Transition, SameShape, Sound;
    TransitionKeeps(db, id, EvDepsSatisfied, 0, actor, map[], now, NoMutation);
    TransitionShape(db, id, EvDepsSatisfied, 0, actor, map[], now, NoMutation);
    ShapeCalm(db, Transition(db, id, EvDepsSatisfied, 0, actor, map[], now, NoMutation).0);
  }

  lemma ReserveStep(key: string, ids: set<string>, s: Submission, db: DB)
    requires Reserved(key, ids, db) && s.id in ids
    ensures var d := PutIdempotent(db, key, s.id).0;
      && Reserved(key, ids, d) && Calm(db, d) && Bound(key, d, if key in db.idem then db.idem[key] else s.id)
  {
    hide Inv, FreshMission;
    PutIdempotentKeeps(db, key, s.id);
    SelfShape(db.subtasks);
  }

  lemma CreateStepKeeps(key: string, ids: set<string>, s: Submission, db: DB, m: string, now: int)
    requires Reserved(key, ids, db) && Bound(key, db, m) && Sane(s)
    ensures |m| >= 4
    ensures var d := CreateMission(db, MissionOf(s, m), PlanOf(m, s.tasks), s.source, now).0;
      && Reserved(key, ids, d) && Calm(db, d) && m in d.missions
  {
    hide Inv, PlanOf, ValidGrants, FreshMission, NewRoots, CreateMission, NoCycle;
    var subs, mission := PlanOf(m, s.tasks), MissionOf(s, m);
    if m !in db.missions {
      PlanIsNew(db.subtasks, m, s.tasks);
    }
    CreateMissionKeeps(db, mission, subs, s.source, now);
    CreateCallCalm(db, mission, subs, s.source, now);
    CreateCallMissions(db, mission, subs, s.source, now);
    var d := CreateMission(db, mission, subs, s.source, now).0;
    CalmKey(key, db, d);
    forall n | n in ids && n !in d.missions ensures FreshMission(d.subtasks, n) {
      CreateElsewhere(db, mission, s.tasks, s.source, now, n);
    }
  }

  /** Subtask ids of different missions never meet. */
  lemma SubIdsApart(m: string, n: string, a: string, b: string)
    requires MissionId(m) && MissionId(n) && SubId(m, a) == SubId(n, b)
    ensures m == n
  {
    assert SubId(m, a)[4..24] == m[4..] && SubId(n, b)[4..24] == n[4..];
    assert m == m[..4] + m[4..] && n == n[..4] + n[4..];
  }

  lemma CreateElsewhere(db: DB, m: Mission, tasks: seq<Task>, actor: Actor, now: int, n: string)
    requires MissionId(m.id) && MissionId(n) && ValidGrants(tasks) && Named(tasks) && n != m.id
    requires FreshMission(db.subtasks, n)
    ensures FreshMission(CreateMission(db, m, PlanOf(m.id, tasks), actor, now).0.subtasks, n)
  {
    var subs := PlanOf(m.id, tasks);
    hide AddSubtasks, WithSubtasks, SubId, ValidGrants;
    AddSubtasksFrame(OpenMission(db, m, actor, now), subs, actor, now);
    forall i, j | 0 <= i < j < |subs| ensures subs[i].id != subs[j].id {
      SubIdInjective(m.id, tasks[i].name, tasks[j].name);
    }
    WithSubtasksContents(db.subtasks, subs);
    var all := WithSubtasks(db.subtasks, subs);
    forall name ensures SubId(n, name) !in all {
      if i :| 0 <= i < |subs| && subs[i].id == SubId(n, name) {
        SubIdsApart(m.id, n, tasks[i].name, name);
      }
    }
  }

  lemma SubmissionMoves(key: string, ids: set<string>, s: Submission, db: DB, p: Stage, now: int, d: DB, q: Stage)
    requires Reserved(key, ids, db) && s.id in ids && Sane(s) && Consistent(key, db, p)
    requires Moves(key, s, db, p, now, d, q)
    ensures Reserved(key, ids, d) && Calm(db, d) && Consistent(key, d, q)
  {
    hide Inv, Calm, FreshMission, Bound, CreateMission, Transition, IdleRoot, Sane, ValidGrants;
    match p
    case Reserving => ReserveStep(key, ids, s, db);
    case Looking(m) => StillCalm(key, ids, db);
    case Creating(m, duplicate) => CreationMoves(key, ids, s, db, p, now, d, q);
    case Rechecking(m) => StillCalm(key, ids, db);
    case Sweeping(m, rounds) => StillCalm(key, ids, db);
    case Activating(m, todo, rounds) =>
      if todo == [] {
        StillCalm(key, ids, db);
      } else {
        ActivationMoves(key, ids, s, db, p, now, d);
      }
    case Replied(m) => StillCalm(key, ids, db);
    case Rejected => StillCalm(key, ids, db);
  }

  lemma StillCalm(key: string, ids: set<string>, db: DB)
    requires Reserved(key, ids, db)
    ensures Calm(db, db)
  {
    hide Inv;
    Unchanged(db);
  }

  lemma CreationMoves(key: string, ids: set<string>, s: Submission, db: DB, p: Stage, now: int, d: DB, q: Stage)
    requires Reserved(key, ids, db) && s.id in ids && Sane(s) && Consistent(key, db, p) && p.Creating?
    requires Moves(key, s, db, p, now, d, q)
    ensures Reserved(key, ids, d) && Calm(db, d) && Consistent(key, d, q)
  {
    hide Inv, Calm, FreshMission, CreateMission, ValidGrants, ValidDag, Reserved;
    CreateStepKeeps(key, ids, s, db, p.m, now);
    CreateCallMissions(db, MissionOf(s, p.m), PlanOf(p.m, s.tasks), s.source, now);
  }

  lemma ActivationMoves(key: string, ids: set<string>, s: Submission, db: DB, p: Stage, now: int, d: DB)
    requires Reserved(key, ids, db) && Consistent(key, db, p) && p.Activating? && p.todo != []
    requires d == Transition(db, p.todo[0], EvDepsSatisfied, 0, s.source, map[], now, NoMutation).0
    ensures Reserved(key, ids, d) && Calm(db, d) && Consistent(key, d, Activating(p.m, p.todo[1..], p.rounds))
  {
    hide Inv, Calm, FreshMission, Bound, Transition, IdleRoot;
    var id := p.todo[0];
    ActivationCalm(db, id, s.source, now);
    ActivatedAtLast(db, id, s.source, now);
    CalmKeeps(key, db, d, p);
    TransitionElsewhere(db, id, s.source, now);
    forall x | IdleRoot(d.subtasks, p.m, x) ensures x in p.todo[1..] {
      assert x in p.todo;
      IdleIsPending(d.subtasks, p.m, x);
      assert p.todo == [id] + p.todo[1..];
    }
    CalmReserved(key, ids, db, d);
  }

  lemma IdleIsPending(subs: map<string, Subtask>, m: string, id: string)
    requires IdleRoot(subs, m, id)
    ensures id in subs && subs[id].state == Pending
  {}

  lemma TransitionElsewhere(db: DB, id: string, actor: Actor, now: int)
    requires Inv(db)
    ensures var d := Transition(db, id, EvDepsSatisfied, 0, actor, map[], now, NoMutation).0;
      d.subtasks.Keys == db.subtasks.Keys && d.missions == db.missions && d.idem == db.idem
  {
    hide Inv, Transition;
    var r := Transition(db, id, EvDepsSatisfied, 0, actor, map[], now, NoMutation);
    TransitionKeys(db, id, actor, now);
    if r.1.Ok? {
      TransitionMoves(db, id, EvDepsSatisfied, 0, actor, map[], now, NoMutation);
    } else {
      TransitionRejected(db, id, EvDepsSatisfied, 0, actor, map[], now, NoMutation);
    }
  }

  lemma TransitionKeys(db: DB, id: string, actor: Actor, now: int)
    ensures Transition(db, id, EvDepsSatisfied, 0, actor, map[], now, NoMutation).0.idem == db.idem
  {
    hide Apply;
  }

  lemma CalmReserved(key: string, ids: set<string>, db: DB, d: DB)
    requires Reserved(key, ids, db) && Calm(db, d)
    requires d.subtasks.Keys == db.subtasks.Keys && d.missions == db.missions && d.idem == db.idem
    ensures Reserved(key, ids, d)
  {
    hide Inv, Grows, NoLateRoots;
  }

  lemma MovesKeep(key: string, subs: seq<Submission>, w: World, v: World, i: nat, now: int, q: Stage)
    requires WorldInv(key, subs, w) && i < |subs| && Sane(subs[i]) && v.progress == w.progress[i := q]
    requires Moves(key, subs[i], w.db, w.progress[i], now, v.db, q)
    ensures WorldInv(key, subs, v)
  {
    hide Inv, Calm, Consistent, Moves, Reserved, Sane;
    assert subs[i].id in IdsFor(subs);
    SubmissionMoves(key, IdsFor(subs), subs[i], w.db, w.progress[i], now, v.db, q);
    forall j | 0 <= j < |subs| ensures Consistent(key, v.db, v.progress[j]) {
      if j != i {
        ReservedInv(key, IdsFor(subs), w.db);
        CalmKeeps(key, w.db, v.db, w.progress[j]);
      }
    }
  }

  lemma ReservedInv(key: string, ids: set<string>, db: DB)
    requires Reserved(key, ids, db)
    ensures Inv(db)
  {}

  /** A history of the store and the submissions: at each moment some submission makes its next call, or
      anybody makes an admissible foreign call. A submission that is never picked again has crashed. */
  ghost predicate Interleaving(k: string, subs: seq<Submission>, ws: seq<World>) {
    && ws != [] && IntentKey(k) !in ws[0].db.idem && Reserved(IntentKey(k), IdsFor(subs), ws[0].db)
    && ws[0].progress == seq(|subs|, _ => Reserving)
    && (forall i :: 0 <= i < |subs| ==> Sane(subs[i]))
    && forall n :: 0 < n < |ws| ==> WorldStep(k, subs, ws[n - 1], ws[n])
  }

  lemma WorldStepKeeps(k: string, subs: seq<Submission>, w: World, v: World)
    requires WorldInv(IntentKey(k), subs, w) && WorldStep(k, subs, w, v)
    requires forall i :: 0 <= i < |subs| ==> Sane(subs[i])
    ensures WorldInv(IntentKey(k), subs, v)
  {
    var key, ids := IntentKey(k), IdsFor(subs);
    assert Reserved(key, ids, w.db);
    hide WorldInv, Reserved, Admissible, Foreign, Step, Moves, Sane, Others, IntentKey, IdsFor;
    if c :| v.progress == w.progress && Admissible(w.db, c) && Foreign(key, ids, c.op) && v.db == Step(w.db, c).0 {
      ForeignIsOthers(key, ids, w.db, c);
      OthersKeep(key, subs, w, v);
    } else {
      var i, now, q :| 0 <= i < |subs| == |w.progress| && v.progress == w.progress[i := q]
        && Moves(key, subs[i], w.db, w.progress[i], now, v.db, q);
      MovesKeep(key, subs, w, v, i, now, q);
    }
  }

  lemma {:induction false} HistoryKeeps(k: string, subs: seq<Submission>, ws: seq<World>, n: nat)
    requires Interleaving(k, subs, ws) && n < |ws|
    ensures WorldInv(IntentKey(k), subs, ws[n])
  {
    hide WorldStep, Moves, Sane, Reserved, Consistent, IntentKey;
    if n == 0 {
      forall i | 0 <= i < |subs| ensures Consistent(IntentKey(k), ws[0].db, ws[0].progress[i]) {
        ReservingConsistent(IntentKey(k), ws[0].db);
      }
    } else {
      HistoryKeeps(k, subs, ws, n - 1);
      hide WorldInv;
      WorldStepKeeps(k, subs, ws[n - 1], ws[n]);
    }
  }

  lemma ReservingConsistent(key: string, db: DB)
    ensures Consistent(key, db, Reserving)
  {}

  /** Exactly once: whatever crashes and interleavings happen, at most one mission exists for the key,
      every successful reply names it, and once a submission has replied no root of that mission is
      PENDING, then or ever after. */
  lemma ExactlyOnce(k: string, subs: seq<Submission>, ws: seq<World>, n: nat, i: nat, j: nat)
    requires Interleaving(k, subs, ws) && n < |ws| && i < |subs| && j < |subs|
    ensures |ws[n].progress| == |subs|
    ensures subs[i].id in ws[n].db.missions && subs[j].id in ws[n].db.missions ==> subs[i].id == subs[j].id
    ensures ws[n].progress[i].Replied? ==>
      var m := ws[n].progress[i].m;
      && m in ws[n].db.missions && (exists l :: 0 <= l < |subs| && subs[l].id == m)
      && (subs[j].id in ws[n].db.missions ==> subs[j].id == m)
      && (ws[n].progress[j].Replied? ==> ws[n].progress[j].m == m)
      && forall id :: !IdleRoot(ws[n].db.subtasks, m, id)
  {
    hide Interleaving, WorldInv, IdleRoot, IntentKey;
    HistoryKeeps(k, subs, ws, n);
    OneMission(IntentKey(k), subs, ws[n], i, j);
  }

  lemma OneMission(key: string, subs: seq<Submission>, w: World, i: nat, j: nat)
    requires WorldInv(key, subs, w) && i < |subs| && j < |subs|
    ensures |w.progress| == |subs|
    ensures subs[i].id in w.db.missions && subs[j].id in w.db.missions ==> subs[i].id == subs[j].id
    ensures w.progress[i].Replied? ==>
      var m := w.progress[i].m;
      && m in w.db.missions && (exists l :: 0 <= l < |subs| && subs[l].id == m)
      && (subs[j].id in w.db.missions ==> subs[j].id == m)
      && (w.progress[j].Replied? ==> w.progress[j].m == m)
      && forall id :: !IdleRoot(w.db.subtasks, m, id)
  {
    hide Inv, FreshMission, IdleRoot;
    assert subs[i].id in IdsFor(subs) && subs[j].id in IdsFor(subs);
    assert Consistent(key, w.db, w.progress[i]);
    assert Consistent(key, w.db, w.progress[j]);
  }
}
