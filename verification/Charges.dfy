/** What the calls of internal/store/memory/memory.go charge to a mission's account, told by the calls and by
    the states before and after them. */
module Charges {
  import opened Basics
  import opened StateMachine
  import opened Permissions
  import opened Records
  import opened StoreSpec
  import opened Leases
  import opened EventLog
  import opened Ledger
  import opened Invariants
  import opened StoreOps
  import opened StoreRuns
  import opened Orchestrator
  import opened CallFrames

  // ---- one hold ----

  /** The tokens that the subtask has reserved and not yet settled or given back. */
  ghost function Pledge(db: DB, id: string): Option<int> {
    if id in db.holds && db.holds[id].status == HHeld then Some(db.holds[id].amount) else None
  }

  /** The account after `charge` has been spent out of a reservation of `amount`. */
  function Cleared(a: Account, amount: int, charge: int): Account {
    Account(a.total, a.held - amount, a.spent + charge, a.total - (a.held - amount) - (a.spent + charge), a.version + 1)
  }

  /** The reservation is over: its account pays the charge, and the hold records it. */
  ghost predicate Charged(db: DB, d: DB, id: string, charge: int, status: HoldStatus) {
    && id in db.subtasks && id in db.holds
    && var m := db.subtasks[id].spec.mission;
       && m in db.budgets && d.budgets == db.budgets[m := Cleared(db.budgets[m], db.holds[id].amount, charge)]
       && d.holds == db.holds[id := db.holds[id].(status := status, actual := if status == HSettled then charge else db.holds[id].actual)]
  }

  ghost predicate SameMoney(db: DB, d: DB) { d.budgets == db.budgets && d.holds == db.holds }

  /** What is HELD has an account. */
  lemma HeldHasAccount(db: DB, id: string)
    requires Inv(db) && Pledge(db, id).Some?
    ensures id in db.subtasks && db.subtasks[id].id == id && db.subtasks[id].spec.mission in db.budgets
    ensures db.holds[id].mission == db.subtasks[id].spec.mission
  {
    assert OwnerInv(db.subtasks, db.holds) && HoldsOk(db.holds, db.budgets);
  }

  /** The usage fits what is left beside the other reservations. */
  ghost predicate Affordable(db: DB, id: string, usage: int) {
    Pledge(db, id).Some? ==>
      && usage >= 0 && id in db.subtasks
      && var m := db.subtasks[id].spec.mission;
         m in db.budgets && usage <= db.budgets[m].total - db.budgets[m].spent - (db.budgets[m].held - db.holds[id].amount)
  }

  lemma ClearedIs(a: Account, amount: int, charge: int)
    ensures Balanced(a.(held := a.held - amount, spent := a.spent + charge)) == Cleared(a, amount, charge)
    ensures Balanced(a.(held := a.held - amount)) == Cleared(a, amount, 0)
  {}

  lemma SettleEffect(db: DB, sub: Subtask, usage: int, actor: Actor, now: int)
    requires Inv(db) && sub.id in db.subtasks && db.subtasks[sub.id] == sub
    ensures var r := SettleHold(db, sub, usage, actor, now);
      && (r.Ok? <==> Affordable(db, sub.id, usage))
      && (r.Ok? ==> if Pledge(db, sub.id).Some? then Charged(db, r.value, sub.id, usage, HSettled) else r.value == db)
  {
    hide Inv, Balanced, Cleared;
    if Pledge(db, sub.id).Some? {
      HeldHasAccount(db, sub.id);
      HoldFits(db, sub.id);
      ClearedIs(db.budgets[sub.spec.mission], db.holds[sub.id].amount, usage);
      SettleUnfolds(db, sub, usage, actor, now);
      hide SettleHold;
    }
  }

  lemma HoldFits(db: DB, id: string)
    requires Inv(db) && Pledge(db, id).Some? && id in db.subtasks && db.subtasks[id].spec.mission in db.budgets
    requires db.holds[id].mission == db.subtasks[id].spec.mission
    ensures 0 < db.holds[id].amount <= db.budgets[db.subtasks[id].spec.mission].held
  {
    Figures(db, db.subtasks[id].spec.mission, id);
  }

  lemma SettleUnfolds(db: DB, sub: Subtask, usage: int, actor: Actor, now: int)
    requires HasHold(db, sub.id) && sub.spec.mission in db.budgets
    requires db.holds[sub.id].amount <= db.budgets[sub.spec.mission].held
    ensures var r, a, h := SettleHold(db, sub, usage, actor, now), db.budgets[sub.spec.mission], db.holds[sub.id];
      && (r.Ok? <==> usage >= 0 && usage <= a.total - a.spent - (a.held - h.amount))
      && (r.Ok? ==>
            r.value == db.(budgets := db.budgets[sub.spec.mission := Balanced(a.(held := a.held - h.amount, spent := a.spent + usage))],
                           holds := db.holds[sub.id := h.(actual := usage, status := HSettled)],
                           events := r.value.events, eventSeq := r.value.eventSeq))
  {
    hide Balanced;
  }

  lemma ReleaseEffect(db: DB, sub: Subtask, reason: string, actor: Actor, now: int)
    requires Inv(db) && sub.id in db.subtasks && db.subtasks[sub.id] == sub
    ensures var d := ReleaseHold(db, sub, reason, actor, now);
      if Pledge(db, sub.id).Some? then Charged(db, d, sub.id, 0, HReleased) else d == db
  {
    hide Inv, Balanced, Cleared;
    if Pledge(db, sub.id).Some? {
      HeldHasAccount(db, sub.id);
      ClearedIs(db.budgets[sub.spec.mission], db.holds[sub.id].amount, 0);
      ReleaseUnfolds(db, sub, reason, actor, now);
      hide ReleaseHold;
    }
  }

  lemma ReleaseUnfolds(db: DB, sub: Subtask, reason: string, actor: Actor, now: int)
    requires HasHold(db, sub.id) && sub.spec.mission in db.budgets
    ensures var d, a, h := ReleaseHold(db, sub, reason, actor, now), db.budgets[sub.spec.mission], db.holds[sub.id];
      d == db.(budgets := db.budgets[sub.spec.mission := Balanced(a.(held := a.held - h.amount))],
               holds := db.holds[sub.id := h.(status := HReleased)], events := d.events, eventSeq := d.eventSeq)
  {
    hide Balanced;
  }

  // ---- completion ----

  /** The token is that of the ACTIVE lease which the subtask names. */
  ghost predicate Holds(db: DB, id: string, token: int) {
    id in db.subtasks && var l := db.subtasks[id].lease;
    l in db.leases && db.leases[l].state == LActive && db.leases[l].token == token
  }

  lemma HoldsIsFencing(db: DB, id: string, token: int)
    requires Inv(db) && id in db.subtasks
    ensures FencingOk(db, db.subtasks[id], token) <==> Holds(db, id, token)
  {
    NoEmptyLease(db);
  }

  /** A completion is accepted exactly for a RUNNING subtask at the expected version, under its ACTIVE lease's
      token, with a new key and a usage that fits the account. */
  lemma CompletionAccepted(db: DB, id: string, token: int, key: string, ref: string, usage: int, expected: int,
                           actor: Actor, now: int)
    requires Inv(db)
    ensures CompleteSubtask(db, id, token, key, ref, usage, expected, actor, now).1.Ok? <==>
      && key !in db.idem && id in db.subtasks && db.subtasks[id].state == Running && db.subtasks[id].version == expected
      && Holds(db, id, token) && Affordable(db, id, usage)
    ensures var r := CompleteSubtask(db, id, token, key, ref, usage, expected, actor, now);
      && (r.1.Duplicate? <==> id in db.subtasks && key in db.idem)
      && (r.1.Duplicate? ==> r.1.value == db.subtasks[id])
      && (!r.1.Ok? ==> r.0 == db)
  {
    hide Inv, Apply, FencingOk, SettleHold, Affordable, Holds, Retire, Enqueue, Move, Charged, CompleteSubtask;
    if id in db.subtasks {
      SubtaskFacts(db, id);
      HoldsIsFencing(db, id, token);
      SettleEffect(db, db.subtasks[id], usage, actor, now);
      RunningCompletes(db.subtasks[id].state);
    }
    CompleteDecides(db, id, token, key, ref, usage, expected, actor, now);
  }

  lemma CompleteDecides(db: DB, id: string, token: int, key: string, ref: string, usage: int, expected: int,
                        actor: Actor, now: int)
    ensures var r := CompleteSubtask(db, id, token, key, ref, usage, expected, actor, now);
      && (r.1.Ok? <==>
            && id in db.subtasks && key !in db.idem && db.subtasks[id].version == expected
            && FencingOk(db, db.subtasks[id], token) && Apply(db.subtasks[id].state, EvCompleted).Some?
            && SettleHold(db, db.subtasks[id], usage, actor, now).Ok?)
      && (r.1.Duplicate? <==> id in db.subtasks && key in db.idem)
      && (r.1.Duplicate? ==> r.1.value == db.subtasks[id])
      && (!r.1.Ok? ==> r.0 == db)
  {
    if id in db.subtasks {
      SettleAnswers(db, db.subtasks[id], usage, actor, now);
    }
    hide Apply, FencingOk, SettleHold, Retire, Enqueue, Move, Moving;
  }

  lemma RunningCompletes(from: State)
    ensures Apply(from, EvCompleted).Some? <==> from == Running
    ensures Apply(from, EvFailed).Some? <==> from == Running
    ensures Apply(from, EvCancelled).Some? <==> from != Succeeded && from != Cancelled
  {}

  /** An accepted completion charges exactly the reported usage to the account, frees exactly the reservation,
      and records the usage; without a reservation no money moves. */
  lemma CompletionCharges(db: DB, id: string, token: int, key: string, ref: string, usage: int, expected: int,
                          actor: Actor, now: int)
    requires Inv(db) && CompleteSubtask(db, id, token, key, ref, usage, expected, actor, now).1.Ok?
    ensures var d := CompleteSubtask(db, id, token, key, ref, usage, expected, actor, now).0;
      if Pledge(db, id).Some? then Charged(db, d, id, usage, HSettled) else SameMoney(db, d)
  {
    hide Inv, CompleteSubtask, SettleHold, Apply, Charged, SameMoney, BooksOf;
    CompletionBooks(db, id, token, key, ref, usage, expected, actor, now);
    SubtaskFacts(db, id);
    SettleEffect(db, db.subtasks[id], usage, actor, now);
    var settled := SettleHold(db, db.subtasks[id], usage, actor, now).value;
    KeyedBooks(settled, key, ref, CompleteSubtask(db, id, token, key, ref, usage, expected, actor, now).0);
    SameCharge(db, SettleHold(db, db.subtasks[id], usage, actor, now).value,
               CompleteSubtask(db, id, token, key, ref, usage, expected, actor, now).0, id, usage, HSettled);
  }

  /** After the settlement a completion writes nothing into the books but its key. */
  lemma CompletionBooks(db: DB, id: string, token: int, key: string, ref: string, usage: int, expected: int,
                        actor: Actor, now: int)
    requires CompleteSubtask(db, id, token, key, ref, usage, expected, actor, now).1.Ok?
    ensures id in db.subtasks && SettleHold(db, db.subtasks[id], usage, actor, now).Ok?
    ensures var settled := SettleHold(db, db.subtasks[id], usage, actor, now).value;
      BooksOf(CompleteSubtask(db, id, token, key, ref, usage, expected, actor, now).0)
        == BooksOf(settled.(idem := settled.idem[key := ref]))
  {
    hide CompleteSubtask, SettleHold, Move, Retire, Enqueue, Apply, BooksOf, Moving, Log, Grant;
    CompleteUnfolds(db, id, token, key, ref, usage, expected, actor, now);
    var sub := db.subtasks[id];
    var settled := SettleHold(db, sub, usage, actor, now).value;
    var done := Moving(sub, Succeeded).(resultRef := ref);
    var moved := Move(settled.(idem := settled.idem[key := ref]), done, EvCompleted,
                      map["subtask_id" := JStr(id), "result_ref" := JStr(ref)], actor, now);
    PrimitivesFrame();
    EnqueueFrame(Retire(moved, sub.lease, LReleased), done, ref, now);
  }

  lemma SameCharge(db: DB, a: DB, d: DB, id: string, charge: int, status: HoldStatus)
    requires BooksOf(d) == BooksOf(a.(idem := d.idem))
    ensures Charged(db, a, id, charge, status) ==> Charged(db, d, id, charge, status)
    ensures a == db ==> SameMoney(db, d)
  {
    hide Cleared;
  }

  lemma KeyedBooks(a: DB, key: string, ref: string, d: DB)
    requires BooksOf(d) == BooksOf(a.(idem := a.idem[key := ref]))
    ensures BooksOf(d) == BooksOf(a.(idem := d.idem))
  {}

  lemma EnqueueFrame(db: DB, sub: Subtask, ref: string, now: int)
    ensures BooksOf(Enqueue(db, sub, ref, now)) == BooksOf(db)
  {
    hide InboxId;
  }

  /** ...and it ends the work: the subtask is SUCCEEDED with the result, the key bound to it, the lease RELEASED,
      and nobody else's subtask, lease or mission moves. */
  lemma CompletionEnds(db: DB, id: string, token: int, key: string, ref: string, usage: int, expected: int,
                       actor: Actor, now: int)
    requires Inv(db) && CompleteSubtask(db, id, token, key, ref, usage, expected, actor, now).1.Ok?
    ensures id in db.subtasks && db.subtasks[id].lease in db.leases
    ensures var r, sub := CompleteSubtask(db, id, token, key, ref, usage, expected, actor, now), db.subtasks[id];
      && r.1.value == sub.(state := Succeeded, version := sub.version + 1, resultRef := ref)
      && r.0.subtasks == db.subtasks[id := r.1.value] && r.0.idem == db.idem[key := ref] && r.0.missions == db.missions
      && r.0.leases == db.leases[sub.lease := db.leases[sub.lease].(state := LReleased)]
  {
    hide Inv, SettleHold, Move, Retire, Enqueue, Apply, LedgerStep;
    CompletionAccepted(db, id, token, key, ref, usage, expected, actor, now);
    CompleteUnfolds(db, id, token, key, ref, usage, expected, actor, now);
    hide CompleteSubtask, FencingOk;
    SubtaskFacts(db, id);
    var sub := db.subtasks[id];
    SettleIsLedgerStep(db, sub, usage, actor, now);
    var settled := SettleHold(db, sub, usage, actor, now).value;
    LedgerStepOffBoard(db, settled);
    var keyed := settled.(idem := settled.idem[key := ref]);
    var done := Moving(sub, Succeeded).(resultRef := ref);
    var moved := Move(keyed, done, EvCompleted, map["subtask_id" := JStr(id), "result_ref" := JStr(ref)], actor, now);
    MoveContents(keyed, done, EvCompleted, map["subtask_id" := JStr(id), "result_ref" := JStr(ref)], actor, now);
    RetireContents(moved, sub.lease, LReleased);
    EnqueueContents(Retire(moved, sub.lease, LReleased), done, ref, now);
  }

  lemma MoveContents(db: DB, sub: Subtask, ev: EventType, extra: Json0, actor: Actor, now: int)
    ensures var d := Move(db, sub, ev, extra, actor, now);
      d == db.(subtasks := db.subtasks[sub.id := sub], events := d.events, eventSeq := d.eventSeq)
  {}

  lemma RetireContents(db: DB, l: string, to: LeaseState)
    requires l in db.leases
    ensures var d := Retire(db, l, to);
      d == db.(leases := db.leases[l := db.leases[l].(state := to)], agents := d.agents)
  {
    hide Decremented;
  }

  lemma EnqueueContents(db: DB, sub: Subtask, ref: string, now: int)
    ensures var d := Enqueue(db, sub, ref, now);
      d == db.(inbox := d.inbox, events := d.events, eventSeq := d.eventSeq)
  {
    hide InboxId;
    var item := InboxId(sub.id);
    if sub.spec.parent != "" && item !in db.inbox {
      var entry := InboxItem(item, sub.spec.mission, sub.spec.parent, sub.id, ref, false, "", "", 0);
      LogContents(db.(inbox := db.inbox[item := entry]), sub.spec.parent, sub.spec.mission, Other("lead.inbox.enqueued"),
                  Plain(map["item_id" := JStr(item), "source_subtask_id" := JStr(sub.id), "result_ref" := JStr(ref)]),
                  System("lead-inbox"), now);
      hide Log;
    }
  }

  lemma LogContents(db: DB, aggregate: string, mission: string, typ: EventType, payload: Payload, actor: Actor, now: int)
    ensures var d := Log(db, aggregate, mission, typ, payload, actor, now); d == db.(events := d.events, eventSeq := d.eventSeq)
  {}

  // ---- failure ----

  /** A failure is accepted exactly for a RUNNING subtask at the expected version under its ACTIVE lease's token. */
  lemma FailureAccepted(db: DB, id: string, token: int, reason: string, expected: int, actor: Actor, now: int)
    requires Inv(db)
    ensures FailSubtask(db, id, token, reason, expected, actor, now).1.Ok? <==>
      id in db.subtasks && db.subtasks[id].state == Running && db.subtasks[id].version == expected && Holds(db, id, token)
    ensures var r := FailSubtask(db, id, token, reason, expected, actor, now);
      !r.1.Ok? ==> r.1.Err? && r.0 == db
  {
    hide Inv, Apply, FencingOk, Holds, FailSubtask;
    if id in db.subtasks {
      HoldsIsFencing(db, id, token);
      RunningCompletes(db.subtasks[id].state);
    }
    FailDecides(db, id, token, reason, expected, actor, now);
  }

  lemma FailDecides(db: DB, id: string, token: int, reason: string, expected: int, actor: Actor, now: int)
    ensures var r := FailSubtask(db, id, token, reason, expected, actor, now);
      && (r.1.Ok? <==>
            && id in db.subtasks && db.subtasks[id].version == expected && FencingOk(db, db.subtasks[id], token)
            && Apply(db.subtasks[id].state, EvFailed).Some?)
      && (!r.1.Ok? ==> r.1.Err? && r.0 == db)
  {
    hide Apply, FencingOk, ReleaseHold, Retire, Move, Moving;
  }

  /** While attempts are left a failure keeps the reservation; the last one gives it back unspent. */
  lemma FailureFrees(db: DB, id: string, token: int, reason: string, expected: int, actor: Actor, now: int)
    requires Inv(db) && FailSubtask(db, id, token, reason, expected, actor, now).1.Ok?
    ensures id in db.subtasks
    ensures var d, sub := FailSubtask(db, id, token, reason, expected, actor, now).0, db.subtasks[id];
      if sub.attempt >= sub.spec.maxAttempts && Pledge(db, id).Some? then Charged(db, d, id, 0, HReleased)
      else SameMoney(db, d)
  {
    hide Inv, FailSubtask, ReleaseHold, Apply, Charged, SameMoney, BooksOf, Moving, Move, Retire, Log, Grant;
    FailUnfolds(db, id, token, reason, expected, actor, now);
    SubtaskFacts(db, id);
    var sub := db.subtasks[id];
    ReleaseEffect(db, sub, "final_failure", actor, now);
    var freed := if sub.attempt >= sub.spec.maxAttempts then ReleaseHold(db, sub, "final_failure", actor, now) else db;
    PrimitivesFrame();
    var d := FailSubtask(db, id, token, reason, expected, actor, now).0;
    assert BooksOf(d) == BooksOf(freed);
    SameBooks(freed, d);
    SameCharge(db, freed, d, id, 0, HReleased);
  }

  lemma SameBooks(a: DB, d: DB)
    requires BooksOf(d) == BooksOf(a)
    ensures BooksOf(d) == BooksOf(a.(idem := d.idem))
  {}

  lemma FailureEnds(db: DB, id: string, token: int, reason: string, expected: int, actor: Actor, now: int)
    requires Inv(db) && FailSubtask(db, id, token, reason, expected, actor, now).1.Ok?
    ensures id in db.subtasks && db.subtasks[id].lease in db.leases
    ensures var r, sub := FailSubtask(db, id, token, reason, expected, actor, now), db.subtasks[id];
      && r.1.value == sub.(state := Failed, version := sub.version + 1)
      && r.0.subtasks == db.subtasks[id := r.1.value] && r.0.idem == db.idem && r.0.missions == db.missions
      && r.0.leases == db.leases[sub.lease := db.leases[sub.lease].(state := LReleased)]
  {
    hide Inv, ReleaseHold, Move, Retire, Apply, LedgerStep;
    FailureAccepted(db, id, token, reason, expected, actor, now);
    FailUnfolds(db, id, token, reason, expected, actor, now);
    hide FailSubtask, FencingOk;
    SubtaskFacts(db, id);
    var sub := db.subtasks[id];
    ReleaseIsLedgerStep(db, sub, "final_failure", actor, now);
    LedgerStepOffBoard(db, ReleaseHold(db, sub, "final_failure", actor, now));
    var freed := if sub.attempt >= sub.spec.maxAttempts then ReleaseHold(db, sub, "final_failure", actor, now) else db;
    MoveContents(freed, Moving(sub, Failed), EvFailed, map["reason" := JStr(reason)], actor, now);
    RetireContents(Move(freed, Moving(sub, Failed), EvFailed, map["reason" := JStr(reason)], actor, now), sub.lease, LReleased);
  }

  // ---- cancellation ----

  /** A cancellation is accepted exactly for a subtask at the expected version that is not SUCCEEDED or CANCELLED;
      it gives the reservation back unspent. */
  lemma CancellationFrees(db: DB, id: string, expected: int, actor: Actor, now: int)
    requires Inv(db)
    ensures var r := CancelSubtask(db, id, expected, actor, now);
      && (r.1.Ok? <==> id in db.subtasks && db.subtasks[id].version == expected
                       && db.subtasks[id].state != Succeeded && db.subtasks[id].state != Cancelled)
      && (if r.1.Ok? then if Pledge(db, id).Some? then Charged(db, r.0, id, 0, HReleased) else SameMoney(db, r.0)
          else r.0 == db)
  {
    hide Inv, CancelSubtask, ReleaseHold, Apply, Charged, BooksOf, Moving, Move, Retire, Log, Grant;
    CancelUnfolds(db, id, expected, actor, now);
    if CancelSubtask(db, id, expected, actor, now).1.Ok? {
      SubtaskFacts(db, id);
      var sub, d := db.subtasks[id], CancelSubtask(db, id, expected, actor, now).0;
      ReleaseEffect(db, sub, "cancelled", actor, now);
      var freed := ReleaseHold(db, sub, "cancelled", actor, now);
      PrimitivesFrame();
      assert BooksOf(d) == BooksOf(freed);
      SameBooks(freed, d);
      SameCharge(db, freed, d, id, 0, HReleased);
      hide SameMoney;
    }
  }

  lemma CancelUnfolds(db: DB, id: string, expected: int, actor: Actor, now: int)
    ensures var r := CancelSubtask(db, id, expected, actor, now);
      if id in db.subtasks && db.subtasks[id].version == expected && db.subtasks[id].state != Succeeded
         && db.subtasks[id].state != Cancelled
      then
        var sub := db.subtasks[id];
        var done := Moving(sub, Cancelled).(assignee := "", lease := "");
        var moved := Move(ReleaseHold(db, sub, "cancelled", actor, now), done, EvCancelled, map[], actor, now);
        && r.1 == Ok(done)
        && r.0 == if sub.lease != "" && sub.lease in db.leases && db.leases[sub.lease].state == LActive
                  then Retire(moved, sub.lease, LReleased) else moved
      else r.0 == db && r.1.Err?
  {
    if id in db.subtasks {
      RunningCompletes(db.subtasks[id].state);
    }
    hide Apply, ReleaseHold, Move, Retire, Moving;
  }

  lemma CancellationEnds(db: DB, id: string, expected: int, actor: Actor, now: int)
    requires Inv(db) && CancelSubtask(db, id, expected, actor, now).1.Ok?
    ensures id in db.subtasks
    ensures var r, sub := CancelSubtask(db, id, expected, actor, now), db.subtasks[id];
      && r.1.value == sub.(state := Cancelled, version := sub.version + 1, assignee := "", lease := "")
      && r.0.subtasks == db.subtasks[id := r.1.value] && r.0.missions == db.missions
      && r.0.leases == if sub.lease in db.leases && db.leases[sub.lease].state == LActive
                       then db.leases[sub.lease := db.leases[sub.lease].(state := LReleased)] else db.leases
  {
    hide Inv, ReleaseHold, Move, Retire, LedgerStep, CancelSubtask;
    CancelUnfolds(db, id, expected, actor, now);
    NoEmptyLease(db);
    SubtaskFacts(db, id);
    var sub := db.subtasks[id];
    ReleaseIsLedgerStep(db, sub, "cancelled", actor, now);
    var freed := ReleaseHold(db, sub, "cancelled", actor, now);
    LedgerStepOffBoard(db, freed);
    var done := Moving(sub, Cancelled).(assignee := "", lease := "");
    MoveContents(freed, done, EvCancelled, map[], actor, now);
    var moved := Move(freed, done, EvCancelled, map[], actor, now);
    if sub.lease in db.leases {
      RetireContents(moved, sub.lease, LReleased);
    }
  }

  // ---- delegation ----

  /** A delegation is accepted exactly under a new key and a new id, by the holder of the RUNNING parent's ACTIVE
      lease before it runs out, within the parent's envelope and what is available in the account. */
  lemma DelegationAccepted(db: DB, key: string, parent: string, token: int, parentVersion: int, child: Subtask,
                           actor: Actor, now: int)
    requires Inv(db)
    ensures SpawnSubtask(db, key, parent, token, parentVersion, child, actor, now).1.Ok? <==>
      && key !in db.idem && child.id !in db.subtasks
      && parent in db.subtasks && db.subtasks[parent].state == Running && db.subtasks[parent].version == parentVersion
      && Holds(db, parent, token)
      && db.leases[db.subtasks[parent].lease].agent == actor.id && now < db.leases[db.subtasks[parent].lease].expires
      && Subset(db.subtasks[parent].spec.grants, child.spec.grants)
      && (child.spec.mission in db.budgets ==>
            var a := db.budgets[child.spec.mission]; 0 < child.spec.tokens <= a.total - a.held - a.spent)
    ensures var r := SpawnSubtask(db, key, parent, token, parentVersion, child, actor, now);
      && (r.1.Duplicate? <==> key in db.idem) && (r.1.Duplicate? ==> r.1.value == db.idem[key])
      && (!r.1.Ok? ==> r.0 == db)
  {
    hide Inv, Holds, FencingOk, Subset, SpawnSubtask;
    if parent in db.subtasks {
      HoldsIsFencing(db, parent, token);
      FencedLease(db, parent, token);
    }
    SpawnDecides(db, key, parent, token, parentVersion, child, actor, now);
  }

  lemma FencedLease(db: DB, id: string, token: int)
    requires id in db.subtasks
    ensures FencingOk(db, db.subtasks[id], token) ==> db.subtasks[id].lease in db.leases
  {}

  lemma SpawnDecides(db: DB, key: string, parent: string, token: int, parentVersion: int, child: Subtask, actor: Actor,
                     now: int)
    requires parent in db.subtasks && FencingOk(db, db.subtasks[parent], token) ==> db.subtasks[parent].lease in db.leases
    ensures var r := SpawnSubtask(db, key, parent, token, parentVersion, child, actor, now);
      && (r.1.Ok? <==>
            && key !in db.idem && child.id !in db.subtasks
            && parent in db.subtasks && db.subtasks[parent].state == Running && db.subtasks[parent].version == parentVersion
            && FencingOk(db, db.subtasks[parent], token)
            && db.leases[db.subtasks[parent].lease].agent == actor.id
            && now < db.leases[db.subtasks[parent].lease].expires
            && Subset(db.subtasks[parent].spec.grants, child.spec.grants)
            && (child.spec.mission in db.budgets ==>
                  var a := db.budgets[child.spec.mission]; 0 < child.spec.tokens <= a.total - a.held - a.spent))
      && (r.1.Duplicate? <==> key in db.idem) && (r.1.Duplicate? ==> r.1.value == db.idem[key])
      && (!r.1.Ok? ==> r.0 == db)
  {
    hide Subset, ReserveHold, AddSubtask, Move, Moving, ChildBirth;
  }

  lemma SpawnUnfolds(db: DB, key: string, parent: string, token: int, parentVersion: int, child: Subtask, actor: Actor,
                     now: int)
    requires SpawnSubtask(db, key, parent, token, parentVersion, child, actor, now).1.Ok?
    ensures var born := child.(state := Pending, version := 0);
      var held := ReserveHold(db.(idem := db.idem[key := child.id]), child, child.spec.tokens, actor, now);
      var added := AddSubtask(held, born, ChildBirth(child, parent), actor, now);
      SpawnSubtask(db, key, parent, token, parentVersion, child, actor, now).0
        == Move(added, Moving(born, Ready), EvDepsSatisfied, map[], System("orchestrator"), now)
  {
    hide Subset, ReserveHold, AddSubtask, Move, Moving, FencingOk, ChildBirth;
  }

  /** The account after a reservation. */
  function Reserving(a: Account, amount: int): Account {
    Account(a.total, a.held + amount, a.spent, a.total - (a.held + amount) - a.spent, a.version + 1)
  }

  /** The child's declared tokens are reserved out of the mission's account, if it has one. */
  ghost predicate ReservedFor(db: DB, d: DB, child: Subtask) {
    var m := child.spec.mission;
    if m in db.budgets
    then d.budgets == db.budgets[m := Reserving(db.budgets[m], child.spec.tokens)]
      && d.holds == db.holds[child.id := Hold(m, child.id, child.attempt, child.spec.tokens, 0, HHeld)]
    else SameMoney(db, d)
  }

  lemma ReserveEffect(db: DB, child: Subtask, actor: Actor, now: int)
    ensures ReservedFor(db, ReserveHold(db, child, child.spec.tokens, actor, now), child)
  {
    if child.spec.mission in db.budgets {
      var a, n := db.budgets[child.spec.mission], child.spec.tokens;
      assert Balanced(a.(held := a.held + n)) == Reserving(a, n);
      hide Balanced, Reserving;
      ReserveUnfolds(db, child, n, actor, now);
      hide ReserveHold;
    }
  }

  lemma ReserveUnfolds(db: DB, child: Subtask, amount: int, actor: Actor, now: int)
    requires child.spec.mission in db.budgets
    ensures var d, m := ReserveHold(db, child, amount, actor, now), child.spec.mission;
      d == db.(budgets := db.budgets[m := Balanced(db.budgets[m].(held := db.budgets[m].held + amount))],
               holds := db.holds[child.id := Hold(m, child.id, child.attempt, amount, 0, HHeld)],
               events := d.events, eventSeq := d.eventSeq)
  {
    hide Balanced;
  }

  /** An accepted delegation stores the child READY at version 1 and reserves its tokens; nobody else's subtask,
      lease or mission moves. */
  lemma DelegationReserves(db: DB, key: string, parent: string, token: int, parentVersion: int, child: Subtask,
                           actor: Actor, now: int)
    requires SpawnSubtask(db, key, parent, token, parentVersion, child, actor, now).1.Ok?
    ensures var d := SpawnSubtask(db, key, parent, token, parentVersion, child, actor, now).0;
      && ReservedFor(db, d, child)
      && d.subtasks == db.subtasks[child.id := child.(state := Ready, version := 1)]
      && d.idem == db.idem[key := child.id] && d.missions == db.missions && d.leases == db.leases
  {
    hide SpawnSubtask, ReserveHold, AddSubtask, Move, ReservedFor, ChildBirth;
    SpawnUnfolds(db, key, parent, token, parentVersion, child, actor, now);
    var born := child.(state := Pending, version := 0);
    var keyed := db.(idem := db.idem[key := child.id]);
    var held := ReserveHold(keyed, child, child.spec.tokens, actor, now);
    var added := AddSubtask(held, born, ChildBirth(child, parent), actor, now);
    ReserveEffect(keyed, child, actor, now);
    ReserveFrame(keyed, child, child.spec.tokens, actor, now);
    AddContents(held, born, ChildBirth(child, parent), actor, now);
    MoveContents(added, Moving(born, Ready), EvDepsSatisfied, map[], System("orchestrator"), now);
    var d := SpawnSubtask(db, key, parent, token, parentVersion, child, actor, now).0;
    assert d.budgets == held.budgets && d.holds == held.holds;
    SameReservation(db, keyed, held, d, child);
    Reborn(db.subtasks, child);
  }

  lemma SameReservation(db: DB, keyed: DB, held: DB, d: DB, child: Subtask)
    requires ReservedFor(keyed, held, child) && keyed.budgets == db.budgets && keyed.holds == db.holds
    requires d.budgets == held.budgets && d.holds == held.holds
    ensures ReservedFor(db, d, child)
  {
    hide Reserving;
  }

  lemma Reborn(subtasks: map<string, Subtask>, child: Subtask)
    ensures var born := child.(state := Pending, version := 0);
      subtasks[born.id := born][Moving(born, Ready).id := Moving(born, Ready)]
        == subtasks[child.id := child.(state := Ready, version := 1)]
  {}

  lemma AddContents(db: DB, sub: Subtask, extra: Json0, actor: Actor, now: int)
    ensures var d := AddSubtask(db, sub, extra, actor, now);
      d == db.(subtasks := db.subtasks[sub.id := sub], events := d.events, eventSeq := d.eventSeq)
  {}

  // ---- over runs ----

  ghost function Spent(db: DB, m: string): int { if m in db.budgets then db.budgets[m].spent else 0 }

  /** What one call charges to a mission: the usage that an accepted completion reports for a reservation. */
  ghost function Charge(db: DB, c: Call, m: string): int {
    if c.op.OpComplete? && Step(db, c).1 && c.op.id in db.subtasks && db.subtasks[c.op.id].spec.mission == m
       && Pledge(db, c.op.id).Some?
    then c.op.usage else 0
  }

  ghost function ChargedBy(calls: seq<Call>, m: string): int {
    if calls == [] then 0
    else ChargedBy(calls[..|calls| - 1], m) + Charge(Run(calls[..|calls| - 1]), calls[|calls| - 1], m)
  }

  /** A mission has an account exactly when it has a budget, and the account holds that budget; exactly the
      delegated subtasks of such missions have a hold, of their declared tokens. */
  ghost predicate Declared(db: DB) {
    && (forall m :: m in db.missions ==> (m in db.budgets <==> db.missions[m].budget > 0))
    && (forall m :: m in db.budgets ==> m in db.missions && db.budgets[m].total == db.missions[m].budget)
    && (forall k :: k in db.holds ==>
          && k in db.subtasks && db.subtasks[k].spec.parent != "" && db.subtasks[k].spec.mission in db.budgets
          && db.holds[k].amount == db.subtasks[k].spec.tokens)
    && (forall k :: k in db.subtasks && db.subtasks[k].spec.parent != "" && db.subtasks[k].spec.mission in db.budgets ==>
          k in db.holds)
  }

  /** The same subtasks with the same declarations, and the same missions with the same budgets. */
  ghost predicate SameDeclarations(db: DB, d: DB) {
    && d.subtasks.Keys == db.subtasks.Keys && (forall k :: k in db.subtasks ==> d.subtasks[k].spec == db.subtasks[k].spec)
    && d.missions.Keys == db.missions.Keys && forall m :: m in db.missions ==> d.missions[m].budget == db.missions[m].budget
  }

  /** The same accounts with the same totals, and the same holds of the same amounts. */
  ghost predicate SameAmounts(db: DB, d: DB) {
    && d.budgets.Keys == db.budgets.Keys && (forall m :: m in db.budgets ==> d.budgets[m].total == db.budgets[m].total)
    && d.holds.Keys == db.holds.Keys && forall k :: k in db.holds ==> d.holds[k].amount == db.holds[k].amount
  }

  lemma DeclaredStays(db: DB, d: DB)
    requires Declared(db) && SameDeclarations(db, d) && SameAmounts(db, d)
    ensures Declared(d)
  {}

  lemma MoneyKeepsAmounts(db: DB, d: DB, id: string, charge: int, status: HoldStatus)
    ensures SameMoney(db, d) ==> SameAmounts(db, d)
    ensures Charged(db, d, id, charge, status) ==> SameAmounts(db, d)
  {}

  lemma MoneySpends(db: DB, d: DB, id: string, charge: int, status: HoldStatus, m: string)
    ensures SameMoney(db, d) ==> Spent(d, m) == Spent(db, m)
    ensures Charged(db, d, id, charge, status) ==>
      Spent(d, m) == Spent(db, m) + if id in db.subtasks && db.subtasks[id].spec.mission == m then charge else 0
  {}

  /** The calls that add nothing to the store keep all declarations. */
  lemma CallKeepsDeclarations(db: DB, c: Call)
    requires Inv(db) && Admissible(db, c) && !c.op.OpCreateMission? && !c.op.OpSpawn?
    ensures SameDeclarations(db, Step(db, c).0)
  {
    hide Inv, Admissible, BooksOf, Step;
    CallKeepsKeys(db, c);
    StepKeeps(db, c);
    SpecsKept(db, Step(db, c).0);
    CallKeepsMissions(db, c);
  }

  lemma SpecsKept(db: DB, d: DB)
    requires Sound(db, d)
    ensures forall k :: k in db.subtasks ==> k in d.subtasks && d.subtasks[k].spec == db.subtasks[k].spec
  {
    hide Inv;
  }

  lemma CallKeepsMissions(db: DB, c: Call)
    requires Inv(db) && !c.op.OpCreateMission? && !c.op.OpSpawn?
    ensures forall m :: m in db.missions && m in Step(db, c).0.missions ==>
      Step(db, c).0.missions[m].budget == db.missions[m].budget
  {
    if Ordinary(c.op) {
      hide Step, Inv;
      OrdinaryKeepsBooks(db, c);
    } else {
      hide Inv, CompleteSubtask, FailSubtask, CancelSubtask, OfferLease, SetMissionStatus, MoneyOnly;
      match c.op
      case OpSetStatus(id, status, expected) => StatusKeepsBudgets(db, id, status, expected, c.actor, c.now);
      case OpComplete(id, token, key, ref, usage, expected) =>
        if Step(db, c).1 {
          CompletionEnds(db, id, token, key, ref, usage, expected, c.actor, c.now);
        } else {
          RejectedFenced(db, c);
        }
      case OpFail(id, token, reason, expected) =>
        FailFrame(db, id, token, reason, expected, c.actor, c.now);
        MoneyKeepsKeys(db, FailSubtask(db, id, token, reason, expected, c.actor, c.now).0);
      case OpCancel(id, expected) =>
        CancelFrame(db, id, expected, c.actor, c.now);
        MoneyKeepsKeys(db, CancelSubtask(db, id, expected, c.actor, c.now).0);
      case OpOffer(id, agent, expected, ttl) => OfferKeys(db, id, agent, expected, ttl, c.actor, c.now);
      case OpPutIdempotent(key, value) =>
    }
  }

  lemma StatusKeepsBudgets(db: DB, id: string, status: MissionStatus, expected: int, actor: Actor, now: int)
    ensures var d := SetMissionStatus(db, id, status, expected, actor, now).0;
      && SameMoney(db, d) && forall m :: m in db.missions && m in d.missions ==> d.missions[m].budget == db.missions[m].budget
  {
    var r := SetMissionStatus(db, id, status, expected, actor, now);
    if r.1.Ok? {
      StatusUnfolds(db, id, status, expected, actor, now);
    } else {
      assert r.0 == db;
    }
    hide SetMissionStatus;
  }

  /** One call's effect on the accounts, whichever call it is. */
  ghost predicate Accounted(db: DB, c: Call, d: DB) {
    && (forall m :: Spent(d, m) == Spent(db, m) + Charge(db, c, m))
    && (!c.op.OpCreateMission? && !c.op.OpSpawn? ==> SameAmounts(db, d))
  }

  lemma SameMoneyAccounted(db: DB, c: Call, d: DB)
    requires SameMoney(db, d) && (c.op.OpComplete? && Step(db, c).1 ==> Pledge(db, c.op.id).None?)
    ensures Accounted(db, c, d)
  {
    hide Step;
  }

  lemma ChargedAccounted(db: DB, c: Call, d: DB, id: string, charge: int, status: HoldStatus)
    requires Charged(db, d, id, charge, status) && !c.op.OpCreateMission? && !c.op.OpSpawn?
    requires if c.op.OpComplete? then Step(db, c).1 && c.op.id == id && charge == c.op.usage && Pledge(db, id).Some?
             else charge == 0
    ensures Accounted(db, c, d)
  {
    hide Step;
    forall m ensures Spent(d, m) == Spent(db, m) + Charge(db, c, m) {
      MoneySpends(db, d, id, charge, status, m);
    }
    MoneyKeepsAmounts(db, d, id, charge, status);
    hide SameAmounts, Spent, Charge, Charged;
  }

  lemma CallIsAccounted(db: DB, c: Call)
    requires Inv(db) && Admissible(db, c)
    ensures Accounted(db, c, Step(db, c).0)
  {
    hide Inv, Admissible, Accounted, Charged, SameMoney;
    if Ordinary(c.op) {
      OrdinarySameMoney(db, c);
      SameMoneyAccounted(db, c, Step(db, c).0);
      hide Step;
    } else {
      hide CompleteSubtask, FailSubtask, CancelSubtask, OfferLease, SetMissionStatus, CreateMission, SpawnSubtask;
      match c.op
      case OpCreateMission(m, subs) => CreationAccounted(db, c);
      case OpSpawn(_, _, _, _, _) => SpawnAccounted(db, c);
      case OpComplete(_, _, _, _, _, _) => CompletionAccounted(db, c);
      case OpFail(_, _, _, _) => FailureAccounted(db, c);
      case OpCancel(id, expected) =>
        CancellationFrees(db, id, expected, c.actor, c.now);
        if c.op.OpCancel? && Step(db, c).1 && Pledge(db, id).Some? {
          ChargedAccounted(db, c, Step(db, c).0, id, 0, HReleased);
        } else {
          SameStateMoney(db);
          SameMoneyAccounted(db, c, Step(db, c).0);
        }
      case _ =>
        OtherSameMoney(db, c);
        SameMoneyAccounted(db, c, Step(db, c).0);
    }
  }

  lemma SameStateMoney(db: DB)
    ensures SameMoney(db, db)
  {}

  lemma OrdinarySameMoney(db: DB, c: Call)
    requires Ordinary(c.op)
    ensures SameMoney(db, Step(db, c).0)
  {
    hide Step;
    OrdinaryKeepsBooks(db, c);
  }

  lemma OtherSameMoney(db: DB, c: Call)
    requires c.op.OpSetStatus? || c.op.OpPutIdempotent? || c.op.OpOffer?
    ensures SameMoney(db, Step(db, c).0)
  {
    hide OfferLease, SetMissionStatus;
    match c.op
    case OpSetStatus(id, status, expected) => StatusKeepsBudgets(db, id, status, expected, c.actor, c.now);
    case OpOffer(id, agent, expected, ttl) => OfferKeys(db, id, agent, expected, ttl, c.actor, c.now);
    case OpPutIdempotent(key, value) =>
  }

  lemma CompletionAccounted(db: DB, c: Call)
    requires Inv(db) && c.op.OpComplete?
    ensures Accounted(db, c, Step(db, c).0)
  {
    hide Inv, Accounted, Charged, SameMoney, CompleteSubtask;
    if Step(db, c).1 {
      CompletionCharges(db, c.op.id, c.op.token, c.op.key, c.op.ref, c.op.usage, c.op.expected, c.actor, c.now);
      if Pledge(db, c.op.id).Some? {
        ChargedAccounted(db, c, Step(db, c).0, c.op.id, c.op.usage, HSettled);
      } else {
        SameMoneyAccounted(db, c, Step(db, c).0);
      }
    } else {
      RejectedFenced(db, c);
      SameStateMoney(db);
      SameMoneyAccounted(db, c, Step(db, c).0);
    }
  }

  lemma FailureAccounted(db: DB, c: Call)
    requires Inv(db) && c.op.OpFail?
    ensures Accounted(db, c, Step(db, c).0)
  {
    hide Inv, Accounted, Charged, SameMoney, FailSubtask;
    if Step(db, c).1 {
      var id := c.op.id;
      FailureFrees(db, id, c.op.token, c.op.reason, c.op.expected, c.actor, c.now);
      if db.subtasks[id].attempt >= db.subtasks[id].spec.maxAttempts && Pledge(db, id).Some? {
        ChargedAccounted(db, c, Step(db, c).0, id, 0, HReleased);
      } else {
        SameMoneyAccounted(db, c, Step(db, c).0);
      }
    } else {
      RejectedFenced(db, c);
      SameStateMoney(db);
      SameMoneyAccounted(db, c, Step(db, c).0);
    }
  }

  lemma CreationAccounted(db: DB, c: Call)
    requires Inv(db) && c.op.OpCreateMission?
    ensures Accounted(db, c, Step(db, c).0)
  {
    hide CreateMission;
    hide Inv, WithSubtasks;
    CreationOpens(db, c.op.m, c.op.subs, c.actor, c.now);
    if c.op.m.id !in db.missions {
      NobodyElsewhere(db, c.op.m.id);
    }
  }

  /** A new mission opens an account of its budget, if it has one. */
  lemma CreationOpens(db: DB, m: Mission, subs: seq<Subtask>, actor: Actor, now: int)
    ensures var d := CreateMission(db, m, subs, actor, now).0;
      if m.id in db.missions then d == db
      else
        && d.missions == db.missions[m.id := m] && d.subtasks == WithSubtasks(db.subtasks, subs) && d.holds == db.holds
        && d.budgets == if m.budget > 0 then db.budgets[m.id := Account(m.budget, 0, 0, m.budget, 0)] else db.budgets
  {
    hide AddSubtasks, WithSubtasks;
    AddSubtasksFrame(OpenMission(db, m, actor, now), subs, actor, now);
  }

  lemma SpawnAccounted(db: DB, c: Call)
    requires Inv(db) && c.op.OpSpawn?
    ensures Accounted(db, c, Step(db, c).0)
  {
    hide Inv, SpawnSubtask;
    if Step(db, c).1 {
      DelegationReserves(db, c.op.key, c.op.parent, c.op.token, c.op.parentVersion, c.op.child, c.actor, c.now);
    } else {
      SpawnRejected(db, c.op.key, c.op.parent, c.op.token, c.op.parentVersion, c.op.child, c.actor, c.now);
    }
  }

  /** Over every run a mission's spent balance is the sum of the usages that its accepted completions reported
      for their reservations, read from the calls. */
  lemma {:induction false} SpentIsReportedUsage(calls: seq<Call>, m: string)
    requires Legal(calls)
    ensures Spent(Run(calls), m) == ChargedBy(calls, m)
  {
    hide Step, Admissible, Charge;
    if calls != [] {
      var init := calls[..|calls| - 1];
      SpentIsReportedUsage(init, m);
      RunKeeps(init);
      CallIsAccounted(Run(init), calls[|calls| - 1]);
    }
  }

  /** In every reachable state accounts hold the declared budgets, and holds the declared tokens. */
  lemma {:induction false} BudgetsAreDeclared(calls: seq<Call>)
    requires Legal(calls)
    ensures Declared(Run(calls))
  {
    hide Step, Admissible, Declared;
    if calls == [] {
      NothingDeclared();
    } else {
      var init, c := calls[..|calls| - 1], calls[|calls| - 1];
      BudgetsAreDeclared(init);
      RunKeeps(init);
      CallKeepsDeclared(Run(init), c);
    }
  }

  lemma NothingDeclared()
    ensures Declared(EMPTY)
  {}

  lemma CallKeepsDeclared(db: DB, c: Call)
    requires Inv(db) && Admissible(db, c) && Declared(db)
    ensures Declared(Step(db, c).0)
  {
    hide Inv, Declared, SameDeclarations, SameAmounts;
    match c.op
    case OpCreateMission(m, subs) =>
      hide CreateMission;
      CreationDeclares(db, m, subs, c.actor, c.now);
    case OpSpawn(key, parent, token, parentVersion, child) =>
      hide SpawnSubtask;
      SpawnDeclares(db, key, parent, token, parentVersion, child, c.actor, c.now);
    case _ =>
      hide Step, Admissible;
      CallKeepsDeclarations(db, c);
      CallIsAccounted(db, c);
      DeclaredStays(db, Step(db, c).0);
  }

  lemma CreationDeclares(db: DB, m: Mission, subs: seq<Subtask>, actor: Actor, now: int)
    requires Inv(db) && Declared(db) && (m.id !in db.missions ==> NewRoots(db.subtasks, m.id, subs))
    ensures Declared(CreateMission(db, m, subs, actor, now).0)
  {
    hide Inv, Declared, CreateMission, WithSubtasks, NewRoots;
    CreationOpens(db, m, subs, actor, now);
    if m.id !in db.missions {
      RootsAreNobodysChildren(db.subtasks, m.id, subs);
      NobodyElsewhere(db, m.id);
      RootsDeclared(db, CreateMission(db, m, subs, actor, now).0, m);
    }
  }

  lemma RootsAreNobodysChildren(subtasks: map<string, Subtask>, m: string, subs: seq<Subtask>)
    requires NewRoots(subtasks, m, subs)
    ensures var all := WithSubtasks(subtasks, subs);
      && (forall k :: k in subtasks ==> k in all && all[k] == subtasks[k])
      && forall k :: k in all && k !in subtasks ==> all[k].spec.parent == ""
  {
    WithSubtasksContents(subtasks, subs);
    hide WithSubtasks;
    var all := WithSubtasks(subtasks, subs);
    forall k | k in all && k !in subtasks ensures all[k].spec.parent == "" {
      var i :| 0 <= i < |subs| && subs[i].id == k;
      assert NewRoot(m, subs[i]);
    }
  }

  lemma RootsDeclared(db: DB, d: DB, m: Mission)
    requires Declared(db) && m.id !in db.missions && m.id !in db.budgets
    requires forall k :: k in db.subtasks ==> db.subtasks[k].spec.mission != m.id
    requires d.missions == db.missions[m.id := m] && d.holds == db.holds
    requires d.budgets == if m.budget > 0 then db.budgets[m.id := Account(m.budget, 0, 0, m.budget, 0)] else db.budgets
    requires forall k :: k in db.subtasks ==> k in d.subtasks && d.subtasks[k] == db.subtasks[k]
    requires forall k :: k in d.subtasks && k !in db.subtasks ==> d.subtasks[k].spec.parent == ""
    ensures Declared(d)
  {}

  lemma NobodyElsewhere(db: DB, m: string)
    requires Inv(db) && m !in db.missions
    ensures m !in db.budgets && forall k :: k in db.subtasks ==> db.subtasks[k].spec.mission != m
  {
    hide EventInv, LeaseInv, CountInv, LedgerInv, OwnerInv, TreeInv, BoardInv;
  }

  lemma SpawnDeclares(db: DB, key: string, parent: string, token: int, parentVersion: int, child: Subtask, actor: Actor,
                      now: int)
    requires Inv(db) && Declared(db) && NewChild(db, parent, child)
    ensures Declared(SpawnSubtask(db, key, parent, token, parentVersion, child, actor, now).0)
  {
    hide Inv, SpawnSubtask, Declared, ReservedFor, Holds, Subset;
    if SpawnSubtask(db, key, parent, token, parentVersion, child, actor, now).1.Ok? {
      DelegationReserves(db, key, parent, token, parentVersion, child, actor, now);
      DelegationAccepted(db, key, parent, token, parentVersion, child, actor, now);
      ChildDeclared(db, SpawnSubtask(db, key, parent, token, parentVersion, child, actor, now).0, child);
    } else {
      SpawnRejected(db, key, parent, token, parentVersion, child, actor, now);
    }
  }

  lemma ChildDeclared(db: DB, d: DB, child: Subtask)
    requires Declared(db) && ReservedFor(db, d, child) && child.id !in db.subtasks && child.spec.parent != ""
    requires d.subtasks == db.subtasks[child.id := child.(state := Ready, version := 1)] && d.missions == db.missions
    ensures Declared(d)
  {}
}
