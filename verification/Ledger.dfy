/** The token ledger: account balances are the sums of the holds, and the logged ledger events
    rebuild them. */
module Ledger {
  import opened Basics
  import opened Records
  import opened StoreSpec

  function Due(h: Hold): int { if h.status == HHeld then h.amount else 0 }

  function Paid(h: Hold): int { if h.status == HSettled then h.actual else 0 }

  function HeldShare(h: Hold, m: string): int { if h.mission == m then Due(h) else 0 }

  function SpentShare(h: Hold, m: string): int { if h.mission == m then Paid(h) else 0 }

  /** Amounts of the mission's HELD holds. */
  ghost function HeldSum(holds: map<string, Hold>, m: string): int { Sum(holds, HeldIn(m)) }

  ghost function HeldIn(m: string): Hold -> int { h => HeldShare(h, m) }

  /** Actual usage of the mission's SETTLED holds. */
  ghost function SpentSum(holds: map<string, Hold>, m: string): int { Sum(holds, SpentIn(m)) }

  ghost function SpentIn(m: string): Hold -> int { h => SpentShare(h, m) }

  /** Balances rebuilt from the log; `ok` while every logged availability was right. */
  datatype Book = Book(held: int, spent: int, ok: bool)

  ghost function Post(b: Book, e: Event, m: string, total: int): Book {
    if e.mission != m then b else Entry(b, e, total)
  }

  ghost function Entry(b: Book, e: Event, total: int): Book {
    match (e.typ, e.payload)
      case (EvBudgetHeld, Held(amount, available)) =>
        Book(b.held + amount, b.spent, b.ok && available == total - (b.held + amount) - b.spent)
      case (EvBudgetSettled, Settled(reserved, actual, available)) =>
        Book(b.held - reserved, b.spent + actual, b.ok && available == total - (b.held - reserved) - (b.spent + actual))
      case (EvBudgetReleased, Released(amount, _, available)) =>
        Book(b.held - amount, b.spent, b.ok && available == total - (b.held - amount) - b.spent)
      case _ => if e.typ.Ledger() then b.(ok := false) else b
  }

  ghost function BookOf(events: seq<Event>, m: string, total: int): Book {
    if events == [] then Book(0, 0, true)
    else Post(BookOf(events[..|events| - 1], m, total), events[|events| - 1], m, total)
  }

  ghost predicate AccountOk(a: Account, holds: map<string, Hold>, events: seq<Event>, m: string) {
    && a.held == HeldSum(holds, m) && a.spent == SpentSum(holds, m)
    && 0 <= a.held && 0 <= a.spent && a.held + a.spent <= a.total
    && a.available == a.total - a.held - a.spent
    && BookOf(events, m, a.total) == Book(a.held, a.spent, true)
  }

  ghost predicate HoldsOk(holds: map<string, Hold>, budgets: map<string, Account>) {
    forall k :: k in holds ==> 0 < holds[k].amount && 0 <= holds[k].actual && holds[k].mission in budgets
  }

  ghost predicate LedgerInv(budgets: map<string, Account>, holds: map<string, Hold>, events: seq<Event>) {
    && HoldsOk(holds, budgets)
    && (forall m :: m in budgets ==> AccountOk(budgets[m], holds, events, m))
    && (forall m, t :: m !in budgets ==> BookOf(events, m, t) == Book(0, 0, true))
  }

  lemma BookLog(events: seq<Event>, e: Event, m: string, total: int)
    ensures BookOf(events + [e], m, total) == Post(BookOf(events, m, total), e, m, total)
  {
    assert (events + [e])[..|events|] == events;
  }

  lemma SharesUpdate(holds: map<string, Hold>, k: string, h: Hold, m: string)
    ensures HeldSum(holds[k := h], m)
         == HeldSum(holds, m) - (if k in holds then HeldShare(holds[k], m) else 0) + HeldShare(h, m)
    ensures SpentSum(holds[k := h], m)
         == SpentSum(holds, m) - (if k in holds then SpentShare(holds[k], m) else 0) + SpentShare(h, m)
  {
    SumUpdate(holds, HeldIn(m), k, h);
    SumUpdate(holds, SpentIn(m), k, h);
  }

  /** A hold's amount is part of its account's held balance. */
  lemma HeldBound(holds: map<string, Hold>, budgets: map<string, Account>, k: string)
    requires HoldsOk(holds, budgets) && k in holds && holds[k].status == HHeld
    ensures holds[k].amount <= HeldSum(holds, holds[k].mission)
  {
    SumBounds(holds, HeldIn(holds[k].mission));
    assert HeldIn(holds[k].mission)(holds[k]) == holds[k].amount;
  }

  /** Events that are not about the ledger leave every book alone. */
  lemma LogKeepsLedger(db: DB, e: Event)
    requires LedgerInv(db.budgets, db.holds, db.events) && !e.typ.Ledger()
    ensures LedgerInv(db.budgets, db.holds, db.events + [e])
  {
    forall m, t ensures BookOf(db.events + [e], m, t) == BookOf(db.events, m, t) { BookLog(db.events, e, m, t); }
  }

  /** Rewriting one hold of mission m: the account follows the change of the hold's shares, and the
      event posts the same change. */
  ghost predicate Follows(a: Account, a': Account, holds: map<string, Hold>, k: string, h: Hold) {
    && a'.total == a.total
    && a'.held == a.held - (if k in holds then Due(holds[k]) else 0) + Due(h)
    && a'.spent == a.spent - (if k in holds then Paid(holds[k]) else 0) + Paid(h)
    && 0 <= a'.held && 0 <= a'.spent && a'.held + a'.spent <= a'.total
    && a'.available == a'.total - a'.held - a'.spent
  }

  lemma PostKeepsLedger(budgets: map<string, Account>, holds: map<string, Hold>, events: seq<Event>,
                        m: string, a: Account, k: string, h: Hold, e: Event)
    requires LedgerInv(budgets, holds, events) && m in budgets
    requires h.mission == m && 0 < h.amount && 0 <= h.actual && (k in holds ==> holds[k].mission == m)
    requires Follows(budgets[m], a, holds, k, h)
    requires e.mission == m
    requires Entry(Book(budgets[m].held, budgets[m].spent, true), e, a.total) == Book(a.held, a.spent, true)
    ensures LedgerInv(budgets[m := a], holds[k := h], events + [e])
  {
    OthersKeep(budgets, holds, events, m, k, h, e);
    SharesUpdate(holds, k, h, m);
    BookLog(events, e, m, a.total);
    assert AccountOk(a, holds[k := h], events + [e], m);
  }

  lemma OthersKeep(budgets: map<string, Account>, holds: map<string, Hold>, events: seq<Event>,
                   m: string, k: string, h: Hold, e: Event)
    requires LedgerInv(budgets, holds, events)
    requires h.mission == m && (k in holds ==> holds[k].mission == m) && e.mission == m
    ensures forall n :: n in budgets && n != m ==> AccountOk(budgets[n], holds[k := h], events + [e], n)
    ensures forall n, t :: n !in budgets && n != m ==> BookOf(events + [e], n, t) == Book(0, 0, true)
  {
    forall n, t | n != m ensures BookOf(events + [e], n, t) == BookOf(events, n, t) {
      BookLog(events, e, n, t);
    }
    forall n | n in budgets && n != m ensures AccountOk(budgets[n], holds[k := h], events + [e], n) {
      SharesUpdate(holds, k, h, n);
      assert AccountOk(budgets[n], holds, events, n);
    }
  }

  /** `d` is `db` with one account, one hold and the matching ledger event written. */
  ghost predicate Posted(db: DB, d: DB, m: string, a: Account, k: string, h: Hold, e: Event) {
    d.budgets == db.budgets[m := a] && d.holds == db.holds[k := h] && d.events == db.events + [e] && e.mission == m
  }

  lemma PostedKeeps(db: DB, d: DB, m: string, a: Account, k: string, h: Hold, e: Event)
    requires LedgerInv(db.budgets, db.holds, db.events) && m in db.budgets && Posted(db, d, m, a, k, h, e)
    requires h.mission == m && 0 < h.amount && 0 <= h.actual && (k in db.holds ==> db.holds[k].mission == m)
    requires Follows(db.budgets[m], a, db.holds, k, h)
    requires Entry(Book(db.budgets[m].held, db.budgets[m].spent, true), e, a.total) == Book(a.held, a.spent, true)
    ensures LedgerInv(d.budgets, d.holds, d.events)
  {
    PostKeepsLedger(db.budgets, db.holds, db.events, m, a, k, h, e);
  }

  /** What the ledger says about one account and one of its HELD holds. */
  lemma Figures(db: DB, m: string, k: string)
    requires LedgerInv(db.budgets, db.holds, db.events) && m in db.budgets
    ensures var a := db.budgets[m]; 0 <= a.held && 0 <= a.spent && a.held + a.spent <= a.total
    ensures HasHold(db, k) && db.holds[k].mission == m ==>
      0 < db.holds[k].amount <= db.budgets[m].held && 0 <= db.holds[k].actual
  {
    assert AccountOk(db.budgets[m], db.holds, db.events, m);
    if HasHold(db, k) && db.holds[k].mission == m {
      HeldBound(db.holds, db.budgets, k);
    }
  }

  lemma ReserveKeepsLedger(db: DB, child: Subtask, amount: int, actor: Actor, now: int)
    requires LedgerInv(db.budgets, db.holds, db.events)
    requires child.spec.mission in db.budgets && child.id !in db.holds
    requires var a := db.budgets[child.spec.mission]; 0 < amount <= a.total - a.held - a.spent
    ensures var d := ReserveHold(db, child, amount, actor, now); LedgerInv(d.budgets, d.holds, d.events)
  {
    var m, d := child.spec.mission, ReserveHold(db, child, amount, actor, now);
    Figures(db, m, child.id);
    PostedKeeps(db, d, m, d.budgets[m], child.id, d.holds[child.id], d.events[|db.events|]);
  }

  lemma ReleaseKeepsLedger(db: DB, sub: Subtask, reason: string, actor: Actor, now: int)
    requires LedgerInv(db.budgets, db.holds, db.events)
    requires sub.id in db.holds ==> db.holds[sub.id].mission == sub.spec.mission
    ensures var d := ReleaseHold(db, sub, reason, actor, now); LedgerInv(d.budgets, d.holds, d.events)
  {
    var m, d := sub.spec.mission, ReleaseHold(db, sub, reason, actor, now);
    if HasHold(db, sub.id) && m in db.budgets {
      Figures(db, m, sub.id);
      PostedKeeps(db, d, m, d.budgets[m], sub.id, d.holds[sub.id], d.events[|db.events|]);
    }
  }

  lemma SettleKeepsLedger(db: DB, sub: Subtask, usage: int, actor: Actor, now: int)
    requires LedgerInv(db.budgets, db.holds, db.events)
    requires sub.id in db.holds ==> db.holds[sub.id].mission == sub.spec.mission
    ensures var r := SettleHold(db, sub, usage, actor, now);
            r.Ok? ==> LedgerInv(r.value.budgets, r.value.holds, r.value.events)
  {
    var m, r := sub.spec.mission, SettleHold(db, sub, usage, actor, now);
    if HasHold(db, sub.id) && r.Ok? {
      var d := r.value;
      Figures(db, m, sub.id);
      PostedKeeps(db, d, m, d.budgets[m], sub.id, d.holds[sub.id], d.events[|db.events|]);
    }
  }

  /** A new mission's account opens empty. */
  lemma OpenKeepsLedger(db: DB, m: string, total: int)
    requires LedgerInv(db.budgets, db.holds, db.events) && m !in db.budgets && total > 0
    ensures LedgerInv(db.budgets[m := Account(total, 0, 0, total, 0)], db.holds, db.events)
  {
    SumOfZeros(db.holds, HeldIn(m));
    SumOfZeros(db.holds, SpentIn(m));
  }
}
