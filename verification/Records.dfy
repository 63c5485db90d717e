/** The records of internal/mission/types.go and internal/store/store.go, and the whole store state
    of internal/store/memory/memory.go as one value. Time is an integer; "" is the empty reference. */
module Records {
  import opened Basics
  import opened StateMachine
  import opened Permissions
  import Conditions

  /** Values of event payloads and of `where` predicates. The store logs Go integers and string slices as
      they are; a decoded document has floating-point numbers and lists instead. A deep comparison tells
      them apart, so each has its own constructor. */
  datatype Json =
    | JNull | JBool(b: bool) | JNum(x: real) | JStr(s: string)
    | JList(items: seq<Json>) | JObj(fields: map<string, Json>)
    | JInt(n: int) | JStrings(strings: seq<string>)

  datatype Kind = KAgent | KHumanApproval | KHumanDecision | KAggregation | KCondition {
    predicate Human() { KHumanApproval? || KHumanDecision? }
  }

  datatype Actor = Actor(kind: string, id: string)

  /** The part of a subtask that is fixed when it is created. */
  datatype TaskSpec = TaskSpec(
    mission: string, parent: string, kind: Kind, skills: seq<string>, deps: seq<string>,
    priority: int, deadline: Option<int>, tokens: int, maxAttempts: int, onTimeout: string,
    reworkOf: string, grants: Envelope, question: string, options: seq<string>)

  datatype WakeKind = WTimer | WManual | WEvent | WCondition

  /** `where` maps a dotted path to the value required there. */
  datatype EventMatch = EventMatch(types: seq<EventType>, where: map<string, Json>, afterSeq: int)

  /** A condition expression: rejected by the compiler, or its syntax tree. */
  datatype Formula = Uncompilable | Compiled(expr: Conditions.Expr)

  /** Either `formula`, or `board` ("namespace/key") with `op` and perhaps a value. */
  datatype Condition = Condition(board: string, op: string, value: Option<Conditions.Value>, formula: Option<Formula>)

  datatype WakeSpec = WakeSpec(
    kind: WakeKind, at: Option<int>, deadline: Option<int>, registered: Option<int>, event: Option<EventMatch>,
    condition: Option<Condition>)

  datatype Subtask = Subtask(
    id: string, spec: TaskSpec, state: State, assignee: string, lease: string, attempt: int,
    resultRef: string, version: int, checkpoint: string, wake: Option<WakeSpec>)

  datatype Mission = Mission(id: string, owner: string, goal: string, budget: int,
                             status: MissionStatus, version: int)

  datatype Capability = Capability(skill: string, level: real)

  datatype Agent = Agent(
    id: string, capabilities: seq<Capability>, maxConcurrency: int, health: string,
    heartbeat: int, running: int)

  datatype LeaseState = LActive | LExpired | LReleased | LFenced

  datatype Lease = Lease(
    id: string, subtask: string, agent: string, token: int, expires: int, state: LeaseState,
    created: int)

  datatype Account = Account(total: int, held: int, spent: int, available: int, version: int)

  datatype HoldStatus = HHeld | HSettled | HReleased

  datatype Hold = Hold(mission: string, subtask: string, attempt: int, amount: int, actual: int,
                       status: HoldStatus)

  datatype DecisionStatus = DPending | DResolved | DExpired

  datatype Decision = Decision(
    id: string, mission: string, subtask: string, kind: string, question: string, options: seq<string>,
    status: DecisionStatus,
    choice: string, rationale: string, decider: string, deadline: Option<int>, onTimeout: string)

  datatype BoardEntry = BoardEntry(mission: string, ns: string, key: string, value: string, version: int)

  datatype Artifact = Artifact(id: string, mission: string, producedBy: string, size: int)

  datatype InboxItem = InboxItem(
    id: string, mission: string, lead: string, source: string, resultRef: string,
    ingested: bool, mode: string, ingestedBy: string, version: int)

  /** One admitted board entry. `writable` is mode "rw". */
  datatype ContextView = ContextView(ns: string, key: string, value: string, version: int, writable: bool)

  /** The snapshot handed to an agent with its lease. Board views are indexed by board key and
      artifacts by id, so the value does not depend on any iteration order. */
  datatype ContextPackage = ContextPackage(
    lease: string, task: Subtask, artifacts: map<string, Artifact>, views: map<string, ContextView>,
    decisions: map<string, Decision>, budget: Option<Account>)

  /** Event payloads. Life-cycle events carry the new state, ledger events their amounts. */
  datatype Payload =
    | Moved(state: State, extra: map<string, Json>)
    | Held(amount: int, available: int)
    | Settled(reserved: int, actual: int, available: int)
    | Released(amount: int, reason: string, available: int)
    | Plain(extra: map<string, Json>)

  datatype Event = Event(
    number: int, aggregate: string, mission: string, typ: EventType, payload: Payload,
    actor: Actor, ts: int)

  datatype DB = DB(
    missions: map<string, Mission>,
    subtasks: map<string, Subtask>,
    agents: map<string, Agent>,
    leases: map<string, Lease>,
    events: seq<Event>,
    idem: map<string, string>,
    decisions: map<string, Decision>,
    board: map<string, BoardEntry>,
    artifacts: map<string, Artifact>,
    inbox: map<string, InboxItem>,
    budgets: map<string, Account>,
    holds: map<string, Hold>,
    contexts: map<string, ContextPackage>,
    eventSeq: nat,
    fencingSeq: nat,
    leaseSeq: nat)

  const EMPTY := DB(map[], map[], map[], map[], [], map[], map[], map[], map[], map[], map[], map[],
                    map[], 0, 0, 0)

  function BoardKey(mission: string, ns: string, key: string): string {
    mission + "/" + ns + "/" + key
  }

  function System(id: string): Actor { Actor("system", id) }

  function StateName(s: State): string {
    match s
    case Pending => "PENDING"
    case Ready => "READY"
    case Offered => "OFFERED"
    case Leased => "LEASED"
    case Running => "RUNNING"
    case Waiting => "WAITING"
    case Blocked => "BLOCKED"
    case Succeeded => "SUCCEEDED"
    case Failed => "FAILED"
    case Cancelled => "CANCELLED"
  }

  function KindName(k: Kind): string {
    match k
    case KAgent => "agent"
    case KHumanApproval => "human_approval"
    case KHumanDecision => "human_decision"
    case KAggregation => "aggregation"
    case KCondition => "condition"
  }

  function StatusName(s: MissionStatus): string {
    match s
    case Active => "ACTIVE"
    case MSucceeded => "SUCCEEDED"
    case MFailed => "FAILED"
    case MCancelled => "CANCELLED"
  }

  function WakeName(k: WakeKind): string {
    match k
    case WTimer => "timer"
    case WManual => "manual"
    case WEvent => "event"
    case WCondition => "condition"
  }

  /** The JSON object a subscriber sees, and `where` predicates are matched against. */
  function JsonOf(p: Payload): map<string, Json> {
    match p
    case Moved(state, extra) => extra["state" := JStr(StateName(state))]
    case Held(amount, available) =>
      map["amount_tokens" := JInt(amount), "available_tokens" := JInt(available)]
    case Settled(reserved, actual, available) =>
      map["reserved_tokens" := JInt(reserved), "actual_tokens" := JInt(actual), "available_tokens" := JInt(available)]
    case Released(amount, reason, available) =>
      map["amount_tokens" := JInt(amount), "reason" := JStr(reason), "available_tokens" := JInt(available)]
    case Plain(extra) => extra
  }

  // ---- leaseID ----

  const LEASE_DIGITS := 8
  const BASE := 36
  /** 36^8, the number of distinct lease ids. */
  const LEASE_SPACE: int := 2821109907456

  /** '0'..'9' then 'a'..'z'. */
  function Digit(d: int): char
    requires 0 <= d < BASE
  {
    if d < 10 then ('0' as int + d) as char else ('a' as int + d - 10) as char
  }

  /** The last `k` base-36 digits of `n`. */
  function Digits(n: nat, k: nat): (r: string)
    ensures |r| == k
  {
    if k == 0 then "" else Digits(n / BASE, k - 1) + [Digit(n % BASE)]
  }

  function LeaseId(n: nat): string { "les_" + Digits(n, LEASE_DIGITS) }

  function Power(k: nat): (p: nat)
    ensures p > 0
  {
    if k == 0 then 1 else BASE * Power(k - 1)
  }

  /** Two numbers share their last k digits exactly when they agree modulo 36^k. */
  lemma {:induction false} DigitsEqual(n: nat, m: nat, k: nat)
    ensures Digits(n, k) == Digits(m, k) <==> n % Power(k) == m % Power(k)
  {
    if k != 0 {
      DigitsEqual(n / BASE, m / BASE, k - 1);
      assert Digit(n % BASE) == Digit(m % BASE) <==> n % BASE == m % BASE;
      ModSplit(n, Power(k - 1));
      ModSplit(m, Power(k - 1));
      var a, b := Digits(n, k), Digits(m, k);
      if a == b {
        assert a[..k - 1] == b[..k - 1] && a[k - 1] == b[k - 1];
        assert a[..k - 1] == Digits(n / BASE, k - 1) && b[..k - 1] == Digits(m / BASE, k - 1);
      }
      var hi, hi' := (n / BASE) % Power(k - 1), (m / BASE) % Power(k - 1);
      assert BASE * hi + n % BASE == BASE * hi' + m % BASE <==> hi == hi' && n % BASE == m % BASE;
    }
  }

  lemma ModSplit(n: nat, p: nat)
    requires p > 0
    ensures n % (BASE * p) == BASE * ((n / BASE) % p) + n % BASE
  {
    var q, r := n / BASE, n % BASE;
    var a, b := q / p, q % p;
    assert n == BASE * q + r && q == p * a + b;
    assert n == (BASE * p) * a + (BASE * b + r) by {
      assert BASE * (p * a) == (BASE * p) * a;
    }
    assert 0 <= BASE * b + r < BASE * p by {
      assert b <= p - 1;
      assert BASE * b <= BASE * (p - 1);
    }
    ModUnique(n, BASE * p, a, BASE * b + r);
  }

  lemma ModUnique(n: nat, d: nat, q: int, r: int)
    requires d > 0 && n == d * q + r && 0 <= r < d
    ensures n % d == r
  {
    var k := q - n / d;
    assert d * k == n % d - r by {
      assert n == d * (n / d) + n % d;
      assert d * k == d * q - d * (n / d);
    }
    if k >= 1 {
      AtLeastOnce(d, k);
    } else if -k >= 1 {
      AtLeastOnce(d, -k);
    }
  }

  lemma AtLeastOnce(d: nat, k: int)
    requires k >= 1
    ensures d * k >= d
  {
    assert d * k == d + d * (k - 1);
    assert d * (k - 1) >= 0;
  }

  /** Lease ids are injective on the first 36^8 leases and no further: leases n and n + 36^8 collide. */
  lemma LeaseIdCollision(n: nat, m: nat)
    ensures LeaseId(n) == LeaseId(m) <==> n % LEASE_SPACE == m % LEASE_SPACE
  {
    DigitsEqual(n, m, LEASE_DIGITS);
    assert Power(8) == LEASE_SPACE by {
      assert Power(2) == 1296;
      assert Power(4) == 1679616;
      assert Power(6) == 2176782336;
    }
    assert LeaseId(n)[4..] == Digits(n, LEASE_DIGITS);
    assert LeaseId(m)[4..] == Digits(m, LEASE_DIGITS);
  }

  lemma LeaseIdInjective(n: nat, m: nat)
    requires 0 < n <= LEASE_SPACE && 0 < m <= LEASE_SPACE && LeaseId(n) == LeaseId(m)
    ensures n == m
  {
    LeaseIdCollision(n, m);
  }

  /** The buffer is filled from its last cell backwards. */
  method LeaseIdBuffer(n: nat) returns (id: string)
    ensures id == LeaseId(n)
  {
    var buf := new char[LEASE_DIGITS](_ => '0');
    var rest: nat := n;
    var i := LEASE_DIGITS;
    while i > 0
      invariant 0 <= i <= LEASE_DIGITS
      invariant buf.Length == LEASE_DIGITS
      invariant Digits(n, LEASE_DIGITS) == Digits(rest, i) + buf[i..]
    {
      i := i - 1;
      buf[i] := Digit(rest % BASE);
      rest := rest / BASE;
    }
    assert buf[..] == buf[0..];
    id := "les_" + buf[..];
  }
}
