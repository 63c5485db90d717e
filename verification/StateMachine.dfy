/** internal/mission/statemachine.go: the subtask life cycle and the derived mission status. */
module StateMachine {
  import opened Basics

  datatype State =
    | Pending | Ready | Offered | Leased | Running | Waiting | Blocked
    | Succeeded | Failed | Cancelled
  {
    predicate Terminal() { Succeeded? || Failed? || Cancelled? }

    /** Some agent or person is engaged on the subtask under a lease. */
    predicate InFlight() { Offered? || Leased? || Running? || Blocked? }
  }

  /** Event names of the log. The first seventeen are the life cycle of a subtask, the next three
      the token ledger; every other name is carried by `Other`. */
  datatype EventType =
    | EvCreated | EvDepsSatisfied | EvLeaseOffered | EvLeaseAccepted | EvLeaseExpired | EvStarted
    | EvTakeover | EvSuspended | EvWoken | EvBlocked | EvDecisionApproved | EvDecisionRejected
    | EvCompleted | EvFailed | EvRetried | EvWithdrawn | EvCancelled
    | EvBudgetHeld | EvBudgetSettled | EvBudgetReleased
    | Other(name: string)
  {
    predicate Ledger() { EvBudgetHeld? || EvBudgetSettled? || EvBudgetReleased? }
    predicate Lifecycle() { !Ledger() && !Other? }
  }

  /** The transition table: the next state, or None when the move is illegal. */
  function Apply(from: State, ev: EventType): Option<State> {
    match (from, ev)
    case (Pending, EvDepsSatisfied) => Some(Ready)
    case (Pending, EvCancelled) => Some(Cancelled)
    case (Ready, EvLeaseOffered) => Some(Offered)
    case (Ready, EvSuspended) => Some(Waiting)
    case (Ready, EvBlocked) => Some(Blocked)
    case (Ready, EvCancelled) => Some(Cancelled)
    case (Offered, EvLeaseAccepted) => Some(Leased)
    case (Offered, EvLeaseExpired) => Some(Ready)
    case (Offered, EvWithdrawn) => Some(Ready)
    case (Offered, EvCancelled) => Some(Cancelled)
    case (Leased, EvStarted) => Some(Running)
    case (Leased, EvLeaseExpired) => Some(Ready)
    case (Leased, EvCancelled) => Some(Cancelled)
    case (Running, EvCompleted) => Some(Succeeded)
    case (Running, EvFailed) => Some(Failed)
    case (Running, EvTakeover) => Some(Ready)
    case (Running, EvSuspended) => Some(Waiting)
    case (Running, EvBlocked) => Some(Blocked)
    case (Running, EvCancelled) => Some(Cancelled)
    case (Waiting, EvWoken) => Some(Ready)
    case (Waiting, EvCancelled) => Some(Cancelled)
    case (Blocked, EvDecisionApproved) => Some(Running)
    case (Blocked, EvDecisionRejected) => Some(Failed)
    case (Blocked, EvCancelled) => Some(Cancelled)
    case (Failed, EvRetried) => Some(Ready)
    case (Failed, EvCancelled) => Some(Cancelled)
    case _ => None
  }

  /** The moves the store really makes: the table plus the wake time-out of ExpireWakes, which goes
      from WAITING to FAILED without consulting the table. */
  function Edge(from: State, ev: EventType): Option<State> {
    if from == Waiting && ev == EvFailed then Some(Failed) else Apply(from, ev)
  }

  /** Every event leads to one state, wherever it is legal. */
  function Target(ev: EventType): State
    requires ev.Lifecycle()
  {
    match ev
    case EvCreated => Pending
    case EvDepsSatisfied | EvLeaseExpired | EvWithdrawn | EvTakeover | EvWoken | EvRetried => Ready
    case EvLeaseOffered => Offered
    case EvLeaseAccepted => Leased
    case EvStarted | EvDecisionApproved => Running
    case EvSuspended => Waiting
    case EvBlocked => Blocked
    case EvCompleted => Succeeded
    case EvFailed | EvDecisionRejected => Failed
    case EvCancelled => Cancelled
  }

  /** SUCCEEDED and CANCELLED are final, nothing re-enters PENDING, only a retry or a cancellation
      leaves FAILED, and cancellation is open from every state but the two final ones. */
  lemma TableShape(from: State, ev: EventType)
    ensures Apply(from, ev).Some? ==>
      && ev.Lifecycle() && ev != EvCreated && Apply(from, ev).value == Target(ev) && Edge(from, ev) == Apply(from, ev)
      && from != Succeeded && from != Cancelled && Apply(from, ev).value != Pending
      && (from == Failed ==> ev == EvRetried || ev == EvCancelled)
      && (from == Pending ==> ev == EvDepsSatisfied || ev == EvCancelled)
      && (Target(ev).InFlight() ==> from.InFlight() || (from == Ready && (ev == EvLeaseOffered || ev == EvBlocked)))
    ensures Apply(from, EvCancelled).Some? <==> from != Succeeded && from != Cancelled
  {}

  /** The states from which an event is legal, told event by event: the table read by columns. */
  function Sources(ev: EventType): set<State> {
    match ev
    case EvDepsSatisfied => {Pending}
    case EvLeaseOffered => {Ready}
    case EvLeaseAccepted | EvWithdrawn => {Offered}
    case EvLeaseExpired => {Offered, Leased}
    case EvStarted => {Leased}
    case EvTakeover | EvCompleted | EvFailed => {Running}
    case EvSuspended | EvBlocked => {Ready, Running}
    case EvWoken => {Waiting}
    case EvDecisionApproved | EvDecisionRejected => {Blocked}
    case EvRetried => {Failed}
    case EvCancelled => {Pending, Ready, Offered, Leased, Running, Waiting, Blocked, Failed}
    case _ => {}
  }

  lemma LegalExactly(from: State, ev: EventType)
    ensures Apply(from, ev).Some? <==> from in Sources(ev)
    ensures Edge(from, ev).Some? <==> from in Sources(ev) || (from == Waiting && ev == EvFailed)
  {}

  datatype MissionStatus = Active | MSucceeded | MFailed | MCancelled

  /** The documented rule, stated on the set of states that occur. */
  ghost function StatusOf(states: set<State>): MissionStatus {
    if states == {} || exists s :: s in states && !s.Terminal() then Active
    else if Failed in states then MFailed
    else if Cancelled in states then MCancelled
    else MSucceeded
  }

  /** The counting loop of MissionStatusOf computes the documented rule. */
  method MissionStatusOf(states: seq<State>) returns (status: MissionStatus)
    ensures status == StatusOf(set s | s in states)
    ensures status == MSucceeded <==> states != [] && forall j :: 0 <= j < |states| ==> states[j] == Succeeded
    ensures status == MFailed <==> (forall j :: 0 <= j < |states| ==> states[j].Terminal()) && Failed in states
    ensures status == MCancelled <==>
      (forall j :: 0 <= j < |states| ==> states[j].Terminal()) && Cancelled in states && Failed !in states
  {
    if |states| == 0 {
      assert (set s | s in states) == {};
      return Active;
    }
    var failed, cancelled, terminal := 0, 0, 0;
    for i := 0 to |states|
      invariant 0 <= terminal <= i
      invariant terminal == i <==> forall j :: 0 <= j < i ==> states[j].Terminal()
      invariant 0 <= failed && (failed > 0 <==> exists j :: 0 <= j < i && states[j] == Failed)
      invariant 0 <= cancelled && (cancelled > 0 <==> exists j :: 0 <= j < i && states[j] == Cancelled)
    {
      match states[i] {
        case Succeeded => terminal := terminal + 1;
        case Failed => failed, terminal := failed + 1, terminal + 1;
        case Cancelled => cancelled, terminal := cancelled + 1, terminal + 1;
        case _ =>
      }
    }
    ghost var occurring := set s | s in states;
    assert forall j :: 0 <= j < |states| ==> states[j] in occurring;
    assert occurring != {} by { assert states[0] in occurring; }
    if terminal < |states| {
      ghost var j :| 0 <= j < |states| && !states[j].Terminal();
      assert states[j] in occurring;
      status := Active;
    } else if failed > 0 {
      status := MFailed;
    } else if cancelled > 0 {
      status := MCancelled;
    } else {
      status := MSucceeded;
    }
  }
}
