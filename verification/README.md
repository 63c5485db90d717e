# Agent Troop: verified model of the control plane

Agent Troop hands tasks to unreliable agents. Its core is a lease and fencing protocol over a versioned
state machine, with an event log, a token ledger, a dependency orchestrator, delegation trees and
suspend/wake on top. This project models that core in Dafny and proves what it promises.

The project has three layers.

- The store. `StoreSpec.dfy` says what each atomic operation of the in-memory store does to its whole
  state; `MemoryStore.dfy` is the store as a class whose methods are proved to make exactly those steps;
  `EventLog`, `Leases`, `Ledger` and `Invariants` hold the parts of the store invariant, `StoreOps` proves
  that every operation keeps it, and `StoreRuns` draws the conclusions for every sequence of calls. `Charges`,
  `Sweeps`, `Deadlines`, `Promises` and `ContextGrants` say, without the terms of `StoreSpec`, when the calls are
  accepted, what they charge, expire and hand out, and what they leave alone. One mutex makes every method atomic, so sequences of calls are all interleavings.
- The orchestrator. `Flow.dfy` gives propagation, failure cascade and status derivation in closed form and
  the invariant against deadlock; `FlowKeeps` and `FlowChanges` prove that each kind of step keeps it;
  `Orchestrator.dfy` defines the service calls as atomic steps and proves the theorem for whole runs;
  `ServiceLayer.dfy` is the service as a class over the store, its loops proved to take exactly those steps.
  `ServiceRuns.dfy` shows that every service run is a run of store calls, and `Outcomes` what becomes of a failed,
  rejected, approved or cancelled subtask. `Dag`, `Plans`, `Delegation`,
  `DelegationRuns`, `Intents`, `CallFrames`, `Triggers` and `JsonValues` belong to this layer. Only `Intents` and the
  reconcilers look inside a service call: there calls may be cut off between two store operations.
- Algorithms: `Permissions`, `Attenuation`, `Conditions` with `Footprints`, `ReadyQueue`, `Scheduler`, `AgentHealth`,
  `Reputation`, `LoadStatistics`. `ConditionWakes` ties condition footprints to board writes, `ConditionSweeps` to wake-ups.

What the service promises on raw store calls is stated once, as `StoreRuns.Admissible`: new subtasks have
fresh ids, are PENDING, at version 0 and attempt 0, unleased; a registered agent's counter agrees with its leases; free
events carry no life-cycle or ledger name; only human nodes are blocked without a token; fewer than 36^8
leases are issued. Time is an integer, random ids are parameters, and the iteration order of a map is any
order.

Facts of the code that the model keeps: the wake time-out moves WAITING to FAILED outside the transition
table; a rejected decision frees neither lease nor hold; human nodes pass through RUNNING and BLOCKED
without a lease; cancelling a mission ignores its status; a resolved decision is re-applied to any subtask
that is BLOCKED now.

Where comments and code differ, the model follows the code. The comment on MissionStatusOf reads as if one
FAILED subtask made the mission FAILED at once; the code reports ACTIVE until every subtask is finished. The
comment on intentCreateMission says that losers of the key return the winner's mission; the code also lets
them create it when the winner stopped before storing it.

The comment on matchWhere promises JSON equality; the code compares with reflect.DeepEqual, which separates the
integers and string slices that the store logs from the numbers and lists of a decoded pattern. `JsonValues` gives
the exact condition.

The memory store is documented as aligned with the SQL store, which derives an agent's `Running` by a query
over ACTIVE leases; the proof shows that the memory store's counter has that value in every reachable state, given
that registrations carry it, and that a registration that does not carry it breaks it.

## Model

| member | source | states |
|---|---|---|
| Orchestrator.OrchestrationNeverDeadlocks | internal/core/service.go:288-378 | Over every run of service calls: a mission with subtasks is ACTIVE exactly while one is unfinished, and exactly while one is READY, OFFERED, LEASED, RUNNING, WAITING or BLOCKED; a final status is the derived one or an explicit cancellation; nothing past PENDING overtook its dependencies |
| Orchestrator.MissionVerdict | internal/mission/statemachine.go:107-136 | Over every run of service calls, in terms of the subtasks' states alone: a SUCCEEDED mission has only SUCCEEDED subtasks, a FAILED one only finished ones of which one FAILED; unless somebody cancels it, the converse holds, and it is CANCELLED when all are finished, none FAILED and one is CANCELLED |
| Outcomes.RetriesAreBounded | internal/core/service.go:584-593 | Over every run of service calls no subtask is retried more often than it declares, and never if it declares none |
| Outcomes.FailureIsRetried | internal/core/service.go:566-597 | A failure with attempts left leads back to READY, one attempt later, without agent or lease; the lease is RELEASED, the reservation stays, and no other subtask or mission moves |
| Outcomes.FailureIsFinal | internal/core/service.go:598-605 | A failure without attempts left stays FAILED, its reservation is given back unspent, its lease RELEASED; afterwards no PENDING subtask of the mission depends on it or on one that was cut off, only such subtasks were cut off, and no other moved |
| Outcomes.FailureIsRefused | internal/store/memory/memory.go:1024-1059 | Unless the subtask is RUNNING at the expected version under the ACTIVE lease with the token, a failure changes nothing |
| ServiceRuns.EmptyMissionIsStuck | internal/core/service.go:352-378 | The restriction to missions with subtasks is needed: over every run, an ACTIVE mission without subtasks stays ACTIVE and without subtasks in every later state until a step that cancels it |
| ServiceRuns.EmptyMissionIsAccepted | internal/core/service.go:101-212 | In every state that satisfies the store invariant the empty task list passes validation, and its mission is created ACTIVE without a subtask |
| Orchestrator.ServiceKeeps | internal/core/service.go:264-378 | Creation, cancellation, completion, failure with retry or cascade, decision outcome, wake sweep, delegation, both reconcilers and every pass-through store call each keep the store invariant and the orchestration invariant; a composed call is only known to be some sequence of admissible store calls with the stated effect on the board, and the store invariant is derived from that |
| ServiceRuns.ServiceReaches | internal/core/service.go:264-378 | Whatever a service call does, some sequence of admissible store calls does |
| ServiceRuns.ServiceRunIsStoreRun | internal/core/service.go:264-378 | Every state of every service run is the end of a legal run of store calls from the empty store, so event sourcing, ledger and fencing hold under the service |
| Orchestrator.ReconcilersIdle | internal/core/service.go:698-728 | On every stable board, hence in every state of a service run, both reconcilers change nothing at all: they only ever repair a step that was cut off |
| StoreRuns.EventSourcing | internal/store/memory/memory.go:1672-1683 | After every sequence of store calls, folding a subtask's life-cycle events through the transition table (plus the wake time-out edge) from PENDING gives its stored state, its version counts them, and event i carries number i + 1 |
| StoreRuns.LifeIsForward | internal/mission/statemachine.go:28-93 | Over any continuation a subtask keeps its declaration, its version never falls, equal versions mean equal states, nothing returns to PENDING, SUCCEEDED and CANCELLED are for ever |
| StoreRuns.LedgerIsExact | internal/store/memory/memory.go:732-782 | In every reachable state held and spent are the sums of HELD amounts and SETTLED usage, neither is negative, the account is not overdrawn, and replaying the logged ledger events rebuilds the balances and every announced availability |
| Charges.SpentIsReportedUsage | internal/store/memory/memory.go:732-761 | Over every run a mission's spent balance is the sum of the usages that its accepted completions reported for their reservations, read from the calls and not from the holds |
| Charges.BudgetsAreDeclared | internal/store/memory/memory.go:75-98 | Over every run exactly the missions with a budget have an account, of that total, and exactly the delegated subtasks of such missions have a hold, of their declared tokens |
| Charges.CompletionCharges | internal/store/memory/memory.go:732-761 | An accepted completion adds exactly the reported usage to spent, takes exactly the reservation out of held, and records the usage; without a reservation no money moves |
| Charges.CompletionAccepted | internal/store/memory/memory.go:671-729 | A completion is accepted exactly with a new key, for a RUNNING subtask at the expected version under its ACTIVE lease's token, with a usage that fits what the other reservations leave; it is a duplicate exactly when the key is bound and the subtask stored; otherwise nothing changes |
| Charges.CompletionEnds | internal/store/memory/memory.go:671-729 | The subtask is SUCCEEDED with the result, the key is bound to it, the lease is RELEASED, and no other subtask, lease or mission moves |
| Charges.FailureFrees | internal/store/memory/memory.go:1024-1059 | A failure gives the reservation back unspent exactly when no attempt is left |
| Charges.CancellationFrees | internal/store/memory/memory.go:1102-1131 | A cancellation is accepted exactly at the expected version of a subtask that is not SUCCEEDED or CANCELLED, and gives the reservation back unspent |
| Charges.DelegationAccepted | internal/store/memory/memory.go:787-857 | A delegation is accepted exactly under a new key and id, by the holder of the RUNNING parent's ACTIVE lease before it runs out, within the parent's envelope and what the account has available |
| Charges.DelegationReserves | internal/store/memory/memory.go:787-857 | The child is stored READY at version 1 and its declared tokens move from available to held; no other subtask, lease or mission moves |
| StoreRuns.EngagedMeansLeased | internal/store/memory/memory.go:405-460 | In every reachable state an agent's subtask in OFFERED, LEASED, RUNNING or BLOCKED has exactly one ACTIVE lease, the one it names, held by its assignee |
| StoreRuns.LeasesNeverReturn | internal/store/memory/memory.go:405-460 | Over any continuation a lease keeps token and holder and never becomes ACTIVE again; later leases carry larger tokens; tokens identify leases |
| StoreRuns.StrandedCallsDoNothing | internal/store/memory/memory.go:617-627 | A call presenting a token that no ACTIVE lease carries is refused and leaves the whole store unchanged, whichever of the twelve token-bearing calls it is |
| StoreRuns.FencedForever | internal/store/memory/memory.go:617-634 | Once a lease has left ACTIVE, every call with its token at any later point of any continuation leaves the whole store unchanged |
| StoreRuns.RejectedChangesNothing | internal/store/memory/memory.go:671-729 | In a reachable state a call that is not accepted, duplicates included, changes nothing |
| StoreRuns.RejectedIsNoOp | internal/store/memory/memory.go:405-440 | On arbitrary states the only refused call that changes anything is an offer of a subtask whose stored envelope does not normalise: it burns one token and one lease number |
| StoreRuns.RunningIsDerived | internal/store/memory/memory.go:442-448 | The incrementally kept counter of an agent is the number of its ACTIVE leases in every reachable state |
| StoreRuns.RegistrationExactly | internal/store/memory/memory.go:282-288 | Registering an agent overwrites its record, and keeps the counter derived if and only if the new record already carries the number of its ACTIVE leases |
| StoreRuns.FreshRegistrationBreaks | internal/store/memory/memory.go:282-288 | An agent that registers again with a zero counter while it holds a lease breaks the counter, and the release of that lease then counts nothing down |
| Leases.GuardHolds | internal/store/memory/memory.go:629-634 | The guard before a decrement never skips one: a registered holder of an ACTIVE lease counts it |
| Sweeps.NoOfferOverstays | internal/store/memory/memory.go:585-615 | In every state that satisfies the store invariant: after the lease sweep no OFFERED or LEASED subtask names an ACTIVE lease whose time is up |
| Sweeps.UnexpiredLeasesStay | internal/store/memory/memory.go:585-615 | The sweep leaves every ACTIVE lease with time left, its subtask, and every subtask that is neither OFFERED nor LEASED as they were |
| Sweeps.ExpiredLeasesEnd | internal/store/memory/memory.go:585-615 | Each overdue ACTIVE lease on an OFFERED or LEASED subtask ends as EXPIRED, the subtask is READY without agent or lease, and each agent's counter falls by exactly the number of such leases it held |
| Sweeps.NoLeadOverstays | internal/store/memory/memory.go:975-1021 | After the takeover sweep no subtask that coordinates others is RUNNING under an ACTIVE lease whose time is up |
| Sweeps.OtherWorkStays | internal/store/memory/memory.go:975-1021 | The takeover leaves every other lease and subtask as it was |
| Sweeps.StaleLeadsFall | internal/store/memory/memory.go:975-1021 | A stale lead's lease ends as FENCED, the lead is READY without agent or lease, its agent's counter falls, and the agent comes under suspicion unless it is marked down |
| Deadlines.OfferLasts | internal/store/memory/memory.go:405-460 | An offer survives every sweep before its time to live is over and none from then on |
| Deadlines.RenewalLasts | internal/store/memory/memory.go:571-583 | A renewal is accepted exactly under the ACTIVE lease's token, and then the lease survives exactly the sweeps before the new time |
| Deadlines.OverdueWaitsFail | internal/store/memory/memory.go:1217-1236 | The wake sweep fails exactly the WAITING subtasks whose deadline has passed, drops their registrations and moves nothing else |
| Deadlines.WakeInTime | internal/store/memory/memory.go:1173-1200 | A wake-up is accepted exactly for a WAITING subtask at the expected version whose deadline has not passed |
| Deadlines.UnansweredAreSettled | internal/store/memory/memory.go:1391-1419 | The decision sweep settles exactly the PENDING decisions whose deadline has passed, as their orders say |
| Deadlines.SilenceRejects | internal/core/service.go:655-667 | Where the order says auto_reject, sweep and outcome together fail the BLOCKED subtask and cut off what depends on it |
| Deadlines.SilenceApproves | internal/core/service.go:655-667 | Where it says auto_approve, an agent runs on and a human node is SUCCEEDED |
| Promises.OfferExactly | internal/store/memory/memory.go:405-460 | An offer is accepted exactly for a READY subtask at the expected version under no ACTIVE lease |
| Promises.AcceptExactly | internal/store/memory/memory.go:511-540 | A lease is accepted exactly while ACTIVE under its token, for an OFFERED subtask at the expected version; only that subtask moves |
| Promises.StartExactly | internal/store/memory/memory.go:636-659 | Work starts exactly on a LEASED subtask at the expected version under its ACTIVE lease's token; only that subtask moves |
| Promises.BlockExactly | internal/store/memory/memory.go:1077-1100 | Work is blocked exactly while RUNNING or READY at the expected version under the ACTIVE lease's token |
| Promises.SuspendExactly | internal/store/memory/memory.go:1133-1171 | A suspension is accepted exactly while RUNNING or READY under the ACTIVE lease's token; the subtask waits without agent or lease, and an empty checkpoint keeps the old one |
| Promises.CheckpointExactly | internal/store/memory/memory.go:1238-1253 | A checkpoint is stored exactly while RUNNING or BLOCKED under the ACTIVE lease's token, and nothing else moves |
| Promises.CompletionReports | internal/store/memory/memory.go:671-730 | A completed delegated subtask is reported to its lead unless it has an entry already; no entry is lost |
| Promises.IngestOnce | internal/store/memory/memory.go:892-925 | An inbox item is ingested exactly once, by its RUNNING lead under an ACTIVE lease with time left, at the item's version |
| Promises.SnapshotExactly | internal/store/memory/memory.go:927-973 | A snapshot is saved exactly by the RUNNING lead's holder with time left, first while there is none, later at the stored version; it extends the lease |
| Promises.AskExactly | internal/store/memory/memory.go:1304-1338 | A question is asked exactly under a new id about a RUNNING or READY subtask at the expected version; the order is PENDING, the subtask BLOCKED, its lease stays |
| Promises.ResolveOnce | internal/store/memory/memory.go:1369-1389 | A decision is resolved exactly once, while PENDING, with the given choice |
| Promises.BoardWriteExactly | internal/store/memory/memory.go:1425-1449 | A guarded write is accepted exactly at the stored version, a blind one always, and no other entry moves |
| Promises.GuardedWritesExclude | internal/store/memory/memory.go:1425-1449 | Of two guarded writes expecting the same version at most one is accepted |
| Records.LeaseIdCollision | internal/store/memory/memory.go:1693-1701 | Two lease numbers get the same id exactly when they agree modulo 36^8, so ids are injective for the first 36^8 leases and for no more |
| Records.LeaseIdBuffer | internal/store/memory/memory.go:1693-1701 | Filling the buffer from its last cell backwards yields "les_" and the last eight base-36 digits |
| Attenuation.AttenuationReachesData | internal/store/context.go:14-46 | In every reachable state and for every delegation chain, each board entry and artifact materialised for a descendant is materialised for each ancestor, writable there whenever it is writable below |
| ContextGrants.PackageIsGranted | internal/store/memory/memory.go:462-509 | In every state that satisfies the store invariant a package holds exactly what the task's grants name: an entry of the task's mission is there if and only if some grant of its namespace has no keys or names its key, writable if and only if such a grant has mode rw; likewise the named artifacts, the decisions about the task and the stored account |
| ContextGrants.PackagesStayGranted | internal/store/memory/memory.go:462-509 | In every reachable state each stored package, whatever happened since, holds nothing that the grants of its lease's subtask do not name |
| ContextGrants.DelegationNarrows | internal/mission/permissions.go:80-137 | Along every delegation chain nothing widens: no higher classification, no other tool or artifact, nothing more to read or to write |
| Attenuation.ChainAttenuates | internal/store/memory/memory.go:812-814 | Every member of a delegation chain lies in the mission and the envelope of every member above it |
| DelegationRuns.DelegationIsBounded | internal/core/delegate.go:133-160 | Over every run no subtask owns more than F + F^2 + ... + F^D delegated descendants |
| DelegationRuns.RunIsBounded | internal/core/delegate.go:133-182 | Over every run every parent chain has at most D steps, every subtask at most F children, every rework chain at most R steps, and parents and reworked subtasks were created earlier |
| Intents.ExactlyOnce | internal/core/intent.go:112-151 | For any submissions of one key, interleaved call by call with each other and with all admissible store calls that pass the check `Foreign`, delegations inside the submitted missions included, and cut off anywhere: at most one mission exists, every successful reply names it, and after a reply none of its roots is PENDING, then or later |
| Intents.ForeignIsOthers | internal/core/intent.go:112-151 | The check can be made before a call: a call is harmless to the submissions when it does not bring their store key, creates none of their missions, and brings into other missions no subtask id that one of theirs could have |
| Intents.DelegationsAreForeign | internal/core/delegate.go:50-116 | A delegation, with a named or a generated child and in whatever mission, passes the check if and only if the submissions' key is not "delegate-" followed by its own |
| Intents.CreationsAreForeign | internal/core/service.go:172-212 | The creation of any other mission with its planned subtasks passes the check |
| Intents.PrefixesApart | internal/core/intent.go:128-128 | Keys without the prefix and other submissions' keys never meet the key of k; the key of delegation x meets it exactly when k is "delegate-" followed by x |
| Intents.OtherIdsApart | internal/core/service.go:232-232 | Subtask ids of other missions and all ids of at most 24 characters differ from every subtask id of the mission |
| Intents.CollidingCompletion | internal/store/memory/memory.go:679-700 | A completion whose own key begins with the prefix takes the submissions' key: later submissions are sent to a mission named like the result; under a bound key the completion does nothing |
| Intents.CollidingDelegation | internal/core/delegate.go:100-116 | A delegation and a submission whose keys meet are answered with each other's ids |
| CallFrames.CallBindsExactly | internal/store/memory/memory.go:679-700 | Of the thirty store calls only completion, delegation and key reservation touch idempotency keys; each is accepted only while its key is unbound and binds exactly that key to its result |
| CallFrames.CallKeepsKeys | internal/store/memory/memory.go:215-245 | No store call but mission creation and delegation adds or removes a mission or a subtask |
| Intents.CallsAreCalm | internal/store/memory/memory.go:75-98 | The traffic allowed beside the submissions covers every admissible store call: it is sound and adds PENDING subtasks only to new missions |
| FlowChanges.ReconcileRepairs | internal/core/service.go:698-728 | From any board whatever, one pass of both reconcilers leaves no PENDING subtask with all dependencies done, readies only subtasks whose dependencies are done, and leaves no mission with a SUCCEEDED subtask short of its derived status |
| FlowChanges.ReconcileIsIdempotent | internal/core/service.go:698-728 | On the state left by a pass, both reconcilers are the identity |
| Triggers.WatermarkSeparates | internal/core/trigger.go:103-113 | In every interleaving exactly the events logged after the watermark was read lie above it, so none after the WAITING commit is missed |
| Triggers.NoLostWakeup | internal/core/trigger.go:188-231 | After the sweep every listed registration of kind event that had a wanted event when the sweep began, and was not overdue, is READY; a listed one has moved only on a wanted event; no other subtask has changed |
| Triggers.WakesForReasons | internal/core/trigger.go:188-231 | A listed registration is READY after the sweep if an event of its own mission, after its mark, of a listed type and with every wanted value was there before and its deadline has not passed; without such an event it stays as it is |
| JsonValues.OtherKindsStay | internal/core/trigger.go:188-194 | A registration of another kind stays as it is through the sweep, even when it carries a pattern whose event has happened |
| JsonValues.AttemptIsNeverWanted | internal/store/memory/memory.go:636-659 | A pattern on the attempt number never wants the start event that carries it, because the attempt is logged as an integer and the pattern holds a floating-point number |
| JsonValues.DeepDiffersExactly | internal/core/trigger.go:167-184 | On one payload the deep comparison and the comparison by value disagree exactly when the payload matches by value and some path meets a value that was logged as an integer or a string slice |
| JsonValues.AgreeExactly | internal/core/trigger.go:167-184 | The two comparisons agree on every payload if and only if the pattern holds no whole number and no list of strings, or contradicts itself: a longer path continues a shorter one whose wanted value does not hold what the longer one wants |
| JsonValues.MatchableExactly | internal/core/trigger.go:167-184 | Some payload matches a pattern by value if and only if the pattern does not contradict itself in this way |
| JsonValues.NoLostWakeupByValue | internal/core/trigger.go:188-231 | For such a pattern the sweep loses no event that matches by value |
| JsonValues.NativeDecodes | internal/core/trigger.go:167-184 | Every document that is not plain has a second form with integers or string slices that decodes to it |
| Conditions.ReferencedNamespacesSuffice | internal/core/cel.go:200-235 | A non-wildcard expression has the same value on the whole board as on its referenced namespaces, for every meaning of the operators |
| Conditions.RejectedWritesDoNotMatter | internal/core/cel.go:122-135 | A write that the filter rejects leaves the value unchanged unless it creates a namespace probed by has(), whatever slashes the names hold |
| Conditions.ProbedNamespaceMatters | internal/core/cel.go:331-378 | That exception is exact for has(board.ns.k): the value survives the rejected write if and only if the namespace existed |
| Conditions.EvalAgrees | internal/core/cel.go:331-390 | Boards that agree on an expression's footprint cannot be told apart by it, comprehensions and shadowing included |
| Scheduler.ScheduleOnce | internal/core/scheduler.go:138-179 | Within the first 36^8 leases a round serves the most urgent READY tasks in their order: each placed one is OFFERED to an agent that was eligible for it at that moment; every other agent task of the queue was under lease or has no eligible agent left; nobody else moves; the counters are those after the placements; under round robin the object has observed exactly these placements with their candidates and is fair about its whole history |
| Scheduler.PlaceOne | internal/core/scheduler.go:158-177 | One task: the first of the best-scored agents gets the offer, the view and the observer follow, and nothing changes otherwise |
| Scheduler.OfferAccepted | internal/store/memory/memory.go:405-460 | Within the first 36^8 leases the offer of a READY task that is under no ACTIVE lease is always accepted |
| Scheduler.PlacementsWithinCaps | internal/core/scheduler.go:198-207 | Placements that were eligible one after the other push no capped agent over its cap |
| Scheduler.CapsHold | internal/core/scheduler.go:138-179 | After a round an agent that started within its cap has at most that many ACTIVE leases |
| Scheduler.FairAlways | internal/core/scheduler.go:112-131 | Both fairness results hold of every history that the round-robin object has observed |
| Scheduler.PlacedInBetween | internal/core/scheduler.go:112-131 | If agent A is placed twice and B is eligible at the second time, B was placed in between |
| Scheduler.EveryRoundServesAll | internal/core/scheduler.go:112-131 | While the same n agents are eligible, n consecutive placements use each of them exactly once |
| AgentHealth.SuspectsGetNothing | internal/core/scheduler.go:198-207 | After a takeover no agent that lost a stale lead is eligible for anything |
| AgentHealth.HeartbeatRestores | internal/store/memory/memory.go:335-359 | A heartbeat makes exactly the healthy or merely suspected agents eligible that are below their cap and declare the skills |
| AgentHealth.DownStaysDown | internal/store/memory/memory.go:335-359 | An agent that is marked down stays ineligible through heartbeats and takeovers |
| Reputation.SignalIsBounded | internal/store/quality.go:94-159 | One signal on any record, new ones included, keeps all scores in [0, 1], moves the quality mean by at most 0.1 and the composite score that readers compute by at most 0.11, and adds its weight to the success counters exactly when it carries an outcome |
| Reputation.SignalPullsItsWay | internal/store/quality.go:107-153 | A success raises the success score, a failure lowers it, silence leaves it, the same for reliability, and the quality mean moves towards the observation and never past it |
| Reputation.FreshScoreIsBounded | internal/store/quality.go:155-159 | The stored composite score of a record whose scores are fresh moves by at most 0.11 |
| Reputation.NeutralMovesByStaleness | internal/store/quality.go:107-159 | Freshness is needed: a signal that says nothing moves the stored score by exactly its staleness, so within 0.11 if and only if the stored score was that close to the computed one |
| Reputation.FirstSignalJumps | internal/store/memory/memory.go:393-398 | A new record is stored with score 0, and a first signal that says nothing lifts the stored score to 0.5 |
| Reputation.ReputationOverRuns | internal/store/memory/memory.go:385-401 | After any sequence of arrivals, each with its own registered agents and clock, repeats and unknown agents included, success counters are 4 plus the clamped weight of the distinct applied signals with an outcome, stored scores are fresh, and all scores lie in [0, 1] |
| LoadStatistics.Gini | internal/core/product.go:122-137 | For loads in any order, n times the total times the index is the sum of all pairwise distances, and the index lies between 0 and 1 - 1/n; it is 0 for no loads or a zero total |
| Dag.ValidateDag | internal/core/service.go:101-151 | Kahn's algorithm accepts exactly the task lists with valid grants, non-empty distinct names, known dependencies and no dependency cycle, repeated edges included, and yields a topological order |
| StateMachine.TableShape | internal/mission/statemachine.go:30-93 | Each event leads to one state wherever it is legal; the two final states admit nothing, nothing enters PENDING, FAILED is left only by retry or cancellation, cancellation is open from every other state, and flight is entered only from READY |
| StateMachine.LegalExactly | internal/mission/statemachine.go:30-76 | The table read event by event: an event is legal exactly in these states |
| StateMachine.MissionStatusOf | internal/mission/statemachine.go:107-136 | The counting loop computes the documented rule: SUCCEEDED exactly when all of some subtasks are, FAILED exactly when all are finished and one FAILED, CANCELLED exactly when all are finished, none FAILED and one CANCELLED |
| EventLog.ReplayMeaning | internal/mission/statemachine.go:78-93 | A replayed track is one creation followed by a legal path, and its version is the length of that path |
| EventLog.ReplayMonotone | internal/mission/statemachine.go:30-93 | Replaying a longer log continues the track: versions grow, PENDING is never re-entered, final states stay |
| StoreRuns.StepKeeps | internal/store/memory/memory.go:405-460 | Each of the thirty store calls keeps events, leases, counters, ledger, tree, board and mission parts of the store invariant and only grows the store |
| StoreRuns.RunGrows | internal/store/memory/memory.go:1672-1683 | Over any continuation the log is append-only, declarations and lease identities are kept, idempotency keys are never rebound |
| StoreOps.TransitionKeeps | internal/store/memory/memory.go:215-245 | A generic transition with the service's events keeps the store invariant |
| StoreOps.OfferLeaseKeeps | internal/store/memory/memory.go:405-460 | An offer keeps the store invariant for the first 36^8 leases |
| StoreOps.CompleteSubtaskKeeps | internal/store/memory/memory.go:671-729 | Settlement, result, lease release and inbox entry together keep the store invariant |
| StoreOps.SpawnSubtaskKeeps | internal/store/memory/memory.go:787-857 | Budget hold, child and its two events together keep the store invariant |
| StoreOps.TakeoverLeadKeeps | internal/store/memory/memory.go:975-1021 | Fencing a stale lead and readying it keeps the store invariant |
| StoreOps.WakesLand | internal/store/memory/memory.go:1217-1236 | The wake sweep fails exactly the overdue WAITING subtasks it visits and touches no other |
| Ledger.PostKeepsLedger | internal/store/memory/memory.go:732-782 | An account write, a hold write and their event keep the ledger when they post the same amounts |
| Ledger.SettleKeepsLedger | internal/store/memory/memory.go:732-761 | Settling never overdraws: an accepted usage fits what the account has left beside the other holds |
| MemoryStore.Store.CreateMission | internal/store/memory/memory.go:75-98 | Stores the mission, opens its account, inserts all subtasks with their events, or refuses an existing id |
| MemoryStore.Store.SetMissionStatus | internal/store/memory/memory.go:187-201 | Version-checked status change with its event |
| MemoryStore.Store.TransitionSubtask | internal/store/memory/memory.go:215-245 | Version- and table-checked move with mutation, version bump and event, in exactly this step |
| MemoryStore.Store.ListSubtasks | internal/store/memory/memory.go:159-171 | Each subtask of the mission once |
| MemoryStore.Store.ListSubtasksByState | internal/store/memory/memory.go:173-185 | Each subtask in the state once |
| MemoryStore.Store.ListWaiting | internal/store/memory/memory.go:1255-1266 | Each WAITING subtask with a registration of this kind once, and no other |
| MemoryStore.Store.DequeueReady | internal/store/memory/memory.go:249-278 | The most urgent READY subtasks up to the limit, in order; whoever is left out comes after all of them |
| ReadyQueue.QueueIsDetermined | internal/store/memory/memory.go:259-277 | Priority, deadline and id order any set of subtasks in one way: the queue does not depend on the iteration order |
| ReadyQueue.UrgentFirst | internal/store/memory/memory.go:249-280 | What is dequeued first has no lower priority than what comes later or is left out, and at equal priority no later deadline |
| ReadyQueue.SortReady | internal/store/memory/memory.go:260-273 | Sorts a listing into that order without losing or adding a record |
| MemoryStore.Store.ListAgents | internal/store/memory/memory.go:300-309 | Every agent once, sorted by id |
| MemoryStore.Store.UpsertAgent | internal/store/memory/memory.go:282-288 | Overwrites the whole agent record, counter included |
| MemoryStore.Store.HeartbeatAgent | internal/store/memory/memory.go:335-348 | A heartbeat ends suspicion but not a manual outage |
| MemoryStore.Store.MarkAgentHealth | internal/store/memory/memory.go:350-359 | Sets the health of a known agent |
| MemoryStore.Store.OfferLease | internal/store/memory/memory.go:405-460 | The offer step, with the token burnt when the context package cannot be built |
| MemoryStore.Store.BoardViewsFor | internal/store/memory/memory.go:462-509 | Whatever the map order, the views are the entries some grant admits, each once, writable exactly when an admitting grant is |
| MemoryStore.Store.ArtifactsOf | internal/store/memory/memory.go:462-468 | The granted artifacts of this mission and no others |
| MemoryStore.Store.DecisionsOf | internal/store/memory/memory.go:494-499 | The decisions about this subtask |
| MemoryStore.Store.BuildContextPackage | internal/store/context.go:14-69 | The package is determined by the store state, independent of every iteration order; it fails exactly when the envelope does not normalise |
| MemoryStore.Store.HasActiveLease | internal/store/memory/memory.go:421-425 | True exactly when some ACTIVE lease is on the subtask |
| MemoryStore.Store.AcceptLease | internal/store/memory/memory.go:511-540 | Accepts only the ACTIVE lease with this token, at the expected version |
| MemoryStore.Store.RenewLease | internal/store/memory/memory.go:571-583 | Moves the expiry of an ACTIVE lease with this token and nothing else |
| MemoryStore.Store.ExpireLeases | internal/store/memory/memory.go:585-613 | Visits every lease once in some order; offered and leased subtasks with an overdue lease return to READY, running ones are left; the result counts the events |
| MemoryStore.Store.CheckFencing | internal/store/memory/memory.go:617-627 | The subtask's own lease when it is ACTIVE and carries the token, otherwise nothing |
| MemoryStore.Store.RetireLease | internal/store/memory/memory.go:629-634 | The lease leaves ACTIVE and its holder's counter goes down once |
| MemoryStore.Store.StartSubtask | internal/store/memory/memory.go:636-659 | Fenced, version-checked start |
| MemoryStore.Store.BlockSubtask | internal/store/memory/memory.go:1077-1100 | Fenced, version-checked block |
| MemoryStore.Store.SettleBudgetHold | internal/store/memory/memory.go:732-761 | Settles a HELD hold within what the account allows, or changes nothing |
| MemoryStore.Store.ReleaseBudgetHold | internal/store/memory/memory.go:763-782 | Returns a HELD amount to its account |
| MemoryStore.Store.EnqueueResult | internal/store/memory/memory.go:716-727 | One inbox entry per source subtask, for delegated subtasks only |
| MemoryStore.Store.CompleteSubtask | internal/store/memory/memory.go:671-729 | The completion step: replay answered first, then version, token, table, budget; all effects or none |
| MemoryStore.Store.FailSubtask | internal/store/memory/memory.go:1024-1056 | The failure step; the hold is released only on the last attempt |
| MemoryStore.Store.CancelSubtask | internal/store/memory/memory.go:1102-1128 | The cancellation step: lease, hold and event |
| MemoryStore.Store.ReserveBudgetHold | internal/store/memory/memory.go:829-847 | A hold and its event when the mission is metered |
| MemoryStore.Store.InsertChild | internal/store/memory/memory.go:825-856 | The child is stored READY at version 1 with both its events |
| MemoryStore.Store.SpawnSubtask | internal/store/memory/memory.go:787-857 | The delegation step: replay, version, fencing, ownership, envelope, fresh id and budget in this order; all effects or none |
| MemoryStore.Store.CountChildren | internal/store/memory/memory.go:860-870 | The number of subtasks with this parent |
| MemoryStore.Store.IngestLeadInbox | internal/store/memory/memory.go:892-925 | A pending item is ingested once, by the running lead's own unexpired lease |
| MemoryStore.Store.SaveLeadSnapshot | internal/store/memory/memory.go:927-973 | Create-only or compare-and-set write of the plan that also renews the lease |
| MemoryStore.Store.TakeoverStaleLeads | internal/store/memory/memory.go:975-1022 | Visits every subtask once; exactly the running leads with an overdue lease are fenced and readied, their agents suspected |
| MemoryStore.Store.SuspendSubtask | internal/store/memory/memory.go:1133-1171 | Fenced suspension that releases the lease and keeps an old checkpoint when none is given |
| MemoryStore.Store.WakeSubtask | internal/store/memory/memory.go:1173-1200 | Wakes at the expected version unless overdue, clearing the registration |
| MemoryStore.Store.ExpireWakes | internal/store/memory/memory.go:1217-1236 | Visits every subtask once and returns exactly the overdue ones, now FAILED |
| MemoryStore.Store.SaveCheckpoint | internal/store/memory/memory.go:1238-1253 | Fenced checkpoint write without an event |
| MemoryStore.Store.PutIdempotent | internal/store/memory/memory.go:1276-1284 | First writer wins, later ones get its value |
| MemoryStore.Store.CreateDecisionAndBlock | internal/store/memory/memory.go:1304-1338 | Work order and block in one step, fenced when a token is given |
| MemoryStore.Store.ResolveDecision | internal/store/memory/memory.go:1369-1389 | A pending decision is resolved once |
| MemoryStore.Store.ExpireDecisions | internal/store/memory/memory.go:1391-1419 | Visits every decision once; due pending ones are resolved or expired by their time-out policy |
| MemoryStore.Store.BoardPut | internal/store/memory/memory.go:1425-1449 | Blind or compare-and-set write that numbers versions from 0 |
| MemoryStore.Store.BoardList | internal/store/memory/memory.go:1462-1478 | Lists each entry whose board key continues the prefix exactly once |
| MemoryStore.Store.PutArtifact | internal/store/memory/memory.go:1482-1498 | Stores a new artifact with its event |
| MemoryStore.Store.AppendEvent | internal/store/memory/memory.go:1672-1691 | Appends one event with the next number |
| Permissions.NormalizeIdempotent | internal/mission/permissions.go:24-62 | Normalising twice changes nothing |
| Permissions.UniqueSortedCanonical | internal/mission/permissions.go:64-77 | The sorted list depends only on the set of non-empty strings given |
| Permissions.SubsetReflexive | internal/mission/permissions.go:80-105 | The order is reflexive exactly on valid envelopes |
| Permissions.SubsetTransitive | internal/mission/permissions.go:80-105 | The order is transitive |
| Permissions.PermissionEnvelopeSubset | internal/mission/permissions.go:80-105 | The nested flag loops decide the declared order |
| Permissions.BoardGrantCovers | internal/mission/permissions.go:120-131 | Decides cover: same namespace, no stronger mode, no wider keys |
| Permissions.StringSubset | internal/mission/permissions.go:107-118 | Decides list inclusion |
| Flow.NoDeadlock | internal/core/service.go:288-378 | On every stable board, ACTIVE, unfinished and actionable coincide for missions with subtasks |
| Flow.DoomedIsFixpoint | internal/core/service.go:322-349 | The doomed set is a fixpoint: PENDING and depending on the source or on a doomed subtask |
| Flow.DoomedWithin | internal/core/service.go:322-349 | It is the least one: every closed set contains it |
| FlowKeeps.CompletionKeeps | internal/core/service.go:288-317 | Completion followed by propagation keeps the board stable |
| FlowKeeps.FailureKeeps | internal/core/service.go:322-378 | Any number of failures followed by their cascades in turn keeps the board stable |
| FlowChanges.CreationKeeps | internal/core/service.go:172-229 | An acyclic new mission with readied roots keeps the board stable |
| FlowChanges.CancellationKeeps | internal/core/service.go:264-283 | Cancelling a mission, whatever its status, keeps the board stable |
| FlowChanges.DelegationKeeps | internal/store/memory/memory.go:825-856 | A READY child in an ACTIVE mission keeps the board stable |
| ServiceLayer.Service.ReadyDownstream | internal/core/service.go:288-316 | Readies exactly the PENDING subtasks of the mission with all dependencies SUCCEEDED, decided on the listing; writes nothing when there is none |
| ServiceLayer.Service.DeriveMissionStatus | internal/core/service.go:352-378 | Writes the derived final status of an ACTIVE mission, and nothing otherwise; an error exactly for a final status of a mission that is not stored |
| ServiceLayer.FinishedIsStored | internal/core/service.go:352-378 | The store invariant rules that error out |
| ServiceLayer.Service.Propagate | internal/core/service.go:288-317 | Readying and derivation as one step; writes nothing on an idle mission |
| ServiceLayer.Service.CancelUnreachable | internal/core/service.go:322-349 | Terminates having cancelled exactly the doomed subtasks, each by one event, all others untouched |
| ServiceLayer.Service.ActivateMissionRoots | internal/core/service.go:215-230 | Readies exactly the mission's PENDING subtasks without dependencies |
| ServiceLayer.Service.ReconcilePendingRoots | internal/core/service.go:698-714 | Readies exactly the PENDING subtasks without dependencies, in all missions; writes nothing when there is none |
| ServiceLayer.Service.ReconcileSucceeded | internal/core/service.go:717-728 | Propagates once per SUCCEEDED subtask; writes nothing when all those propagations are idle |
| ServiceLayer.Service.Reconcile | internal/core/service.go:698-728 | Both passes on every state that satisfies the store invariant: the repair above holds, and on a repaired state the store is untouched |
| ServiceLayer.Service.AuthorizeOwner | internal/core/service.go:467-501 | Passes exactly the holder of the lease the subtask names |
| ServiceLayer.Service.CompleteSubtask | internal/core/service.go:530-564 | Completion with propagation, replayed propagation on a duplicate, nothing on refusal. The reply is a success exactly for the agent at work with a new key and an affordable usage, and then names the stored SUCCEEDED subtask with the result, the key being bound to it; a duplicate exactly for the owner with a bound key; an error leaves the store as it was |
| ServiceLayer.Service.FailSubtask | internal/core/service.go:567-606 | Retry while attempts are left, otherwise cascade and derivation. The reply is a success exactly for the agent at work, and then names the stored subtask, READY for its next attempt or FAILED; an error leaves the store as it was |
| ServiceLayer.Service.ApplyDecisionOutcome | internal/core/hitl.go:111-163 | Rejection fails and cascades, approval resumes an agent or completes a human node; nothing unless BLOCKED; an error exactly when the mission holds no such subtask |
| Outcomes.RejectionFails | internal/core/hitl.go:131-141 | Rejection of a BLOCKED subtask leaves it FAILED, and cuts off exactly what depends on it |
| Outcomes.ApprovalResumes | internal/core/hitl.go:143-149 | Approval lets an agent's BLOCKED subtask run on, and nothing else moves |
| Outcomes.ApprovalCompletes | internal/core/hitl.go:150-163 | Approval completes a human node with the decision as its result, and readies exactly the PENDING subtasks of the mission whose dependencies are all SUCCEEDED |
| ServiceLayer.Service.OpenHumanDecisions | internal/core/hitl.go:26-69 | Exactly the READY human nodes become BLOCKED, each with a pending work order; the result counts them |
| ServiceLayer.Service.RequestDecision | internal/core/hitl.go:73-98 | A running agent holding its lease gets a work order and is blocked with the lease kept; nothing on refusal |
| ServiceLayer.Service.SweepOverdueWakes | internal/core/trigger.go:350-362 | Overdue waits fail and each failure is cascaded and derived in turn |
| ServiceLayer.Service.Suspend | internal/core/trigger.go:92-113 | Suspends exactly on a valid registration by the owner, with the log's length as watermark, or changes nothing; the stored wait has a deadline, a timer rings before it, an event registration looks from this moment on, and a condition can be evaluated |
| ServiceLayer.Service.EvalEventWakes | internal/core/trigger.go:188-231 | Exactly the registrations of kind event are scanned and woken on a hit; each one that was ready when the sweep began ends READY; a subtask that does not await an event is unchanged |
| ServiceLayer.Service.EvalConditionWakes | internal/core/trigger.go:287-331 | Wakes registrations in scope that are not overdue, each by one event, and changes nothing else; they are exactly those whose condition holds when mission ids hold no slash and keys are not empty; an error means that an expression in scope does not compile, and then only registrations that fire have been woken |
| ServiceLayer.Service.BoardPut | internal/core/service.go:611-623 | Refused without a namespace or key; otherwise the write, then the incremental evaluation of the conditions on it, whose error is dropped |
| ConditionSweeps.IncrementalIsFull | internal/core/trigger.go:276-331 | When nothing was due before a board write, the incremental evaluation wakes only what the full one would, and what it misses probes with has() a namespace that this write makes appear or disappear |
| ConditionSweeps.EvalCondition | internal/core/cel.go:139-196 | Loading, evaluating and comparing decide whether the condition holds, for every meaning of the operators |
| ServiceLayer.Service.CancelMission | internal/core/service.go:264-283 | Cancels exactly the unfinished subtasks and the mission; exactly these subtasks lose their reservations, and their leases are over |
| Outcomes.CancellationIsExact | internal/core/service.go:264-283 | What was finished stays as it was, everything else in the mission is CANCELLED without agent or lease, other missions do not notice |
| ServiceLayer.Service.CreateMission | internal/core/service.go:172-212 | Succeeds exactly for a non-negative budget, a valid DAG and a new id; then takes the creation step, and every task is stored as declared, READY exactly if it depends on nothing; otherwise writes nothing |
| ServiceLayer.Service.IntentCreateMission | internal/core/intent.go:112-151 | Uninterrupted submission: replies with the mission bound to the key, stored, no root PENDING; writes nothing on invalid input |
| ServiceLayer.Service.Delegate | internal/core/delegate.go:39-116 | All early checks, then the delegation step; nothing when a check fails. On success the child is new, READY under its parent, and as declared |
| Plans.PlanIsValid | internal/core/service.go:172-205 | What validation accepts becomes subtasks with known, topologically numbered dependencies |
| Plans.SubIdInjective | internal/core/service.go:232-232 | Different names give different subtask ids |
| Intents.PendingIsNew | internal/store/memory/memory.go:215-245 | A PENDING subtask has version 0, so a listed root's version is still current |
| Delegation.CheckDelegateLimits | internal/core/delegate.go:133-182 | Accepts exactly when depth, fanout and rework leave room |
| Delegation.CheckDepth | internal/core/delegate.go:139-151 | The truncated walk accepts exactly when every chain from the parent fits |
| Delegation.CheckRework | internal/core/delegate.go:160-180 | The unbounded walk terminates and accepts exactly when every rework chain from the origin fits |
| Delegation.ChildFitsExactly | internal/core/delegate.go:133-182 | A child fits the limits if and only if the tree with it is within them |
| Delegation.DescendantsBounded | internal/core/delegate.go:133-160 | The geometric bound on descendants follows from depth and fanout |
| Triggers.MatchWhere | internal/core/trigger.go:167-184 | True exactly when every dotted path, split at its dots, exists in the payload with the wanted value, integers and floating-point numbers being different values |
| Triggers.SplitJoin | internal/core/trigger.go:170-170 | Splitting a path at its dots loses nothing and leaves no dot in a segment |
| Triggers.ListMissionEvents | internal/store/memory/memory.go:1061-1075 | The first events of the mission above the mark, up to the page size |
| Triggers.PagedScan | internal/core/trigger.go:202-228 | For every page size the page loop terminates and finds a hit exactly when a plain search of the log does |
| Footprints.RefExtractor.Walk | internal/core/cel.go:331-378 | The mutating walk records exactly the footprint, stopping at the wildcard |
| Footprints.ExtractBoardRefs | internal/core/cel.go:274-282 | The collected names are exactly the static references, each once, or the wildcard |
| Footprints.ReferencesBoard | internal/core/cel.go:122-135 | Decides the filter: the key itself or its whole namespace is referenced |
| ConditionSweeps.CelBoardView | internal/core/cel.go:200-235 | One listing for each referenced first segment in any order, or one of everything for a wildcard, yields exactly that part of the mission's board, namespaces with slashes included, when mission ids hold no slash |
| ConditionSweeps.LoadForCondition | internal/core/cel.go:139-235 | Extraction and loading together preserve the condition's value for every environment and every meaning of the operators |
| ConditionWakes.SkippedConditionsAreUnchanged | internal/core/trigger.go:276-331 | After a board write every registration that the incremental evaluation skips, by mission or by filter, holds exactly when it held before, unless it probes with has() a namespace that the write makes appear or disappear |
| ConditionWakes.ToggledExactly | internal/store/memory/memory.go:1425-1449 | Among namespaces without slash a write makes exactly its own appear, and only when it is the first in it |
| ConditionWakes.ConditionRefsChanged | internal/core/trigger.go:276-285 | Decides the filter for structured predicates by key and for expressions by footprint |
| ConditionWakes.FormsAgree | internal/core/cel.go:139-196 | The structured condition "exists" means what has(board.ns.key) means; "equals" implies that board.ns.key has the value and means it when the stored bytes are a JSON document, names without slash |
| Scheduler.IsEligible | internal/core/scheduler.go:198-207 | Healthy, below the cap and skilled |
| Scheduler.MatchSkills | internal/core/scheduler.go:210-229 | Succeeds exactly when every required skill is declared; the level is the weakest of them, capped at 1 |
| Scheduler.PickAgent | internal/core/scheduler.go:182-195 | The first of the best-scored agents, none exactly when no agent is eligible |
| Scheduler.RoundRobin.Score | internal/core/scheduler.go:121-126 | Scores eligible agents by how long ago they were placed |
| Scheduler.RoundRobin.OnPlaced | internal/core/scheduler.go:128-131 | The stored serials are the last placement positions of the history, and the history stays fair |
| Scheduler.LoadPenalty | internal/core/scheduler.go:91-107 | Between 0.1 and 0.3, minimal without priority and deadline, maximal for top priority within the hour |
| Reputation.ReputationRecord.Apply | internal/store/quality.go:107-153 | The in-place update is the projection function |
| Reputation.ReputationRecord.RefreshScores | internal/store/quality.go:155-159 | Derived scores from the counters |
| Reputation.ReputationStore.ApplyReputationSignal | internal/store/memory/memory.go:385-401 | Duplicates and unknown agents change nothing, every other signal is applied once |
| LoadStatistics.SortedSums | internal/core/product.go:122-137 | Sorting changes neither the total nor any sum of distances |
| LoadStatistics.Percentile | internal/core/product.go:120-120 | The entry whose rank is the first to reach the fraction |

## Left out

- The SQL store, HTTP and JSON-RPC interfaces, SDKs, the web client and process loops: their semantics are outside the code modelled here.
- Meter records, quality records, appeals, canaries, the marketplace and observability counts: mostly one-branch writes that would add only easy members.
- Sort orders of listings other than the ready queue and the agents: what follows such a listing is proved for any order.
- The order of board views in a normalised envelope and in a context package, and the snapshot hash: packages are values indexed by board key and id, which makes them independent of every order; SHA-256 is not part of this model.
- NUL-joined keys of board views and reputation records are modelled as pairs or board keys, so namespaces or skills containing NUL are not distinguished from each other in the code alone.
- Payload fields that only repeat ids (hold id, context package id and hash, artifact hash): a `where` path into one of them finds nothing in the model. The field Input of a subtask.
- TransitionSubtask's failing mutate callback, which would change the state without an event: the service's callbacks cannot fail.
- CreateDecision without a block: the service does not call it.
- recordOutcome and reconcileReputation as parts of the service calls: the reputation projection is modelled on its own.
- Errors in the middle of a service call caused by a concurrent writer, other than in mission creation and reconciliation: each service call is one atomic step.
- 64-bit overflow of versions, tokens and amounts, and floating-point rounding: integers are unbounded and scores are reals.
- Condition expressions: parsing, type checking and cost limits of the CEL library; the evaluator's operators are arbitrary functions of their argument values, and a list with an error element is an error. The event logged when a condition exceeds its run-time cost is therefore not modelled either.
- Timer wake-ups of sweepWakes: each is one WakeSubtask call, covered as a store call that the service passes through.
- CapabilityFirst.Score and the reputation cache: the scheduling round is proved for every score function that scores exactly the eligible agents, and for round robin.
- RunSimulation and xorshift64: only the statistics of its report are modelled.
- ServiceLayer.Service.EvalConditionWakes: which registrations wake is only promised while mission ids hold no slash and board keys are not empty, because one board key can otherwise belong to two missions; the service generates the ids of stored missions and checks keys, but does not check the mission that a board write names.
- ConditionSweeps.CelBoardView: the same condition.
- ConditionSweeps.LoadForCondition: the same condition.
- ConditionSweeps.EvalCondition: the same condition, for compiling expressions.
- ConditionSweeps.IncrementalIsFull: mission ids without slash, for the same reason.
- ConditionWakes.SkippedConditionsAreUnchanged: mission ids without slash, for the same reason.
