# Khaos agent: verified models of its stateful kernels

This project models the parts of the Khaos agent whose safety rests on state
kept over many calls, and proves what every run of them keeps.
`dafny verify dfyconfig.toml` checks the whole project.

| files | what they model |
|---|---|
| `ApprovalState`, `ApprovalRuns`, `ApprovalInvariants`, `ApprovalTheorems`, `ApprovalQuotas`, `ApprovalWaiters`, `ApprovalAnswers`, `ApprovalBroker` | the broker of one-shot tool approvals: every lock-held region is one step, the gap inside `wait` is open to all other steps, and any number of waiters may time out, be cancelled or be abandoned |
| `OperationLedger` | approvals of destructive operations and the normalisation of their bindings |
| `RateLimiter`, `RateRuns`, `RateExact` | token buckets and the bounded table of buckets per key |
| `InstanceLock` | the flock protocol of the server, any number of processes, and the fail-stop teardown |
| `TurnEvents` | the turn coordinator over a compare-and-set event log |
| `Reachability` | the worklist of the production import inventory and its gate |
| `GoBlanker`, `GoPieces` | blanking comments and literals of Go source in place |
| `ConfigLayers`, `ConfigPaths`, `ConfigNested` | layered configuration, provenance, fields a project may not set, nested assignment |
| `ContextCompressor` | context compression and its circuit breaker |
| `InstructionCache` | the content-keyed cache of project instructions |
| `Base64Url`, `BrowserSession` | the signed browser session cookie |
| `Core` | options, decimals, splitting |

Each stateful component comes twice: as functions on values, one per step, and
as a class whose methods update fields in place and are proved to compute those
functions. The theorems over whole runs are about the functions. Times are
numbers read once per step and do not run backwards, except that a sweep of the
approval broker reads the clock before it has the lock. SHA-256 and the keyed
hash of the session cookie are taken to be injective.

Several things hold only under a condition, and the condition is proved to be
exact:

- A blocked waiter can be left behind on an evicted approval: `wait` drops the
  pending future by digest, so a waiter that finishes takes it away from any
  other waiter of the same digest (`ReachableIffNeverCrowded`; `StrandedWaiter`
  is the run). The comment on the sweep in `python/khaos/agent/approval.py` says
  that a future removed without being resolved would hang its waiter and that
  the sweep prevents this; the model follows the code, where the last region of
  `wait` removes one that way.
- A rate-limited key keeps its window bound only in reject mode and only if a
  pruned bucket had the time to fill up (`BoundsEveryKeyIff`; `TwoBursts` and
  `EvictionResets` are the runs). In a table of one key that time is twice the
  idle time.
- Two servers stay apart only while the lock path is bound to the file of every
  process that runs or is starting (`StaysExclusiveIff`;
  `UnlinkedLockRun` is the run).
- Blanking moves no character but, against its description, loses a newline
  after a backslash in a literal (`NewlinesKeptIff`; `EscapedNewlineIsLost` is
  the text).
- The prefix test of forbidden project fields does not see the items of a list
  that stands for a forbidden mapping (`PrefixHitsIff`; `ListSlipsThrough` is the
  configuration).
- Provenance is kept by dotted text, so a user key with a dot in it can claim a
  leaf of the project (`ProvenanceIsRightIff`; `DottedKeyTakesProvenance` is the
  configuration).
- Compression keeps every tool message unless its token counter raises on the
  local summary (`EveryLevelKeeps`; `LastResortLosesATool` is the input).

## Model

| member | source | states |
|---|---|---|
| `ApprovalBroker.ApprovalBroker.constructor` | python/khaos/agent/approval.py:439-481 | a new broker has no record, no pending future and the two quotas it was given |
| `ApprovalBroker.ApprovalBroker.FindToolApproval` | python/khaos/agent/approval.py:639-661 | the scan returns a record exactly when it is the only one that matches digest, tool call and, if given, principal and session |
| `ApprovalBroker.ApprovalBroker.RegisterToolApproval` | python/khaos/agent/approval.py:590-637 | the in-place registration computes the specification step: old identity for a known digest, refusal at either quota, otherwise one new undecided record; digests stay distinct |
| `ApprovalBroker.ApprovalBroker.WaitEnter` | python/khaos/agent/approval.py:670-690 | the first region of `wait` computes its specification step, including joining or opening the pending future |
| `ApprovalBroker.ApprovalBroker.WaitTimeout` | python/khaos/agent/approval.py:694-701 | the timeout handler marks the record used and changes nothing else |
| `ApprovalBroker.ApprovalBroker.WaitFinish` | python/khaos/agent/approval.py:702-709 | the last region drops the pending future of the record found and marks it used |
| `ApprovalBroker.ApprovalBroker.Resolve` | python/khaos/agent/approval.py:711-746 | the in-place resolution computes its specification step, with the answer false when the future is already done although the decision was stored |
| `ApprovalBroker.ApprovalBroker.ConsumeForDispatch` | python/khaos/agent/approval.py:748-791 | the in-place consumption computes its specification step, with a differing stored decision marking the record used |
| `ApprovalBroker.ApprovalBroker.ConsumeTaskDecisionAndCommit` | python/khaos/agent/approval.py:793-837 | the in-place task commit computes its specification step, for both answers of the commit callback |
| `ApprovalBroker.ApprovalBroker.Evict` | python/khaos/agent/approval.py:560-566 | dropping one record also drops its pending future and resolves it with a denial if it was unresolved |
| `ApprovalBroker.ApprovalBroker.SweepExpired` | python/khaos/agent/approval.py:553-567 | evicting one by one equals evicting the stale set at once, the waiters of evicted records are woken with a denial, and the count is the number of records gone |
| `ApprovalInvariants.FindIsTheMatch` | python/khaos/agent/approval.py:639-661 | with distinct digests the exactly-one-match scan finds a record if and only if that record matches |
| `ApprovalInvariants.StepKeeps` | python/khaos/agent/approval.py:524-837 | every step of every kind keeps the invariant (distinct digests, pending futures owned by live records, resolved futures carrying the decision of their record, waiters tied to their registration), and lets records and futures only evolve forward |
| `ApprovalInvariants.StepSource` | python/khaos/agent/approval.py:663-837 | an approved future or an unused stored decision that is new after a step was put there by a resolution or a successful task commit of that step, in the name of the binding and before it expires |
| `ApprovalTheorems.RunInv` | python/khaos/agent/approval.py:524-837 | the invariant holds in every state of every interleaving |
| `ApprovalTheorems.RecordEvolves` | python/khaos/agent/approval.py:711-837 | between any two states of a run a stored decision never changes and `used` and `dispatched` never go back |
| `ApprovalTheorems.FutureStays` | python/khaos/agent/approval.py:688-709 | a future is resolved or cancelled at most once |
| `ApprovalTheorems.GoAheadIsBound` | python/khaos/agent/approval.py:748-837 | a caller told to go ahead names the bound principal, session, tool call and digest in time, the record moves to dispatched, and the decision acted on is exactly the stored one |
| `ApprovalTheorems.DispatchAnswersStored` | python/khaos/agent/approval.py:764-791 | a dispatch that moves a record, approving or rejecting, names it in time and answers exactly the decision the record then holds |
| `ApprovalTheorems.DispatchAnswersIff` | python/khaos/agent/approval.py:764-791 | a dispatch is told to go ahead if and only if it asks for an approval and names a live unexpired record that was not dispatched and holds no other decision |
| `ApprovalTheorems.CommitAnswersIff` | python/khaos/agent/approval.py:810-837 | a task commit succeeds if and only if its callback committed and it names a live unexpired record that is unused, undispatched and undecided |
| `ApprovalTheorems.ResolveAnswersIff` | python/khaos/agent/approval.py:721-746 | a resolution answers true if and only if it names a live unexpired unused undecided record whose pending future, if any, is not done, and that future then carries the decision |
| `ApprovalTheorems.DispatchedAtMostOnce` | python/khaos/agent/approval.py:748-837 | in every run each approval identity is dispatched at most once across both dispatch paths |
| `ApprovalTheorems.GoAheadAtMostOnce` | python/khaos/agent/approval.py:748-837 | two calls that were both told to go ahead were about two different approvals, and with one digest the first of them is gone by then |
| `ApprovalTheorems.WaitApprovedOnlyIfDecided` | python/khaos/agent/approval.py:663-746 | in every run `wait` reports approval only of what an earlier resolution or successful task commit approved under the bound principal, session and digest, in time |
| `ApprovalTheorems.RejectionIsFinal` | python/khaos/agent/approval.py:711-837 | a record that ever holds a rejection is never observed approved and is dispatched with that rejection only |
| `ApprovalTheorems.NothingApprovedAroundFailedCommit` | python/khaos/agent/approval.py:793-837 | before and after a failed task commit no waiter ever observes approval of its record and nobody else dispatches it |
| `ApprovalTheorems.WrittenOnce` | python/khaos/agent/approval.py:711-837 | the decision of a record is written in at most one step of a run |
| `ApprovalTheorems.EvictionEndsApproval` | python/khaos/agent/approval.py:553-567 | after an eviction no dispatch and no new `wait` yields approval of the record, and a waiter is told approval only if its future already carried it before the eviction |
| `ApprovalAnswers.EnterAnswersIff` | python/khaos/agent/approval.py:670-690 | exactly when `wait` answers at once and with what: with d if and only if a live, unexpired, unused record of that tool call and digest holds d, or d is the denial and there is no such record; it waits if and only if that record is undecided |
| `ApprovalAnswers.EnterLeaves` | python/khaos/agent/approval.py:681-690 | an immediate answer spends the record and nothing else; otherwise the caller waits on the future then pending for the record, the one pending before if there was one |
| `ApprovalAnswers.LeavingSpends` | python/khaos/agent/approval.py:694-709 | a caller that times out is denied and spends the record of its digest, and the last region spends it and drops its pending future |
| `ApprovalAnswers.CancelReaches` | python/khaos/agent/approval.py:692 | a cancelled caller raises, and takes an unresolved future with it if and only if it gave no timeout |
| `ApprovalAnswers.DecidedIsObserved` | python/khaos/agent/approval.py:663-746 | in every run the next timely `wait` on a resolved approval observes exactly the decision, if no step between is about its digest or evicts it |
| `ApprovalAnswers.WaiterIsTold` | python/khaos/agent/approval.py:691-693 | in every run a reachable caller blocked when its approval is decided is told exactly that decision when it wakes |
| `ApprovalAnswers.DispatchLeaves` | python/khaos/agent/approval.py:764-791 | what a dispatch answers and leaves for the live unexpired record it names: already dispatched, fitting, or decided otherwise |
| `ApprovalAnswers.DispatchOfNothing` | python/khaos/agent/approval.py:771-779 | a dispatch that names no live unexpired record is denied and changes nothing |
| `ApprovalAnswers.CommitLeaves` | python/khaos/agent/approval.py:810-837 | a task commit consumes the undecided record it names whatever its callback answers, and tells the waiter if and only if it committed |
| `ApprovalAnswers.SweepLeavesIff` | python/khaos/agent/approval.py:555-560 | a record survives a sweep if and only if it is unused and not older than the time to live, and then unchanged |
| `ApprovalQuotas.RegisterOutcome` | python/khaos/agent/approval.py:590-637 | registering a live binding again returns its identity and changes nothing; otherwise exactly one of quota refusal and a new undecided record happens |
| `ApprovalAnswers.RegisterAnswersIff` | python/khaos/agent/approval.py:604-637 | a new binding is refused if and only if the unused unexpired records of its session or of its turn have reached their quota, and otherwise stored with every field as given |
| `ApprovalQuotas.RunWithinQuotas` | python/khaos/agent/approval.py:604-628 | in every reachable state and at every later clock value the unused unexpired records stay within the session quota and the turn quota |
| `ApprovalQuotas.BindingsAreIsolated` | python/khaos/agent/approval.py:663-837 | a wait, resolve or consume step leaves every record with another digest, its pending future and its futures unchanged, even under one tool call id |
| `ApprovalWaiters.FinishKeepsReachable` | python/khaos/agent/approval.py:702-709 | a finishing waiter keeps all blocked waiters reachable if and only if none of them blocks on its digest |
| `ApprovalWaiters.SweepWakes` | python/khaos/agent/approval.py:553-567 | a sweep that evicts the record of a reachable waiter resolves its future with a denial, and otherwise leaves it blocked |
| `ApprovalWaiters.StepReachable` | python/khaos/agent/approval.py:524-837 | every step keeps all blocked waiters reachable if and only if it is not a finish next to another waiter of the same digest |
| `ApprovalWaiters.ReachableIffNeverCrowded` | python/khaos/agent/approval.py:663-709 | over whole runs: nobody is ever left behind if and only if no waiter ever finished while another one blocked on its digest |
| `ApprovalWaiters.LoneWaitersAreReachable` | python/khaos/agent/approval.py:663-709 | with one waiter at a time per digest every blocked waiter stays reachable in every run |
| `ApprovalWaiters.DetachedForever` | python/khaos/agent/approval.py:688-709 | a future that no record has pending never carries a decision again |
| `ApprovalWaiters.StrandedWaiter` | python/khaos/agent/approval.py:524-709 | a concrete run of six steps that leaves a caller without timeout blocked forever on an evicted record |
| `OperationLedger.NormalizeIsNormal` | python/khaos/agent/approval.py:1156-1193 | a normalised binding has its three parties as non-empty texts, all required fields, both digests and no expiry |
| `OperationLedger.NormalizeIdempotent` | python/khaos/agent/approval.py:1156-1193 | normalising twice is normalising once |
| `OperationLedger.NormalizeIgnoresExpiry` | python/khaos/agent/approval.py:1156-1193 | bindings that differ at most in their expiry normalise alike |
| `OperationLedger.NormalizeAccepts` | python/khaos/agent/approval.py:1156-1193 | a binding is refused if and only if neither session nor requester is given, or task, workspace or operation is missing |
| `OperationLedger.NormalizeParties` | python/khaos/agent/approval.py:1156-1193 | session and requester stand in for one another and the session for a principal not given |
| `OperationLedger.NormalizeKeeps` | python/khaos/agent/approval.py:1156-1193 | the expiry is dropped and every field but the parties and the two digests stays as it was |
| `OperationLedger.NormalizeDigests` | python/khaos/agent/approval.py:1156-1193 | the two digests are kept if given and else computed over exactly the named fields |
| `OperationLedger.RegisterAnswersIff` | python/khaos/agent/approval.py:839-852 | a registration raises if and only if its binding does not normalise, and otherwise replaces what the identity had |
| `OperationLedger.ApproveAnswersIff` | python/khaos/agent/approval.py:893-904 | an approval succeeds if and only if the entry is unused, unexpired and of that session and principal, and changes nothing else |
| `OperationLedger.ConsumeAnswersIff` | python/khaos/agent/approval.py:906-928 | exactly when a consumption raises, succeeds and spends the entry |
| `OperationLedger.CancelLeaves` | python/khaos/agent/approval.py:930-935 | cancelling spends the entry if there is one |
| `OperationLedger.SweepLeavesIff` | python/khaos/agent/approval.py:581-587 | an entry survives a sweep if and only if it is unused and unexpired, and then unchanged |
| `OperationLedger.EveryAttemptIsOneShot` | python/khaos/agent/approval.py:906-928 | after one normalisable attempt every later one fails until the identity is registered again |
| `OperationLedger.ConsumedOnlyIfApproved` | python/khaos/agent/approval.py:839-928 | every success names one registration, approved later by its own session and principal in time, and presents an equal normalised binding before expiry |
| `OperationLedger.ConsumedAtMostOnce` | python/khaos/agent/approval.py:906-928 | between two successes for one identity there is a new registration |
| `OperationLedger.CancelIsFinal` | python/khaos/agent/approval.py:930-939 | a cancelled registration is never consumed |
| `OperationLedger.ApprovedIsConsumed` | python/khaos/agent/approval.py:839-928 | a registration approved in its own name is consumed by the first attempt that presents an equal normalised binding in time, whatever else the ledger did in between |
| `OperationLedger.Ledger.RegisterOperation` | python/khaos/agent/approval.py:839-852 | the in-place registration computes the ledger step, and a refused binding touches nothing |
| `OperationLedger.Ledger.ApproveOperation` | python/khaos/agent/approval.py:893-904 | the in-place approval computes the ledger step |
| `OperationLedger.Ledger.ConsumeOperation` | python/khaos/agent/approval.py:906-928 | the in-place consumption computes the ledger step: any normalisable attempt on an unused entry marks it used |
| `OperationLedger.Ledger.CancelOperation` | python/khaos/agent/approval.py:930-935 | cancelling marks the entry used if there is one |
| `OperationLedger.Ledger.SweepOperations` | python/khaos/agent/approval.py:581-587 | removing one by one leaves exactly the unused unexpired entries and counts the rest |
| `RateLimiter.TakeKeepsBucket` | go/internal/rate/limiter.go:126-142 | tokens stay between zero and the burst, and a refill never loses tokens below the cap |
| `RateRuns.PacedCallerPasses` | go/internal/rate/limiter.go:126-142 | in every run of one bucket a call that leaves time for one token since the reading before it passes |
| `RateLimiter.TokenBucket.constructor` | go/internal/rate/limiter.go:110-123 | a new bucket is full, with both settings falling back to their defaults when not positive |
| `RateLimiter.TokenBucket.Allow` | go/internal/rate/limiter.go:126-142 | the in-place refill and take computes the bucket function |
| `RateLimiter.KeyedBuckets.constructor` | go/internal/rate/limiter.go:51-69 | a new table is empty and has all four settings with their defaults |
| `RateLimiter.KeyedBuckets.Prune` | go/internal/rate/limiter.go:81-85 | the deletion loop leaves exactly the entries that are not idle |
| `RateLimiter.KeyedBuckets.FindOldest` | go/internal/rate/limiter.go:92-98 | the scan finds an entry nobody was seen before |
| `RateLimiter.KeyedBuckets.Allow` | go/internal/rate/limiter.go:72-107 | the in-place call is one of the steps the table relation allows, and the table stays within its bound |
| `RateRuns.RunKeepsBucket` | go/internal/rate/limiter.go:126-142 | in every run of one bucket the tokens stay between zero and the burst |
| `RateRuns.WindowBound` | go/internal/rate/limiter.go:126-142 | in every window of every run of one bucket at most burst plus rate times length calls pass |
| `RateRuns.PassesIff` | go/internal/rate/limiter.go:126-142 | in every run of one bucket a call passes if and only if it breaks the bound of no window that ends with it |
| `RateRuns.ConfigDefaults` | go/internal/rate/limiter.go:51-69 | settings that are not positive fall back to 60 a minute, a burst of 10, 4096 keys and ten minutes |
| `RateRuns.EmptyKeyIsUnknown` | go/internal/rate/limiter.go:73-75 | a call without a key is one on the key unknown |
| `RateRuns.CallLeaves` | go/internal/rate/limiter.go:72-107 | exactly which keys a call leaves, each as it was, and that it takes from the bucket of its key: nothing goes while there is room or the key is known, otherwise all idle keys go, and then the call is refused or the key longest not seen goes |
| `RateRuns.TableIsBounded` | go/internal/rate/limiter.go:72-107 | in every run, in either mode, the table holds at most maxKeys entries |
| `RateRuns.BoundedRefinesUnbounded` | go/internal/rate/limiter.go:72-107 | in reject mode with a long enough idle time the pruning table answers every admitted call as a table that never drops a bucket |
| `RateRuns.KeyWindowBound` | go/internal/rate/limiter.go:72-142 | under the same condition every key keeps its window bound across pruning and readmission |
| `RateExact.BoundsEveryKeyIff` | go/internal/rate/limiter.go:51-142 | for every configuration of the constructor: all keys are bounded in all windows of all runs if and only if new keys are rejected and a pruned bucket has had the time to fill up before it can be made anew |
| `RateExact.TwoBursts` | go/internal/rate/limiter.go:79-102 | whatever the configuration, a key that was pruned passes a second whole burst at its return |
| `RateExact.EvictionResets` | go/internal/rate/limiter.go:91-102 | in the evicting mode two whole bursts of one key pass at one instant |
| `InstanceLock.StepKeepsInv` | python/khaos/grpc_server.py:258-376 | every step of every process keeps: no two locks on one inode, nothing running before the check after the flock or after the lock is given up, and layers brought down in order |
| `InstanceLock.StepKeepsPath` | python/khaos/grpc_server.py:335-368 | a step keeps the path at the file of every holder if and only if it is not a rebinding away from one |
| `InstanceLock.SingleInstance` | python/khaos/grpc_server.py:258-376 | for any number of processes in any interleaving, unless the path is moved from under a holder, no two have a running service or an open database at once |
| `InstanceLock.TeardownIsFailStop` | python/khaos/grpc_server.py:1382-1457 | in every reachable world no shared layer is down under a live owner, and whoever released the lock or exited has nothing running |
| `InstanceLock.RetainedUntilExit` | python/khaos/grpc_server.py:1440-1457 | a process whose teardown failed keeps its lock and its services as they are until it exits |
| `InstanceLock.RetainedLocksOthersOut` | python/khaos/grpc_server.py:1440-1457 | another process gets past the lock only once the retaining one has exited |
| `InstanceLock.DisturbedPathAdmitsSecond` | python/khaos/grpc_server.py:335-368 | from any world that keeps the invariant, with an active holder whose file is not at the path, bound elsewhere or unlinked, some quiet steps bring a second active process up next to it |
| `InstanceLock.StaysExclusiveIff` | python/khaos/grpc_server.py:258-376 | a world admits no quiet continuation with two active processes if and only if the path is bound to the file of every process that runs or is starting |
| `InstanceLock.UnlinkedLockRun` | python/khaos/grpc_server.py:258-376 | a run from the empty world: a server starts, its lock file is unlinked, and a second server is active next to it |
| `InstanceLock.RebindEndsExclusionIff` | python/khaos/grpc_server.py:335-368 | a rebinding of the path keeps exclusion if and only if it leaves the path at the file of every process that runs or is starting |
| `InstanceLock.TearDownOutcome` | python/khaos/grpc_server.py:445-567 | cleanup succeeds if and only if every existing service can be stopped, and otherwise the failing layer and all below it are left as they were |
| `InstanceLock.CleanupBySteps` | python/khaos/grpc_server.py:445-567 | the stops of an emergency cleanup lead the protocol to released or retained just as the cleanup function says |
| `InstanceLock.FailureCleansUp` | python/khaos/grpc_server.py:1424-1457 | after a failed start, a failed startup, handlers that do not drain or a failed regular stop, the emergency cleanup of all layers leads to released or retained exactly as it comes out |
| `InstanceLock.TeardownBySteps` | python/khaos/grpc_server.py:1382-1457 | a regular teardown from any layer leads to released, or through the emergency cleanup to released or retained, exactly as the two come out |
| `InstanceLock.ShutdownBySteps` | python/khaos/grpc_server.py:1341-1457 | the same for a server that stops serving, drained or not |
| `InstanceLock.StartupBySteps` | python/khaos/grpc_server.py:709-836 | a process that holds the lock can start the database, the agent, maintenance and the subagent service in that order and serve |
| `InstanceLock.RetainedAfterEmergency` | python/khaos/grpc_server.py:1424-1457 | in every run a process retains its lock only after a stop of its own emergency cleanup failed |
| `InstanceLock.OpenedAsSeen` | python/khaos/grpc_server.py:269-318 | in every run a descriptor is of the file at the path when it was opened, and of the file seen before if one was seen |
| `InstanceLock.Server.InnerFinally` | python/khaos/grpc_server.py:1382-1405 | the regular teardown stops at the first failure and completes if and only if every stop succeeds |
| `InstanceLock.Server.ShutDown` | python/khaos/grpc_server.py:1341-1457 | both cleanups in turn give the lock up exactly where the protocol does |
| `InstanceLock.Server.EmergencyInstanceCleanup` | python/khaos/grpc_server.py:445-567 | the flag-driven cleanup computes the fail-stop teardown and leaves the lock alone |
| `InstanceLock.Server.OuterFinally` | python/khaos/grpc_server.py:1406-1457 | the descriptor is given up if and only if the teardown completed, and then nothing runs; otherwise it is parked |
| `TurnEvents.RunKeepsLog` | python/khaos/agent/events.py:84-143 | in every run, with any other writers, each tool result of the durable log answers an earlier open call of this coordinator, completion leaves none open, the terminal lists the open calls, and nothing of its own follows its terminal |
| `TurnEvents.ActiveIsUnmatched` | python/khaos/agent/events.py:84-143 | in every run, whoever else has written, the active set is exactly the unmatched calls of this coordinator in the log until its first late emit |
| `TurnEvents.EmitsIff` | python/khaos/agent/events.py:84-110 | in every run an emit gets through if and only if nobody else has written, no terminal came, a call is named and not open, and a result or approval wait belongs to an open call; then exactly that event is appended, and otherwise the log stays |
| `TurnEvents.RefusesIff` | python/khaos/agent/events.py:87-100 | until its first late emit the coordinator refuses exactly the events that do not fit the log, and changes nothing then |
| `TurnEvents.EmitMoves` | python/khaos/agent/events.py:91-107 | an emit that is not refused moves the active set even if it is late, and the sequence only if it gets through |
| `TurnEvents.EndsIff` | python/khaos/agent/events.py:112-143 | in every run a terminal gets through if and only if nobody else has written, it is the first, its status is known and completion leaves no call open; then it ends the turn with that status and lists the open calls |
| `TurnEvents.TerminalMoves` | python/khaos/agent/events.py:119-140 | a terminal moves the coordinator only if it gets through, and is refused exactly after a terminal or when it completes open calls |
| `TurnEvents.RunEndsOnce` | python/khaos/db/database.py:4910-4962 | in every run nothing follows a terminal event of anybody, and the status of the turn is that of the terminal |
| `TurnEvents.LateForever` | python/khaos/agent/events.py:101-107 | after one append was refused as late, none of the coordinator ever succeeds again |
| `TurnEvents.TerminalIsLast` | python/khaos/agent/events.py:112-143 | after a durable terminal every later emit and terminal is refused |
| `TurnEvents.TurnRepository.AppendEvent` | python/khaos/db/database.py:4910-4962 | the store appends exactly when the turn is running and the expected sequence is the current one, and an invalid terminal status changes nothing |
| `TurnEvents.TurnCoordinator.Emit` | python/khaos/agent/events.py:84-110 | the in-place emit computes its specification step, with the active set already updated when the append fails |
| `TurnEvents.TurnCoordinator.Terminate` | python/khaos/agent/events.py:112-143 | the in-place terminal computes its specification step |
| `Reachability.ReachIsClosedAndLeast` | scripts/generate_production_reachability.py:204-224 | a closed set that holds the roots and has a path to each member is exactly the reachable set and the least closed one |
| `Reachability.Visit` | scripts/generate_production_reachability.py:209-223 | one turn of the worklist keeps its invariant and makes progress |
| `Reachability.BuildGraph` | scripts/generate_production_reachability.py:204-224 | on every finite module table the worklist ends with exactly the modules an import path from a root reaches, and each contributes its edges and unresolved imports once |
| `Reachability.EdgesOfMember` | scripts/generate_production_reachability.py:218-219 | the edges gathered are exactly those of the visited modules that load |
| `Reachability.UnresolvedOfMember` | scripts/generate_production_reachability.py:215-220 | what is reported as unresolved is exactly the visited modules that do not load and the unresolved imports of those that do |
| `Reachability.ForbiddenEdges` | scripts/generate_production_reachability.py:227-236 | the findings are exactly the forbidden modules seen and the edges to a forbidden module or symbol |
| `Reachability.Gate` | scripts/generate_production_reachability.py:204-236 | the gate is clean if and only if no import path from a root reaches a forbidden module and no reachable module imports a forbidden module or symbol |
| `GoBlanker.LineComment` | scripts/check_privileged_spawn_sites.py:222-228 | the inner loop blanks up to the newline as the mode-based lexer does |
| `GoBlanker.BlockComment` | scripts/check_privileged_spawn_sites.py:229-239 | the inner loop blanks a block comment as the mode-based lexer does, closed or not |
| `GoBlanker.StripCommentsAndStrings` | scripts/check_privileged_spawn_sites.py:213-256 | the index-and-quote scan equals the recursive mode-based lexer on every text |
| `GoBlanker.KeptOrBlank` | scripts/check_privileged_spawn_sites.py:213-256 | every position of the result holds the character of the source or a space |
| `GoBlanker.NewlinesKeptIff` | scripts/check_privileged_spawn_sites.py:213-256 | all newlines stay if and only if no interpreted or rune literal contains a backslash before a newline |
| `GoBlanker.EscapedNewlineIsLost` | scripts/check_privileged_spawn_sites.py:248-251 | a concrete text of four characters loses its newline |
| `GoBlanker.BlankIsPlain` | scripts/check_privileged_spawn_sites.py:213-256 | the result holds no quote and no comment opener |
| `GoBlanker.StripIdempotent` | scripts/check_privileged_spawn_sites.py:213-256 | blanking twice is blanking once |
| `GoBlanker.StripChangesIff` | scripts/check_privileged_spawn_sites.py:213-256 | blanking changes a text if and only if it holds a quote or a comment opener |
| `GoPieces.PiecesBlanked` | scripts/check_privileged_spawn_sites.py:213-256 | read as a row of code characters, comments, raw, interpreted and rune literals, closed or not, the text comes out with exactly the comments and literals blanked |
| `GoPieces.EveryTextIsPieces` | scripts/check_privileged_spawn_sites.py:213-256 | every text is such a row, so that is what blanking does to every text |
| `ConfigLayers.MergeLeaf` | python/khaos/config.py:1110-1118 | each leaf of the merge is the leaf of the override where the override decides and of the base elsewhere |
| `ConfigLayers.LeafOverrides` | python/khaos/config.py:1110-1118 | a leaf of the override always decides |
| `ConfigLayers.OverridesIff` | python/khaos/config.py:1110-1118 | the override decides a place if and only if it has something on the way there that is not a mapping against a mapping |
| `ConfigLayers.DeepMerge` | python/khaos/config.py:1110-1118 | filling the copied mapping entry by entry computes the recursive merge |
| `ConfigPaths.WalkFinds` | python/khaos/config.py:394-404 | every leaf is walked under its dotted path |
| `ConfigPaths.WalkIsLeaf` | python/khaos/config.py:394-404 | everything walked is a leaf at a path with that dotted text |
| `ConfigPaths.RenderInjective` | python/khaos/config.py:394-404 | with keys free of path punctuation two paths with one dotted text are one path |
| `ConfigPaths.ExpandLeaf` | python/khaos/config.py:188-202 | expansion keeps the shape and expands each text leaf |
| `ConfigPaths.PrefixHitsIff` | python/khaos/config.py:368-371 | whatever the keys, the prefix test hits a path that extends a forbidden one if and only if it goes on with a mapping key |
| `ConfigPaths.CleanPrefixHitsIff` | python/khaos/config.py:368-371 | on paths of keys free of punctuation the prefix test hits nothing else |
| `ConfigPaths.EffectiveValue` | python/khaos/config.py:272-277 | whatever the keys, every effective leaf is the expanded user leaf if the user has one there and the project leaf otherwise |
| `ConfigPaths.ProvenanceIsRightIff` | python/khaos/config.py:278-290 | whatever the keys, the provenance of an effective leaf names the layer it comes from if and only if the user has a leaf there, or has none with the same dotted text |
| `ConfigPaths.EffectiveLeaf` | python/khaos/config.py:257-291 | with keys free of path punctuation every effective leaf has the value and the provenance of its layer |
| `ConfigPaths.DottedKeyTakesProvenance` | python/khaos/config.py:394-413 | a concrete user key with a dot in it takes the provenance of a project leaf |
| `ConfigPaths.UserLeafWins` | python/khaos/config.py:272-277 | no user leaf is lost |
| `ConfigPaths.ProjectLeafStaysIff` | python/khaos/config.py:272-277 | a project leaf stays effective if and only if the user layer has nothing on the way to it that does not merge |
| `ConfigPaths.AcceptedLeaf` | python/khaos/config.py:365-391 | whatever its keys, an accepted project has no leaf at a forbidden field nor below one through a mapping key |
| `ConfigPaths.AcceptsByText` | python/khaos/config.py:365-391 | whatever its keys, a project is accepted if and only if no leaf has a forbidden dotted text and no text mentions a placeholder |
| `ConfigPaths.AcceptsIff` | python/khaos/config.py:365-391 | a project with keys free of punctuation is accepted if and only if no leaf lies at a forbidden field or below one through a mapping key and no text mentions a placeholder |
| `ConfigPaths.NoForbiddenProjectLeaf` | python/khaos/config.py:257-291 | whatever the keys, an effective leaf at a forbidden field, or below one through a mapping key, is the expanded user leaf and has user provenance |
| `ConfigPaths.ListSlipsThrough` | python/khaos/config.py:365-404 | a project that replaces a forbidden mapping by a list is accepted, and its items are effective with project provenance |
| `ConfigPaths.PartsOfKey` | python/khaos/config.py:1123-1125 | the parts of a dotted key: none for the empty key, itself for a key without a dot, and those of both sides around any dot |
| `ConfigPaths.BlockedIff` | python/khaos/config.py:1127-1130 | a set is blocked if and only if some value on the way is no mapping |
| `ConfigPaths.PutLeaf` | python/khaos/config.py:1121-1132 | a successful set changes exactly the leaves at and below its path |
| `ConfigPaths.SetNestedRaises` | python/khaos/config.py:1121-1132 | setting raises if and only if the key is empty or a part before the last names something that is no mapping, and then the mapping is unchanged |
| `ConfigNested.Dict.SetNestedValue` | python/khaos/config.py:1121-1132 | the walk that updates nested mapping objects in place computes the set on values, for texts, lists and mapping objects, and a raise leaves the tree as it was |
| `ContextCompressor.CollapseIsSummary` | python/khaos/agent/compressor.py:167-187 | on what a call passes to it, the second partition of the local collapse finds no tool message, so the collapse is one summary of everything, or raises if and only if the counter raises on the summary |
| `ContextCompressor.TotalCounterNeverFallsBack` | python/khaos/agent/compressor.py:123-148 | with a total token counter the last-resort fallback is unreachable and only the circuit breaker raises |
| `ContextCompressor.ResultIs` | python/khaos/agent/compressor.py:58-148 | exactly which level, messages and replaced count a call gives: truncation within the threshold, the summary of the model beyond one and a half times it, else the local summary, else the last resort |
| `ContextCompressor.LastResortIs` | python/khaos/agent/compressor.py:135-148 | what the last resort keeps of the middle, and its limit |
| `ContextCompressor.TruncateKeeps` | python/khaos/agent/compressor.py:150-165 | truncation keeps a short message, keeps the beginning of a long one before the notice, and changes nothing else |
| `ContextCompressor.ResultShape` | python/khaos/agent/compressor.py:58-134 | every result other than the last resort is the system messages, the protected ones, a middle free of both, and the recent ones, with the replaced count of its level |
| `ContextCompressor.ResultCounts` | python/khaos/agent/compressor.py:266-283 | counting the tokens of an assembled result cannot raise once those of its summary counted |
| `ContextCompressor.EveryLevelKeeps` | python/khaos/agent/compressor.py:58-148 | every result keeps all system and structured-fact messages and the last four others unchanged and in order, and all tool calls and results if and only if it is no last resort, or one with at most one short tool message in the middle |
| `ContextCompressor.KeptMessages` | python/khaos/agent/compressor.py:228-261 | no system message, structured fact, tool call or tool result is lost but in the last resort |
| `ContextCompressor.LastResortLosesATool` | python/khaos/agent/compressor.py:135-148 | with a counter that raises on the local summary, of any two tool messages in the middle the second is lost |
| `ContextCompressor.TotalCounterKeeps` | python/khaos/agent/compressor.py:58-148 | with a total token counter every result keeps all tool calls and results |
| `ContextCompressor.ResultLength` | python/khaos/agent/compressor.py:58-148 | the result has the length of the input less the collapsed messages plus one summary if there were any, and the last resort leaves one message of the middle |
| `ContextCompressor.CircuitOpensIff` | python/khaos/agent/compressor.py:97-121 | over every run of calls the circuit is open if and only if three model failures came without a success between them, and it never closes again |
| `ContextCompressor.RaisesIffTripped` | python/khaos/agent/compressor.py:60-121 | over every run of calls a call raises for the open circuit if and only if three model failures without a success between them have happened by its end |
| `ContextCompressor.Compressor.PartitionToolPairs` | python/khaos/agent/compressor.py:246-261 | the two loops split a list into the protected messages and the rest, each in order |
| `ContextCompressor.Compressor.CollapseAll` | python/khaos/agent/compressor.py:167-187 | the local collapse computes its specification, with the second partition and the raising counter |
| `ContextCompressor.Compressor.Level1` | python/khaos/agent/compressor.py:123-148 | the deterministic level and its fallback compute their specification |
| `ContextCompressor.Compressor.CompressCall` | python/khaos/agent/compressor.py:58-148 | the call that updates the failure counter computes the specification of one call, with every exception |
| `InstructionCache.MatchesOne` | python/khaos/project_context.py:252-256 | one name finds the readable file of that name in the directory, if there is one |
| `InstructionCache.MatchesAppend` | python/khaos/project_context.py:252-256 | names are tried in order |
| `InstructionCache.RootContextIs` | python/khaos/project_context.py:245-262 | the root context is that of the nearest directory at or above with any instruction file, not beyond home, and empty if there is none |
| `InstructionCache.BelowIs` | python/khaos/project_context.py:195-202 | the directories below the root go one component deeper each, up to the target or the first that is a file |
| `InstructionCache.ChainHasIff` | python/khaos/project_context.py:203-209 | a record is in the chain if and only if a directory of it has that file and the root context does not |
| `InstructionCache.ChainIsOnTheWay` | python/khaos/project_context.py:172-179 | every instruction of the chain lies between the project root and the target, so none leaks in from beside |
| `InstructionCache.AddNewCombines` | python/khaos/project_context.py:203-212 | the texts are those of the root context and then every other text once, in the order in which they first come |
| `InstructionCache.JoinLaws` | python/khaos/project_context.py:213 | texts are joined by an empty line |
| `InstructionCache.ChainIsBelow` | python/khaos/project_context.py:195-212 | no record of the chain lies at the root level or above, so the root part of the records can be told apart |
| `InstructionCache.RecordsDetermineText` | python/khaos/project_context.py:225-243 | the resolved text is a function of the recorded path and content pairs alone, whatever the files were |
| `InstructionCache.ProjectContextLoader.FindRootContextFiles` | python/khaos/project_context.py:245-262 | the upward walk returns the files of the nearest directory that has any, up to the home directory or the filesystem root |
| `InstructionCache.ProjectContextLoader.Directories` | python/khaos/project_context.py:195-202 | the component loop lists the directories from the root to the target, stopping at a file |
| `InstructionCache.ProjectContextLoader.Collect` | python/khaos/project_context.py:203-212 | the nested loops record every instruction file of the chain and keep each text once |
| `InstructionCache.ProjectContextLoader.Resolve` | python/khaos/project_context.py:172-223 | every call returns exactly what an uncached resolver would on the files of that call, from any cache left by earlier calls; the cache stays sound and within 128 entries, and its new entries are stated exactly |
| `InstructionCache.ProjectContextLoader.Admit` | python/khaos/project_context.py:219-222 | a miss leaves exactly the newest 127 of the old entries in order, then the new one |
| `InstructionCache.ProjectContextLoader.Remember` | python/khaos/project_context.py:214-223 | a hit returns the text its key stands for; either way the cache is then the other entries in order, the oldest dropped to leave room, and the key last |
| `Base64Url.EncodeRoundTrip` | go/internal/auth/auth.go:157 | decoding undoes unpadded base64url encoding (section 5 of RFC 4648) for every byte string, and no encoded text holds a dot |
| `Base64Url.DecodesIff` | go/internal/auth/auth.go:262 | a text decodes if and only if it holds letters and line breaks only and not one letter over a multiple of four, and what it decodes to encodes to the same letters up to stray bits of the last |
| `BrowserSession.ParsesIntIff` | go/internal/auth/auth.go:241 | exactly the texts that read as a signed 64-bit number: a sign or none, any zeros and its decimal |
| `BrowserSession.ParsesUintIff` | go/internal/auth/auth.go:245 | exactly the texts that read as an unsigned 64-bit number: any zeros and its decimal |
| `BrowserSession.CookieParts` | go/internal/auth/auth.go:151-159 | splitting an issued cookie gives back its five fields, and rejoining four of them gives the signed payload |
| `BrowserSession.AcceptedIff` | go/internal/auth/auth.go:228-264 | an issued cookie is accepted if and only if its expiry second lies ahead within the allowed span and epoch and boot nonce are the current ones |
| `BrowserSession.AcceptsExactly` | go/internal/auth/auth.go:228-264 | any value at all is accepted if and only if it is four dot-free fields, a dot and a text that decodes to the keyed hash of the four joined by dots, with the expiry ahead within the span and the current epoch and boot nonce |
| `BrowserSession.SignatureIsBound` | go/internal/auth/auth.go:257-263 | a signature is accepted on no payload other than the one it was made for, so expiry, epoch, boot nonce and nonce are those it was issued with |
| `BrowserSession.AcceptedUntilRevokedOrExpired` | go/internal/auth/auth.go:77-97 | in every run within one boot a cookie is accepted if and only if no revocation came since it was issued and its expiry second has not come |
| `BrowserSession.NeverAcceptedAfterRestart` | go/internal/auth/auth.go:79-90 | after a restart with a new boot nonce it is never accepted again |
| `BrowserSession.SessionAuthority.RevokeAllSessions` | go/internal/auth/auth.go:95-97 | revoking moves the epoch on by one within 64 bits |
| `BrowserSession.SessionAuthority.SetBrowserSession` | go/internal/auth/auth.go:140-170 | the cookie issued is accepted at every second from issue to its expiry |
| `BrowserSession.SessionAuthority.ValidBrowserSession` | go/internal/auth/auth.go:228-264 | the chain of early returns decides exactly which cookies are accepted |

## Left out

- Binding fields of an approval that no broker branch looks at are one field; the authority context, plan routes and step receipts inside them are not modelled.
- Plan approvals, receipt signing and the plan part of the sweep rest on modules outside this model.
- Operation approvals backed by the database: only the in-memory ledger is modelled, and whether an expiry field reads as a number is a flag.
- The commit callback of a task decision is one answer; it runs under the broker lock, and an exception in it is the answer false.
- ApprovalWaiters.LoneWaitersAreReachable: asks for one waiter at a time per digest, not per approval identity, because `wait` looks records up by digest.
- Rate limiter: tokens and times are reals, not floats; one call reads the clock once and is one step, although the source unlocks the table before it takes from the bucket.
- Instance lock: file modes, ownership and symlink checks are guards that may refuse at any point before the lock is held; the Windows branch, the socket probe and the draining of connection handlers (one outcome) are not modelled further.
- Instance lock: a cancellation during the emergency cleanup, which leaves the descriptor open like a failed one, is not a step of its own.
- Turn store: columns other than status, sequence and events; recovery of turns after a crash is any other writer.
- Import inventory: parsing modules, resolving relative and dynamic imports, sorting of the output and the scan for development flags; the module table is given.
- Spawn-site discovery in Go, Python and Rust around the blanker.
- Configuration: reading and writing YAML, keys that are not strings, the placeholder pattern (a parameter), plaintext-credential and environment-credential rejection.
- ConfigNested.Dict.SetNestedValue: takes the nested mappings to be a tree that shares no object with the value stored, so aliasing between them is not modelled.
- ConfigPaths.AcceptsIff: asks for keys free of dots and brackets, where a dotted text is a place; `AcceptsByText` is the exact condition for all keys.
- ConfigPaths.EffectiveLeaf: its provenance half asks for keys free of dots and brackets; `ProvenanceIsRightIff` is the exact condition for all keys.
- Context compressor: the token counter (which may raise), the truncation notice, the local summary and the answer of the model are parameters; window digests are not modelled; an exception other than one of the token counter or the model is not a step.
- Context compressor: messages are told apart by what they are, not by object identity, which gives the same partition.
- Instruction cache: `load` and `reload`, reading and size limits (a file is readable or not), and the check that a target does not escape the project, whose outcome is given.
- BrowserSession.SessionAuthority.SetBrowserSession: the value only; HTTP cookie attributes, proxy trust, the API-key header and the failure of the random source are not modelled.
- Release gates, evidence scripts, RPC dispatch, HTTP handlers, the WebSocket hub, metrics, the web UI and packaging.
