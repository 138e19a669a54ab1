# Verification of the room lifecycle

This Dafny project models how FailRoom's control plane keeps rooms and sandboxes, and
proves what that protocol guarantees. It covers the state store (`BackendStore`,
`ControlPlaneStore`, the version 4 schema), the Docker cleanup worker, the lifecycle
orchestrator, recovery verification and maintenance, and five smaller parts with hard
arithmetic or round trips: input frames, terminal capabilities, CPU limits, the lifetime
of PID 1, and terminal slots. `dafny verify dfyconfig.toml` checks all of it.

## How it is modelled

- **Store.** A database is a value of five finite maps (`Records.Db`). Every store call is
  one atomic step: a function from the old state, its arguments, its clock reading and its
  fresh identifiers to an outcome (`Done` commits and answers, `Denied` commits a stop and
  raises, `Refused` rolls back). `Schema` holds the CHECK, UNIQUE, foreign key and trigger
  conditions; a statement that violates one ends its call with STORE_FAILURE. The functions
  are in `Backend` and `ControlPlane`.
- **Objects.** `Storage.Database` has the five maps as fields and a method for each
  statement; `BackendStorage.BackendStore` and `ControlPlaneStorage.ControlPlaneStore` have
  a method for each store method, with its early returns, loops and rollback. Each method is
  proved to leave the state and give the answer of its function.
- **Runs.** `Runs` makes calls values, and a run any interleaving of them. A run is legal if
  identifiers drawn at random are new when they are drawn, and a STARTING step does not name
  a container that is recorded for another sandbox. Nothing else is assumed about clock
  readings, runtime answers, callers or their order. The invariant (`Invariant`, `Log`,
  `Ledger`, `Access`, `Reachable`) is kept by every call; `Theorems`, `Deadline`,
  `Idempotence` and `Guarantees` draw the conclusions.
- **Outcomes.** The modules named `...Outcomes` say of each operation when it succeeds, what
  it then leaves, row by row, and which error every other case gives:
  `BackendOutcomes`, `ControlOutcomes` and `ReconcileOutcomes` of the store calls with an
  unused key, `Replays` with a used one, `CapabilityOutcomes` of the codec, `WorkerOutcomes`
  and `MaintenanceOutcomes` of the cleanup worker. `MaintenanceLaws` joins them for a whole
  maintenance pass.
- **Programs of several transactions.** `Worlds` adds a schedule: before each access any
  calls of other clients take effect, the access may find the store busy, the clock and the
  runtime answer anything. A crash is a store that is busy from some access on, so a statement
  about all schedules holds at every crash point. `Worker`, `Provisioning`, `Recovery` and
  `Maintenance` are such programs, `Turns` is any of them access by access; `Site`, `CleanupWorker` and `LifecycleServices` are the
  same programs as objects with loops and counters on the shared stores.
- **Keys.** A derived key (a SHA-256 over an action, a tuple and a version) is a structured
  value, so that distinct inputs give distinct keys. Where a proof needs it, other callers are
  taken to use derived keys only for the requests they are derived from (`Keys.Honest`).
  Request fingerprints are the requests themselves.

Where the code and a natural expectation part, the model follows the code: the worker
subtracts pending finalizations that cannot finish yet from its limit, so cleanup is only
bound to progress when the limit has room for all work (`CleanupTermination`,
`FreshPasses`, `LimitBlocks`); two provisionings that overlap may both reach the runtime if
and only if they share services and key, and a later one never does (`Overlap`); two cleanup
workers with the same digest are both answered with the one step to DESTROYED; recovery
resolves from every pair of states but a READY attempt with a RESOLVED sandbox; a reset that
was accepted under another key than the resuming one starves every reset listed after it
(`Resumption`); a planned sleep of more than ten digits would fail its own verification; and
input frames are accepted for small limits exactly when every character fits a frame.

## Model

| member | source | states |
|---|---|---|
| Preservation.CallIsSound | packages/state-store/failroom_state/schema.py:126-252 | From any sound state and with fresh identifiers no INSERT or UPDATE of any call violates a CHECK, UNIQUE or foreign key constraint or fires an immutability trigger; the committed state is sound and every row is the same or a later version of itself |
| Reachable.CallKeepsInvariant | packages/state-store/failroom_state/database.py:361-391 | Every store call, whether it commits, commits a denial or rolls back, keeps the whole invariant (rows, log, cleanup ledger, capability records, resets), and rows, log and records only grow |
| Reachable.RunKeepsInvariant | packages/state-store/failroom_state/database.py:361-391 | The same over any interleaving of calls of any number of users and services |
| Ledger.CallKeepsLedger | packages/state-store/failroom_state/control_plane.py:329-335 | Every call keeps the ledger of cleanup operations exact: one per sandbox, finished exactly when the resource is destroyed, retries counted exactly |
| Access.CallKeepsAccess | packages/state-store/failroom_state/backend.py:606-661 | Every call keeps consumed capabilities and leases single, bounded and as once recorded |
| Log.CallAppends | packages/state-store/failroom_state/common.py:187-218 | Every call leaves earlier receipts alone, and each new receipt is a true witness of the row it names: a version-checked step names a version that its row has left behind |
| Effects.BackendOwnsItsRows | packages/state-store/failroom_state/backend.py:63-661 | BackendStore never writes a resource row, a lease or a cleanup operation |
| Theorems.OneLiveSandbox | packages/state-store/failroom_state/backend.py:148-200 | In every reachable state at most one sandbox of an attempt has no destroy intent |
| Theorems.ActiveIsCurrentOrPrevious | packages/state-store/failroom_state/backend.py:148-200 | In every reachable state an active sandbox is of the current generation or the one before |
| Theorems.OlderGenerationsAreGone | packages/state-store/failroom_state/control_plane.py:154-198 | Every generation below the active one left a row, and every such row is destroyed with cleanup evidence |
| Theorems.EpochIsConserved | packages/state-store/failroom_state/backend.py:42-52 | session_epoch = generation - 1 + destroy_intent in every reachable state |
| Theorems.ConsumedClaimsWereNeverRevoked | packages/state-store/failroom_state/backend.py:606-661 | Claims read in one state can be consumed later only if no state in between was reset, left or expired |
| Theorems.LeasedClaimsWereNeverRevoked | packages/state-store/failroom_state/control_plane.py:398-410 | The same for granting a lease on a consumed capability |
| Theorems.IntentsMatchStates | packages/state-store/failroom_state/control_plane.py:46-64 | A resource has destroy intent exactly in STOPPING, FAILED and DESTROYED, an attempt exactly in STOPPING and DESTROYED, and a destroyed resource has cleanup evidence |
| Theorems.ShutdownIsOneWay | packages/state-store/failroom_state/schema.py:234-246 | Over any run intents never clear, deadlines never move and destroyed rows never change |
| Theorems.DestroyedIsFinal | packages/state-store/failroom_state/backend.py:539-604 | A destroyed attempt has only destroyed resources with evidence, and over any run it never gains or changes one |
| Deadline.NothingAdvancesAfterDeadline | packages/state-store/failroom_state/backend.py:55-60 | No call made at or after an attempt's deadline publishes, resets, advances, consumes or leases anything of it: what changes is being torn down |
| Idempotence.CallFailsCleanly | packages/state-store/failroom_state/database.py:378-383 | A refused call changes nothing; a denied one says ATTEMPT_UNAVAILABLE and only stops one attempt or one resource whose deadline has passed |
| Idempotence.ReceiptIsLogged | packages/state-store/failroom_state/common.py:167-184 | Every receipt returned is the one logged under its actor, key and request, and a logged request is answered without any effect |
| Idempotence.CallsApplyAtMostOnce | packages/state-store/failroom_state/common.py:167-218 | After any run, repeating an answered call with the same actor and key gives the first receipt and no effect if the request is the same, and otherwise fails, leaving at most a stop |
| Keys.CallLogsItsOwnRequest | packages/state-store/failroom_state/common.py:187-218 | A call logs nothing but its own request under its own actor and key |
| Guarantees.CleanupIsCountedExactly | packages/state-store/failroom_state/control_plane.py:590-662 | A cleanup operation is SUCCEEDED exactly when its resource is DESTROYED, and its retry count is the number of logged cleanup failures of that sandbox |
| Guarantees.PublicationNeverRunsAhead | packages/state-store/failroom_state/backend.py:225-241 | A READY, RUNNING or RESOLVED attempt has its current sandbox active, at the same or a later stage, with container and evidence |
| Guarantees.LoggedTransitionIsTheOnlyOne | packages/state-store/failroom_state/common.py:227-231 | A logged step on a resource version can never be applied again under another key |
| Guarantees.LoggedPublicationIsTheOnlyOne | packages/state-store/failroom_state/common.py:227-231 | The same for publications and attempt versions |
| Guarantees.ResetIsListedOnce | packages/state-store/failroom_state/backend.py:502-537 | Every attempt whose reset awaits provisioning is listed exactly once, with its current tuple and version |
| Guarantees.ListedResetsAwait | packages/state-store/failroom_state/backend.py:502-537 | No other attempt is listed |
| Guarantees.ReservationIsNeverStale | packages/state-store/failroom_state/backend.py:344-409 | From a logged creation or reset on, while the attempt stays PROVISIONING or RESETTING in that generation, publishing with the receipt's version is never refused as stale |
| Guarantees.CapabilityIsConsumedOnce | packages/state-store/failroom_state/backend.py:639-661 | Over any run a capability identifier is consumed at most once |
| Guarantees.LeaseIsGrantedOnce | packages/state-store/failroom_state/control_plane.py:420-450 | Over any run two grants for one capability or one gateway session return the same lease |
| Effects.GrantShape | packages/state-store/failroom_state/control_plane.py:384-482 | A grant commits at most a stop, inserts one lease that names a consumed capability and the live active binding and ends by the capability, the deadline and the requested duration, or returns an earlier lease for the same request |
| Effects.ConsumeShape | packages/state-store/failroom_state/backend.py:606-661 | A consumption commits at most a stop, or records one new use of live, unexpired claims at the current epoch |
| Effects.TransitionShape | packages/state-store/failroom_state/control_plane.py:227-346 | A transition changes exactly its row by the transition table, marks the cleanup operation when it destroys, and logs its receipt; or it is quiet: at most a row is stopped |
| Effects.CleanupFailedShape | packages/state-store/failroom_state/control_plane.py:590-662 | A recorded cleanup failure moves the stopped row to FAILED, counts one retry of exactly that operation and logs it; otherwise nothing changes |
| BackendOutcomes.CreateOutcome | packages/state-store/failroom_state/backend.py:67-107 | With an unused key: NOT_AUTHORIZED outside the allowed rooms, INVALID_REQUEST for a deadline that has passed; otherwise it is committed and one attempt is inserted, PROVISIONING, of generation 1, version and epoch 0, with the drawn identifiers |
| BackendOutcomes.LeaveOutcome | packages/state-store/failroom_state/backend.py:120-146 | With an unused key leaving succeeds in every state, exactly for the owner's present tuple: the attempt is STOPPING with destroy intent (or was DESTROYED), its epoch one higher exactly on its first shutdown, expiry marked from the deadline on, and the receipt carries its state and version |
| BackendOutcomes.BeginResetOutcome | packages/state-store/failroom_state/backend.py:148-200 | With an unused key a reset begins exactly for the owner's present tuple of a READY, RUNNING or RESOLVED room before its deadline: the next generation is reserved, the old sandbox stays active, epoch and version are one higher; past the deadline the shutdown is committed and the call denied |
| BackendOutcomes.PublishOutcome | packages/state-store/failroom_state/backend.py:202-467 | With an unused key a publication succeeds exactly for the present tuple at the expected version, before the deadline and when due; which error each other case gives; and the row it leaves |
| BackendOutcomes.ConsumeOutcome | packages/state-store/failroom_state/backend.py:606-661 | A capability is consumed if and only if its tuple, user, epoch, expiry and deadline hold, room and sandbox are READY or RUNNING and it is unused; then exactly that use is added and answered; which error each other case gives |
| BackendOutcomes.CompleteOutcome | packages/state-store/failroom_state/backend.py:539-604 | With an unused key: the destroyed old sandbox of a reset is acknowledged, and an attempt whose sandboxes are all destroyed is finalized; which error each other case gives |
| BackendOutcomes.ExpireOutcome | packages/state-store/failroom_state/backend.py:469-483 | For every limit of 1 to 1000, and no other, expiry succeeds, answers with overdue attempts, earliest deadline first, and shuts down exactly these |
| ControlOutcomes.AcceptOutcome | packages/state-store/failroom_state/control_plane.py:139-201 | With an unused key a sandbox is accepted exactly for the present tuple before its deadline, PROVISIONING or RESETTING with its old sandbox destroyed, when it has no row: it gets a REQUESTED one; which error each other case gives |
| ControlOutcomes.TransitionOutcome | packages/state-store/failroom_state/control_plane.py:227-346 | With an unused key a step succeeds exactly for a well-formed move of the table at the expected version, of the present sandbox of a live attempt or, for teardown, of the present or active one at any time; which error each other case gives, and the row and cleanup operation it leaves |
| ControlOutcomes.StepsAreTheTable | packages/state-store/failroom_state/control_plane.py:46-64 | The table of steps, pair by pair |
| ControlOutcomes.CleanupFailedOutcome | packages/state-store/failroom_state/control_plane.py:590-662 | With an unused key a cleanup failure is recorded exactly for a stopping sandbox at the expected version, under its own cleanup operation and with a retry time to come; which error each other case gives |
| ControlOutcomes.GrantChecks | packages/state-store/failroom_state/control_plane.py:348-419 | Which error a grant gives before it looks for earlier leases, and that nothing else stops it |
| ControlOutcomes.GrantAgain | packages/state-store/failroom_state/control_plane.py:420-450 | Past these checks the lease under this key, or else of this capability, is given again exactly if it was asked for in the same words |
| ControlOutcomes.GrantOutcome | packages/state-store/failroom_state/control_plane.py:384-482 | Without an earlier lease a new one is granted exactly to a session that has none, for the consumed capability and the active tuple, up to the earliest of capability, deadline and duration |
| ControlOutcomes.RequireLiveOutcome | packages/state-store/failroom_state/control_plane.py:116-132 | Past the deadline the stop of the sandbox is committed and the call denied; an ended attempt or sandbox is refused; any other passes |
| Replays.LoggedCallReplays | packages/state-store/failroom_state/common.py:167-184 | A call whose key is logged is answered with the first receipt and no effect exactly if it may be repeated and its request is the same; which checks come before the replay, call by call |
| ReconcileOutcomes.ReconcileOutcome | packages/state-store/failroom_state/control_plane.py:484-588 | For every limit of 1 to 1000, and no other, reconciliation succeeds and hands out due sandboxes, earliest deadline first: each is stopped, or reserved if it has no row, has a cleanup operation, and its task tells exactly these; all others are as before |
| BackendStorage.BackendStore.Create | packages/state-store/failroom_state/backend.py:67-107 | Create: replay, deadline check, insert of attempt and receipt; new state and answer are those of the specified transaction |
| BackendStorage.BackendStore.Leave | packages/state-store/failroom_state/backend.py:120-146 | Leave: replay, then a committed stop and its receipt; new state and answer are those of the specified transaction |
| BackendStorage.BackendStore.BeginReset | packages/state-store/failroom_state/backend.py:148-200 | Begin reset: replay, stop past the deadline, or the next generation with a new candidate; new state and answer are those of the specified transaction |
| BackendStorage.BackendStore.Publish | packages/state-store/failroom_state/backend.py:202-467 | The five publications, each with its own order of liveness, replay, version and state checks; new state and answer are those of the specified transaction |
| BackendStorage.BackendStore.Expire | packages/state-store/failroom_state/backend.py:469-483 | Expire: the loop stops every selected attempt, or everything rolls back; new state and answer are those of the specified transaction |
| BackendStorage.BackendStore.CompleteCleanup | packages/state-store/failroom_state/backend.py:539-604 | Finalize: an old sandbox is acknowledged; the last one destroys the attempt; new state and answer are those of the specified transaction |
| BackendStorage.BackendStore.Consume | packages/state-store/failroom_state/backend.py:606-661 | Consume: every check in order, then one use; new state and answer are those of the specified transaction |
| BackendStorage.BackendStore.Stop | packages/state-store/failroom_state/backend.py:42-52 | The stop of an attempt; new state and answer are those of the specified transaction |
| BackendStorage.BackendStore.Live | packages/state-store/failroom_state/backend.py:55-60 | The liveness check, with its committed denial; new state and answer are those of the specified transaction |
| ControlPlaneStorage.ControlPlaneStore.Accept | packages/state-store/failroom_state/control_plane.py:139-201 | Accept: a live reservation gets its REQUESTED row; new state and answer are those of the specified transaction |
| ControlPlaneStorage.ControlPlaneStore.Transition | packages/state-store/failroom_state/control_plane.py:227-346 | Transition: binding, liveness, replay, version and table checks, then the move; new state and answer are those of the specified transaction |
| ControlPlaneStorage.ControlPlaneStore.GrantLease | packages/state-store/failroom_state/control_plane.py:348-482 | Grant: every check in order, lookup by key and by capability, then one lease; new state and answer are those of the specified transaction |
| ControlPlaneStorage.ControlPlaneStore.Reconcile | packages/state-store/failroom_state/control_plane.py:484-588 | Reconcile: the loop stops each due row, reserving missing ones, and collects one task per row; new state and answer are those of the specified transaction |
| ControlPlaneStorage.ControlPlaneStore.CleanupFailed | packages/state-store/failroom_state/control_plane.py:590-662 | Cleanup failed: the stopped row fails and its retry is scheduled; new state and answer are those of the specified transaction |
| ControlPlaneStorage.ControlPlaneStore.StopResource | packages/state-store/failroom_state/control_plane.py:101-113 | The stop of a resource; new state and answer are those of the specified transaction |
| ControlPlaneStorage.ControlPlaneStore.RequireLive | packages/state-store/failroom_state/control_plane.py:116-132 | The liveness check, with its committed denial; new state and answer are those of the specified transaction |
| BackendStorage.BackendStore.PendingFinalizations | packages/state-store/failroom_state/backend.py:485-500 | Refused exactly for a limit outside 1 to 1000; else the current tuples of attempts that await finalization, each once, earliest deadline first, and an unlisted one only when the limit is reached and its deadline is no earlier |
| BackendStorage.BackendStore.PendingResetProvisioning | packages/state-store/failroom_state/backend.py:502-537 | Refused exactly for a limit outside 1 to 1000; else the logged receipts of resets whose candidate awaits provisioning, each once, earliest deadline first, and an unlisted one only when the limit is reached and its deadline is no earlier |
| ControlPlaneStorage.ControlPlaneStore.Inspect | packages/state-store/failroom_state/control_plane.py:203-225 | Answers exactly when the tuple is the current or active one of its attempt and its row has that whole tuple, and then with that row; otherwise STALE_BINDING |
| Storage.Database.UpdateAttempt | packages/state-store/failroom_state/schema.py:214-251 | The update succeeds exactly when constraints and triggers allow it, and changes one row |
| Storage.Database.Finish | packages/state-store/failroom_state/common.py:187-218 | Appends the receipt or rolls the transaction back to its saved state |
| CleanupWorker.DockerCleanupWorker.RunOnce | packages/state-store/failroom_state/docker_worker.py:117-167 | One pass with its two loops and three counters, other clients interfering before every access, equals the specified pass |
| CleanupWorker.DockerCleanupWorker.Destroy | packages/state-store/failroom_state/docker_worker.py:181-238 | Inspection, runtime call, and the step to DESTROYED or the recorded failure |
| CleanupWorker.DockerCleanupWorker.RecordFailure | packages/state-store/failroom_state/docker_worker.py:240-263 | Retry time from the clock, and an outdated retry left pending |
| WorkerSafety.PassKeepsTheStoreSound | packages/state-store/failroom_state/docker_worker.py:117-167 | A pass is a run of legal calls: the store stays sound and only grows, whatever happens around it |
| WorkerSafety.PassAccountsForItsWork | packages/state-store/failroom_state/docker_worker.py:137-167 | Without scan errors finalized + deferred = pending + tasks, which is within the limit |
| WorkerSafety.DestructionNeedsEvidence | packages/state-store/failroom_state/docker_worker.py:199-233 | A step to DESTROYED directly follows a runtime answer for exactly that tuple and version, and carries its digest |
| WorkerSafety.DestroyedRowWasVerified | packages/state-store/failroom_state/docker_worker.py:184-233 | The row the runtime was asked about is the row that is destroyed, container included, or another worker already took that step with the same digest |
| WorkerSafety.PassNeverRaises | packages/state-store/failroom_state/docker_worker.py:96-98 | With a clock that never goes back and a valid limit, every store error that can occur puts work off |
| WorkerOutcomes.FailureIsRecorded | packages/state-store/failroom_state/docker_worker.py:216-263 | An undisturbed task that the runtime fails leaves its sandbox FAILED at the next version and its operation to be retried: one retry more, not due before the clock plus the delay, with RUNTIME_UNAVAILABLE if that was the fault and CLEANUP_INCOMPLETE otherwise; one more is deferred. If waiting for the store used the delay up, the task stays due |
| WorkerOutcomes.CountersAreExact | packages/state-store/failroom_state/docker_worker.py:137-167 | Whatever happens around a pass, it reports as destroyed and finalized exactly the steps and completions that it committed |
| WorkerProgress.LiveSandboxIsBound | packages/state-store/failroom_state/control_plane.py:484-588 | A sandbox that is not destroyed, so every reconciled task, is the current or active binding of its attempt |
| WorkerProgress.ReconcileReadies | packages/state-store/failroom_state/control_plane.py:504-588 | Reconciling turns every selected row into a ready task and leaves other resources alone |
| WorkerProgress.DestructionSucceeds | packages/state-store/failroom_state/control_plane.py:227-346 | For a ready task the step to DESTROYED succeeds: its key is unspent |
| WorkerProgress.CompletionSucceeds | packages/state-store/failroom_state/backend.py:539-604 | Completing a pending attempt whose sandboxes are all destroyed destroys it: its key is unspent |
| CleanupTermination.TwoPassesDestroy | packages/state-store/failroom_state/docker_worker.py:117-238 | With retry times passed, a succeeding runtime, no interference and room for all work, two passes with fresh identifiers destroy any attempt that is being shut down, is past its deadline, or whose current sandbox is |
| LimitBlocks.PassIsIdleExactly | packages/state-store/failroom_state/docker_worker.py:137-167 | An undisturbed pass with a succeeding runtime leaves the store as it is exactly when none of the pending attempts that the limit lets through has only destroyed sandboxes, and the pending ones fill the limit or no cleanup is due |
| LimitBlocks.EveryPassIsBlocked | packages/state-store/failroom_state/docker_worker.py:149-151 | When the pending attempts that the limit lets through still wait for another sandbox and fill it, no number of passes changes anything |
| LimitBlocks.LimitOfOneBlocks | packages/state-store/failroom_state/docker_worker.py:149-151 | A run from the empty store (a room is created, opened, reset and left, and a pass with a limit of one destroys the reserved sandbox) after which the room has to go, but no number of passes with a limit of one changes anything |
| FreshPasses.CountedPass | packages/state-store/failroom_state/docker_worker.py:117-238 | When identifiers are numbered by access, every identifier that an undisturbed pass draws is fresh, so legality of such a pass is never a restriction |
| FreshPasses.CleanupCannotGetStuck | packages/state-store/failroom_state/docker_worker.py:117-238 | Cleanup cannot get stuck: the same two passes destroy the attempt, and their legality is proved from numbered identifiers instead of assumed |
| FreshPasses.ReachedRoomsAreCleaned | packages/state-store/failroom_state/docker_worker.py:117-238 | The same from every state that any proper run of calls reaches from the empty store |
| LifecycleServices.LifecycleOrchestrator.Provision | services/control-plane/failroom_control_plane/orchestrator.py:98-151 | Accept, inspect, room selector, CREATING, then the runtime part, or publication of a READY row |
| LifecycleServices.LifecycleOrchestrator.RunRuntime | services/control-plane/failroom_control_plane/orchestrator.py:153-196 | Session, creation and STARTING with the created container |
| LifecycleServices.LifecycleOrchestrator.Start | services/control-plane/failroom_control_plane/orchestrator.py:197-247 | Start and optional bootstrap, each failure recorded under its own phase |
| LifecycleServices.LifecycleOrchestrator.Fail | services/control-plane/failroom_control_plane/orchestrator.py:304-332 | The FAILED step, and the end of a reset |
| ProvisioningSafety.ProvisioningKeepsTheStoreSound | services/control-plane/failroom_control_plane/orchestrator.py:98-332 | Provisioning, crashing anywhere, is a run of legal calls |
| ProvisioningSafety.ProvisioningIsWrittenAhead | services/control-plane/failroom_control_plane/orchestrator.py:119-268 | At every crash point: a creation was asked for only after CREATING was committed and read back, a start only after STARTING with that container was committed, and READY was committed only with the evidence of an observation |
| ProvisioningSafety.StepAndLookShows | services/control-plane/failroom_control_plane/orchestrator.py:133-142 | The row read back after a step is the one that step left, also when the step was replayed |
| ProvisioningSafety.LaterProvisioningIsSilent | services/control-plane/failroom_control_plane/orchestrator.py:119-131 | Once a provisioning asked the runtime anything, no later one of that sandbox does, under any key |
| OneKey.ReachedStepsHaveOneKey | packages/state-store/failroom_state/common.py:167-231 | In every reachable state a step on a version, a publication of a version and an acceptance of a sandbox is logged under one key at most |
| Overlap.AskersShareTheirKey | services/control-plane/failroom_control_plane/orchestrator.py:98-142 | Two provisionings of one sandbox that both asked the runtime, in whatever order and overlap, used the same services, key and receipt version |
| Overlap.SharedKeyLetsBothAsk | services/control-plane/failroom_control_plane/orchestrator.py:98-142 | From any live reservation without a row, two overlapping provisionings with the same services and key may both ask: the second finds the acceptance and the creating step of the first and is answered with their receipts |
| ProvisioningSuccess.UndisturbedProvisioningEnds | services/control-plane/failroom_control_plane/orchestrator.py:98-332 | Undisturbed before the deadline, provisioning of a live reservation, new or resumed under its own key after a crash, publishes READY with the sandbox active, or a runtime error leaves the row FAILED with destroy intent and a reset FAILED |
| ProvisioningSuccess.ForeignAcceptanceStops | packages/state-store/failroom_state/control_plane.py:180-185 | A sandbox accepted under another key is not resumed: the program stops with RESOURCE_EXISTS and changes nothing |
| ProvisioningTraces.ProvisionTells | services/control-plane/failroom_control_plane/orchestrator.py:98-332 | Whatever happens around it, a provisioning that reports success did exactly the steps, runtime calls and publication in their order, with the container and evidence it was answered; one that reports a runtime failure recorded it last, with the code of the call that failed |
| LifecycleServices.RecoveryVerificationService.Verify | services/control-plane/failroom_control_plane/recovery.py:133-207 | The sequence of steps, publications and the one runtime check |
| RecoverySafety.VerificationKeepsTheStoreSound | services/control-plane/failroom_control_plane/recovery.py:133-207 | Verification, crashing anywhere, is a run of legal calls with at most one runtime check |
| RecoverySuccess.RetryRecovers | services/control-plane/failroom_control_plane/recovery.py:133-207 | An undisturbed retry with time left and a verifying runtime recovers exactly from the pairs other than READY attempt with RESOLVED sandbox, and leaves as evidence the digest over the earlier evidence and the runtime's answer, or the recorded one |
| RecoveryCrash.OnlyResolvingStrands | packages/state-store/failroom_state/control_plane.py:227-346 | No call but a step to RESOLVED can leave a READY attempt with a RESOLVED sandbox |
| RecoveryCrash.VerificationNeverStrands | services/control-plane/failroom_control_plane/recovery.py:133-207 | Under any schedule of other clients and crashing anywhere, no commit of verification itself leaves that pair, and it asks for RESOLVED only once the room has been RUNNING |
| RecoveryCrash.CrashNeverStrands | services/control-plane/failroom_control_plane/recovery.py:156-180 | Wherever verification crashes, among any users, services, cleanup and other verifiers, no attempt is stuck that was not before; a client that asks for RESOLVED is taken to do so, as every verifier does, only once the room has been RUNNING |
| RecoveryCrash.RetryAfterCrashRecovers | services/control-plane/failroom_control_plane/recovery.py:133-207 | After such a crash one undisturbed retry by the owner resolves the room if it is still open |
| LifecycleServices.LifecycleMaintenanceService.RunOnce | services/control-plane/failroom_control_plane/maintenance.py:100-129 | Expire, clean up, and resume each listed reset in turn |
| Maintenance.MaintenanceKeepsTheStoreSound | services/control-plane/failroom_control_plane/maintenance.py:100-129 | A maintenance pass, crashing anywhere, is a run of legal calls |
| Maintenance.ExpiryIsComplete | services/control-plane/failroom_control_plane/maintenance.py:101-106 | With room for all, every attempt past its deadline has both intents or is destroyed before cleanup begins |
| Maintenance.ListedReceiptIsReserved | services/control-plane/failroom_control_plane/maintenance.py:114-125 | Every receipt listed for resumption is a live reservation at the current version |
| MaintenanceOutcomes.CalmPassIsExact | packages/state-store/failroom_state/docker_worker.py:117-167 | With room and a succeeding runtime an undisturbed cleanup pass destroys exactly the sandboxes that are due when it hands out its tasks |
| MaintenanceLaws.MaintenanceTearsDown | services/control-plane/failroom_control_plane/maintenance.py:100-113 | An undisturbed maintenance pass with room and a runtime that succeeds during its cleanup expires every room past its deadline and destroys every sandbox that has to go; without resumption it is complete and touches nothing else but rooms that it finalizes |
| MaintenanceLaws.TwoMaintenancePassesDestroy | services/control-plane/failroom_control_plane/maintenance.py:100-129 | Two such passes destroy every room that is being shut down, is past its deadline or whose current sandbox is being torn down, with or without resumption in between |
| MaintenanceLaws.MaintenanceResumes | services/control-plane/failroom_control_plane/maintenance.py:114-125 | With resumption such a pass is complete exactly when no listed reset was accepted under another key, unless the runtime failed a sandbox; every listed reset that none of these precedes is published READY |
| MaintenanceLaws.MaintenanceFinishesResets | services/control-plane/failroom_control_plane/maintenance.py:100-129 | One such pass takes every interrupted reset, from the teardown of the old sandbox on, to READY on the new one, under the same two provisos |
| MaintenanceLaws.CompleteExactly | services/control-plane/failroom_control_plane/maintenance.py:100-129 | Whatever happens around it, a pass is complete exactly when its limit is valid, the store took the expiry and the listing, no error ended the cleanup and the last provisioning published |
| PassLocality.PassIsLocal | packages/state-store/failroom_state/docker_worker.py:117-167 | A cleanup pass depends on its surroundings only from its first access to its last |
| Resumption.ResumptionCompletesExactly | services/control-plane/failroom_control_plane/maintenance.py:114-125 | An undisturbed resumption that no runtime failure ends is complete exactly when no listed reset was accepted under another key; otherwise it ends with RESOURCE_EXISTS |
| Resumption.ForeignStarvesTheRest | services/control-plane/failroom_control_plane/maintenance.py:114-125 | A reset that was accepted under another key, and every reset listed after it, is left as it was |
| Resumption.ResumptionPublishes | services/control-plane/failroom_control_plane/maintenance.py:114-125 | Unless the runtime fails a sandbox, every listed reset that none accepted under another key precedes ends READY on its new sandbox |
| Resumption.ResumptionLeavesPending | services/control-plane/failroom_control_plane/maintenance.py:114-125 | Resumption makes no attempt wait for its finalization and keeps those ready that were |
| Resumption.ForeignForGood | packages/state-store/failroom_state/control_plane.py:180-185 | Whatever anybody does later, such a reset is never accepted under the resumption key |
| Resumption.ListedResetsWait | packages/state-store/failroom_state/backend.py:502-537 | The listed receipts are waiting resets of distinct attempts, as resumption needs them |
| Resumption.ProvisionApart | services/control-plane/failroom_control_plane/orchestrator.py:98-332 | Undisturbed provisioning changes nothing but the rows and derived keys of its own tuple |
| Site.Stores.Serve | packages/state-store/failroom_state/database.py:361-391 | Between two accesses any calls of other clients take effect, each as one transaction |
| Frames.InputFrames | apps/web/lib/terminal-protocol.ts:55-85 | The loop over characters with its two byte counts produces the greedy frames |
| Frames.FramesAreLosslessAndAccepted | apps/web/lib/terminal-protocol.ts:50-54 | With at least four input bytes and thirty-two frame bytes the frames' data is the well-formed text, cut, and every frame is within both server limits |
| Frames.AcceptedIfCharactersFit | services/control-plane/failroom_control_plane/websocket.py:146-165 | For any bounds all frames are accepted exactly when every character fits a frame of its own |
| Frames.FrameIsAccepted | services/control-plane/failroom_control_plane/websocket.py:325-332 | The server accepts a frame exactly when its data and the whole frame are within the limits, and reads the data back from the JSON text |
| Frames.ChunksAreFewest | apps/web/lib/terminal-protocol.ts:65-80 | No split of the text into fitting parts has fewer parts |
| Frames.FramesAreFewest | services/control-plane/failroom_control_plane/websocket.py:146-165 | No frames that the server accepts, however their data is spelled in JSON, carry the text in fewer of them |
| Frames.OnlyLoneSurrogatesAreReplaced | apps/web/lib/terminal-protocol.ts:65 | Any text keeps its length, every lone surrogate becomes U+FFFD, and every other unit is kept |
| Frames.WellFormedTextIsKept | apps/web/lib/terminal-protocol.ts:65 | Well-formed text is kept unit by unit |
| Frames.Utf8ReadsBack | apps/web/lib/terminal-protocol.ts:20-22 | Characters have distinct UTF-8 encodings of one to four bytes (section 3 of RFC 3629) |
| Capability.IssuedClaimsVerify | services/api/failroom_api/capability.py:138-223 | With any JSON library that reads what it prints, what is issued at one time verifies, until it expires, to the same claims |
| CapabilityOutcomes.IssueOutcome | services/api/failroom_api/capability.py:138-164 | Claims are issued exactly if they are well-formed, of the terminal scope, end after now and no later than the longest lifetime (to the microsecond), and their token fits 4096 characters; which error each other case gives |
| CapabilityOutcomes.VerifyOutcome | services/api/failroom_api/capability.py:166-223 | A token verifies exactly if it is short, signed and rightly headed, and its mapping carries well-formed claims that end after now and within the longest lifetime, and then to exactly these; which error each other case gives |
| CapabilityOutcomes.TokenSpells | services/api/failroom_api/capability.py:148-164 | The issued token is signed and its parts spell the header and the payload |
| CapabilityOutcomes.PayloadSays | services/api/failroom_api/capability.py:148-157 | The payload has each claim under its own name |
| Capability.PlainCodecReads | services/api/failroom_api/capability.py:79-87 | There is such a library: a reader of flat objects without spaces |
| Capability.AcceptedTokenIsSigned | services/api/failroom_api/capability.py:166-223 | However its JSON is spelled and read, an accepted token's signature decodes to the keyed digest of its first two segments, and its claims are valid, unexpired and within the lifetime |
| Capability.TimestampReadsBack | services/api/failroom_api/capability.py:40-51 | Instants convert to microseconds and back exactly |
| Capability.InstantReadsBack | services/api/failroom_api/capability.py:49-51 | Microseconds in the calendar's range convert to instants and back exactly |
| Base64.EncodingReadsBack | services/api/failroom_api/capability.py:66-76 | Unpadded base64url reads back (section 5 of RFC 4648) and has no dot |
| Json.ObjectReadsBack | services/api/failroom_api/capability.py:79-87 | A canonically printed flat object reads back as its mapping |
| Cpu.Nanocpus | services/sandbox-engine/failroom_sandbox/docker_profile.py:112-134 | The loops return n exactly when the decimal times 10^9 is the integer n in range |
| Cpu.EqualDecimalsAgree | services/sandbox-engine/failroom_sandbox/docker_profile.py:112-134 | Numerically equal decimals denote the same nanocpus, so they print the same text |
| Cpu.Argv | services/sandbox-engine/failroom_sandbox/docker_profile.py:137-144 | The argument is the canonical text of the denoted nanocpus, and missing when none is in range |
| Cpu.ArgumentReadsBack | services/sandbox-engine/failroom_sandbox/docker_profile.py:137-144 | The printed text reads back to the same nanocpus and has no superfluous zero or point |
| Lifetime.PreparedOperation.StartVerified | services/sandbox-engine/failroom_sandbox/docker_lifecycle.py:424-453 | On success container start plus PID 1's whole sleep is by the deadline, for any delays, lost responses and containers that already run |
| Lifetime.PreparedOperation.CreateVerified | services/sandbox-engine/failroom_sandbox/docker_lifecycle.py:401-422 | A new container gets the sleep planned from a clock reading during the call; an earlier one is taken over unchanged if it was created or runs; an unconfirmed creation and an exited container are refused |
| Lifetime.PlanIsTight | services/sandbox-engine/failroom_sandbox/docker_lifecycle.py:85-95 | The plan leaves the margin, stays within the profile and is the longest that does |
| Lifetime.PlanIsVerified | services/sandbox-engine/failroom_sandbox/docker_lifecycle.py:85-113 | A planned sleep passes verification exactly when the limit less the margin is below 10^10 seconds or the time left is below 10^10 seconds and the margin |
| Lifetime.MarginSuffices | services/sandbox-engine/failroom_sandbox/docker_lifecycle.py:98-100 | A start within the margin after planning is never refused |
| Lifetime.ResourceDeadlineIsTheAttempts | services/control-plane/failroom_control_plane/orchestrator.py:168-176 | The resource's deadline that bounds PID 1 is its attempt's |
| Slots.CountsAreExact | services/control-plane/failroom_control_plane/terminal.py:67-104 | Over any sequence of acquisitions and releases each count is its unreleased slots, within the limit, and never kept at zero |
| Slots.ReleaseIsExact | services/control-plane/failroom_control_plane/terminal.py:78-87 | A release keeps the counts exact, and a second release of the slot does nothing |
| Slots.SandboxSlots.Take | services/control-plane/failroom_control_plane/terminal.py:98-104 | A slot is given exactly below the limit, and counted |
| Slots.Slot.GiveBack | services/control-plane/failroom_control_plane/terminal.py:78-87 | Only the first release returns the slot |
| Slots.OwnedTerminalSession.Close | services/control-plane/failroom_control_plane/terminal.py:125-132 | Closing twice returns the slot once, also when the PTY fails to close |
| Slots.TerminalService.Admit | services/control-plane/failroom_control_plane/terminal.py:172-176 | A connection slot is taken exactly below the limit; sessions are untouched |
| Slots.TerminalService.Attach | services/control-plane/failroom_control_plane/terminal.py:178-218 | A session opens exactly for a live row with a free slot and an opening PTY; a failed opening returns its slot |
| Guarantees.CreatorOwnsTheAttempt | packages/state-store/failroom_state/backend.py:67-107 | A created attempt is reserved as its receipt says, and stays the creator's, for the requested room and deadline, over any run |
| WorkerProgress.ReconcileSparesTheLiving | packages/state-store/failroom_state/control_plane.py:504-536 | Reconciliation never touches the sandbox of a room in use |
| Maintenance.ExpirySparesTheRest | packages/state-store/failroom_state/backend.py:469-483 | Expiry never touches an attempt before its deadline |
| Selection.Select | packages/state-store/failroom_state/backend.py:469-483 | ORDER BY and LIMIT: distinct rows, as many as the limit allows, the earliest first |
| BackendStorage.BackendStore.ApplyPublication | packages/state-store/failroom_state/backend.py:225-252 | Version check, state guards, the published row and its receipt |
| ControlPlaneStorage.ControlPlaneStore.ApplyMove | packages/state-store/failroom_state/control_plane.py:297-346 | The moved row, the finished cleanup operation and the receipt |
| ControlPlaneStorage.ControlPlaneStore.ApplyFailure | packages/state-store/failroom_state/control_plane.py:638-662 | The failed row, the scheduled retry and the receipt |

## Left out

- SQLite itself: files, locking, busy waiting, backups, integrity and version checks, migrations and the NULL runtime identifiers of migrated stores. A store starts empty at schema version 4.
- A NULL in the reset exemption of the attempt trigger counts as not exempt; no row that the stores write reaches that case.
- Types, roles, scopes, identifier patterns and reference validation of arguments: a call is modelled from the point where these have passed. The error codes that depend on state are all modelled.
- UUIDs, SHA-256 and HMAC: fresh identifiers are inputs, fingerprints and derived keys are structured values, the keyed digest is a parameter of 32 bytes.
- The room selector read by `room_id_for_binding` is modelled as its binding check; the selector itself is only handed to the runtime.
- The container runtime, Docker's command line, profiles, seccomp, PTYs and bootstrap scripts: the runtime answers with a digest, a container, or a fault. A session that fails to close after an earlier failure, and errors outside the runtime's own error type during provisioning, are not modelled.
- Worker and services run one access at a time; threads, asyncio scheduling and HTTP routes are not modelled. Of the terminal protocol only the input frames and their limits are.
- Joined columns break ties that the ORDER BY of the pending queries leaves open; SQLite's own choice among ties is not modelled.
- LifecycleServices.LifecycleOrchestrator.Provision: claims no mutual exclusion, because two overlapping provisionings with one key may both reach the runtime in the code too.
- Slots.TerminalService.Attach: does not compare the session epoch, because the code does not; revocation is stated for consuming and leasing only. The store read is given as a state.
- Frames.FrameIsAccepted: of the server's JSON reader every spelling of the data is modelled, but of the object around it only the client's own; spaces, spelled-out names and escapes of lone surrogates are not.
- Capability.AcceptedTokenIsSigned: the JSON library is a parameter, total on bytes. Spare base64 bits are ignored as in the code, so tokens are not unique.
- Lifetime.PlanIsTight: time differences are exact microseconds; the rounding of Python's floating-point seconds beyond two centuries is not modelled.
- `RoomResetService.reset`, qualification, browser sessions, scenario checks, web pages and the command line would add only easy members.
