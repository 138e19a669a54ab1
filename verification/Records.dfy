/** Rows of the state store, the values its methods exchange, and the result of one
    store call. Identifiers, digests and hashes are numbers; only their equality (and,
    for the two identifiers that queries sort by, their order) matters. */
module Records {
  datatype Option<+T> = None | Some(value: T)

  type AttemptId = nat
  type SandboxId = nat
  type UserId = nat
  type RoomId = nat
  type ServiceId = nat
  type RuntimeId = nat
  type ContainerId = nat
  type Digest = nat
  type JtiHash = nat
  type SessionHash = nat
  type LeaseId = nat

  /** The n-th operation id drawn by one call; a call's batch is fresh. */
  datatype OperationId = OperationId(batch: nat, index: nat)

  datatype Ref = Ref(attempt: AttemptId, sandbox: SandboxId, generation: nat)

  /** Attempts and resources draw their states from two overlapping subsets. */
  datatype State =
    | Provisioning | Resetting
    | Requested | Creating | Starting
    | Ready | Running | Resolved
    | Stopping | Failed | Destroyed
  {
    predicate ForAttempt() {
      !Requested? && !Creating? && !Starting?
    }

    predicate ForResource() {
      !Provisioning? && !Resetting?
    }

    /** A learner may hold a room in these states. */
    predicate Open() {
      Ready? || Running? || Resolved?
    }

    /** Terminals attach in these states. */
    predicate Attachable() {
      Ready? || Running?
    }

    predicate Ending() {
      Stopping? || Failed? || Destroyed?
    }
  }

  datatype Attempt = Attempt(
    user: UserId,
    room: RoomId,
    sandbox: SandboxId,
    generation: nat,
    activeSandbox: Option<SandboxId>,
    activeGeneration: Option<nat>,
    candidateSandbox: Option<SandboxId>,
    candidateGeneration: Option<nat>,
    state: State,
    epoch: nat,
    version: nat,
    createdAt: int,
    expiresAt: int,
    provisioning: bool,
    reset: bool,
    expiry: bool,
    destroy: bool,
    runtimeId: RuntimeId)

  datatype Resource = Resource(
    attempt: AttemptId,
    generation: nat,
    state: State,
    version: nat,
    container: Option<ContainerId>,
    runtimeId: RuntimeId,
    expiresAt: int,
    expiry: bool,
    destroy: bool,
    evidence: Option<Digest>,
    cleanupEvidence: Option<Digest>)

  datatype ErrorCode = CreateFailed | StartFailed | RuntimeUnavailable | CleanupIncomplete

  datatype Status = Succeeded | Pending | Retry

  datatype Publication = PublishReady | PublishRunning | PublishResolved | PublishResetReady | FailReset

  datatype Move = Move(state: State, container: Option<ContainerId>, evidence: Option<Digest>, error: Option<ErrorCode>)

  /** What a request fingerprint is computed from. Equal fingerprints stand for equal requests. */
  datatype Request =
    | CreateRequest(room: RoomId, deadline: int)
    | LeaveRequest(ref: Ref)
    | BeginResetRequest(ref: Ref)
    | PublishRequest(publication: Publication, ref: Ref, version: nat)
    | CompleteRequest(ref: Ref)
    | AcceptRequest(ref: Ref)
    | TransitionRequest(ref: Ref, version: nat, move: Move)
    | CleanupRequest(ref: Ref)
    | CleanupFailedRequest(ref: Ref, operation: OperationId, version: nat, error: ErrorCode, retryAt: int)
    | LeaseRequest(ref: Ref, jti: JtiHash, epoch: nat, session: SessionHash, duration: int)

  datatype Actor =
    | UserActor(user: UserId)
    | BackendActor(service: ServiceId)
    | ControlActor(service: ServiceId)
    | GatewayActor(service: ServiceId)
    | CleanupActor

  datatype Root = CallerRoot(text: nat) | ResumeRoot(operation: OperationId)

  datatype Phase =
    | AcceptPhase | CreatingPhase | StartingPhase | ReadyPhase | PublishPhase
    | CreateFailedPhase | StartFailedPhase | BootstrapFailedPhase | ResetFailedPhase
    | RunningPhase | PublishRunningPhase | ResolvedPhase | PublishResolvedPhase

  /** Idempotency keys. Derived keys are hashes of their parts, so distinct parts give distinct keys. */
  datatype Key =
    | CallerKey(text: nat)
    | SandboxKey(sandbox: SandboxId)
    | FinalizeKey(ref: Ref)
    | DestroyKey(ref: Ref, operation: OperationId, version: nat)
    | FailedKey(ref: Ref, operation: OperationId, version: nat)
    | PhaseKey(root: Root, phase: Phase, ref: Ref, version: nat)

  datatype OpKey = OpKey(actor: Actor, key: Key)

  datatype Operation = Operation(
    id: OperationId,
    request: Request,
    ref: Ref,
    status: Status,
    state: State,
    version: nat,
    retryCount: nat,
    retryAt: int,
    error: Option<ErrorCode>)

  datatype Use = Use(attempt: AttemptId, consumedAt: int, expiresAt: int)

  datatype Lease = Lease(
    jti: JtiHash,
    actor: Actor,
    key: Key,
    request: Request,
    ref: Ref,
    epoch: nat,
    session: SessionHash,
    issuedAt: int,
    expiresAt: int,
    consumedAt: int)

  datatype Db = Db(
    attempts: map<AttemptId, Attempt>,
    resources: map<SandboxId, Resource>,
    operations: map<OpKey, Operation>,
    uses: map<JtiHash, Use>,
    leases: map<LeaseId, Lease>)

  const EMPTY: Db := Db(map[], map[], map[], map[], map[])

  datatype Receipt = Receipt(operation: OperationId, ref: Ref, state: State, version: nat)

  datatype UserIdentity = UserIdentity(id: UserId, rooms: set<RoomId>)

  /** Fresh identifiers for a call that reserves a sandbox. */
  datatype Fresh = Fresh(attempt: AttemptId, sandbox: SandboxId, runtimeId: RuntimeId, batch: nat)

  datatype Claims = Claims(jti: JtiHash, user: UserId, ref: Ref, epoch: nat, expiresAt: int)

  datatype CapabilityUse = CapabilityUse(jti: JtiHash, ref: Ref, epoch: nat, expiresAt: int)

  datatype Grant = Grant(lease: LeaseId, row: Lease)

  datatype Task = Task(operation: OperationId, ref: Ref, state: State, version: nat, expiry: bool, retryCount: nat)

  datatype Code =
    | InvalidRequest | NotAuthorized | StaleBinding | StaleVersion | InvalidTransition
    | IdempotencyConflict | AttemptUnavailable | ResourceExists | CleanupUnverified
    | CapabilityInvalid | CapabilityReplay | StoreFailure | StoreBusy

  function RefOf(id: AttemptId, a: Attempt): Ref {
    Ref(id, a.sandbox, a.generation)
  }

  function ResourceRef(sandbox: SandboxId, r: Resource): Ref {
    Ref(r.attempt, sandbox, r.generation)
  }

  /** One store call: it commits and returns, commits a stop and denies, or changes nothing. */
  datatype Outcome<+T> = Done(db: Db, value: T) | Denied(db: Db, code: Code) | Refused(code: Code) {
    predicate IsFailure() {
      !Done?
    }

    function PropagateFailure<U>(): Outcome<U>
      requires IsFailure()
    {
      match this
      case Denied(d, c) => Denied(d, c)
      case Refused(c) => Refused(c)
    }

    function Extract(): (Db, T)
      requires Done?
    {
      (db, value)
    }

    function Forget(): Outcome<()> {
      match this
      case Done(d, _) => Done(d, ())
      case Denied(d, c) => Denied(d, c)
      case Refused(c) => Refused(c)
    }

    /** The committed state. */
    function After(before: Db): Db {
      if Refused? then before else db
    }
  }

  /** A check that reads the store. */
  datatype Verdict<+T> = Allow(value: T) | Reject(code: Code) {
    predicate IsFailure() {
      Reject?
    }

    function PropagateFailure<U>(): Outcome<U>
      requires IsFailure()
    {
      Refused(code)
    }

    function Extract(): T
      requires Allow?
    {
      value
    }
  }

  datatype Guard = Pass | Stop(code: Code) {
    predicate IsFailure() {
      Stop?
    }

    function PropagateFailure<U>(): Outcome<U>
      requires IsFailure()
    {
      Refused(code)
    }
  }

  function Need(condition: bool, code: Code): Guard {
    if condition then Pass else Stop(code)
  }
}
