/** Schema version 4: CHECK, UNIQUE and foreign-key constraints, the immutability
    triggers, and the INSERT and UPDATE statements that they guard. A statement that
    violates one of them aborts its call with StoreFailure. */
module Schema {
  import opened Records

  predicate AttemptCheck(a: Attempt) {
    && a.generation > 0
    && (a.activeGeneration.Some? ==> a.activeGeneration.value > 0)
    && (a.candidateGeneration.Some? ==> a.candidateGeneration.value > 0)
    && a.state.ForAttempt()
    && a.expiresAt > a.createdAt
    && (a.activeSandbox.Some? <==> a.activeGeneration.Some?)
    && ((a.candidateSandbox.None? && a.candidateGeneration.None?)
        || (a.candidateSandbox == Some(a.sandbox) && a.candidateGeneration == Some(a.generation)))
    && (a.expiry ==> a.destroy)
    && (a.reset ==> a.state.Resetting? || a.state.Ending())
    && (a.destroy ==> a.state.Ending())
  }

  predicate ResourceCheck(r: Resource) {
    && r.generation > 0
    && r.state.ForResource()
    && (r.expiry ==> r.destroy)
    && (r.destroy ==> r.state.Ending())
    && (r.state == Destroyed ==> r.cleanupEvidence.Some?)
  }

  /** The one update that may move an attempt to another sandbox and generation. */
  predicate ResetExemption(old_: Attempt, new_: Attempt) {
    && old_.state.Open()
    && new_.state == Resetting
    && new_.reset
    && new_.generation == old_.generation + 1
    && new_.candidateSandbox == Some(new_.sandbox)
    && new_.candidateGeneration == Some(new_.generation)
    && old_.activeSandbox.Some? && new_.activeSandbox == old_.activeSandbox
    && old_.activeGeneration.Some? && new_.activeGeneration == old_.activeGeneration
  }

  predicate AttemptTrigger(old_: Attempt, new_: Attempt) {
    || new_.expiresAt != old_.expiresAt
    || ((new_.runtimeId != old_.runtimeId || new_.sandbox != old_.sandbox || new_.generation != old_.generation)
        && !ResetExemption(old_, new_))
    || (old_.expiry && !new_.expiry)
    || (old_.destroy && !new_.destroy)
    || (old_.state == Destroyed && new_.state != Destroyed)
    || new_.user != old_.user
    || new_.room != old_.room
    || new_.epoch < old_.epoch
  }

  predicate ResourceTrigger(old_: Resource, new_: Resource) {
    || new_.expiresAt != old_.expiresAt
    || new_.attempt != old_.attempt
    || new_.runtimeId != old_.runtimeId
    || new_.generation != old_.generation
    || (old_.expiry && !new_.expiry)
    || (old_.destroy && !new_.destroy)
    || (old_.state == Destroyed && new_.state != Destroyed)
  }

  predicate SandboxUnused(attempts: map<AttemptId, Attempt>, id: AttemptId, sandbox: SandboxId) {
    forall other | other in attempts && other != id :: attempts[other].sandbox != sandbox
  }

  predicate ContainerUnused(resources: map<SandboxId, Resource>, sandbox: SandboxId, container: Option<ContainerId>) {
    container.Some? ==>
      forall other | other in resources && other != sandbox :: resources[other].container != container
  }

  predicate OperationUnused(operations: map<OpKey, Operation>, id: OperationId) {
    forall k | k in operations :: operations[k].id != id
  }

  predicate LeaseUnused(leases: map<LeaseId, Lease>, row: Lease) {
    forall l | l in leases ::
      && leases[l].jti != row.jti
      && leases[l].session != row.session
      && (leases[l].actor, leases[l].key) != (row.actor, row.key)
  }

  function Execute(allowed: bool, db: Db): Outcome<()> {
    if allowed then Done(db, ()) else Refused(StoreFailure)
  }

  function InsertAttempt(db: Db, id: AttemptId, a: Attempt): Outcome<()> {
    Execute(id !in db.attempts && AttemptCheck(a) && SandboxUnused(db.attempts, id, a.sandbox),
            db.(attempts := db.attempts[id := a]))
  }

  function UpdateAttempt(db: Db, id: AttemptId, a: Attempt): Outcome<()>
    requires id in db.attempts
  {
    Execute(!AttemptTrigger(db.attempts[id], a) && AttemptCheck(a) && SandboxUnused(db.attempts, id, a.sandbox),
            db.(attempts := db.attempts[id := a]))
  }

  function InsertResource(db: Db, sandbox: SandboxId, r: Resource): Outcome<()> {
    Execute(sandbox !in db.resources && ResourceCheck(r) && r.attempt in db.attempts
            && ContainerUnused(db.resources, sandbox, r.container),
            db.(resources := db.resources[sandbox := r]))
  }

  function UpdateResource(db: Db, sandbox: SandboxId, r: Resource): Outcome<()>
    requires sandbox in db.resources
  {
    Execute(!ResourceTrigger(db.resources[sandbox], r) && ResourceCheck(r)
            && ContainerUnused(db.resources, sandbox, r.container),
            db.(resources := db.resources[sandbox := r]))
  }

  function InsertOperation(db: Db, k: OpKey, op: Operation): Outcome<()> {
    Execute(k !in db.operations && OperationUnused(db.operations, op.id) && op.ref.attempt in db.attempts,
            db.(operations := db.operations[k := op]))
  }

  function UpdateOperation(db: Db, k: OpKey, op: Operation): Outcome<()>
    requires k in db.operations && op.id == db.operations[k].id && op.ref == db.operations[k].ref
  {
    Done(db.(operations := db.operations[k := op]), ())
  }

  function InsertUse(db: Db, jti: JtiHash, use: Use): Outcome<()> {
    Execute(jti !in db.uses && use.attempt in db.attempts && use.expiresAt > use.consumedAt,
            db.(uses := db.uses[jti := use]))
  }

  function InsertLease(db: Db, lease: LeaseId, row: Lease): Outcome<()> {
    Execute(lease !in db.leases && row.jti in db.uses && row.ref.attempt in db.attempts
            && row.ref.sandbox in db.resources && row.ref.generation > 0
            && row.expiresAt > row.issuedAt && row.issuedAt <= row.consumedAt <= row.expiresAt
            && LeaseUnused(db.leases, row),
            db.(leases := db.leases[lease := row]))
  }
}
