/** Store calls as values, and runs: any interleaving of calls from any number of
    users and services. */
module Runs {
  import opened Records
  import opened Schema
  import opened Backend
  import opened ControlPlane

  datatype Call =
    | CreateCall(identity: UserIdentity, room: RoomId, key: Key, deadline: int, now: int, ids: Fresh)
    | LeaveCall(identity: UserIdentity, ref: Ref, key: Key, now: int, batch: nat)
    | BeginResetCall(identity: UserIdentity, ref: Ref, key: Key, now: int, ids: Fresh)
    | PublishCall(service: ServiceId, publication: Publication, ref: Ref, expected: nat, key: Key, now: int, batch: nat)
    | ExpireCall(now: int, limit: int)
    | CompleteCall(service: ServiceId, ref: Ref, key: Key, now: int, batch: nat)
    | ConsumeCall(claims: Claims, now: int)
    | AcceptCall(service: ServiceId, ref: Ref, key: Key, now: int, batch: nat)
    | TransitionCall(service: ServiceId, ref: Ref, expected: nat, move: Move, key: Key, now: int, batch: nat)
    | GrantCall(service: ServiceId, ref: Ref, consumed: CapabilityUse, session: SessionHash, duration: int,
                key: Key, now: int, lease: LeaseId)
    | ReconcileCall(now: int, limit: int, batch: nat)
    | CleanupFailedCall(service: ServiceId, ref: Ref, operation: OperationId, expected: nat, key: Key,
                        error: ErrorCode, retryAt: int, now: int, batch: nat)

  function Apply(db: Db, c: Call): Outcome<()> {
    match c
    case CreateCall(identity, room, key, deadline, now, ids) => Create(db, identity, room, key, deadline, now, ids).Forget()
    case LeaveCall(identity, ref, key, now, batch) => Leave(db, identity, ref, key, now, batch).Forget()
    case BeginResetCall(identity, ref, key, now, ids) => BeginReset(db, identity, ref, key, now, ids).Forget()
    case PublishCall(service, p, ref, expected, key, now, batch) => Publish(db, service, p, ref, expected, key, now, batch).Forget()
    case ExpireCall(now, limit) => Expire(db, now, limit).Forget()
    case CompleteCall(service, ref, key, now, batch) => Complete(db, service, ref, key, now, batch).Forget()
    case ConsumeCall(claims, now) => Consume(db, claims, now).Forget()
    case AcceptCall(service, ref, key, now, batch) => Accept(db, service, ref, key, now, batch).Forget()
    case TransitionCall(service, ref, expected, m, key, now, batch) => Transition(db, service, ref, expected, m, key, now, batch).Forget()
    case GrantCall(service, ref, consumed, session, duration, key, now, lease) =>
      GrantLease(db, service, ref, consumed, session, duration, key, now, lease).Forget()
    case ReconcileCall(now, limit, batch) => Reconcile(db, now, limit, batch).Forget()
    case CleanupFailedCall(service, ref, operation, expected, key, error, retryAt, now, batch) =>
      CleanupFailed(db, service, ref, operation, expected, key, error, retryAt, now, batch).Forget()
  }

  function Step(db: Db, c: Call): Db {
    Apply(db, c).After(db)
  }

  predicate FreshBatch(db: Db, batch: nat) {
    forall k | k in db.operations :: db.operations[k].id.batch != batch
  }

  /** The sandbox id was never reserved, observed or logged. */
  predicate FreshSandbox(db: Db, sandbox: SandboxId) {
    && sandbox !in db.resources
    && (forall id | id in db.attempts :: db.attempts[id].sandbox != sandbox)
  }

  /** Identifiers drawn at random are new. */
  predicate FreshIds(db: Db, c: Call) {
    match c
    case CreateCall(_, _, _, _, _, ids) =>
      ids.attempt !in db.attempts && FreshSandbox(db, ids.sandbox) && FreshBatch(db, ids.batch)
    case BeginResetCall(_, _, _, _, ids) => FreshSandbox(db, ids.sandbox) && FreshBatch(db, ids.batch)
    case ExpireCall(_, _) => true
    case ConsumeCall(_, _) => true
    case GrantCall(_, _, _, _, _, _, _, lease) => lease !in db.leases
    case TransitionCall(_, ref, _, m, _, _, batch) =>
      FreshBatch(db, batch) && ContainerUnused(db.resources, ref.sandbox, m.container)
    case _ => FreshBatch(db, c.batch)
  }

  predicate Legal(db: Db, run: seq<Call>)
    decreases |run|
  {
    run == [] || (FreshIds(db, run[0]) && Legal(Step(db, run[0]), run[1..]))
  }

  function Run(db: Db, run: seq<Call>): Db
    decreases |run|
  {
    if run == [] then db else Run(Step(db, run[0]), run[1..])
  }
}
