/** Checks and the operation log shared by both stores. */
module Common {
  import opened Records
  import opened Schema

  predicate IsCurrent(a: Attempt, ref: Ref) {
    a.sandbox == ref.sandbox && a.generation == ref.generation
  }

  predicate IsActive(a: Attempt, ref: Ref) {
    a.activeSandbox == Some(ref.sandbox) && a.activeGeneration == Some(ref.generation)
  }

  predicate IsCandidate(a: Attempt, ref: Ref) {
    a.candidateSandbox == Some(ref.sandbox) && a.candidateGeneration == Some(ref.generation)
  }

  /** The attempt whose current (or, if allowed, active) sandbox is exactly `ref`. */
  function Binding(db: Db, ref: Ref, allowActive: bool): Verdict<Attempt> {
    if ref.attempt in db.attempts
      && (IsCurrent(db.attempts[ref.attempt], ref) || (allowActive && IsActive(db.attempts[ref.attempt], ref)))
    then Allow(db.attempts[ref.attempt])
    else Reject(StaleBinding)
  }

  function Owned(db: Db, identity: UserIdentity, id: AttemptId): Verdict<Attempt> {
    if id in db.attempts && db.attempts[id].user == identity.id && db.attempts[id].room in identity.rooms
    then Allow(db.attempts[id])
    else Reject(NotAuthorized)
  }

  /** The resource row whose whole tuple is `ref`. */
  function Observed(db: Db, ref: Ref): Verdict<Resource> {
    if ref.sandbox in db.resources && ResourceRef(ref.sandbox, db.resources[ref.sandbox]) == ref
    then Allow(db.resources[ref.sandbox])
    else Reject(StaleBinding)
  }

  function Cas(actual: nat, expected: nat): Guard {
    Need(actual == expected, StaleVersion)
  }

  /** The receipt of an earlier call with this actor and key, if its request was the same. */
  function Replay(db: Db, k: OpKey, request: Request): Verdict<Option<Receipt>> {
    if k !in db.operations then Allow(None)
    else if db.operations[k].request != request then Reject(IdempotencyConflict)
    else Allow(Some(ReceiptOf(db.operations[k])))
  }

  function ReceiptOf(op: Operation): Receipt {
    Receipt(op.id, op.ref, op.state, op.version)
  }

  function Logged(id: OperationId, request: Request, ref: Ref, state: State, version: nat, error: Option<ErrorCode>): Operation {
    Operation(id, request, ref, Succeeded, state, version, 0, 0, error)
  }

  /** Append the receipt to the operation log. */
  function Finish(db: Db, k: OpKey, id: OperationId, request: Request, ref: Ref, state: State, version: nat,
                  error: Option<ErrorCode> := None): Outcome<Receipt>
  {
    var op := Logged(id, request, ref, state, version, error);
    var (after, _) :- InsertOperation(db, k, op);
    Done(after, ReceiptOf(op))
  }
}
