/** Single use and bounds of terminal capabilities and attachment leases. */
module Access {
  import opened Records
  import opened Backend
  import opened ControlPlane
  import opened Runs
  import opened Effects
  import opened Invariant
  import opened Preservation
  import opened Ledger

  ghost predicate UseOk(db: Db, u: Use) {
    u.attempt in db.attempts && u.consumedAt < u.expiresAt <= db.attempts[u.attempt].expiresAt
  }

  /** A lease names a consumed capability of its attempt and ends no later than the
      capability, the attempt and the requested duration. */
  ghost predicate LeaseOk(db: Db, l: Lease) {
    && l.ref.attempt in db.attempts
    && l.jti in db.uses && db.uses[l.jti].attempt == l.ref.attempt
    && l.request.LeaseRequest? && l.request == LeaseRequest(l.ref, l.jti, l.epoch, l.session, l.request.duration)
    && l.issuedAt == l.consumedAt < l.expiresAt
    && l.expiresAt <= db.uses[l.jti].expiresAt
    && l.expiresAt <= db.attempts[l.ref.attempt].expiresAt
    && l.expiresAt <= l.issuedAt + l.request.duration
  }

  ghost predicate LeasesDistinct(leases: map<LeaseId, Lease>) {
    forall i, j | i in leases && j in leases && i != j ::
      && leases[i].jti != leases[j].jti && leases[i].session != leases[j].session
      && (leases[i].actor, leases[i].key) != (leases[j].actor, leases[j].key)
  }

  ghost predicate AccessOk(db: Db) {
    && (forall j | j in db.uses :: UseOk(db, db.uses[j]))
    && (forall l | l in db.leases :: LeaseOk(db, db.leases[l]))
    && LeasesDistinct(db.leases)
  }

  lemma AccessFramed(before: Db, after: Db)
    requires AccessOk(before) && AttemptsGrow(before, after) && after.uses == before.uses && after.leases == before.leases
    ensures AccessOk(after)
  {
  }

  lemma UseRecorded(db: Db, claims: Claims, now: int)
    requires AccessOk(db) && MayConsume(db, claims, now)
    ensures AccessOk(db.(uses := db.uses[claims.jti := Use(claims.ref.attempt, now, claims.expiresAt)]))
    ensures claims.jti !in db.uses
  {
  }

  lemma LeaseInserted(db: Db, lease: LeaseId, row: Lease, now: int)
    requires AccessOk(db) && MayGrant(db, row, now) && lease !in db.leases
    ensures AccessOk(db.(leases := db.leases[lease := row]))
  {
  }

  /** Every call keeps uses and leases single, bounded, and as they were once recorded. */
  lemma CallKeepsAccess(db: Db, c: Call)
    requires Core(db) && LedgerOk(db) && AccessOk(db) && FreshIds(db, c)
    ensures AccessOk(Step(db, c)) && RecordsKept(db, Step(db, c))
  {
    hide Core, LedgerOk, AccessOk, AttemptsGrow, ResourcesGrow, Create, Leave, BeginReset, Publish, Expire, Complete, Consume,
      Accept, Transition, GrantLease, Reconcile, CleanupFailed, MayConsume, MayGrant, Quiet;
    CallIsSound(db, c);
    GrowsParts(db, Step(db, c));
    match c
    case ConsumeCall(claims, now) =>
      ConsumeShape(db, claims, now);
      if AttemptWrites(db, Step(db, c)) {
        AccessFramed(db, Step(db, c));
      } else {
        UseRecorded(db, claims, now);
      }
    case GrantCall(service, ref, consumed, session, duration, key, now, lease) =>
      GrantShape(db, service, ref, consumed, session, duration, key, now, lease);
      if Quiet(db, Step(db, c)) {
        QuietAccess(db, Step(db, c));
        AccessFramed(db, Step(db, c));
      } else {
        var row := GrantLease(db, service, ref, consumed, session, duration, key, now, lease).value.row;
        LeaseInserted(db, lease, row, now);
      }
    case _ =>
      if IsBackendCall(c) {
        BackendOwnsItsRows(db, c);
      } else {
        CallKeepsLedger(db, c);
      }
      AccessFramed(db, Step(db, c));
  }

  lemma QuietAccess(before: Db, after: Db)
    requires Quiet(before, after)
    ensures after.uses == before.uses && after.leases == before.leases
  {
  }
}
