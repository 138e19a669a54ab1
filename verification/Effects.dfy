/** What each call writes: which rows it may touch, and the exact state it leaves. */
module Effects {
  import opened Records
  import opened Schema
  import opened Common
  import opened Selection
  import opened Backend
  import opened ControlPlane
  import opened Runs

  /** The log only gains receipts, none of them of a failed cleanup or a reset. */
  ghost predicate ReceiptsOnly(before: Db, after: Db) {
    && (forall k | k in before.operations :: k in after.operations && after.operations[k] == before.operations[k])
    && (forall k | k in after.operations && k !in before.operations ::
          k.actor != CleanupActor && IsPlain(after.operations[k].request))
  }

  ghost predicate IsPlain(request: Request) {
    !request.CleanupFailedRequest? && !request.BeginResetRequest?
  }

  ghost predicate GenerationsKept(before: Db, after: Db) {
    forall id | id in after.attempts ::
      after.attempts[id].generation == if id in before.attempts then before.attempts[id].generation else 1
  }

  /** Only attempt rows change, within their generations, and the log gains receipts. */
  ghost predicate AttemptWrites(before: Db, after: Db) {
    && after.resources == before.resources && after.uses == before.uses && after.leases == before.leases
    && GenerationsKept(before, after) && ReceiptsOnly(before, after)
  }

  /** Only resource rows and the log change. */
  ghost predicate ControlWrites(before: Db, after: Db) {
    after.attempts == before.attempts && after.uses == before.uses && after.leases == before.leases
  }

  ghost predicate IsBackendCall(c: Call) {
    c.CreateCall? || c.LeaveCall? || c.BeginResetCall? || c.PublishCall? || c.ExpireCall? || c.CompleteCall? || c.ConsumeCall?
  }

  lemma FinishWrites(before: Db, db: Db, k: OpKey, id: OperationId, request: Request, ref: Ref, state: State, version: nat)
    requires AttemptWrites(before, db) && k.actor != CleanupActor && IsPlain(request)
    ensures AttemptWrites(before, Finish(db, k, id, request, ref, state, version).After(before))
  {
  }

  lemma StopAttemptWrites(db: Db, id: AttemptId, now: int)
    requires id in db.attempts
    ensures AttemptWrites(db, StopAttempt(db, id, now).After(db))
    ensures StopAttempt(db, id, now).Done? ==> id in StopAttempt(db, id, now).db.attempts
  {
  }

  lemma StopAttemptLogs(db: Db, id: AttemptId, now: int)
    requires id in db.attempts
    ensures StopAttempt(db, id, now).After(db).operations == db.operations
  {
  }

  lemma StopAllWrites(db: Db, rows: seq<Row>, now: int)
    requires RowsKnown(db, rows)
    ensures AttemptWrites(db, StopAll(db, rows, now).After(db))
    decreases |rows|
  {
    hide StopAttempt;
    if rows != [] {
      var o := StopAttempt(db, rows[0].attempt, now);
      StopAttemptWrites(db, rows[0].attempt, now);
      if o.Done? {
        StopAttemptKeys(db, rows[0].attempt, now);
        StopAllWrites(o.db, rows[1..], now);
      }
    }
  }

  lemma StopAttemptKeys(db: Db, id: AttemptId, now: int)
    requires id in db.attempts
    ensures StopAttempt(db, id, now).Done? ==> StopAttempt(db, id, now).db.attempts.Keys == db.attempts.Keys
  {
  }

  lemma SameWrites(before: Db, after: Db)
    requires after == before.(attempts := after.attempts) && GenerationsKept(before, after)
    ensures AttemptWrites(before, after)
  {
  }

  lemma CreateWrites(db: Db, identity: UserIdentity, room: RoomId, key: Key, deadline: int, now: int, ids: Fresh)
    ensures AttemptWrites(db, Create(db, identity, room, key, deadline, now, ids).After(db))
  {
    hide AttemptWrites, Finish;
    SameWrites(db, db);
    var db1 := db.(attempts := db.attempts[ids.attempt := NewAttempt(identity.id, room, now, deadline, ids)]);
    if ids.attempt !in db.attempts {
      SameWrites(db, db1);
      FinishWrites(db, db1, OpKey(UserActor(identity.id), key), OperationId(ids.batch, 0), CreateRequest(room, deadline),
                   Ref(ids.attempt, ids.sandbox, 1), Provisioning, 0);
    }
  }

  lemma LeaveWrites(db: Db, identity: UserIdentity, ref: Ref, key: Key, now: int, batch: nat)
    ensures AttemptWrites(db, Leave(db, identity, ref, key, now, batch).After(db))
  {
    hide AttemptWrites, Finish, StopAttempt;
    SameWrites(db, db);
    if Binding(db, ref, false).Allow? {
      StopAttemptWrites(db, ref.attempt, now);
      var o := StopAttempt(db, ref.attempt, now);
      if o.Done? {
        var a := o.db.attempts[ref.attempt];
        FinishWrites(db, o.db, OpKey(UserActor(identity.id), key), OperationId(batch, 0), LeaveRequest(ref), ref, a.state, a.version);
      }
    }
  }

  lemma UpdateWrites(before: Db, db: Db, id: AttemptId, b: Attempt)
    requires AttemptWrites(before, db) && id in db.attempts && b.generation == db.attempts[id].generation
    ensures AttemptWrites(before, UpdateAttempt(db, id, b).After(before))
  {
  }

  /** The state after a reset was begun. */
  ghost function ResetEffect(db: Db, k: OpKey, ref: Ref, ids: Fresh): Db
    requires ref.attempt in db.attempts
  {
    var a := db.attempts[ref.attempt];
    db.(attempts := db.attempts[ref.attempt := Resetted(a, ids)],
        operations := db.operations[k := Logged(OperationId(ids.batch, 0), BeginResetRequest(ref),
                                                Ref(ref.attempt, ids.sandbox, ref.generation + 1), Resetting, a.version + 1, None)])
  }

  lemma BeginResetShape(db: Db, identity: UserIdentity, ref: Ref, key: Key, now: int, ids: Fresh)
    ensures var after := BeginReset(db, identity, ref, key, now, ids).After(db);
      var k := OpKey(UserActor(identity.id), key);
      || (AttemptWrites(db, after) && after.operations == db.operations)
      || (&& Binding(db, ref, false).Allow? && db.attempts[ref.attempt].state.Open() && now < db.attempts[ref.attempt].expiresAt
          && k !in db.operations && after == ResetEffect(db, k, ref, ids))
  {
    hide AttemptWrites, Finish, StopAttempt;
    SameWrites(db, db);
    if Binding(db, ref, false).Allow? {
      StopAttemptWrites(db, ref.attempt, now);
      StopAttemptLogs(db, ref.attempt, now);
      var db1 := db.(attempts := db.attempts[ref.attempt := Resetted(db.attempts[ref.attempt], ids)]);
      FinishShape(db, db1, OpKey(UserActor(identity.id), key), OperationId(ids.batch, 0), BeginResetRequest(ref),
                  Ref(ref.attempt, ids.sandbox, ref.generation + 1), Resetting, db.attempts[ref.attempt].version + 1);
    }
  }

  lemma PublishWrites(db: Db, service: ServiceId, p: Publication, ref: Ref, expected: nat, key: Key, now: int, batch: nat)
    ensures AttemptWrites(db, Publish(db, service, p, ref, expected, key, now, batch).After(db))
  {
    hide AttemptWrites, Finish, StopAttempt, UpdateAttempt, MayPublish;
    SameWrites(db, db);
    if Binding(db, ref, false).Allow? {
      StopAttemptWrites(db, ref.attempt, now);
      var b := Published(db.attempts[ref.attempt], p, ref);
      UpdateWrites(db, db, ref.attempt, b);
      var o := UpdateAttempt(db, ref.attempt, b);
      if o.Done? {
        FinishWrites(db, o.db, OpKey(BackendActor(service), key), OperationId(batch, 0), PublishRequest(p, ref, expected), ref,
                     PublicationState(p), expected + 1);
      }
    }
  }

  lemma CompleteWrites(db: Db, service: ServiceId, ref: Ref, key: Key, now: int, batch: nat)
    ensures AttemptWrites(db, Complete(db, service, ref, key, now, batch).After(db))
  {
    hide AttemptWrites, Finish, StopAttempt, UpdateAttempt, AllDestroyed;
    SameWrites(db, db);
    var k := OpKey(BackendActor(service), key);
    if Binding(db, ref, true).Allow? {
      if ref.sandbox in db.resources {
        FinishWrites(db, db, k, OperationId(batch, 0), CompleteRequest(ref), ref, Destroyed, db.resources[ref.sandbox].version);
      }
      StopAttemptWrites(db, ref.attempt, now);
      var o := StopAttempt(db, ref.attempt, now);
      if o.Done? && Binding(o.db, ref, false).Allow? {
        var b := Finalized(o.db.attempts[ref.attempt]);
        UpdateWrites(db, o.db, ref.attempt, b);
        var p := UpdateAttempt(o.db, ref.attempt, b);
        if p.Done? {
          FinishWrites(db, p.db, k, OperationId(batch, 0), CompleteRequest(ref), ref, Destroyed, b.version);
        }
      }
    }
  }

  lemma ExpireWrites(db: Db, now: int, limit: int)
    ensures AttemptWrites(db, Expire(db, now, limit).After(db))
  {
    hide AttemptWrites, StopAll, Select;
    SameWrites(db, db);
    if 1 <= limit <= 1000 {
      StopAllWrites(db, Select(ExpiryRows(db, now), limit), now);
    }
  }

  /** A consumption commits a stop, records one new use, or changes nothing. */
  lemma ConsumeShape(db: Db, claims: Claims, now: int)
    ensures var o := Consume(db, claims, now);
      || AttemptWrites(db, o.After(db))
      || (o.Done? && MayConsume(db, claims, now)
          && o.db == db.(uses := db.uses[claims.jti := Use(claims.ref.attempt, now, claims.expiresAt)]))
    ensures Consume(db, claims, now).Done? ==> MayConsume(db, claims, now) && Consume(db, claims, now).db != db
  {
    hide AttemptWrites, StopAttempt;
    SameWrites(db, db);
    if Binding(db, claims.ref, false).Allow? {
      StopAttemptWrites(db, claims.ref.attempt, now);
    }
  }

  ghost predicate MayConsume(db: Db, claims: Claims, now: int) {
    && Binding(db, claims.ref, false).Allow?
    && var a := db.attempts[claims.ref.attempt];
    && a.user == claims.user && a.epoch == claims.epoch && !a.destroy
    && a.state.Attachable() && a.activeSandbox == Some(claims.ref.sandbox)
    && now < claims.expiresAt <= a.expiresAt
    && Attachable(db, claims.ref.sandbox)
    && claims.jti !in db.uses
  }

  /** BackendStore never writes resource rows, leases or cleanup operations. */
  lemma BackendOwnsItsRows(db: Db, c: Call)
    requires IsBackendCall(c)
    ensures Step(db, c).resources == db.resources && Step(db, c).leases == db.leases
    ensures !c.ConsumeCall? ==> Step(db, c).uses == db.uses
    ensures !c.BeginResetCall? ==> ReceiptsOnly(db, Step(db, c)) && GenerationsKept(db, Step(db, c))
  {
    hide Create, Leave, BeginReset, Publish, Expire, Complete, Consume;
    match c
    case CreateCall(identity, room, key, deadline, now, ids) => CreateWrites(db, identity, room, key, deadline, now, ids);
    case LeaveCall(identity, ref, key, now, batch) => LeaveWrites(db, identity, ref, key, now, batch);
    case BeginResetCall(identity, ref, key, now, ids) => BeginResetShape(db, identity, ref, key, now, ids);
    case PublishCall(service, p, ref, expected, key, now, batch) => PublishWrites(db, service, p, ref, expected, key, now, batch);
    case ExpireCall(now, limit) => ExpireWrites(db, now, limit);
    case CompleteCall(service, ref, key, now, batch) => CompleteWrites(db, service, ref, key, now, batch);
    case ConsumeCall(claims, now) => ConsumeShape(db, claims, now);
    case _ =>
  }

  ghost predicate NoNewRuins(before: Db, after: Db) {
    forall s | s in after.resources && after.resources[s].state == Destroyed ::
      s in before.resources && before.resources[s].state == Destroyed
  }

  /** A control-plane step that destroys nothing and logs nothing. */
  ghost predicate Quiet(before: Db, after: Db) {
    ControlWrites(before, after) && after.operations == before.operations && NoNewRuins(before, after) && OnlyEnds(before, after)
  }

  /** Every resource row that changed or is new is being torn down. */
  ghost predicate OnlyEnds(before: Db, after: Db) {
    forall s | s in after.resources ::
      (s in before.resources && after.resources[s] == before.resources[s]) || after.resources[s].state.Ending()
  }

  lemma QuietSame(db: Db)
    ensures Quiet(db, db)
  {
  }

  lemma FinishShape(before: Db, db: Db, k: OpKey, id: OperationId, request: Request, ref: Ref, state: State, version: nat,
                    error: Option<ErrorCode> := None)
    ensures var o := Finish(db, k, id, request, ref, state, version, error);
      || o == Refused(StoreFailure)
      || (&& k !in db.operations
          && o.Done?
          && o.db == db.(operations := db.operations[k := Logged(id, request, ref, state, version, error)]))
  {
  }

  lemma RequireLiveQuiet(db: Db, a: Attempt, sandbox: Option<SandboxId>, now: int)
    requires sandbox.Some? ==> sandbox.value in db.resources
    ensures Quiet(db, RequireLive(db, a, sandbox, now).After(db))
    ensures RequireLive(db, a, sandbox, now).Done? ==> RequireLive(db, a, sandbox, now).db == db
  {
  }

  ghost predicate MayGrant(db: Db, row: Lease, now: int) {
    && Binding(db, row.ref, false).Allow? && Observed(db, row.ref).Allow?
    && var a := db.attempts[row.ref.attempt];
    && !Dead(a, now) && a.activeSandbox == Some(row.ref.sandbox) && a.epoch == row.epoch
    && Attachable(db, row.ref.sandbox)
    && row.jti in db.uses && db.uses[row.jti].attempt == row.ref.attempt
    && row.request.LeaseRequest? && 1 <= row.request.duration <= 60_000_000
    && row.request == LeaseRequest(row.ref, row.jti, row.epoch, row.session, row.request.duration)
    && row.issuedAt == now == row.consumedAt
    && now < row.expiresAt
    && row.expiresAt == Min(db.uses[row.jti].expiresAt, Min(a.expiresAt, now + row.request.duration))
    && LeaseUnused(db.leases, row)
  }

  /** A grant commits a stop, inserts one new lease, returns an earlier one, or changes nothing. */
  lemma GrantShape(db: Db, service: ServiceId, ref: Ref, consumed: CapabilityUse, session: SessionHash, duration: int,
                   key: Key, now: int, lease: LeaseId)
    ensures var o := GrantLease(db, service, ref, consumed, session, duration, key, now, lease);
      || Quiet(db, o.After(db))
      || (o.Done? && MayGrant(db, o.value.row, now) && lease !in db.leases && o.value.lease == lease
          && o.db == db.(leases := db.leases[lease := o.value.row]))
    ensures GrantLease(db, service, ref, consumed, session, duration, key, now, lease).Done? ==>
      var g := GrantLease(db, service, ref, consumed, session, duration, key, now, lease).value;
      && g.row.request == LeaseRequest(ref, consumed.jti, consumed.epoch, session, duration)
      && (g.lease in db.leases ==> db.leases[g.lease] == g.row)
  {
    hide RequireLive, Quiet;
    QuietSame(db);
    if Binding(db, ref, false).Allow? && Observed(db, ref).Allow? {
      RequireLiveQuiet(db, db.attempts[ref.attempt], Some(ref.sandbox), now);
      RequireLiveDead(db, db.attempts[ref.attempt], ref.sandbox, now);
    }
  }

  lemma RequireLiveDead(db: Db, a: Attempt, sandbox: SandboxId, now: int)
    requires sandbox in db.resources
    ensures RequireLive(db, a, Some(sandbox), now).Done? ==> !Dead(a, now)
  {
  }

  /** The state after a transition that was applied. */
  ghost function TransitionEffect(db: Db, k: OpKey, ref: Ref, expected: nat, m: Move, expired: bool, batch: nat): Db
    requires ref.sandbox in db.resources
  {
    var marked := if m.state == Destroyed then MarkCleaned(db, ref.sandbox, expected + 1).db else db;
    marked.(resources := db.resources[ref.sandbox := Moved(db.resources[ref.sandbox], m, expired)],
            operations := marked.operations[k := Logged(OperationId(batch, 0), TransitionRequest(ref, expected, m), ref,
                                                        m.state, expected + 1, m.error)])
  }

  lemma ApplyMoveShape(db: Db, k: OpKey, ref: Ref, expected: nat, m: Move, expired: bool, batch: nat)
    requires ref.sandbox in db.resources
    ensures var o := ApplyMove(db, k, ref, expected, m, expired, batch);
      || o == Refused(StoreFailure)
      || (o.Done? && k !in db.operations && o.db == TransitionEffect(db, k, ref, expected, m, expired, batch))
  {
    hide Finish, Moved;
    var db1 := db.(resources := db.resources[ref.sandbox := Moved(db.resources[ref.sandbox], m, expired)]);
    var db2 := if m.state == Destroyed then MarkCleaned(db1, ref.sandbox, expected + 1).db else db1;
    FinishShape(db, db2, k, OperationId(batch, 0), TransitionRequest(ref, expected, m), ref, m.state, expected + 1, m.error);
  }

  lemma TransitionShape(db: Db, service: ServiceId, ref: Ref, expected: nat, m: Move, key: Key, now: int, batch: nat)
    ensures var after := Transition(db, service, ref, expected, m, key, now, batch).After(db);
      var k := OpKey(ControlActor(service), key);
      || Quiet(db, after)
      || (&& ref.attempt in db.attempts && ref.sandbox in db.resources
          && db.resources[ref.sandbox].version == expected
          && ResourceRef(ref.sandbox, db.resources[ref.sandbox]) == ref
          && MayMove(db.resources[ref.sandbox].state, m.state) && k !in db.operations
          && (m.state.Ending() || !Dead(db.attempts[ref.attempt], now))
          && after == TransitionEffect(db, k, ref, expected, m, now >= db.resources[ref.sandbox].expiresAt || db.attempts[ref.attempt].expiry, batch))
  {
    hide RequireLive, MoveOk, MayMove, Quiet, ApplyMove, TransitionEffect, Dead;
    QuietSame(db);
    var k := OpKey(ControlActor(service), key);
    if Binding(db, ref, true).Allow? && Observed(db, ref).Allow? {
      var a, r := db.attempts[ref.attempt], db.resources[ref.sandbox];
      RequireLiveQuiet(db, a, Some(ref.sandbox), now);
      RequireLiveDead(db, a, ref.sandbox, now);
      ApplyMoveShape(db, k, ref, expected, m, now >= r.expiresAt || a.expiry, batch);
    }
  }

  ghost function FailureEffect(db: Db, k: OpKey, ref: Ref, operation: OperationId, expected: nat, error: ErrorCode,
                               retryAt: int, batch: nat): Db
    requires ref.sandbox in db.resources && CleanupKey(ref.sandbox) in db.operations
  {
    var cleanup := CleanupKey(ref.sandbox);
    var r := db.resources[ref.sandbox];
    db.(resources := db.resources[ref.sandbox := r.(state := Failed, version := r.version + 1)],
        operations := db.operations[cleanup := RetryLater(db.operations[cleanup], expected + 1, error, retryAt)]
          [k := Logged(OperationId(batch, 0), CleanupFailedRequest(ref, operation, expected, error, retryAt), ref,
                       Failed, expected + 1, Some(error))])
  }

  lemma CleanupFailedShape(db: Db, service: ServiceId, ref: Ref, operation: OperationId, expected: nat, key: Key,
                           error: ErrorCode, retryAt: int, now: int, batch: nat)
    ensures var after := CleanupFailed(db, service, ref, operation, expected, key, error, retryAt, now, batch).After(db);
      var k := OpKey(ControlActor(service), key);
      || after == db
      || (&& ref.sandbox in db.resources && CleanupKey(ref.sandbox) in db.operations
          && ResourceRef(ref.sandbox, db.resources[ref.sandbox]) == ref
          && db.resources[ref.sandbox].state == Stopping && db.resources[ref.sandbox].version == expected
          && db.operations[CleanupKey(ref.sandbox)].status != Succeeded
          && db.operations[CleanupKey(ref.sandbox)].id == operation
          && k !in db.operations && retryAt > now
          && after == FailureEffect(db, k, ref, operation, expected, error, retryAt, batch))
  {
    hide ApplyFailure, FailureEffect;
    var k := OpKey(ControlActor(service), key);
    var cleanup := CleanupKey(ref.sandbox);
    if Binding(db, ref, true).Allow? && Observed(db, ref).Allow? && cleanup in db.operations {
      ApplyFailureShape(db, k, ref, operation, expected, error, retryAt, batch);
    }
  }

  lemma ApplyFailureShape(db: Db, k: OpKey, ref: Ref, operation: OperationId, expected: nat, error: ErrorCode, retryAt: int,
                          batch: nat)
    requires ref.sandbox in db.resources && CleanupKey(ref.sandbox) in db.operations
    ensures var o := ApplyFailure(db, k, ref, operation, expected, error, retryAt, batch);
      || o == Refused(StoreFailure)
      || (o.Done? && k !in db.operations && o.db == FailureEffect(db, k, ref, operation, expected, error, retryAt, batch))
  {
    hide Finish;
    var r, cleanup := db.resources[ref.sandbox], CleanupKey(ref.sandbox);
    var db2 := db.(resources := db.resources[ref.sandbox := r.(state := Failed, version := r.version + 1)],
                   operations := db.operations[cleanup := RetryLater(db.operations[cleanup], expected + 1, error, retryAt)]);
    FinishShape(db, db2, k, OperationId(batch, 0), CleanupFailedRequest(ref, operation, expected, error, retryAt), ref,
                Failed, expected + 1, Some(error));
  }
}
