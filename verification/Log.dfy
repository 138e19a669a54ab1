/** The operation log: what every logged receipt witnesses about the rows for ever after. */
module Log {
  import opened Records
  import opened Schema
  import opened Common
  import opened Selection
  import opened Backend
  import opened ControlPlane
  import opened Runs
  import opened Effects
  import opened Invariant
  import opened Preservation

  ghost predicate ResourcePast(db: Db, ref: Ref, version: nat) {
    && ref.sandbox in db.resources
    && ResourceRef(ref.sandbox, db.resources[ref.sandbox]) == ref
    && version < db.resources[ref.sandbox].version
  }

  /** The row is as the step left it. */
  ghost predicate ShowsMove(r: Resource, m: Move) {
    r.state == m.state && (m.container.Some? ==> r.container == m.container)
  }

  /** What a logged receipt still tells about the current rows. A receipt of a
      version-checked call names a version that its row has left behind. */
  ghost predicate Witnessed(db: Db, op: Operation) {
    && op.status == Succeeded
    && op.ref.attempt in db.attempts
    && var a := db.attempts[op.ref.attempt];
    match op.request
    case CreateRequest(room, deadline) =>
      && op.state == Provisioning && op.version == 0 && op.ref.generation == 1
      && a.room == room && a.expiresAt == deadline
    case LeaveRequest(ref) => op.ref == ref && a.destroy
    case BeginResetRequest(_) =>
      && op.state == Resetting && 2 <= op.ref.generation <= a.generation
      && (op.ref.generation == a.generation ==>
            && op.ref == RefOf(op.ref.attempt, a)
            && (a.state == Resetting ==> op.version == a.version))
    case PublishRequest(p, ref, v) =>
      && op.ref == ref && op.state == PublicationState(p) && op.version == v + 1 && v < a.version
      && (a.version == v + 1 ==> a.state == PublicationState(p))
    case CompleteRequest(ref) =>
      && op.ref == ref && op.state == Destroyed
      && ResourceIs(db, ref.sandbox, Destroyed) && ResourceRef(ref.sandbox, db.resources[ref.sandbox]) == ref
      && (a.state == Destroyed || a.sandbox != ref.sandbox)
    case AcceptRequest(ref) =>
      && op.ref == ref && op.state == Requested && op.version == 0
      && ref.sandbox in db.resources && ResourceRef(ref.sandbox, db.resources[ref.sandbox]) == ref
    case TransitionRequest(ref, v, m) =>
      && op.ref == ref && op.state == m.state && op.version == v + 1 && ResourcePast(db, ref, v)
      && (db.resources[ref.sandbox].version == v + 1 ==> ShowsMove(db.resources[ref.sandbox], m))
    case CleanupFailedRequest(ref, _, v, _, _) =>
      op.ref == ref && op.state == Failed && op.version == v + 1 && ResourcePast(db, ref, v)
    case _ => false
  }

  ghost predicate LogOk(db: Db) {
    forall k | k in db.operations && k.actor != CleanupActor :: Witnessed(db, db.operations[k])
  }

  lemma WitnessLasts(before: Db, after: Db, op: Operation)
    requires RowsGrow(before, after) && Witnessed(before, op)
    ensures Witnessed(after, op)
  {
    assert AttemptGrows(before.resources, before.attempts[op.ref.attempt], after.attempts[op.ref.attempt]);
    assert op.ref.sandbox in before.resources ==>
      ResourceGrows(before.resources[op.ref.sandbox], after.resources[op.ref.sandbox]);
  }

  /** Entries of other actors than the internal cleanup are kept, and new ones are witnessed. */
  ghost predicate Appends(before: Db, after: Db) {
    forall k | k in after.operations && k.actor != CleanupActor ::
      || (k in before.operations && after.operations[k] == before.operations[k])
      || (k !in before.operations && Witnessed(after, after.operations[k]))
  }

  lemma LogKept(before: Db, after: Db)
    requires LogOk(before) && RowsGrow(before, after) && Appends(before, after)
    ensures LogOk(after)
  {
    hide Witnessed, RowsGrow;
    forall k | k in after.operations && k.actor != CleanupActor
      ensures Witnessed(after, after.operations[k])
    {
      if k in before.operations {
        WitnessLasts(before, after, before.operations[k]);
      }
    }
  }

  ghost predicate SameReceipts(before: Db, after: Db) {
    forall k: OpKey | k.actor != CleanupActor ::
      && (k in after.operations <==> k in before.operations)
      && (k in before.operations ==> after.operations[k] == before.operations[k])
  }

  lemma NothingLogged(before: Db, after: Db)
    requires SameReceipts(before, after)
    ensures Appends(before, after)
  {
  }

  lemma OneLogged(before: Db, db: Db, k: OpKey, id: OperationId, request: Request, ref: Ref, state: State, version: nat,
                  error: Option<ErrorCode> := None)
    requires SameReceipts(before, db) && k !in db.operations && k.actor != CleanupActor
    requires Witnessed(db, Logged(id, request, ref, state, version, error))
    ensures Appends(before, Finish(db, k, id, request, ref, state, version, error).After(before))
  {
    hide Witnessed;
    var op := Logged(id, request, ref, state, version, error);
    WitnessIgnoresLog(db, op, db.operations[k := op]);
  }

  lemma WitnessIgnoresLog(db: Db, op: Operation, operations: map<OpKey, Operation>)
    requires Witnessed(db, op)
    ensures Witnessed(db.(operations := operations), op)
  {
  }

  lemma CreateLogs(db: Db, identity: UserIdentity, room: RoomId, key: Key, deadline: int, now: int, ids: Fresh)
    ensures Appends(db, Create(db, identity, room, key, deadline, now, ids).After(db))
  {
    hide Appends;
    NothingLogged(db, db);
    var k := OpKey(UserActor(identity.id), key);
    var db1 := db.(attempts := db.attempts[ids.attempt := NewAttempt(identity.id, room, now, deadline, ids)]);
    if k !in db.operations {
      OneLogged(db, db1, k, OperationId(ids.batch, 0), CreateRequest(room, deadline), Ref(ids.attempt, ids.sandbox, 1), Provisioning, 0);
    }
  }

  lemma LeaveLogs(db: Db, identity: UserIdentity, ref: Ref, key: Key, now: int, batch: nat)
    requires Core(db)
    ensures Appends(db, Leave(db, identity, ref, key, now, batch).After(db))
  {
    hide Appends, Core, RowsGrow, StopAttempt;
    NothingLogged(db, db);
    var k := OpKey(UserActor(identity.id), key);
    if Binding(db, ref, false).Allow? && k !in db.operations {
      StopAttemptKeeps(db, ref.attempt, now);
      var db1 := StopAttempt(db, ref.attempt, now).db;
      var a := db1.attempts[ref.attempt];
      OneLogged(db, db1, k, OperationId(batch, 0), LeaveRequest(ref), ref, a.state, a.version);
    }
  }

  lemma ResetWitnessed(db: Db, k: OpKey, ref: Ref, ids: Fresh)
    requires Core(db) && Binding(db, ref, false).Allow? && k !in db.operations
    ensures Appends(db, ResetEffect(db, k, ref, ids))
  {
    hide Core;
    AttemptIsShaped(db, ref.attempt);
  }

  lemma BeginResetLogs(db: Db, identity: UserIdentity, ref: Ref, key: Key, now: int, ids: Fresh)
    requires Core(db)
    ensures Appends(db, BeginReset(db, identity, ref, key, now, ids).After(db))
  {
    hide Core, Appends, BeginReset, AttemptWrites;
    BeginResetShape(db, identity, ref, key, now, ids);
    var k, after := OpKey(UserActor(identity.id), key), BeginReset(db, identity, ref, key, now, ids).After(db);
    if after.operations == db.operations {
      NothingLogged(db, after);
    } else {
      ResetWitnessed(db, k, ref, ids);
    }
  }

  lemma PublicationWitnessed(db: Db, k: OpKey, p: Publication, ref: Ref, expected: nat, batch: nat)
    requires ref.attempt in db.attempts && k !in db.operations && k.actor != CleanupActor
    requires db.attempts[ref.attempt].version == expected
    ensures Appends(db, ApplyPublication(db, db.attempts[ref.attempt], k, p, ref, expected, batch).After(db))
  {
    hide Appends, MayPublish, Finish;
    NothingLogged(db, db);
    var db1 := db.(attempts := db.attempts[ref.attempt := Published(db.attempts[ref.attempt], p, ref)]);
    OneLogged(db, db1, k, OperationId(batch, 0), PublishRequest(p, ref, expected), ref, PublicationState(p), expected + 1);
  }

  lemma StaleIsRefused(db: Db, k: OpKey, p: Publication, ref: Ref, expected: nat, batch: nat)
    requires ref.attempt in db.attempts && db.attempts[ref.attempt].version != expected
    ensures ApplyPublication(db, db.attempts[ref.attempt], k, p, ref, expected, batch) == Refused(StaleVersion)
  {
  }

  lemma PublishLogs(db: Db, service: ServiceId, p: Publication, ref: Ref, expected: nat, key: Key, now: int, batch: nat)
    requires Core(db)
    ensures Appends(db, Publish(db, service, p, ref, expected, key, now, batch).After(db))
  {
    hide Appends, Core, RowsGrow, StopAttempt, ApplyPublication;
    NothingLogged(db, db);
    var k := OpKey(BackendActor(service), key);
    if Binding(db, ref, false).Allow? {
      StopAttemptKeeps(db, ref.attempt, now);
      NothingLogged(db, StopAttempt(db, ref.attempt, now).db);
      if db.attempts[ref.attempt].version != expected {
        StaleIsRefused(db, k, p, ref, expected, batch);
      } else if k !in db.operations {
        PublicationWitnessed(db, k, p, ref, expected, batch);
      }
    }
  }

  lemma OldSandboxLogs(db: Db, k: OpKey, ref: Ref, batch: nat)
    requires Core(db) && Binding(db, ref, true).Allow? && !IsCurrent(db.attempts[ref.attempt], ref)
    requires k !in db.operations && k.actor != CleanupActor && CleanlyDestroyed(db, Some(ref.sandbox))
    ensures Appends(db, Finish(db, k, OperationId(batch, 0), CompleteRequest(ref), ref, Destroyed,
                               db.resources[ref.sandbox].version).After(db))
  {
    hide Core, Appends, Finish;
    BoundRef(db, ref);
    AttemptIsShaped(db, ref.attempt);
    OneLogged(db, db, k, OperationId(batch, 0), CompleteRequest(ref), ref, Destroyed, db.resources[ref.sandbox].version);
  }

  lemma FinalizationLogs(before: Db, db: Db, k: OpKey, ref: Ref, batch: nat)
    requires SameReceipts(before, db) && k !in db.operations && k.actor != CleanupActor && ref.attempt in db.attempts
    requires CleanlyDestroyed(db, Some(ref.sandbox)) && ResourceRef(ref.sandbox, db.resources[ref.sandbox]) == ref
    ensures var b := Finalized(db.attempts[ref.attempt]);
      Appends(before, Finish(db.(attempts := db.attempts[ref.attempt := b]), k, OperationId(batch, 0), CompleteRequest(ref), ref,
                             Destroyed, b.version).After(before))
  {
    hide Appends, Finish, SameReceipts;
    var b := Finalized(db.attempts[ref.attempt]);
    var after := db.(attempts := db.attempts[ref.attempt := b]);
    SameLogs(before, db, after);
    OneLogged(before, after, k, OperationId(batch, 0), CompleteRequest(ref), ref, Destroyed, b.version);
  }

  lemma SameLogs(before: Db, db: Db, after: Db)
    requires SameReceipts(before, db) && after.operations == db.operations
    ensures SameReceipts(before, after)
  {
  }

  lemma CompleteLogs(db: Db, service: ServiceId, ref: Ref, key: Key, now: int, batch: nat)
    requires Core(db)
    ensures Appends(db, Complete(db, service, ref, key, now, batch).After(db))
  {
    hide Appends, Core, RowsGrow, StopAttempt, AllDestroyed, UpdateAttempt, Finish, Finalized;
    NothingLogged(db, db);
    var k := OpKey(BackendActor(service), key);
    if Binding(db, ref, true).Allow? && k !in db.operations && CleanlyDestroyed(db, Some(ref.sandbox)) {
      BoundRef(db, ref);
      if !IsCurrent(db.attempts[ref.attempt], ref) {
        OldSandboxLogs(db, k, ref, batch);
      } else {
        StopAttemptKeeps(db, ref.attempt, now);
        var db1 := StopAttempt(db, ref.attempt, now).db;
        FinalizationLogs(db, db1, k, ref, batch);
        UpdateSets(db1, ref.attempt, Finalized(db1.attempts[ref.attempt]));
      }
    }
  }

  lemma UpdateSets(db: Db, id: AttemptId, b: Attempt)
    requires id in db.attempts
    ensures !UpdateAttempt(db, id, b).Denied?
    ensures UpdateAttempt(db, id, b).Done? ==> UpdateAttempt(db, id, b).db == db.(attempts := db.attempts[id := b])
  {
  }

  /** A tuple that is current or active names its own resource row, if there is one. */
  lemma BoundRef(db: Db, ref: Ref)
    requires Core(db) && Binding(db, ref, true).Allow? && ref.sandbox in db.resources
    ensures ResourceRef(ref.sandbox, db.resources[ref.sandbox]) == ref
  {
    AttemptIsShaped(db, ref.attempt);
    ResourceIsShaped(db, ref.sandbox);
  }

  lemma AcceptLogs(db: Db, service: ServiceId, ref: Ref, key: Key, now: int, batch: nat)
    ensures Appends(db, Accept(db, service, ref, key, now, batch).After(db))
  {
    hide Appends;
    NothingLogged(db, db);
    var k := OpKey(BackendActor(service), key);
    if Binding(db, ref, false).Allow? && k !in db.operations {
      var db1 := db.(resources := db.resources[ref.sandbox := NewResource(ref, db.attempts[ref.attempt])]);
      OneLogged(db, db1, k, OperationId(batch, 0), AcceptRequest(ref), ref, Requested, 0);
    }
  }

  lemma TransitionWitnessed(db: Db, k: OpKey, ref: Ref, expected: nat, m: Move, expired: bool, batch: nat)
    requires ref.attempt in db.attempts && ref.sandbox in db.resources && k !in db.operations
    requires ResourceRef(ref.sandbox, db.resources[ref.sandbox]) == ref && db.resources[ref.sandbox].version == expected
    ensures Appends(db, TransitionEffect(db, k, ref, expected, m, expired, batch))
  {
  }

  lemma TransitionLogs(db: Db, service: ServiceId, ref: Ref, expected: nat, m: Move, key: Key, now: int, batch: nat)
    ensures Appends(db, Transition(db, service, ref, expected, m, key, now, batch).After(db))
  {
    hide Appends, Transition, MayMove;
    TransitionShape(db, service, ref, expected, m, key, now, batch);
    var after := Transition(db, service, ref, expected, m, key, now, batch).After(db);
    if Quiet(db, after) {
      NothingLogged(db, after);
    } else {
      TransitionWitnessed(db, OpKey(ControlActor(service), key), ref, expected, m,
                          now >= db.resources[ref.sandbox].expiresAt || db.attempts[ref.attempt].expiry, batch);
    }
  }

  lemma FailureWitnessed(db: Db, k: OpKey, ref: Ref, operation: OperationId, expected: nat, error: ErrorCode, retryAt: int,
                         batch: nat)
    requires ref.attempt in db.attempts && ref.sandbox in db.resources && CleanupKey(ref.sandbox) in db.operations
    requires ResourceRef(ref.sandbox, db.resources[ref.sandbox]) == ref && db.resources[ref.sandbox].version == expected
    requires k !in db.operations
    ensures Appends(db, FailureEffect(db, k, ref, operation, expected, error, retryAt, batch))
  {
  }

  lemma CleanupFailedLogs(db: Db, service: ServiceId, ref: Ref, operation: OperationId, expected: nat, key: Key,
                          error: ErrorCode, retryAt: int, now: int, batch: nat)
    requires Core(db)
    ensures Appends(db, CleanupFailed(db, service, ref, operation, expected, key, error, retryAt, now, batch).After(db))
  {
    hide Core, Appends, CleanupFailed;
    CleanupFailedShape(db, service, ref, operation, expected, key, error, retryAt, now, batch);
    if CleanupFailed(db, service, ref, operation, expected, key, error, retryAt, now, batch).After(db) == db {
      NothingLogged(db, db);
    } else {
      ResourceIsShaped(db, ref.sandbox);
      FailureWitnessed(db, OpKey(ControlActor(service), key), ref, operation, expected, error, retryAt, batch);
    }
  }

  lemma StopForCleanupLogs(db: Db, row: Row, ref: Ref, expired: bool)
    requires RowKnown(db, row) && ref == CleanupRef(db, row)
    ensures !StopForCleanup(db, row, ref, expired).Denied?
    ensures StopForCleanup(db, row, ref, expired).Done? ==> StopForCleanup(db, row, ref, expired).db.operations == db.operations
  {
  }

  lemma ReconcileRowLogs(db: Db, row: Row, now: int, id: OperationId)
    requires RowKnown(db, row)
    ensures !ReconcileRow(db, row, now, id).Denied?
    ensures ReconcileRow(db, row, now, id).Done? ==> SameReceipts(db, ReconcileRow(db, row, now, id).db)
  {
    hide StopForCleanup;
    var a := db.attempts[row.attempt];
    StopForCleanupLogs(db, row, CleanupRef(db, row), now >= a.expiresAt || a.expiry);
  }

  lemma ReconcileRowsLog(db: Db, rows: seq<Row>, now: int, batch: nat, index: nat)
    requires AllKnown(db, rows)
    ensures !ReconcileRows(db, rows, now, batch, index).Denied?
    ensures ReconcileRows(db, rows, now, batch, index).Done? ==> SameReceipts(db, ReconcileRows(db, rows, now, batch, index).db)
    decreases |rows|
  {
    hide ReconcileRow;
    if rows != [] {
      var o := ReconcileRow(db, rows[0], now, OperationId(batch, index));
      ReconcileRowLogs(db, rows[0], now, OperationId(batch, index));
      assert forall i | 0 <= i < |rows[1..]| :: RowKnown(db, rows[1..][i]);
      if o.Done? {
        ReconcileRowsLog(o.db, rows[1..], now, batch, index + 1);
      }
    }
  }

  lemma ReconcileLogs(db: Db, now: int, limit: int, batch: nat)
    ensures Appends(db, Reconcile(db, now, limit, batch).After(db))
  {
    hide Appends, ReconcileRows, Select;
    NothingLogged(db, db);
    if 1 <= limit <= 1000 {
      var rows := Select(CleanupRows(db, now), limit);
      ReconcileRowsLog(db, rows, now, batch, 0);
      NothingLogged(db, ReconcileRows(db, rows, now, batch, 0).After(db));
    }
  }

  lemma StopAllLogs(db: Db, rows: seq<Row>, now: int)
    requires RowsKnown(db, rows)
    ensures !StopAll(db, rows, now).Denied?
    ensures StopAll(db, rows, now).Done? ==> StopAll(db, rows, now).db.operations == db.operations
    decreases |rows|
  {
    if rows != [] {
      var o := StopAttempt(db, rows[0].attempt, now);
      if o.Done? {
        StopAllLogs(o.db, rows[1..], now);
      }
    }
  }

  lemma ExpireLogs(db: Db, now: int, limit: int)
    ensures Appends(db, Expire(db, now, limit).After(db))
  {
    hide Appends, StopAll, Select;
    NothingLogged(db, db);
    if 1 <= limit <= 1000 {
      var rows := Select(ExpiryRows(db, now), limit);
      StopAllLogs(db, rows, now);
      NothingLogged(db, StopAll(db, rows, now).After(db));
    }
  }

  lemma ConsumeLogs(db: Db, claims: Claims, now: int)
    ensures Appends(db, Consume(db, claims, now).After(db))
  {
    hide Appends;
    NothingLogged(db, Consume(db, claims, now).After(db));
  }

  lemma GrantLogs(db: Db, service: ServiceId, ref: Ref, consumed: CapabilityUse, session: SessionHash, duration: int,
                  key: Key, now: int, lease: LeaseId)
    ensures Appends(db, GrantLease(db, service, ref, consumed, session, duration, key, now, lease).After(db))
  {
    hide Appends, LeaseWithKey, LeaseWithJti;
    NothingLogged(db, GrantLease(db, service, ref, consumed, session, duration, key, now, lease).After(db));
  }

  lemma CallAppends(db: Db, c: Call)
    requires Core(db)
    ensures Appends(db, Step(db, c))
  {
    hide Core, Appends, Create, Leave, BeginReset, Publish, Expire, Complete, Consume, Accept, Transition, GrantLease,
      Reconcile, CleanupFailed;
    match c
    case CreateCall(identity, room, key, deadline, now, ids) => CreateLogs(db, identity, room, key, deadline, now, ids);
    case LeaveCall(identity, ref, key, now, batch) => LeaveLogs(db, identity, ref, key, now, batch);
    case BeginResetCall(identity, ref, key, now, ids) => BeginResetLogs(db, identity, ref, key, now, ids);
    case PublishCall(service, p, ref, expected, key, now, batch) => PublishLogs(db, service, p, ref, expected, key, now, batch);
    case ExpireCall(now, limit) => ExpireLogs(db, now, limit);
    case CompleteCall(service, ref, key, now, batch) => CompleteLogs(db, service, ref, key, now, batch);
    case ConsumeCall(claims, now) => ConsumeLogs(db, claims, now);
    case AcceptCall(service, ref, key, now, batch) => AcceptLogs(db, service, ref, key, now, batch);
    case TransitionCall(service, ref, expected, m, key, now, batch) => TransitionLogs(db, service, ref, expected, m, key, now, batch);
    case GrantCall(service, ref, consumed, session, duration, key, now, lease) =>
      GrantLogs(db, service, ref, consumed, session, duration, key, now, lease);
    case ReconcileCall(now, limit, batch) => ReconcileLogs(db, now, limit, batch);
    case CleanupFailedCall(service, ref, operation, expected, key, error, retryAt, now, batch) =>
      CleanupFailedLogs(db, service, ref, operation, expected, key, error, retryAt, now, batch);
  }
}
