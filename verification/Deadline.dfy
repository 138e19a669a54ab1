/** At or after an attempt's deadline no call moves it forward. */
module Deadline {
  import opened Records
  import opened Schema
  import opened Common
  import opened Selection
  import opened Backend
  import opened ControlPlane
  import opened Runs
  import opened Effects
  import opened Log
  import opened Ledger
  import opened Reachable

  ghost predicate RowEnds(before: Db, after: Db, id: AttemptId) {
    && id in before.attempts && id in after.attempts
    && (after.attempts[id] == before.attempts[id] || after.attempts[id].state.Stopping? || after.attempts[id].state.Destroyed?)
  }

  /** Nothing of the attempt was published, reset, advanced, consumed or leased: changed
      and new rows are only being torn down, and no use or lease was added. */
  ghost predicate NotAdvanced(before: Db, after: Db, id: AttemptId) {
    && RowEnds(before, after, id)
    && (forall s | s in after.resources && after.resources[s].attempt == id ::
          (s in before.resources && after.resources[s] == before.resources[s]) || after.resources[s].state.Ending())
    && (forall j | j in after.uses && after.uses[j].attempt == id :: j in before.uses)
    && (forall l | l in after.leases && after.leases[l].ref.attempt == id :: l in before.leases)
  }

  lemma FinishRows(before: Db, db: Db, id: AttemptId, k: OpKey, op: OperationId, request: Request, ref: Ref, state: State,
                   version: nat)
    requires RowEnds(before, db, id)
    ensures RowEnds(before, Finish(db, k, op, request, ref, state, version).After(before), id)
  {
  }

  lemma StopRows(db: Db, id: AttemptId, other: AttemptId, now: int)
    requires id in db.attempts && other in db.attempts
    ensures RowEnds(db, StopAttempt(db, other, now).After(db), id)
  {
  }

  lemma CreateRows(db: Db, identity: UserIdentity, room: RoomId, key: Key, deadline: int, now: int, ids: Fresh, id: AttemptId)
    requires id in db.attempts
    ensures RowEnds(db, Create(db, identity, room, key, deadline, now, ids).After(db), id)
  {
  }

  lemma LeaveRows(db: Db, identity: UserIdentity, ref: Ref, key: Key, now: int, batch: nat, id: AttemptId)
    requires id in db.attempts
    ensures RowEnds(db, Leave(db, identity, ref, key, now, batch).After(db), id)
  {
    hide Finish, StopAttempt;
    if Binding(db, ref, false).Allow? {
      StopRows(db, id, ref.attempt, now);
      StopAttemptWrites(db, ref.attempt, now);
      var o := StopAttempt(db, ref.attempt, now);
      if o.Done? {
        var a := o.db.attempts[ref.attempt];
        FinishRows(db, o.db, id, OpKey(UserActor(identity.id), key), OperationId(batch, 0), LeaveRequest(ref), ref, a.state, a.version);
      }
    }
  }

  lemma PublishRows(db: Db, service: ServiceId, p: Publication, ref: Ref, expected: nat, key: Key, now: int, batch: nat, id: AttemptId)
    requires id in db.attempts && now >= db.attempts[id].expiresAt
    ensures RowEnds(db, Publish(db, service, p, ref, expected, key, now, batch).After(db), id)
  {
    hide Finish, StopAttempt, MayPublish;
    if Binding(db, ref, false).Allow? {
      StopRows(db, id, ref.attempt, now);
      if id != ref.attempt {
        var db1 := db.(attempts := db.attempts[ref.attempt := Published(db.attempts[ref.attempt], p, ref)]);
        FinishRows(db, db1, id, OpKey(BackendActor(service), key), OperationId(batch, 0), PublishRequest(p, ref, expected), ref,
                   PublicationState(p), expected + 1);
      }
    }
  }

  lemma CompleteRows(db: Db, service: ServiceId, ref: Ref, key: Key, now: int, batch: nat, id: AttemptId)
    requires id in db.attempts
    ensures RowEnds(db, Complete(db, service, ref, key, now, batch).After(db), id)
  {
    hide Finish, StopAttempt, AllDestroyed, UpdateAttempt;
    var k := OpKey(BackendActor(service), key);
    if Binding(db, ref, true).Allow? {
      if ref.sandbox in db.resources {
        FinishRows(db, db, id, k, OperationId(batch, 0), CompleteRequest(ref), ref, Destroyed, db.resources[ref.sandbox].version);
      }
      StopRows(db, id, ref.attempt, now);
      var o := StopAttempt(db, ref.attempt, now);
      if o.Done? && Binding(o.db, ref, false).Allow? {
        var b := Finalized(o.db.attempts[ref.attempt]);
        UpdateSets(o.db, ref.attempt, b);
        FinishRows(db, o.db.(attempts := o.db.attempts[ref.attempt := b]), id, k, OperationId(batch, 0), CompleteRequest(ref), ref,
                   Destroyed, b.version);
      }
    }
  }

  lemma {:induction false} StopAllRows(db: Db, rows: seq<Row>, now: int, id: AttemptId)
    requires RowsKnown(db, rows) && id in db.attempts
    ensures RowEnds(db, StopAll(db, rows, now).After(db), id)
    decreases |rows|
  {
    hide StopAttempt;
    if rows != [] {
      StopRows(db, id, rows[0].attempt, now);
      StopAttemptKeys(db, rows[0].attempt, now);
      var o := StopAttempt(db, rows[0].attempt, now);
      if o.Done? {
        StopAllRows(o.db, rows[1..], now, id);
      }
    }
  }

  lemma ExpireRows(db: Db, now: int, limit: int, id: AttemptId)
    requires id in db.attempts
    ensures RowEnds(db, Expire(db, now, limit).After(db), id)
  {
    hide StopAll, Select;
    if 1 <= limit <= 1000 {
      StopAllRows(db, Select(ExpiryRows(db, now), limit), now, id);
    }
  }

  lemma BeginResetRows(db: Db, identity: UserIdentity, ref: Ref, key: Key, now: int, ids: Fresh, id: AttemptId)
    requires id in db.attempts && now >= db.attempts[id].expiresAt
    ensures RowEnds(db, BeginReset(db, identity, ref, key, now, ids).After(db), id)
  {
    hide Finish, StopAttempt;
    if Binding(db, ref, false).Allow? {
      StopRows(db, id, ref.attempt, now);
      if id != ref.attempt {
        var db1 := db.(attempts := db.attempts[ref.attempt := Resetted(db.attempts[ref.attempt], ids)]);
        FinishRows(db, db1, id, OpKey(UserActor(identity.id), key), OperationId(ids.batch, 0), BeginResetRequest(ref),
                   Ref(ref.attempt, ids.sandbox, ref.generation + 1), Resetting, db.attempts[ref.attempt].version + 1);
      }
    }
  }

  lemma ConsumeRows(db: Db, claims: Claims, now: int, id: AttemptId)
    requires id in db.attempts
    ensures RowEnds(db, Consume(db, claims, now).After(db), id)
  {
    hide StopAttempt;
    if Binding(db, claims.ref, false).Allow? {
      StopRows(db, id, claims.ref.attempt, now);
    }
  }

  lemma BackendStopsAtDeadline(db: Db, c: Call, id: AttemptId)
    requires IsBackendCall(c) && id in db.attempts && TimeOf(c) >= db.attempts[id].expiresAt
    ensures NotAdvanced(db, Step(db, c), id)
  {
    hide RowEnds, Create, Leave, BeginReset, Publish, Expire, Complete, Consume, AttemptWrites;
    BackendOwnsItsRows(db, c);
    match c
    case CreateCall(identity, room, key, deadline, now, ids) => CreateRows(db, identity, room, key, deadline, now, ids, id);
    case LeaveCall(identity, ref, key, now, batch) => LeaveRows(db, identity, ref, key, now, batch, id);
    case BeginResetCall(identity, ref, key, now, ids) => BeginResetRows(db, identity, ref, key, now, ids, id);
    case PublishCall(service, p, ref, expected, key, now, batch) => PublishRows(db, service, p, ref, expected, key, now, batch, id);
    case ExpireCall(now, limit) => ExpireRows(db, now, limit, id);
    case CompleteCall(service, ref, key, now, batch) => CompleteRows(db, service, ref, key, now, batch, id);
    case ConsumeCall(claims, now) =>
      ConsumeRows(db, claims, now, id);
      ConsumeShape(db, claims, now);
      AttemptUses(db, Step(db, c));
    case _ =>
  }

  lemma AttemptUses(before: Db, after: Db)
    ensures AttemptWrites(before, after) ==> after.uses == before.uses
  {
  }

  ghost function TimeOf(c: Call): int {
    c.now
  }

  ghost predicate ControlEnds(before: Db, after: Db) {
    after.attempts == before.attempts && after.uses == before.uses && after.leases == before.leases && OnlyEnds(before, after)
  }

  lemma AcceptEnds(db: Db, service: ServiceId, ref: Ref, key: Key, now: int, batch: nat, id: AttemptId)
    requires id in db.attempts && now >= db.attempts[id].expiresAt
    ensures NotAdvanced(db, Accept(db, service, ref, key, now, batch).After(db), id)
  {
    hide Finish;
    if Binding(db, ref, false).Allow? && id != ref.attempt {
      var db1 := db.(resources := db.resources[ref.sandbox := NewResource(ref, db.attempts[ref.attempt])]);
      FinishShape(db, db1, OpKey(BackendActor(service), key), OperationId(batch, 0), AcceptRequest(ref), ref, Requested, 0);
    }
  }

  lemma {:induction false} ReconcileRowsEnd(db: Db, rows: seq<Row>, now: int, batch: nat, index: nat)
    requires AllCleanable(db, rows)
    ensures AllKnown(db, rows) && ControlEnds(db, ReconcileRows(db, rows, now, batch, index).After(db))
    decreases |rows|
  {
    hide ReconcileRow, Cleanable, AllKnown;
    CleanableIsKnown(db, rows);
    if rows != [] {
      var id := OperationId(batch, index);
      KnownParts(db, rows);
      ReconcileRowShape(db, rows[0], now, id);
      var o := ReconcileRow(db, rows[0], now, id);
      if o.Done? {
        forall i | 0 <= i < |rows[1..]|
          ensures Cleanable(o.db, rows[1..][i])
        {
          StaysCleanable(db, rows[i + 1], CleanupRef(db, rows[0]), id, o.db);
        }
        ReconcileRowsEnd(o.db, rows[1..], now, batch, index + 1);
      }
    }
  }

  lemma ReconcileEnds(db: Db, now: int, limit: int, batch: nat)
    ensures ControlEnds(db, Reconcile(db, now, limit, batch).After(db))
  {
    hide ReconcileRows, Select, AllCleanable;
    if 1 <= limit <= 1000 {
      SelectedAreCleanable(db, now, limit);
      ReconcileRowsEnd(db, Select(CleanupRows(db, now), limit), now, batch, 0);
    }
  }

  /** No call made at or after the deadline of an attempt advances it. */
  lemma NothingAdvancesAfterDeadline(db: Db, c: Call, id: AttemptId)
    requires id in db.attempts && TimeOf(c) >= db.attempts[id].expiresAt
    ensures NotAdvanced(db, Step(db, c), id)
  {
    hide Create, Leave, BeginReset, Publish, Expire, Complete, Consume, Accept, Transition, GrantLease, Reconcile, CleanupFailed;
    if IsBackendCall(c) {
      BackendStopsAtDeadline(db, c, id);
    } else {
      match c
      case AcceptCall(service, ref, key, now, batch) => AcceptEnds(db, service, ref, key, now, batch, id);
      case TransitionCall(service, ref, expected, m, key, now, batch) => TransitionShape(db, service, ref, expected, m, key, now, batch);
      case GrantCall(service, ref, consumed, session, duration, key, now, lease) =>
        GrantShape(db, service, ref, consumed, session, duration, key, now, lease);
      case ReconcileCall(now, limit, batch) => ReconcileEnds(db, now, limit, batch);
      case CleanupFailedCall(service, ref, operation, expected, key, error, retryAt, now, batch) =>
        CleanupFailedShape(db, service, ref, operation, expected, key, error, retryAt, now, batch);
      case _ =>
    }
  }
}
