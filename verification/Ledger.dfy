/** The ledger of cleanup operations. */
module Ledger {
  import opened Records
  import opened Common
  import opened Selection
  import opened Backend
  import opened ControlPlane
  import opened Runs
  import opened Invariant
  import opened Preservation
  import opened Effects

  /** Failed cleanups of a sandbox that have been logged. */
  ghost function FailedCleanups(operations: map<OpKey, Operation>, s: SandboxId): set<OpKey> {
    set k | k in operations && operations[k].request.CleanupFailedRequest? && operations[k].request.ref.sandbox == s
  }

  /** A cleanup operation belongs to one resource, is finished exactly when the resource
      is destroyed, and counts its failures exactly. */
  ghost predicate Entry(db: Db, s: SandboxId, op: Operation) {
    && s in db.resources
    && op.ref == ResourceRef(s, db.resources[s])
    && op.request == CleanupRequest(op.ref)
    && (op.status == Succeeded <==> db.resources[s].state == Destroyed)
    && op.retryCount == |FailedCleanups(db.operations, s)|
  }

  ghost predicate LedgerOk(db: Db) {
    && (forall k | k in db.operations && k.actor == CleanupActor ::
          k.key.SandboxKey? && Entry(db, k.key.sandbox, db.operations[k]))
    && (forall k | k in db.operations && db.operations[k].request.CleanupFailedRequest? ::
          k.actor != CleanupActor && CleanupKey(db.operations[k].request.ref.sandbox) in db.operations)
  }

  ghost predicate IsFailure(db: Db, k: OpKey) {
    k in db.operations && db.operations[k].request.CleanupFailedRequest?
  }

  ghost predicate SameFailures(before: Db, after: Db) {
    forall k: OpKey ::
      && (IsFailure(before, k) <==> IsFailure(after, k))
      && (IsFailure(before, k) ==> after.operations[k].request == before.operations[k].request)
  }

  lemma SameCount(before: Db, after: Db, s: SandboxId)
    requires SameFailures(before, after)
    ensures FailedCleanups(after.operations, s) == FailedCleanups(before.operations, s)
  {
    forall k: OpKey
      ensures k in FailedCleanups(after.operations, s) <==> k in FailedCleanups(before.operations, s)
    {
      assert IsFailure(before, k) <==> IsFailure(after, k);
    }
  }

  /** An entry follows its resource: unchanged while the resource is neither destroyed nor
      failed, and finished in the step that destroys it. */
  lemma EntryKept(before: Db, after: Db, s: SandboxId, op: Operation, next: Operation)
    requires Entry(before, s, op) && ResourcesGrow(before, after)
    requires FailedCleanups(after.operations, s) == FailedCleanups(before.operations, s)
    requires next.ref == op.ref && next.request == op.request && next.retryCount == op.retryCount
    requires next.status == Succeeded <==> after.resources[s].state == Destroyed
    ensures Entry(after, s, next)
  {
    hide FailedCleanups;
    assert ResourceGrows(before.resources[s], after.resources[s]);
  }

  /** Calls that neither destroy a resource nor touch the ledger keep it. */
  lemma LedgerFramed(before: Db, after: Db)
    requires LedgerOk(before) && ResourcesGrow(before, after) && NoNewRuins(before, after) && ReceiptsOnly(before, after)
    ensures LedgerOk(after)
  {
    hide Entry, ResourcesGrow, FailedCleanups;
    assert SameFailures(before, after);
    forall k | k in after.operations && k.actor == CleanupActor
      ensures k.key.SandboxKey? && Entry(after, k.key.sandbox, after.operations[k])
    {
      var s := k.key.sandbox;
      SameCount(before, after, s);
      SameRuin(before, after, s, before.operations[k]);
      EntryKept(before, after, s, before.operations[k], before.operations[k]);
    }
  }

  lemma SameRuin(before: Db, after: Db, s: SandboxId, op: Operation)
    requires Entry(before, s, op) && ResourcesGrow(before, after) && NoNewRuins(before, after)
    ensures s in after.resources && (op.status == Succeeded <==> after.resources[s].state == Destroyed)
  {
    assert ResourceGrows(before.resources[s], after.resources[s]);
  }

  lemma BackendKeepsLedger(db: Db, c: Call)
    requires IsBackendCall(c) && LedgerOk(db) && ResourcesGrow(db, Step(db, c))
    ensures LedgerOk(Step(db, c))
  {
    hide Step, LedgerOk, ResourcesGrow;
    BackendOwnsItsRows(db, c);
    if c.BeginResetCall? {
      BeginResetKeepsLedger(db, c);
    } else {
      LedgerFramed(db, Step(db, c));
    }
  }

  lemma ResetReceipt(db: Db, k: OpKey, ref: Ref, ids: Fresh)
    requires ref.attempt in db.attempts && LedgerOk(db) && k !in db.operations && k.actor != CleanupActor
    ensures LedgerOk(ResetEffect(db, k, ref, ids))
  {
    var after := ResetEffect(db, k, ref, ids);
    assert SameFailures(db, after);
    forall j | j in after.operations && j.actor == CleanupActor
      ensures j.key.SandboxKey? && Entry(after, j.key.sandbox, after.operations[j])
    {
      SameCount(db, after, j.key.sandbox);
      assert Entry(db, j.key.sandbox, db.operations[j]);
    }
  }

  lemma BeginResetKeepsLedger(db: Db, c: Call)
    requires c.BeginResetCall? && LedgerOk(db) && ResourcesGrow(db, Step(db, c))
    ensures LedgerOk(Step(db, c))
  {
    hide BeginReset, LedgerOk, ResourcesGrow;
    BeginResetShape(db, c.identity, c.ref, c.key, c.now, c.ids);
    if AttemptWrites(db, Step(db, c)) {
      LedgerFramed(db, Step(db, c));
    } else {
      ResetReceipt(db, OpKey(UserActor(c.identity.id), c.key), c.ref, c.ids);
    }
  }

  lemma AcceptKeepsLedger(db: Db, service: ServiceId, ref: Ref, key: Key, now: int, batch: nat)
    requires LedgerOk(db)
    ensures var after := Accept(db, service, ref, key, now, batch).After(db);
      ControlWrites(db, after) && (ResourcesGrow(db, after) ==> LedgerOk(after))
  {
    hide Finish, LedgerOk, ResourcesGrow;
    var after := Accept(db, service, ref, key, now, batch).After(db);
    if Binding(db, ref, false).Allow? {
      var db1 := db.(resources := db.resources[ref.sandbox := NewResource(ref, db.attempts[ref.attempt])]);
      FinishShape(db, db1, OpKey(BackendActor(service), key), OperationId(batch, 0), AcceptRequest(ref), ref, Requested, 0);
    }
    assert ReceiptsOnly(db, after) && NoNewRuins(db, after);
    if ResourcesGrow(db, after) {
      LedgerFramed(db, after);
    }
  }

  lemma StepStates(r: Resource, m: Move, expired: bool)
    requires MayMove(r.state, m.state)
    ensures Moved(r, m, expired).state == m.state && r.state != Destroyed
  {
  }

  lemma EffectFailsNothing(db: Db, k: OpKey, ref: Ref, expected: nat, m: Move, expired: bool, batch: nat)
    requires ref.sandbox in db.resources && k !in db.operations
    ensures SameFailures(db, TransitionEffect(db, k, ref, expected, m, expired, batch))
  {
    hide Moved;
  }

  lemma EffectKeepsLedger(db: Db, k: OpKey, ref: Ref, expected: nat, m: Move, expired: bool, batch: nat)
    requires LedgerOk(db) && ref.sandbox in db.resources && k !in db.operations && k.actor != CleanupActor
    requires ResourcesGrow(db, TransitionEffect(db, k, ref, expected, m, expired, batch))
    requires MayMove(db.resources[ref.sandbox].state, m.state)
    ensures LedgerOk(TransitionEffect(db, k, ref, expected, m, expired, batch))
  {
    hide Entry, ResourcesGrow, FailedCleanups, Moved, MayMove, SameFailures;
    var after := TransitionEffect(db, k, ref, expected, m, expired, batch);
    StepStates(db.resources[ref.sandbox], m, expired);
    EffectFailsNothing(db, k, ref, expected, m, expired, batch);
    forall j | j in after.operations && j.actor == CleanupActor
      ensures j.key.SandboxKey? && Entry(after, j.key.sandbox, after.operations[j])
    {
      var s := j.key.sandbox;
      SameCount(db, after, s);
      EntryStatus(db, s, db.operations[j]);
      EntryKept(db, after, s, db.operations[j], after.operations[j]);
    }
  }

  lemma EntryStatus(db: Db, s: SandboxId, op: Operation)
    requires Entry(db, s, op)
    ensures s in db.resources && (op.status == Succeeded <==> db.resources[s].state == Destroyed)
  {
  }

  lemma TransitionKeepsLedger(db: Db, service: ServiceId, ref: Ref, expected: nat, m: Move, key: Key, now: int, batch: nat)
    requires LedgerOk(db)
    ensures var after := Transition(db, service, ref, expected, m, key, now, batch).After(db);
      ControlWrites(db, after) && (ResourcesGrow(db, after) ==> LedgerOk(after))
  {
    hide Transition, LedgerOk, MayMove, ResourcesGrow;
    var after := Transition(db, service, ref, expected, m, key, now, batch).After(db);
    TransitionShape(db, service, ref, expected, m, key, now, batch);
    if ResourcesGrow(db, after) {
      if Quiet(db, after) {
        LedgerFramed(db, after);
      } else {
        EffectKeepsLedger(db, OpKey(ControlActor(service), key), ref, expected, m,
                          now >= db.resources[ref.sandbox].expiresAt || db.attempts[ref.attempt].expiry, batch);
      }
    }
  }

  /** Logging one more failure of a sandbox adds one to its count and to no other. */
  lemma FailureCounted(db: Db, k: OpKey, ref: Ref, operation: OperationId, expected: nat, error: ErrorCode,
                       retryAt: int, batch: nat, s: SandboxId)
    requires ref.sandbox in db.resources && CleanupKey(ref.sandbox) in db.operations && k !in db.operations
    ensures var after := FailureEffect(db, k, ref, operation, expected, error, retryAt, batch);
      |FailedCleanups(after.operations, s)| == |FailedCleanups(db.operations, s)| + (if s == ref.sandbox then 1 else 0)
  {
    var after := FailureEffect(db, k, ref, operation, expected, error, retryAt, batch);
    var before := FailedCleanups(db.operations, s);
    forall j: OpKey
      ensures j in FailedCleanups(after.operations, s) <==> j in before || (j == k && s == ref.sandbox)
    {
    }
    assert FailedCleanups(after.operations, s) == if s == ref.sandbox then before + {k} else before;
  }

  lemma FailureKeepsLedger(db: Db, k: OpKey, ref: Ref, operation: OperationId, expected: nat, error: ErrorCode,
                           retryAt: int, batch: nat)
    requires LedgerOk(db) && ref.sandbox in db.resources && CleanupKey(ref.sandbox) in db.operations
    requires k !in db.operations && k.actor != CleanupActor && db.resources[ref.sandbox].state == Stopping
    ensures LedgerOk(FailureEffect(db, k, ref, operation, expected, error, retryAt, batch))
  {
    hide FailedCleanups;
    var after := FailureEffect(db, k, ref, operation, expected, error, retryAt, batch);
    forall j | j in after.operations && j.actor == CleanupActor
      ensures j.key.SandboxKey? && Entry(after, j.key.sandbox, after.operations[j])
    {
      assert Entry(db, j.key.sandbox, db.operations[j]);
      FailureCounted(db, k, ref, operation, expected, error, retryAt, batch, j.key.sandbox);
    }
  }

  lemma CleanupFailedKeepsLedger(db: Db, service: ServiceId, ref: Ref, operation: OperationId, expected: nat, key: Key,
                                 error: ErrorCode, retryAt: int, now: int, batch: nat)
    requires LedgerOk(db)
    ensures var after := CleanupFailed(db, service, ref, operation, expected, key, error, retryAt, now, batch).After(db);
      ControlWrites(db, after) && LedgerOk(after)
  {
    hide CleanupFailed, LedgerOk;
    CleanupFailedShape(db, service, ref, operation, expected, key, error, retryAt, now, batch);
    if CleanupFailed(db, service, ref, operation, expected, key, error, retryAt, now, batch).After(db) != db {
      FailureKeepsLedger(db, OpKey(ControlActor(service), key), ref, operation, expected, error, retryAt, batch);
    }
  }

  /** The selected row's sandbox is not destroyed. */
  ghost predicate Cleanable(db: Db, row: Row) {
    && RowLive(db, row)
    && (CleanupRef(db, row).sandbox in db.resources ==> db.resources[CleanupRef(db, row).sandbox].state != Destroyed)
  }

  ghost predicate AllCleanable(db: Db, rows: seq<Row>) {
    forall i | 0 <= i < |rows| :: Cleanable(db, rows[i])
  }

  lemma SelectedIsCleanable(db: Db, now: int, row: Row)
    requires row in CleanupRows(db, now)
    ensures Cleanable(db, row)
  {
    if s :| s in db.resources && DueResource(db, s, now)
            && row == Plain(db.attempts[db.resources[s].attempt].expiresAt, db.resources[s].attempt, s + 1) {
    } else {
      var id :| id in db.attempts && DueReservation(db, id, now) && row == Plain(db.attempts[id].expiresAt, id, 0);
    }
  }

  lemma SelectedAreCleanable(db: Db, now: int, limit: nat)
    ensures AllCleanable(db, Select(CleanupRows(db, now), limit))
  {
    hide Cleanable, CleanupRows;
    var rows := Select(CleanupRows(db, now), limit);
    forall i | 0 <= i < |rows|
      ensures Cleanable(db, rows[i])
    {
      SelectedIsCleanable(db, now, rows[i]);
    }
  }

  /** One resource may have been inserted or stopped; nothing else was written but the log. */
  ghost predicate OneStopped(before: Db, ref: Ref, after: Db) {
    && ControlWrites(before, after) && after.leases == before.leases
    && ref.sandbox in after.resources && after.resources.Keys == before.resources.Keys + {ref.sandbox}
    && (forall s | s in before.resources && s != ref.sandbox :: after.resources[s] == before.resources[s])
    && ResourceRef(ref.sandbox, after.resources[ref.sandbox]) == ref
    && after.resources[ref.sandbox].state == Stopping
  }

  /** The state after one row of a reconciliation. */
  ghost predicate RowEffect(db: Db, ref: Ref, id: OperationId, after: Db) {
    && OneStopped(db, ref, after)
    && after.operations ==
         if CleanupKey(ref.sandbox) in db.operations then db.operations
         else db.operations[CleanupKey(ref.sandbox) := NewCleanup(id, ref, after.resources[ref.sandbox].version)]
  }

  lemma StopResourceShape(db: Db, ref: Ref, expired: bool)
    requires Observed(db, ref).Allow? && db.resources[ref.sandbox].state != Destroyed
    ensures var o := StopResource(db, ref.sandbox, expired);
      !o.Denied? && (o.Done? ==> OneStopped(db, ref, o.db) && o.db.operations == db.operations)
  {
  }

  lemma ReserveShape(db: Db, ref: Ref, expired: bool)
    requires ref.attempt in db.attempts
    ensures var o := ReserveStopping(db, ref, expired);
      && !o.Denied?
      && (o.Done? && ref.sandbox !in db.resources ==> OneStopped(db, ref, o.db) && o.db.operations == db.operations)
      && (o.Done? && ref.sandbox in db.resources ==> o.db == db)
  {
  }

  lemma OneStoppedTwice(x: Db, ref: Ref, y: Db, z: Db)
    requires OneStopped(x, ref, y) && OneStopped(y, ref, z)
    ensures OneStopped(x, ref, z)
  {
  }

  lemma StopForCleanupShape(db: Db, row: Row, ref: Ref, expired: bool)
    requires Cleanable(db, row) && ref == CleanupRef(db, row)
    ensures var o := StopForCleanup(db, row, ref, expired);
      && !o.Denied?
      && (o.Done? ==> OneStopped(db, ref, o.db) && o.db.operations == db.operations && o.value == o.db.resources[ref.sandbox])
  {
    hide OneStopped, StopResource, ReserveStopping;
    ReserveShape(db, ref, expired);
    var reserved := if row.sandbox == 0 then ReserveStopping(db, ref, expired) else Done(db, ());
    if reserved.Done? && Observed(reserved.db, ref).Allow? {
      StopReserved(db, ref, reserved.db, expired);
    }
  }

  lemma StopReserved(db: Db, ref: Ref, reserved: Db, expired: bool)
    requires Observed(reserved, ref).Allow?
    requires if ref.sandbox in db.resources then reserved == db && db.resources[ref.sandbox].state != Destroyed
             else OneStopped(db, ref, reserved)
    ensures var o := StopResource(reserved, ref.sandbox, expired);
      !o.Denied? && (o.Done? ==> OneStopped(db, ref, o.db) && o.db.operations == reserved.operations)
  {
    hide StopResource;
    StopResourceShape(reserved, ref, expired);
    var o := StopResource(reserved, ref.sandbox, expired);
    if ref.sandbox !in db.resources && o.Done? {
      OneStoppedTwice(db, ref, reserved, o.db);
    }
  }

  ghost function TaskFor(db: Db, ref: Ref): Task
    requires ref.sandbox in db.resources && CleanupKey(ref.sandbox) in db.operations
  {
    var r, op := db.resources[ref.sandbox], db.operations[CleanupKey(ref.sandbox)];
    Task(op.id, ref, r.state, r.version, r.expiry, op.retryCount)
  }

  lemma ReconcileRowShape(db: Db, row: Row, now: int, id: OperationId)
    requires Cleanable(db, row)
    ensures var o, ref := ReconcileRow(db, row, now, id), CleanupRef(db, row);
      && !o.Denied?
      && (o.Done? ==> RowEffect(db, ref, id, o.db) && CleanupKey(ref.sandbox) in o.db.operations && o.value == TaskFor(o.db, ref))
  {
    hide StopForCleanup;
    var a := db.attempts[row.attempt];
    var expired := now >= a.expiresAt || a.expiry;
    var ref := CleanupRef(db, row);
    StopForCleanupShape(db, row, ref, expired);
    var o := StopForCleanup(db, row, ref, expired);
    if o.Done? {
      EnsureShape(o.db, ref, o.value.version, id);
    }
  }

  lemma EnsureShape(db: Db, ref: Ref, version: nat, id: OperationId)
    ensures var o := EnsureCleanup(db, ref, version, id);
      !o.Denied? && (o.Done? ==> o.db == db.(operations :=
        if CleanupKey(ref.sandbox) in db.operations then db.operations
        else db.operations[CleanupKey(ref.sandbox) := NewCleanup(id, ref, version)]))
  {
  }

  lemma RowKeepsLedger(db: Db, row: Row, id: OperationId, after: Db)
    requires LedgerOk(db) && Cleanable(db, row) && RowEffect(db, CleanupRef(db, row), id, after)
    requires ResourcesGrow(db, after)
    ensures LedgerOk(after)
  {
    hide Entry, ResourcesGrow;
    var ref := CleanupRef(db, row);
    assert NoNewRuins(db, after);
    assert SameFailures(db, after);
    forall k | k in after.operations && k.actor == CleanupActor
      ensures k.key.SandboxKey? && Entry(after, k.key.sandbox, after.operations[k])
    {
      var s := k.key.sandbox;
      SameCount(db, after, s);
      if k in db.operations {
        SameRuin(db, after, s, db.operations[k]);
        EntryKept(db, after, s, db.operations[k], db.operations[k]);
      } else {
        assert FailedCleanups(db.operations, s) == {};
        NewEntry(after, ref, id);
      }
    }
  }

  lemma NewEntry(db: Db, ref: Ref, id: OperationId)
    requires ref.sandbox in db.resources && ResourceRef(ref.sandbox, db.resources[ref.sandbox]) == ref
    requires db.resources[ref.sandbox].state == Stopping && FailedCleanups(db.operations, ref.sandbox) == {}
    ensures Entry(db, ref.sandbox, NewCleanup(id, ref, db.resources[ref.sandbox].version))
  {
  }

  lemma StaysCleanable(db: Db, row: Row, ref: Ref, id: OperationId, after: Db)
    requires Cleanable(db, row) && RowEffect(db, ref, id, after)
    ensures Cleanable(after, row)
  {
  }

  lemma ReconcileRowsKeepLedger(db: Db, rows: seq<Row>, now: int, batch: nat, index: nat)
    requires Core(db) && LedgerOk(db) && AllCleanable(db, rows) && BatchUnused(db.operations, batch, index)
    ensures AllKnown(db, rows)
    ensures var after := ReconcileRows(db, rows, now, batch, index).After(db);
      ControlWrites(db, after) && LedgerOk(after)
    decreases |rows|
  {
    hide Core, LedgerOk, ReconcileRow, Cleanable, RowsGrow;
    assert forall i | 0 <= i < |rows| :: RowKnown(db, rows[i]) by {
      CleanableIsKnown(db, rows);
    }
    if rows != [] {
      var id := OperationId(batch, index);
      CleanableIsKnown(db, rows);
      ReconcileRowShape(db, rows[0], now, id);
      ReconcileRowKeeps(db, rows[0], now, id);
      var o := ReconcileRow(db, rows[0], now, id);
      assert forall i | 0 <= i < |rows[1..]| :: RowKnown(db, rows[1..][i]);
      if o.Done? {
        GrowsParts(db, o.db);
        RowKeepsLedger(db, rows[0], id, o.db);
        forall i | 0 <= i < |rows[1..]|
          ensures Cleanable(o.db, rows[1..][i])
        {
          StaysCleanable(db, rows[i + 1], CleanupRef(db, rows[0]), id, o.db);
        }
        ReconcileRowsKeepLedger(o.db, rows[1..], now, batch, index + 1);
      }
    }
  }

  lemma GrowsParts(before: Db, after: Db)
    requires RowsGrow(before, after)
    ensures AttemptsGrow(before, after) && ResourcesGrow(before, after)
  {
  }

  lemma CleanableIsKnown(db: Db, rows: seq<Row>)
    requires AllCleanable(db, rows)
    ensures AllKnown(db, rows) && AllLive(db, rows)
  {
  }

  lemma ReconcileKeepsLedger(db: Db, now: int, limit: int, batch: nat)
    requires Core(db) && LedgerOk(db) && FreshBatch(db, batch)
    ensures var after := Reconcile(db, now, limit, batch).After(db);
      ControlWrites(db, after) && LedgerOk(after)
  {
    hide Core, LedgerOk, ReconcileRows, AllCleanable, Select;
    if 1 <= limit <= 1000 {
      SelectedAreCleanable(db, now, limit);
      ReconcileRowsKeepLedger(db, Select(CleanupRows(db, now), limit), now, batch, 0);
    }
  }

  /** Every call keeps the ledger exact. */
  lemma CallKeepsLedger(db: Db, c: Call)
    requires Core(db) && LedgerOk(db) && FreshIds(db, c)
    ensures LedgerOk(Step(db, c))
    ensures !IsBackendCall(c) ==> Step(db, c).attempts == db.attempts && Step(db, c).uses == db.uses
    ensures !IsBackendCall(c) && !c.GrantCall? ==> Step(db, c).leases == db.leases
  {
    hide Core, LedgerOk, Create, Leave, BeginReset, Publish, Expire, Complete, Consume, Accept, Transition, GrantLease,
      Reconcile, CleanupFailed, ResourcesGrow, AttemptsGrow, Quiet;
    CallIsSound(db, c);
    GrowsParts(db, Step(db, c));
    match c
    case AcceptCall(service, ref, key, now, batch) => AcceptKeepsLedger(db, service, ref, key, now, batch);
    case TransitionCall(service, ref, expected, m, key, now, batch) =>
      TransitionKeepsLedger(db, service, ref, expected, m, key, now, batch);
    case GrantCall(service, ref, consumed, session, duration, key, now, lease) =>
      GrantKeepsLedger(db, c);
    case ReconcileCall(now, limit, batch) => ReconcileKeepsLedger(db, now, limit, batch);
    case CleanupFailedCall(service, ref, operation, expected, key, error, retryAt, now, batch) =>
      CleanupFailedKeepsLedger(db, service, ref, operation, expected, key, error, retryAt, now, batch);
    case _ => BackendKeepsLedger(db, c);
  }

  lemma GrantKeepsLedger(db: Db, c: Call)
    requires c.GrantCall? && LedgerOk(db) && ResourcesGrow(db, Step(db, c))
    ensures LedgerOk(Step(db, c)) && Step(db, c).attempts == db.attempts && Step(db, c).uses == db.uses
  {
    hide LedgerOk, GrantLease, ResourcesGrow;
    GrantShape(db, c.service, c.ref, c.consumed, c.session, c.duration, c.key, c.now, c.lease);
    assert ReceiptsOnly(db, Step(db, c)) && NoNewRuins(db, Step(db, c));
    LedgerFramed(db, Step(db, c));
  }
}
