/** The whole invariant, kept by every call and hence by every run. */
module Reachable {
  import opened Records
  import opened Common
  import opened Selection
  import opened Backend
  import opened ControlPlane
  import opened Runs
  import opened Effects
  import opened Invariant
  import opened Preservation
  import opened Log
  import opened Ledger
  import opened Access

  ghost predicate NoNewResets(before: Db, after: Db) {
    forall k | k in after.operations && after.operations[k].request.BeginResetRequest? ::
      k in before.operations && after.operations[k] == before.operations[k]
  }

  ghost predicate LogStep(before: Db, after: Db) {
    LogGrows(before, after) && NoNewResets(before, after)
  }

  lemma ReceiptsLog(before: Db, after: Db)
    requires ReceiptsOnly(before, after)
    ensures LogStep(before, after)
  {
  }

  lemma TransitionLog(db: Db, k: OpKey, ref: Ref, expected: nat, m: Move, expired: bool, batch: nat)
    requires LedgerOk(db) && ref.sandbox in db.resources && k !in db.operations
    requires MayMove(db.resources[ref.sandbox].state, m.state)
    ensures LogStep(db, TransitionEffect(db, k, ref, expected, m, expired, batch))
  {
    var cleanup := CleanupKey(ref.sandbox);
    if cleanup in db.operations {
      EntryStatus(db, ref.sandbox, db.operations[cleanup]);
      assert db.operations[cleanup].request.CleanupRequest?;
    }
  }

  lemma FailureLog(db: Db, k: OpKey, ref: Ref, operation: OperationId, expected: nat, error: ErrorCode, retryAt: int, batch: nat)
    requires LedgerOk(db) && ref.sandbox in db.resources && CleanupKey(ref.sandbox) in db.operations && k !in db.operations
    requires db.operations[CleanupKey(ref.sandbox)].status != Succeeded
    ensures LogStep(db, FailureEffect(db, k, ref, operation, expected, error, retryAt, batch))
  {
    assert db.operations[CleanupKey(ref.sandbox)].request.CleanupRequest?;
  }

  lemma RowLog(db: Db, ref: Ref, id: OperationId, after: Db)
    requires RowEffect(db, ref, id, after)
    ensures LogStep(db, after)
  {
  }

  lemma LogStepTransitive(x: Db, y: Db, z: Db)
    requires LogStep(x, y) && LogStep(y, z)
    ensures LogStep(x, z)
  {
  }

  lemma ReconcileRowsLogStep(db: Db, rows: seq<Row>, now: int, batch: nat, index: nat)
    requires AllCleanable(db, rows)
    ensures AllKnown(db, rows) && LogStep(db, ReconcileRows(db, rows, now, batch, index).After(db))
    decreases |rows|
  {
    hide ReconcileRow, Cleanable, LogStep, RowEffect, AllKnown;
    ReceiptsLog(db, db);
    CleanableIsKnown(db, rows);
    if rows != [] {
      var id := OperationId(batch, index);
      KnownParts(db, rows);
      ReconcileRowShape(db, rows[0], now, id);
      var o := ReconcileRow(db, rows[0], now, id);
      if o.Done? {
        RowLog(db, CleanupRef(db, rows[0]), id, o.db);
        forall i | 0 <= i < |rows[1..]|
          ensures Cleanable(o.db, rows[1..][i])
        {
          StaysCleanable(db, rows[i + 1], CleanupRef(db, rows[0]), id, o.db);
        }
        ReconcileRowsLogStep(o.db, rows[1..], now, batch, index + 1);
        LogStepTransitive(db, o.db, ReconcileRows(o.db, rows[1..], now, batch, index + 1).After(o.db));
      }
    }
  }

  lemma KnownParts(db: Db, rows: seq<Row>)
    requires AllKnown(db, rows) && rows != []
    ensures RowKnown(db, rows[0])
    ensures forall i | 0 <= i < |rows[1..]| :: RowKnown(db, rows[1..][i])
  {
  }

  lemma ReconcileLogStep(db: Db, now: int, limit: int, batch: nat)
    ensures LogStep(db, Reconcile(db, now, limit, batch).After(db))
  {
    hide LogStep, ReconcileRows, AllCleanable, Select;
    ReceiptsLog(db, db);
    if 1 <= limit <= 1000 {
      SelectedAreCleanable(db, now, limit);
      ReconcileRowsLogStep(db, Select(CleanupRows(db, now), limit), now, batch, 0);
    }
  }

  /** The log is append-only, except that open cleanup operations are updated in place. */
  lemma CallLogs(db: Db, c: Call)
    requires LedgerOk(db)
    ensures LogGrows(db, Step(db, c))
    ensures !c.BeginResetCall? ==> NoNewResets(db, Step(db, c))
  {
    hide LedgerOk, LogGrows, NoNewResets, Create, Leave, BeginReset, Publish, Expire, Complete, Consume, Accept, Transition,
      GrantLease, Reconcile, CleanupFailed, MayGrant, MayMove;
    if IsBackendCall(c) {
      BackendOwnsItsRows(db, c);
      if c.BeginResetCall? {
        BeginResetShape(db, c.identity, c.ref, c.key, c.now, c.ids);
        ResetLog(db, c);
      } else {
        ReceiptsLog(db, Step(db, c));
      }
    } else {
      match c
      case AcceptCall(service, ref, key, now, batch) =>
        AcceptReceipts(db, service, ref, key, now, batch);
        ReceiptsLog(db, Step(db, c));
      case TransitionCall(service, ref, expected, m, key, now, batch) =>
        TransitionShape(db, service, ref, expected, m, key, now, batch);
        if Quiet(db, Step(db, c)) {
          ReceiptsLog(db, Step(db, c));
        } else {
          TransitionLog(db, OpKey(ControlActor(service), key), ref, expected, m,
                        now >= db.resources[ref.sandbox].expiresAt || db.attempts[ref.attempt].expiry, batch);
        }
      case GrantCall(service, ref, consumed, session, duration, key, now, lease) =>
        GrantShape(db, service, ref, consumed, session, duration, key, now, lease);
        ReceiptsLog(db, Step(db, c));
      case ReconcileCall(now, limit, batch) =>
        ReconcileLogStep(db, now, limit, batch);
      case CleanupFailedCall(service, ref, operation, expected, key, error, retryAt, now, batch) =>
        CleanupFailedShape(db, service, ref, operation, expected, key, error, retryAt, now, batch);
        if Step(db, c) == db {
          ReceiptsLog(db, db);
        } else {
          FailureLog(db, OpKey(ControlActor(service), key), ref, operation, expected, error, retryAt, batch);
        }
      case _ =>
    }
  }

  lemma ResetLog(db: Db, c: Call)
    requires c.BeginResetCall?
    requires AttemptWrites(db, Step(db, c))
      || (c.ref.attempt in db.attempts && OpKey(UserActor(c.identity.id), c.key) !in db.operations
          && Step(db, c) == ResetEffect(db, OpKey(UserActor(c.identity.id), c.key), c.ref, c.ids))
    ensures LogGrows(db, Step(db, c))
  {
    hide Step;
  }

  lemma AcceptReceipts(db: Db, service: ServiceId, ref: Ref, key: Key, now: int, batch: nat)
    ensures ReceiptsOnly(db, Accept(db, service, ref, key, now, batch).After(db))
  {
    hide Finish;
    if Binding(db, ref, false).Allow? {
      var db1 := db.(resources := db.resources[ref.sandbox := NewResource(ref, db.attempts[ref.attempt])]);
      FinishShape(db, db1, OpKey(BackendActor(service), key), OperationId(batch, 0), AcceptRequest(ref), ref, Requested, 0);
    }
  }

  /** The reset that reserved the current generation is logged. */
  ghost predicate ResetLogged(operations: map<OpKey, Operation>, ref: Ref) {
    exists k :: k in operations && IsResetOperation(operations[k]) && operations[k].ref == ref
  }

  ghost predicate ResetsOk(db: Db) {
    && (forall id | id in db.attempts && db.attempts[id].state == Resetting ::
          ResetLogged(db.operations, RefOf(id, db.attempts[id])))
    && (forall j, k | j in db.operations && k in db.operations && j != k
          && db.operations[j].request.BeginResetRequest? && db.operations[k].request.BeginResetRequest? ::
          (db.operations[j].ref.attempt, db.operations[j].ref.generation)
            != (db.operations[k].ref.attempt, db.operations[k].ref.generation))
  }

  lemma ResetsFramed(before: Db, after: Db)
    requires ResetsOk(before) && Core(after) && AttemptsGrow(before, after) && LogStep(before, after)
    requires after.attempts == before.attempts || GenerationsKept(before, after)
    requires LedgerOk(before)
    ensures ResetsOk(after)
  {
    forall id | id in after.attempts && after.attempts[id].state == Resetting
      ensures ResetLogged(after.operations, RefOf(id, after.attempts[id]))
    {
      var b := after.attempts[id];
      assert AttemptShape(b);
      assert id in before.attempts;
      assert AttemptGrows(before.resources, before.attempts[id], b);
      var k :| k in before.operations && IsResetOperation(before.operations[k]) && before.operations[k].ref == RefOf(id, b);
      assert k in after.operations && OperationGrows(k, before.operations[k], after.operations[k]);
      assert k.actor != CleanupActor by {
        assert k.actor == CleanupActor ==> Entry(before, k.key.sandbox, before.operations[k]);
      }
    }
  }

  lemma ResetBegun(db: Db, k: OpKey, ref: Ref, ids: Fresh)
    requires ResetsOk(db) && Core(db) && LogOk(db) && LedgerOk(db) && k !in db.operations
    requires Binding(db, ref, false).Allow? && db.attempts[ref.attempt].state.Open()
    ensures ResetsOk(ResetEffect(db, k, ref, ids))
  {
    hide Core, LogOk, LedgerOk;
    var after := ResetEffect(db, k, ref, ids);
    var a := db.attempts[ref.attempt];
    forall id | id in after.attempts && after.attempts[id].state == Resetting
      ensures ResetLogged(after.operations, RefOf(id, after.attempts[id]))
    {
      if id == ref.attempt {
        assert IsResetOperation(after.operations[k]) && after.operations[k].ref == RefOf(id, after.attempts[id]);
      } else {
        var j :| j in db.operations && IsResetOperation(db.operations[j]) && db.operations[j].ref == RefOf(id, db.attempts[id]);
        assert after.operations[j] == db.operations[j];
      }
    }
    forall j | j in db.operations && db.operations[j].request.BeginResetRequest? && db.operations[j].ref.attempt == ref.attempt
      ensures db.operations[j].ref.generation <= a.generation
    {
      OldReset(db, j);
    }
  }

  lemma OldReset(db: Db, j: OpKey)
    requires LogOk(db) && LedgerOk(db) && j in db.operations && db.operations[j].request.BeginResetRequest?
    ensures db.operations[j].ref.attempt in db.attempts
    ensures db.operations[j].ref.generation <= db.attempts[db.operations[j].ref.attempt].generation
  {
    if j.actor == CleanupActor {
      InternalEntry(db, j);
      assert false;
    }
    assert Witnessed(db, db.operations[j]);
  }

  lemma InternalEntry(db: Db, k: OpKey)
    requires LedgerOk(db) && k in db.operations && k.actor == CleanupActor
    ensures k.key.SandboxKey? && Entry(db, k.key.sandbox, db.operations[k]) && db.operations[k].request.CleanupRequest?
  {
  }

  lemma CallKeepsResets(db: Db, c: Call)
    requires Core(db) && LogOk(db) && LedgerOk(db) && ResetsOk(db) && FreshIds(db, c)
    ensures ResetsOk(Step(db, c))
  {
    hide Core, LogOk, LedgerOk, ResetsOk, Step, AttemptsGrow, ResourcesGrow, LogGrows, NoNewResets;
    CallIsSound(db, c);
    GrowsParts(db, Step(db, c));
    CallLogs(db, c);
    if c.BeginResetCall? {
      BeginResetKeepsResets(db, c);
    } else {
      if IsBackendCall(c) {
        BackendOwnsItsRows(db, c);
      } else {
        CallKeepsLedger(db, c);
      }
      ResetsFramed(db, Step(db, c));
    }
  }

  lemma BeginResetKeepsResets(db: Db, c: Call)
    requires c.BeginResetCall? && Core(db) && LogOk(db) && LedgerOk(db) && ResetsOk(db) && FreshIds(db, c)
    requires Core(Step(db, c)) && AttemptsGrow(db, Step(db, c))
    ensures ResetsOk(Step(db, c))
  {
    hide Core, LogOk, LedgerOk, ResetsOk, BeginReset, AttemptsGrow, LogGrows;
    BeginResetShape(db, c.identity, c.ref, c.key, c.now, c.ids);
    if AttemptWrites(db, Step(db, c)) {
      ReceiptsLog(db, Step(db, c));
      ResetsFramed(db, Step(db, c));
    } else {
      ResetBegun(db, OpKey(UserActor(c.identity.id), c.key), c.ref, c.ids);
    }
  }

  /** The whole invariant of the store. */
  ghost predicate Inv(db: Db) {
    Core(db) && LogOk(db) && LedgerOk(db) && AccessOk(db) && ResetsOk(db)
  }

  lemma EmptyIsGood()
    ensures Inv(EMPTY)
  {
  }

  /** One call, whoever makes it: the invariant is kept and rows, log and records only grow. */
  lemma CallKeepsInvariant(db: Db, c: Call)
    requires Inv(db) && FreshIds(db, c)
    ensures Inv(Step(db, c)) && Grows(db, Step(db, c))
  {
    hide Core, LogOk, LedgerOk, AccessOk, ResetsOk, Step, RowsGrow, LogGrows, RecordsKept;
    CallIsSound(db, c);
    CallAppends(db, c);
    LogKept(db, Step(db, c));
    CallKeepsLedger(db, c);
    CallKeepsAccess(db, c);
    CallKeepsResets(db, c);
    CallLogs(db, c);
  }

  lemma GrowsTransitive(x: Db, y: Db, z: Db)
    requires Grows(x, y) && Grows(y, z)
    ensures Grows(x, z)
  {
    hide AttemptGrows, ResourceGrows, RowsGrow;
    RowsGrowTransitive(x, y, z);
  }

  lemma GrowsReflexive(db: Db)
    ensures Grows(db, db)
  {
  }

  /** Any interleaving of calls: the invariant holds in its last state, which has grown from its first. */
  lemma {:induction false} RunKeepsInvariant(db: Db, run: seq<Call>)
    requires Inv(db) && Legal(db, run)
    ensures Inv(Run(db, run)) && Grows(db, Run(db, run))
    decreases |run|
  {
    hide Inv, Grows, Step;
    GrowsReflexive(db);
    if run != [] {
      CallKeepsInvariant(db, run[0]);
      RunKeepsInvariant(Step(db, run[0]), run[1..]);
      GrowsTransitive(db, Step(db, run[0]), Run(db, run));
    }
  }

  ghost predicate IsReachable(db: Db) {
    exists run :: Legal(EMPTY, run) && Run(EMPTY, run) == db
  }

  lemma ReachableIsGood(db: Db)
    requires IsReachable(db)
    ensures Inv(db)
  {
    var run :| Legal(EMPTY, run) && Run(EMPTY, run) == db;
    EmptyIsGood();
    RunKeepsInvariant(EMPTY, run);
  }
}
