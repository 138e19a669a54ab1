/** Cleanup cannot get stuck: two undisturbed passes with a succeeding runtime finish every
    attempt that has to go. */
module WorkerProgress {
  import opened Records
  import opened Schema
  import opened Common
  import opened Selection
  import opened Backend
  import opened ControlPlane
  import opened Runs
  import opened Effects
  import opened Invariant
  import opened Preservation
  import opened Log
  import opened Ledger
  import opened Access
  import opened Reachable
  import opened Idempotence
  import opened Keys
  import opened Worlds
  import opened Worker

  /** Nobody else calls the store, it is never busy, and the runtime verifies absence. */
  ghost predicate Calm(schedule: Schedule) {
    forall t: nat :: schedule(t).others == [] && !schedule(t).busy && schedule(t).answer.Evidence?
  }

  lemma CalmServe(w: World, schedule: Schedule)
    requires Calm(schedule)
    ensures Serve(w, schedule) == w.(tick := w.tick + 1)
  {
  }

  // ----- tasks -----

  /** A sandbox that is not destroyed is the current or the active one of its attempt. */
  lemma LiveSandboxIsBound(db: Db, ref: Ref)
    requires Core(db) && Observed(db, ref).Allow? && db.resources[ref.sandbox].state != Destroyed
    ensures Binding(db, ref, true).Allow? && db.attempts[ref.attempt].state != Destroyed
  {
    ResourceIsShaped(db, ref.sandbox);
    AttemptIsShaped(db, ref.attempt);
  }

  ghost predicate TaskReady(db: Db, t: Task) {
    Observed(db, t.ref).Allow? && StillDue(db.resources[t.ref.sandbox], t)
  }

  ghost predicate AllReady(db: Db, tasks: seq<Task>) {
    forall i | 0 <= i < |tasks| :: TaskReady(db, tasks[i])
  }

  ghost predicate DistinctTasks(tasks: seq<Task>) {
    forall i, j | 0 <= i < j < |tasks| :: tasks[i].ref.sandbox != tasks[j].ref.sandbox
  }

  ghost function Sandboxes(tasks: seq<Task>): set<SandboxId> {
    set i | 0 <= i < |tasks| :: tasks[i].ref.sandbox
  }

  lemma EntryIsHonest(db: Db, k: OpKey)
    requires LogOk(db) && KeysOk(db) && k.actor != CleanupActor
    ensures k in db.operations ==> KeyMatches(k.key, db.operations[k].request) && Witnessed(db, db.operations[k])
  {
  }

  /** A destroy key that is still due has not been spent. */
  lemma DestroyKeyUnspent(db: Db, crew: Crew, t: Task, digest: Digest, slice: Slice)
    requires Intact(db) && TaskReady(db, t)
    ensures KeyOf(DestructionOf(crew, t, digest, slice)) !in db.operations
  {
    hide Core, LedgerOk, AccessOk, ResetsOk;
    var k := KeyOf(DestructionOf(crew, t, digest, slice));
    EntryIsHonest(db, k);
  }

  /** With its checks passed and its key unspent, a step to DESTROYED is done or fails in
      the schema. */
  lemma DestructionPasses(db: Db, c: Call)
    requires c.TransitionCall? && MoveOk(c.move) && c.move.state == Destroyed
    requires Binding(db, c.ref, true).Allow? && Observed(db, c.ref).Allow? && KeyOf(c) !in db.operations
    requires db.resources[c.ref.sandbox].version == c.expected && db.resources[c.ref.sandbox].state == Stopping
    ensures Answer(db, c).Done? || Answer(db, c) == Refused(StoreFailure)
  {
    hide Moved;
  }

  /** The state after a destruction: one resource is destroyed, other resources and all
      attempts are as before. */
  ghost predicate Removed(before: Db, s: SandboxId, after: Db) {
    && s in before.resources && s in after.resources
    && after.attempts == before.attempts
    && after.resources == before.resources[s := after.resources[s]]
    && after.resources[s].state == Destroyed
  }

  lemma DestructionSucceeds(db: Db, crew: Crew, t: Task, digest: Digest, slice: Slice)
    requires Intact(db) && TaskReady(db, t) && FreshIds(db, DestructionOf(crew, t, digest, slice))
    ensures var c := DestructionOf(crew, t, digest, slice);
      Answer(db, c).Done? && Removed(db, t.ref.sandbox, Answer(db, c).db)
  {
    hide Core, LogOk, LedgerOk, AccessOk, ResetsOk, KeysOk, RowsGrow, Transition, Quiet;
    var c := DestructionOf(crew, t, digest, slice);
    DestroyKeyUnspent(db, crew, t, digest, slice);
    LiveSandboxIsBound(db, t.ref);
    DestructionPasses(db, c);
    CallIsSound(db, c);
    ReceiptIsLogged(db, c);
    TransitionShape(db, c.service, c.ref, c.expected, c.move, c.key, c.now, c.batch);
    if Quiet(db, Answer(db, c).db) {
      QuietLog(db, Answer(db, c).db);
      assert false;
    }
  }

  lemma QuietLog(before: Db, after: Db)
    requires Quiet(before, after)
    ensures after.operations == before.operations
  {
  }

  // ----- finalizations -----

  /** Finalizations change attempts whose sandboxes are all destroyed, and nothing else
      but receipts. */
  ghost predicate Finalizes(before: Db, after: Db) {
    && after.resources == before.resources && after.attempts.Keys == before.attempts.Keys
    && (forall id | id in before.attempts && after.attempts[id] != before.attempts[id] ::
          && after.attempts[id].state == Destroyed && AllDestroyed(before, id)
          && after.attempts[id].sandbox == before.attempts[id].sandbox && before.attempts[id].sandbox in before.resources)
    && (forall k: OpKey | k.actor == CleanupActor ::
          && (k in after.operations <==> k in before.operations)
          && (k in after.operations ==> after.operations[k] == before.operations[k]))
  }

  lemma FinalizesTwice(x: Db, y: Db, z: Db)
    requires Finalizes(x, y) && Finalizes(y, z)
    ensures Finalizes(x, z)
  {
    forall id | id in x.attempts && z.attempts[id] != x.attempts[id]
      ensures z.attempts[id].state == Destroyed && AllDestroyed(x, id)
    {
      if y.attempts[id] != x.attempts[id] {
      } else {
        assert AllDestroyed(y, id);
      }
    }
  }

  lemma FinishFinalizes(before: Db, db: Db, k: OpKey, id: OperationId, request: Request, ref: Ref, state: State, version: nat)
    requires Finalizes(before, db) && k.actor != CleanupActor
    ensures Finalizes(before, Finish(db, k, id, request, ref, state, version).After(before))
    ensures !Finish(db, k, id, request, ref, state, version).Denied?
  {
  }

  lemma CurrentFinalizes(db: Db, id: AttemptId, now: int)
    requires id in db.attempts && AllDestroyed(db, id) && db.attempts[id].sandbox in db.resources
    ensures var o := StopAttempt(db, id, now);
      && !o.Denied?
      && (o.Done? ==>
            && id in o.db.attempts
            && var p := UpdateAttempt(o.db, id, Finalized(o.db.attempts[id]));
            !p.Denied? && (p.Done? ==> Finalizes(db, p.db) && p.db.attempts[id].state == Destroyed))
  {
  }

  lemma CompletionFinalizes(db: Db, service: ServiceId, ref: Ref, key: Key, now: int, batch: nat)
    ensures var o := Complete(db, service, ref, key, now, batch);
      !o.Denied? && Finalizes(db, o.After(db))
  {
    hide Finalizes, Finish, StopAttempt, UpdateAttempt, AllDestroyed, Finalized;
    NothingFinalized(db);
    var k := OpKey(BackendActor(service), key);
    if Binding(db, ref, true).Allow? && ref.sandbox in db.resources {
      FinishFinalizes(db, db, k, OperationId(batch, 0), CompleteRequest(ref), ref, Destroyed, db.resources[ref.sandbox].version);
      StopNeverDenies(db, ref.attempt, now);
      if IsCurrent(db.attempts[ref.attempt], ref) && AllDestroyed(db, ref.attempt) {
        CurrentFinalizes(db, ref.attempt, now);
        var o := StopAttempt(db, ref.attempt, now);
        if o.Done? {
          var b := Finalized(o.db.attempts[ref.attempt]);
          var p := UpdateAttempt(o.db, ref.attempt, b);
          if p.Done? {
            FinishFinalizes(db, p.db, k, OperationId(batch, 0), CompleteRequest(ref), ref, Destroyed, b.version);
          }
        }
      }
    }
  }

  lemma NothingFinalized(db: Db)
    ensures Finalizes(db, db)
  {
  }

  /** A pending finalization whose sandboxes are all destroyed. */
  ghost predicate Finishable(db: Db, id: AttemptId) {
    AwaitsFinalization(db, id) && AllDestroyed(db, id)
  }

  ghost predicate Gone(db: Db, id: AttemptId) {
    id in db.attempts && db.attempts[id].state == Destroyed
  }

  /** The finalize key of a pending attempt has not been spent. */
  lemma FinalizeKeyUnspent(db: Db, service: ServiceId, id: AttemptId)
    requires Intact(db) && AwaitsFinalization(db, id)
    ensures OpKey(BackendActor(service), FinalizeKey(RefOf(id, db.attempts[id]))) !in db.operations
  {
    hide Core, LedgerOk, AccessOk, ResetsOk;
    var k := OpKey(BackendActor(service), FinalizeKey(RefOf(id, db.attempts[id])));
    EntryIsHonest(db, k);
  }

  lemma CompletionPasses(db: Db, service: ServiceId, id: AttemptId, now: int, batch: nat)
    requires Finishable(db, id)
    requires OpKey(BackendActor(service), FinalizeKey(RefOf(id, db.attempts[id]))) !in db.operations
    requires Core(db)
    ensures var ref := RefOf(id, db.attempts[id]);
      var o := Complete(db, service, ref, FinalizeKey(ref), now, batch);
      o == Refused(StoreFailure) || (o.Done? && Gone(o.db, id))
  {
    hide Core, Finish, StopAttempt, UpdateAttempt, AllDestroyed, Finalized, RowsGrow;
    StopAttemptKeeps(db, id, now);
    CurrentFinalizes(db, id, now);
    var b := Finalized(StopAttempt(db, id, now).db.attempts[id]);
    StatementErrors(StopAttempt(db, id, now).db, id, b);
    FinishErrors();
  }

  lemma StatementErrors(db: Db, id: AttemptId, b: Attempt)
    requires id in db.attempts
    ensures UpdateAttempt(db, id, b).Done? || UpdateAttempt(db, id, b) == Refused(StoreFailure)
  {
  }

  lemma FinishErrors()
    ensures forall db, k, id, request, ref, state, version, error ::
      var o := Finish(db, k, id, request, ref, state, version, error);
      o == Refused(StoreFailure) || (o.Done? && o.db.attempts == db.attempts)
  {
  }

  /** Completing a finishable attempt destroys it. */
  lemma CompletionSucceeds(db: Db, crew: Crew, id: AttemptId, slice: Slice)
    requires Intact(db) && Finishable(db, id)
    requires FreshIds(db, CompletionOf(crew, RefOf(id, db.attempts[id]), slice))
    ensures Gone(Step(db, CompletionOf(crew, RefOf(id, db.attempts[id]), slice)), id)
  {
    hide Core, LogOk, LedgerOk, AccessOk, ResetsOk, KeysOk, RowsGrow, Complete, AllDestroyed;
    var c := CompletionOf(crew, RefOf(id, db.attempts[id]), slice);
    FinalizeKeyUnspent(db, crew.backend, id);
    CompletionPasses(db, crew.backend, id, slice.now, slice.ids.batch);
    CallIsSound(db, c);
  }

  // ----- reconciliation -----

  /** A selected row, before its turn: its resource is there and is its attempt's, or, for a
      reservation, is missing. */
  ghost predicate RowFits(db: Db, row: Row) {
    && Cleanable(db, row)
    && if row.sandbox == 0 then db.attempts[row.attempt].sandbox !in db.resources
       else db.resources[row.sandbox - 1].attempt == row.attempt
  }

  ghost predicate RowsFit(db: Db, rows: seq<Row>) {
    forall i | 0 <= i < |rows| :: RowFits(db, rows[i])
  }

  lemma RowIsObserved(db: Db, row: Row, expired: bool)
    requires Core(db) && RowFits(db, row)
    ensures var ref := CleanupRef(db, row);
      var o := StopForCleanup(db, row, ref, expired);
      o.Done? || o == Refused(StoreFailure)
  {
    hide Core;
    var ref := CleanupRef(db, row);
    if row.sandbox > 0 {
      StopResourceKeeps(db, ref.sandbox, expired);
    }
  }

  lemma RowPasses(db: Db, row: Row, now: int, id: OperationId)
    requires Core(db) && RowFits(db, row)
    ensures ReconcileRow(db, row, now, id).Done? || ReconcileRow(db, row, now, id) == Refused(StoreFailure)
  {
    hide Core, StopForCleanup;
    var a := db.attempts[row.attempt];
    RowIsObserved(db, row, now >= a.expiresAt || a.expiry);
  }

  lemma RowSucceeds(db: Db, row: Row, now: int, id: OperationId)
    requires Core(db) && RowFits(db, row) && OperationUnused(db.operations, id)
    ensures var o := ReconcileRow(db, row, now, id);
      && o.Done? && Core(o.db) && RowEffect(db, CleanupRef(db, row), id, o.db)
      && o.value.ref == CleanupRef(db, row) && TaskReady(o.db, o.value)
  {
    hide Core, ReconcileRow, RowsGrow;
    RowPasses(db, row, now, id);
    ReconcileRowKeeps(db, row, now, id);
    ReconcileRowShape(db, row, now, id);
    var o := ReconcileRow(db, row, now, id);
    ResourceIsShaped(o.db, CleanupRef(db, row).sandbox);
  }

  lemma StillFits(db: Db, row: Row, ref: Ref, id: OperationId, after: Db)
    requires RowFits(db, row) && RowEffect(db, ref, id, after) && CleanupRef(db, row).sandbox != ref.sandbox
    ensures RowFits(after, row) && CleanupRef(after, row) == CleanupRef(db, row)
  {
    StaysCleanable(db, row, ref, id, after);
  }

  /** The tuples that the rows stand for. */
  ghost function RowTuples(db: Db, rows: seq<Row>): (refs: seq<Ref>)
    requires RowsFit(db, rows)
    ensures |refs| == |rows| && forall i | 0 <= i < |rows| :: refs[i] == CleanupRef(db, rows[i])
  {
    seq(|rows|, i requires 0 <= i < |rows| => CleanupRef(db, rows[i]))
  }

  ghost predicate DistinctRefs(refs: seq<Ref>) {
    forall i, j | 0 <= i < j < |refs| :: refs[i].sandbox != refs[j].sandbox
  }

  /** Every tuple has become a ready task; other resources are as before. */
  ghost predicate Reconciled(before: Db, refs: seq<Ref>, after: Db, tasks: seq<Task>) {
    && after.attempts == before.attempts
    && |tasks| == |refs|
    && (forall i | 0 <= i < |refs| :: tasks[i].ref == refs[i])
    && AllReady(after, tasks)
    && (forall s | s in before.resources && s !in Sandboxes(tasks) :: s in after.resources && after.resources[s] == before.resources[s])
    && (forall s | s in after.resources :: s in before.resources || s in Sandboxes(tasks))
  }

  lemma OneMoreSandbox(task: Task, tasks: seq<Task>)
    ensures Sandboxes([task] + tasks) == {task.ref.sandbox} + Sandboxes(tasks)
  {
    var all := [task] + tasks;
    assert all[0] == task;
    forall i | 0 <= i < |tasks|
      ensures tasks[i].ref.sandbox in Sandboxes(all)
    {
      assert all[i + 1] == tasks[i];
    }
  }

  lemma ReconciledOneMore(db: Db, refs: seq<Ref>, id: OperationId, mid: Db, task: Task, after: Db, tasks: seq<Task>)
    requires refs != [] && DistinctRefs(refs)
    requires RowEffect(db, refs[0], id, mid) && task.ref == refs[0] && TaskReady(mid, task)
    requires Reconciled(mid, refs[1..], after, tasks)
    ensures Reconciled(db, refs, after, [task] + tasks)
  {
    var all := [task] + tasks;
    OneMoreSandbox(task, tasks);
    hide Sandboxes;
    assert task.ref.sandbox !in Sandboxes(tasks) by {
      NotAmong(task, tasks, refs);
    }
    forall i | 0 <= i < |refs|
      ensures all[i].ref == refs[i] && TaskReady(after, all[i])
    {
      if i > 0 {
        assert all[i] == tasks[i - 1] && refs[i] == refs[1..][i - 1];
      }
    }
  }

  lemma NotAmong(task: Task, tasks: seq<Task>, refs: seq<Ref>)
    requires refs != [] && DistinctRefs(refs) && task.ref == refs[0] && |tasks| == |refs| - 1
    requires forall i | 0 <= i < |tasks| :: tasks[i].ref == refs[1..][i]
    ensures task.ref.sandbox !in Sandboxes(tasks)
  {
  }

  lemma {:induction false} ReconcileReadies(db: Db, rows: seq<Row>, now: int, batch: nat, index: nat)
    requires Core(db) && RowsFit(db, rows) && DistinctRefs(RowTuples(db, rows)) && BatchUnused(db.operations, batch, index)
    ensures AllKnown(db, rows)
    ensures var o := ReconcileRows(db, rows, now, batch, index);
      o.Done? && Reconciled(db, RowTuples(db, rows), o.db, o.value)
    decreases |rows|
  {
    hide Core, ReconcileRow, Cleanable, RowEffect, TaskReady, Reconciled;
    CleanableIsKnown(db, rows);
    if rows == [] {
      NothingReconciled(db);
    } else {
      var id := OperationId(batch, index);
      RowSucceeds(db, rows[0], now, id);
      var o := ReconcileRow(db, rows[0], now, id);
      var rest := rows[1..];
      forall i | 0 <= i < |rest|
        ensures RowFits(o.db, rest[i]) && CleanupRef(o.db, rest[i]) == CleanupRef(db, rows[i + 1])
      {
        assert RowTuples(db, rows)[i + 1].sandbox != RowTuples(db, rows)[0].sandbox;
        StillFits(db, rows[i + 1], CleanupRef(db, rows[0]), id, o.db);
      }
      assert RowTuples(o.db, rest) == RowTuples(db, rows)[1..];
      RowBatch(db, rows[0], id, o.db, batch, index);
      ReconcileReadies(o.db, rest, now, batch, index + 1);
      var p := ReconcileRows(o.db, rest, now, batch, index + 1);
      ReconciledOneMore(db, RowTuples(db, rows), id, o.db, o.value, p.db, p.value);
      KnownParts(db, rows);
    }
  }

  lemma NothingReconciled(db: Db)
    ensures Reconciled(db, [], db, [])
  {
  }

  lemma RowBatch(db: Db, row: Row, id: OperationId, after: Db, batch: nat, index: nat)
    requires Cleanable(db, row) && RowEffect(db, CleanupRef(db, row), id, after)
    requires BatchUnused(db.operations, batch, index) && id == OperationId(batch, index)
    ensures BatchUnused(after.operations, batch, index + 1)
  {
  }

  // ----- the selected rows -----

  lemma SelectedFits(db: Db, now: int, row: Row)
    requires row in CleanupRows(db, now)
    ensures RowFits(db, row)
    ensures row.sandbox == 0 ==>
      DueReservation(db, row.attempt, now) && row == Plain(db.attempts[row.attempt].expiresAt, row.attempt, 0)
    ensures row.sandbox > 0 ==>
      && DueResource(db, row.sandbox - 1, now)
      && row == Plain(db.attempts[row.attempt].expiresAt, db.resources[row.sandbox - 1].attempt, row.sandbox)
  {
    SelectedIsCleanable(db, now, row);
  }

  lemma SelectedAreDistinct(db: Db, now: int, x: Row, y: Row)
    requires Core(db) && x in CleanupRows(db, now) && y in CleanupRows(db, now) && x != y
    ensures RowFits(db, x) && RowFits(db, y) && CleanupRef(db, x).sandbox != CleanupRef(db, y).sandbox
  {
    hide AttemptsOk, ResourcesOk, DistinctContainers, CleanupRows, RowFits, DueResource, DueReservation;
    SelectedFits(db, now, x);
    SelectedFits(db, now, y);
    FitsApart(db, x, y);
  }

  lemma FitsApart(db: Db, x: Row, y: Row)
    requires DistinctSandboxes(db.attempts) && RowFits(db, x) && RowFits(db, y)
    requires x == (if x.sandbox == 0 then Plain(db.attempts[x.attempt].expiresAt, x.attempt, 0)
                   else Plain(db.attempts[x.attempt].expiresAt, db.resources[x.sandbox - 1].attempt, x.sandbox))
    requires y == (if y.sandbox == 0 then Plain(db.attempts[y.attempt].expiresAt, y.attempt, 0)
                   else Plain(db.attempts[y.attempt].expiresAt, db.resources[y.sandbox - 1].attempt, y.sandbox))
    requires x != y
    ensures CleanupRef(db, x).sandbox != CleanupRef(db, y).sandbox
  {
  }

  lemma SelectionFits(db: Db, now: int, limit: nat)
    requires Core(db)
    ensures RowsFit(db, Select(CleanupRows(db, now), limit))
    ensures DistinctRefs(RowTuples(db, Select(CleanupRows(db, now), limit)))
  {
    hide Core, CleanupRows, RowFits;
    var rows := Select(CleanupRows(db, now), limit);
    forall i | 0 <= i < |rows|
      ensures RowFits(db, rows[i])
    {
      SelectedFits(db, now, rows[i]);
    }
    forall i, j | 0 <= i < j < |rows|
      ensures CleanupRef(db, rows[i]).sandbox != CleanupRef(db, rows[j]).sandbox
    {
      SelectedAreDistinct(db, now, rows[i], rows[j]);
    }
  }

  /** Nothing asks for this sandbox to go. */
  ghost predicate IsInUse(db: Db, s: SandboxId, now: int) {
    && s in db.resources && !db.resources[s].destroy
    && db.resources[s].attempt in db.attempts
    && var a := db.attempts[db.resources[s].attempt];
    && !a.destroy && now < a.expiresAt
    && !(a.reset && a.activeSandbox == Some(s) && a.activeGeneration == Some(db.resources[s].generation))
  }

  lemma TasksSpareTheLiving(db: Db, now: int, limit: nat, s: SandboxId, after: Db, tasks: seq<Task>)
    requires IsInUse(db, s, now)
    requires RowsFit(db, Select(CleanupRows(db, now), limit))
    requires Reconciled(db, RowTuples(db, Select(CleanupRows(db, now), limit)), after, tasks)
    ensures s in after.resources && after.resources[s] == db.resources[s]
  {
    hide CleanupRows, RowFits, Select, AllReady, IsInUse;
    var rows := Select(CleanupRows(db, now), limit);
    var refs := RowTuples(db, rows);
    forall i | 0 <= i < |tasks|
      ensures tasks[i].ref.sandbox != s
    {
      assert tasks[i].ref == refs[i];
      SelectedFits(db, now, rows[i]);
      SelectedIsNotInUse(db, now, rows[i], s);
    }
    InUseIsThere(db, s, now);
  }

  lemma InUseIsThere(db: Db, s: SandboxId, now: int)
    requires IsInUse(db, s, now)
    ensures s in db.resources
  {
  }

  /** Reconciliation never touches the sandbox of a room in use. */
  lemma ReconcileSparesTheLiving(db: Db, now: int, limit: int, batch: nat, s: SandboxId)
    requires Core(db) && FreshBatch(db, batch) && IsInUse(db, s, now)
    ensures var after := Reconcile(db, now, limit, batch).After(db);
      s in after.resources && after.resources[s] == db.resources[s]
  {
    hide Core, CleanupRows, RowFits, ReconcileRows, Select, Reconciled, IsInUse;
    InUseIsThere(db, s, now);
    if LimitOk(limit) {
      var rows := Select(CleanupRows(db, now), limit);
      SelectionFits(db, now, limit);
      ReconcileReadies(db, rows, now, batch, 0);
      var o := ReconcileRows(db, rows, now, batch, 0);
      TasksSpareTheLiving(db, now, limit, s, o.db, o.value);
    }
  }

  lemma SelectedIsNotInUse(db: Db, now: int, row: Row, s: SandboxId)
    requires RowFits(db, row) && IsInUse(db, s, now)
    requires row.sandbox > 0 ==> DueResource(db, row.sandbox - 1, now)
    ensures CleanupRef(db, row).sandbox != s
  {
  }
}
