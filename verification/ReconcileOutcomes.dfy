/** What one reconciliation does to each due sandbox, and what its tasks tell the worker. */
module ReconcileOutcomes {
  import opened Records
  import opened Selection
  import opened Backend
  import opened ControlPlane
  import opened Runs
  import opened Invariant
  import opened Preservation
  import opened Ledger
  import opened Reachable
  import opened WorkerProgress
  import opened ControlOutcomes

  /** The stop of a row for cleanup. */
  ghost predicate StoppedRow(r: Resource, s: Resource, expired: bool) {
    && KeepsReservation(r, s) && s.container == r.container && s.evidence == r.evidence && s.cleanupEvidence == r.cleanupEvidence
    && s.state == Stopping && s.destroy && (s.expiry <==> r.expiry || expired)
    && s.version == (if r.state == Stopping && s.expiry == r.expiry then r.version else r.version + 1)
  }

  /** The row for a sandbox whose creation was interrupted before it had one. */
  ghost predicate ReservedRow(a: Attempt, ref: Ref, s: Resource, expired: bool) {
    && s.attempt == ref.attempt && s.generation == ref.generation && s.runtimeId == a.runtimeId && s.expiresAt == a.expiresAt
    && s.state == Stopping && s.destroy && (s.expiry <==> expired) && s.version == 0
    && s.container == None && s.evidence == None && s.cleanupEvidence == None
  }

  /** A new cleanup operation for the sandbox, not tried yet. */
  ghost predicate IsNewCleanup(op: Operation, ref: Ref, version: nat) {
    && op.request == CleanupRequest(ref) && op.ref == ref && op.status == Pending && op.state == Stopping && op.version == version
    && op.retryCount == 0 && op.retryAt == 0 && op.error == None
  }

  /** What became of one due sandbox, and what its task says. */
  ghost predicate IsTold(before: Db, ref: Ref, now: int, after: Db, t: Task) {
    && ref.attempt in before.attempts && ref.sandbox in after.resources && CleanupKey(ref.sandbox) in after.operations
    && var a, s, op := before.attempts[ref.attempt], after.resources[ref.sandbox], after.operations[CleanupKey(ref.sandbox)];
    var expired := now >= a.expiresAt || a.expiry;
    && (if ref.sandbox in before.resources then StoppedRow(before.resources[ref.sandbox], s, expired)
        else ReservedRow(a, ref, s, expired))
    && (if CleanupKey(ref.sandbox) in before.operations then op == before.operations[CleanupKey(ref.sandbox)]
        else IsNewCleanup(op, ref, s.version))
    && t == Task(op.id, ref, Stopping, s.version, s.expiry, op.retryCount)
  }

  lemma StopForCleanupTold(db: Db, row: Row, expired: bool)
    requires Core(db) && RowFits(db, row)
    ensures var ref := CleanupRef(db, row);
      var o := StopForCleanup(db, row, ref, expired);
      o.Done? ==>
        && o.db.operations == db.operations && ref.sandbox in o.db.resources && o.value == o.db.resources[ref.sandbox]
        && o.value.state == Stopping
        && (if ref.sandbox in db.resources then StoppedRow(db.resources[ref.sandbox], o.value, expired)
            else ReservedRow(db.attempts[row.attempt], ref, o.value, expired))
  {
    hide Core;
    var ref := CleanupRef(db, row);
    if ref.sandbox in db.resources {
      ResourceIsShaped(db, ref.sandbox);
    }
  }

  lemma RowIsTold(db: Db, row: Row, now: int, id: OperationId)
    requires Core(db) && RowFits(db, row)
    ensures var o := ReconcileRow(db, row, now, id);
      o.Done? ==> IsTold(db, CleanupRef(db, row), now, o.db, o.value)
  {
    hide Core, StopForCleanup, StoppedRow, ReservedRow;
    var a := db.attempts[row.attempt];
    StopForCleanupTold(db, row, now >= a.expiresAt || a.expiry);
  }

  /** Sandboxes other than these, and their cleanup operations, are as before. */
  ghost predicate OthersStay(before: Db, refs: seq<Ref>, after: Db) {
    && after.attempts == before.attempts
    && (forall s | !Names(refs, s) ::
          && (s in after.resources <==> s in before.resources)
          && (s in before.resources ==> after.resources[s] == before.resources[s])
          && (CleanupKey(s) in after.operations <==> CleanupKey(s) in before.operations)
          && (CleanupKey(s) in before.operations ==> after.operations[CleanupKey(s)] == before.operations[CleanupKey(s)]))
  }

  ghost predicate Names(refs: seq<Ref>, s: SandboxId) {
    exists i :: 0 <= i < |refs| && refs[i].sandbox == s
  }

  ghost predicate AllTold(before: Db, refs: seq<Ref>, now: int, after: Db, tasks: seq<Task>) {
    |tasks| == |refs| && forall i | 0 <= i < |refs| :: IsTold(before, refs[i], now, after, tasks[i])
  }

  lemma EffectIsLocal(db: Db, ref: Ref, id: OperationId, after: Db)
    requires RowEffect(db, ref, id, after)
    ensures OthersStay(db, [ref], after)
  {
    assert forall s | !Names([ref], s) :: s != ref.sandbox by {
      assert [ref][0] == ref;
    }
  }

  lemma ToldEarlier(before: Db, ref: Ref, now: int, mid: Db, refs: seq<Ref>, after: Db, t: Task)
    requires IsTold(before, ref, now, mid, t) && OthersStay(mid, refs, after) && !Names(refs, ref.sandbox)
    ensures IsTold(before, ref, now, after, t)
  {
  }

  lemma ToldLater(before: Db, ref: Ref, now: int, mid: Db, first: Ref, after: Db, t: Task)
    requires OthersStay(before, [first], mid) && IsTold(mid, ref, now, after, t) && ref.sandbox != first.sandbox
    ensures IsTold(before, ref, now, after, t)
  {
    assert !Names([first], ref.sandbox);
  }

  lemma OthersStayTwice(x: Db, first: Ref, y: Db, refs: seq<Ref>, z: Db)
    requires refs != [] && first == refs[0] && OthersStay(x, [first], y) && OthersStay(y, refs[1..], z)
    ensures OthersStay(x, refs, z)
  {
    forall s | !Names(refs, s)
      ensures !Names([first], s) && !Names(refs[1..], s)
    {
      assert refs[0].sandbox != s;
      forall i | 0 <= i < |refs[1..]|
        ensures refs[1..][i].sandbox != s
      {
        assert refs[1..][i] == refs[i + 1];
      }
    }
  }

  lemma ToldOneMore(db: Db, refs: seq<Ref>, now: int, id: OperationId, mid: Db, task: Task, after: Db, tasks: seq<Task>)
    requires refs != [] && DistinctRefs(refs) && RowEffect(db, refs[0], id, mid) && IsTold(db, refs[0], now, mid, task)
    requires AllTold(mid, refs[1..], now, after, tasks) && OthersStay(mid, refs[1..], after)
    ensures AllTold(db, refs, now, after, [task] + tasks) && OthersStay(db, refs, after)
  {
    hide IsTold, RowEffect, OthersStay;
    EffectIsLocal(db, refs[0], id, mid);
    OthersStayTwice(db, refs[0], mid, refs, after);
    forall i | 0 <= i < |refs[1..]|
      ensures refs[1..][i].sandbox != refs[0].sandbox
    {
      assert refs[1..][i] == refs[i + 1];
    }
    ToldEarlier(db, refs[0], now, mid, refs[1..], after, task);
    var all := [task] + tasks;
    forall i | 0 <= i < |refs|
      ensures IsTold(db, refs[i], now, after, all[i])
    {
      if i > 0 {
        assert refs[i] == refs[1..][i - 1] && all[i] == tasks[i - 1];
        ToldLater(db, refs[i], now, mid, refs[0], after, all[i]);
      }
    }
  }

  lemma NothingTold(db: Db, now: int)
    ensures AllTold(db, [], now, db, []) && OthersStay(db, [], db)
  {
  }

  lemma {:induction false} ReconcileTells(db: Db, rows: seq<Row>, now: int, batch: nat, index: nat)
    requires Core(db) && RowsFit(db, rows) && DistinctRefs(RowTuples(db, rows)) && BatchUnused(db.operations, batch, index)
    ensures AllKnown(db, rows)
    ensures var o := ReconcileRows(db, rows, now, batch, index);
      o.Done? && AllTold(db, RowTuples(db, rows), now, o.db, o.value) && OthersStay(db, RowTuples(db, rows), o.db)
    decreases |rows|
  {
    hide Core, ReconcileRow, Cleanable, RowEffect, TaskReady, AllTold, OthersStay, IsTold;
    CleanableIsKnown(db, rows);
    if rows == [] {
      NothingTold(db, now);
    } else {
      var id := OperationId(batch, index);
      RowSucceeds(db, rows[0], now, id);
      RowIsTold(db, rows[0], now, id);
      var o := ReconcileRow(db, rows[0], now, id);
      var rest := rows[1..];
      forall i | 0 <= i < |rest|
        ensures RowFits(o.db, rest[i]) && CleanupRef(o.db, rest[i]) == CleanupRef(db, rows[i + 1])
      {
        assert RowTuples(db, rows)[i + 1].sandbox != RowTuples(db, rows)[0].sandbox;
        StillFits(db, rows[i + 1], CleanupRef(db, rows[0]), id, o.db);
      }
      assert RowTuples(o.db, rest) == RowTuples(db, rows)[1..];
      RowBatch(db, rows[0], id, o.db, batch, index);
      ReconcileTells(o.db, rest, now, batch, index + 1);
      var p := ReconcileRows(o.db, rest, now, batch, index + 1);
      ToldOneMore(db, RowTuples(db, rows), now, id, o.db, o.value, p.db, p.value);
      KnownParts(db, rows);
    }
  }

  // ----- which sandboxes -----

  ghost predicate RetryTimePassed(db: Db, s: SandboxId, now: int) {
    CleanupKey(s) in db.operations ==> db.operations[CleanupKey(s)].retryAt <= now
  }

  /** A sandbox whose cleanup is due: of an attempt that is not destroyed and is being shut down
      or past its deadline, or itself being torn down, or the old one of a reset; or a
      reserved one without a row, of an attempt that is being shut down or past its deadline. */
  ghost predicate IsDue(db: Db, ref: Ref, now: int) {
    && ref.attempt in db.attempts && db.attempts[ref.attempt].state != Destroyed && RetryTimePassed(db, ref.sandbox, now)
    && var a := db.attempts[ref.attempt];
    if ref.sandbox in db.resources then
      && HasRow(db, ref) && db.resources[ref.sandbox].state != Destroyed
      && (a.destroy || now >= a.expiresAt || db.resources[ref.sandbox].destroy
          || (a.reset && a.activeSandbox == Some(ref.sandbox) && a.activeGeneration == Some(ref.generation)))
    else ref == RefOf(ref.attempt, a) && (a.destroy || now >= a.expiresAt)
  }

  ghost predicate DeadlineNoLater(db: Db, x: Ref, y: Ref) {
    && x.attempt in db.attempts && y.attempt in db.attempts
    && db.attempts[x.attempt].expiresAt <= db.attempts[y.attempt].expiresAt
  }

  /** Due sandboxes, each once, earliest deadline first, all unless the limit is reached. */
  ghost predicate DueListed(db: Db, now: int, limit: nat, refs: seq<Ref>) {
    && |refs| <= limit && DistinctRefs(refs)
    && (forall i | 0 <= i < |refs| :: IsDue(db, refs[i], now))
    && (forall i, j | 0 <= i < j < |refs| :: DeadlineNoLater(db, refs[i], refs[j]))
    && (forall ref | IsDue(db, ref, now) && ref !in refs ::
          |refs| == limit && forall i | 0 <= i < |refs| :: DeadlineNoLater(db, refs[i], ref))
  }

  lemma RowIsDue(db: Db, now: int, row: Row)
    requires row in CleanupRows(db, now)
    ensures RowFits(db, row) && IsDue(db, CleanupRef(db, row), now)
    ensures row.expiresAt == db.attempts[row.attempt].expiresAt && CleanupRef(db, row).attempt == row.attempt
  {
    hide CleanupRows;
    SelectedFits(db, now, row);
  }

  ghost function DueRow(db: Db, ref: Ref): Row
    requires ref.attempt in db.attempts
  {
    Plain(db.attempts[ref.attempt].expiresAt, ref.attempt, if ref.sandbox in db.resources then ref.sandbox + 1 else 0)
  }

  lemma DueHasRow(db: Db, now: int, ref: Ref)
    requires IsDue(db, ref, now)
    ensures DueRow(db, ref) in CleanupRows(db, now) && CleanupRef(db, DueRow(db, ref)) == ref
  {
    if ref.sandbox in db.resources {
      assert DueResource(db, ref.sandbox, now);
    } else {
      assert DueReservation(db, ref.attempt, now);
    }
  }

  lemma UnlistedIsLater(db: Db, now: int, limit: nat, ref: Ref)
    requires RowsFit(db, Select(CleanupRows(db, now), limit)) && IsDue(db, ref, now)
    requires ref !in RowTuples(db, Select(CleanupRows(db, now), limit))
    ensures |Select(CleanupRows(db, now), limit)| == limit
    ensures forall i | 0 <= i < limit :: DeadlineNoLater(db, RowTuples(db, Select(CleanupRows(db, now), limit))[i], ref)
  {
    hide CleanupRows, Select, RowFits, IsDue;
    var rows := Select(CleanupRows(db, now), limit);
    DueHasAttempt(db, now, ref);
    DueHasRow(db, now, ref);
    var row := DueRow(db, ref);
    UnlistedHasNoRow(db, rows, row, ref);
    forall i | 0 <= i < limit
      ensures DeadlineNoLater(db, RowTuples(db, rows)[i], ref)
    {
      RowIsDue(db, now, rows[i]);
      assert Before(rows[i], row);
    }
  }

  lemma UnlistedHasNoRow(db: Db, rows: seq<Row>, row: Row, ref: Ref)
    requires RowsFit(db, rows) && ref !in RowTuples(db, rows) && (RowKnown(db, row) ==> CleanupRef(db, row) == ref)
    ensures row !in rows
  {
    forall i | 0 <= i < |rows|
      ensures rows[i] != row
    {
      assert RowTuples(db, rows)[i] == CleanupRef(db, rows[i]);
    }
  }

  lemma DueHasAttempt(db: Db, now: int, ref: Ref)
    requires IsDue(db, ref, now)
    ensures ref.attempt in db.attempts
  {
  }

  lemma DueAreListed(db: Db, now: int, limit: nat)
    requires Core(db)
    ensures RowsFit(db, Select(CleanupRows(db, now), limit))
    ensures DueListed(db, now, limit, RowTuples(db, Select(CleanupRows(db, now), limit)))
  {
    hide Core, CleanupRows, Select, RowFits, IsDue;
    SelectionFits(db, now, limit);
    var rows := Select(CleanupRows(db, now), limit);
    var refs := RowTuples(db, rows);
    SelectIsOrdered(CleanupRows(db, now), limit);
    forall i | 0 <= i < |refs|
      ensures IsDue(db, refs[i], now)
    {
      RowIsDue(db, now, rows[i]);
    }
    forall i, j | 0 <= i < j < |refs|
      ensures DeadlineNoLater(db, refs[i], refs[j])
    {
      RowIsDue(db, now, rows[i]);
      RowIsDue(db, now, rows[j]);
      DueHasAttempt(db, now, refs[i]);
      DueHasAttempt(db, now, refs[j]);
      assert Before(rows[i], rows[j]);
    }
    forall ref | IsDue(db, ref, now) && ref !in refs
      ensures |refs| == limit && forall i | 0 <= i < |refs| :: DeadlineNoLater(db, refs[i], ref)
    {
      UnlistedIsLater(db, now, limit, ref);
    }
  }

  ghost function RefsOf(tasks: seq<Task>): (refs: seq<Ref>)
    ensures |refs| == |tasks| && forall i | 0 <= i < |tasks| :: refs[i] == tasks[i].ref
  {
    seq(|tasks|, i requires 0 <= i < |tasks| => tasks[i].ref)
  }

  /** Reconciliation succeeds for every limit of 1 to 1000: it names due sandboxes, earliest
      deadline first, stops exactly these, reserves the ones without a row, gives each a
      cleanup operation if it has none, and hands out what the rows and operations then show. */
  lemma ReconcileOutcome(db: Db, now: int, limit: int, batch: nat)
    requires Core(db) && FreshBatch(db, batch)
    ensures var o := Reconcile(db, now, limit, batch);
      if !(1 <= limit <= 1000) then o == Refused(InvalidRequest)
      else
        && o.Done? && DueListed(db, now, limit, RefsOf(o.value))
        && AllTold(db, RefsOf(o.value), now, o.db, o.value) && OthersStay(db, RefsOf(o.value), o.db)
  {
    hide Core, CleanupRows, Select, RowFits, ReconcileRows, IsTold, OthersStay, DueListed;
    if LimitOk(limit) {
      var rows := Select(CleanupRows(db, now), limit);
      DueAreListed(db, now, limit);
      SelectionFits(db, now, limit);
      ReconcileTells(db, rows, now, batch, 0);
      var o := ReconcileRows(db, rows, now, batch, 0);
      ToldRefs(db, RowTuples(db, rows), now, o.db, o.value);
    }
  }

  lemma ToldRefs(db: Db, refs: seq<Ref>, now: int, after: Db, tasks: seq<Task>)
    requires AllTold(db, refs, now, after, tasks)
    ensures RefsOf(tasks) == refs
  {
    forall i | 0 <= i < |refs|
      ensures tasks[i].ref == refs[i]
    {
      assert IsTold(db, refs[i], now, after, tasks[i]);
    }
  }
}
