/** Two undisturbed passes of the cleanup worker, with a succeeding runtime and room for
    all the work, destroy every attempt that has to go. */
module CleanupTermination {
  import opened Records
  import opened Common
  import opened Selection
  import opened Backend
  import opened ControlPlane
  import opened Runs
  import opened Invariant
  import opened Preservation
  import opened Log
  import opened Ledger
  import opened Access
  import opened Reachable
  import opened Idempotence
  import opened Keys
  import opened Worlds
  import opened Worker
  import opened WorkerSafety
  import opened WorkerProgress

  ghost predicate Healthy(w: World) {
    w.legal && Intact(w.db)
  }

  lemma CalmTransact(w: World, schedule: Schedule, c: Call)
    requires Calm(schedule) && HasReceipt(c)
    ensures var (later, reply) := Transact(w, schedule, c);
      && later.db == Step(w.db, c) && (reply.Allow? <==> Answer(w.db, c).Done?)
      && (later.legal ==> w.legal && FreshIds(w.db, c) && Honest(c))
  {
    hide Answer, Apply, Honest;
    CalmServe(w, schedule);
  }

  /** Resources of `done` are destroyed and others are as before; an attempt that changed is destroyed. */
  ghost predicate Cleaned(before: Db, done: set<SandboxId>, after: Db) {
    && after.resources.Keys == before.resources.Keys && after.attempts.Keys == before.attempts.Keys
    && (forall s | s in before.resources && s !in done :: after.resources[s] == before.resources[s])
    && (forall s | s in done :: s in after.resources && after.resources[s].state == Destroyed)
    && (forall id | id in before.attempts && after.attempts[id] != before.attempts[id] ::
          && after.attempts[id].state == Destroyed
          && after.attempts[id].sandbox == before.attempts[id].sandbox && after.attempts[id].sandbox in after.resources)
  }

  lemma CleanedTwice(x: Db, s: set<SandboxId>, y: Db, t: set<SandboxId>, z: Db)
    requires Cleaned(x, s, y) && Cleaned(y, t, z)
    ensures Cleaned(x, s + t, z)
  {
  }

  lemma RemovedThenFinalized(before: Db, s: SandboxId, removed: Db, after: Db)
    requires Removed(before, s, removed) && Finalizes(removed, after)
    ensures Cleaned(before, {s}, after)
    ensures forall t | TaskReady(before, t) && t.ref.sandbox != s :: TaskReady(after, t)
  {
  }

  lemma CalmFinalize(p: Sweep, schedule: Schedule, crew: Crew, ref: Ref)
    requires Calm(schedule) && Healthy(p.world) && p.raised.None? && Finalize(p, schedule, crew, ref).world.legal
    ensures var q := Finalize(p, schedule, crew, ref);
      Healthy(q.world) && q.raised.None? && Finalizes(p.world.db, q.world.db)
      && q.world.db == Step(p.world.db, CompletionOf(crew, ref, schedule(p.world.tick)))
      && FreshIds(p.world.db, CompletionOf(crew, ref, schedule(p.world.tick)))
  {
    hide Intact, Grows, Finalizes, Transact, Calm, Complete, FreshIds;
    var c := CompletionOf(crew, ref, schedule(p.world.tick));
    CalmTransact(p.world, schedule, c);
    FinalizeLeads(p, schedule, crew, ref);
    FinalizeNeverRaises(p, schedule, crew, ref);
    CompletionFinalizes(p.world.db, c.service, c.ref, c.key, c.now, c.batch);
  }

  lemma CalmDestroy(p: Sweep, schedule: Schedule, crew: Crew, t: Task)
    requires Calm(schedule) && Healthy(p.world) && p.raised.None? && TaskReady(p.world.db, t)
    requires Destroy(p, schedule, crew, t).0.world.legal
    ensures var (q, gone) := Destroy(p, schedule, crew, t);
      gone && Healthy(q.world) && q.raised.None? && Removed(p.world.db, t.ref.sandbox, q.world.db)
  {
    hide Intact, Grows, Removed, Transact, TaskReady;
    ReadyIsSeen(p.world, schedule, t);
    DestroyLeads(p, schedule, crew, t);
    var looked, found := Look(p.world, schedule, t.ref).0, Look(p.world, schedule, t.ref).1;
    var question := DestroyQuestion(t, found.value);
    CalmServe(looked, schedule);
    var asked, answer := AskRuntime(looked, schedule, question).0, AskRuntime(looked, schedule, question).1;
    var c := DestructionOf(crew, t, answer.digest, schedule(asked.tick));
    CalmTransact(asked, schedule, c);
    DestructionSucceeds(asked.db, crew, t, answer.digest, schedule(asked.tick));
  }

  lemma ReadyIsSeen(w: World, schedule: Schedule, t: Task)
    requires Calm(schedule) && Intact(w.db) && TaskReady(w.db, t)
    ensures var (looked, found) := Look(w, schedule, t.ref);
      && looked == w.(tick := w.tick + 1)
      && found.Allow? && StillDue(found.value, t)
  {
    hide Core, LogOk, LedgerOk, AccessOk, ResetsOk, KeysOk, Binding;
    CalmServe(w, schedule);
    LiveSandboxIsBound(w.db, t.ref);
  }

  lemma CalmWork(p: Sweep, schedule: Schedule, crew: Crew, t: Task)
    requires Calm(schedule) && Healthy(p.world) && p.raised.None? && TaskReady(p.world.db, t)
    requires Work(p, schedule, crew, t).world.legal
    ensures var q := Work(p, schedule, crew, t);
      && Healthy(q.world) && q.raised.None? && Cleaned(p.world.db, {t.ref.sandbox}, q.world.db)
      && (forall u | TaskReady(p.world.db, u) && u.ref.sandbox != t.ref.sandbox :: TaskReady(q.world.db, u))
  {
    hide Intact, Grows, Removed, Finalizes, Cleaned, TaskReady, Calm, Destroy, Finalize;
    var (after, gone) := Destroy(p, schedule, crew, t);
    FinalizeLeads(after, schedule, crew, t.ref);
    CalmDestroy(p, schedule, crew, t);
    CalmFinalize(after, schedule, crew, t.ref);
    RemovedThenFinalized(p.world.db, t.ref.sandbox, after.world.db, Finalize(after, schedule, crew, t.ref).world.db);
  }

  lemma {:induction false} CalmWorkAll(p: Sweep, schedule: Schedule, crew: Crew, tasks: seq<Task>)
    requires Calm(schedule) && Healthy(p.world) && p.raised.None?
    requires AllReady(p.world.db, tasks) && DistinctTasks(tasks)
    requires WorkAll(p, schedule, crew, tasks).world.legal
    ensures var q := WorkAll(p, schedule, crew, tasks);
      Healthy(q.world) && q.raised.None? && Cleaned(p.world.db, Sandboxes(tasks), q.world.db)
    decreases |tasks|
  {
    hide Intact, Grows, Cleaned, TaskReady, Calm, Work;
    if tasks == [] {
      NothingCleaned(p.world.db);
    } else {
      var next := Work(p, schedule, crew, tasks[0]);
      WorkAllLeads(next, schedule, crew, tasks[1..]);
      CalmWork(p, schedule, crew, tasks[0]);
      assert AllReady(next.world.db, tasks[1..]);
      CalmWorkAll(next, schedule, crew, tasks[1..]);
      OneMoreSandbox(tasks[0], tasks[1..]);
      assert [tasks[0]] + tasks[1..] == tasks;
      CleanedTwice(p.world.db, {tasks[0].ref.sandbox}, next.world.db, Sandboxes(tasks[1..]),
                   WorkAll(p, schedule, crew, tasks).world.db);
    }
  }

  lemma NothingCleaned(db: Db)
    ensures Cleaned(db, Sandboxes([]), db)
  {
  }

  // ----- the finalizations of a pass -----

  lemma {:induction false} CalmFinalizeAll(p: Sweep, schedule: Schedule, crew: Crew, refs: seq<Ref>)
    requires Calm(schedule) && Healthy(p.world) && p.raised.None?
    requires FinalizeAll(p, schedule, crew, refs).world.legal
    ensures var q := FinalizeAll(p, schedule, crew, refs);
      Healthy(q.world) && q.raised.None? && Finalizes(p.world.db, q.world.db)
    decreases |refs|
  {
    hide Intact, Grows, Finalizes, Calm, Finalize, Step;
    if refs == [] {
      NothingFinalized(p.world.db);
    } else {
      var next := Finalize(p, schedule, crew, refs[0]);
      FinalizeAllLeads(next, schedule, crew, refs[1..]);
      CalmFinalize(p, schedule, crew, refs[0]);
      CalmFinalizeAll(next, schedule, crew, refs[1..]);
      FinalizesTwice(p.world.db, next.world.db, FinalizeAll(p, schedule, crew, refs).world.db);
    }
  }

  /** A finishable attempt among the pending ones is destroyed. */
  lemma {:induction false} FinalizeAllFinishes(p: Sweep, schedule: Schedule, crew: Crew, refs: seq<Ref>, id: AttemptId)
    requires Calm(schedule) && Healthy(p.world) && p.raised.None?
    requires FinalizeAll(p, schedule, crew, refs).world.legal
    requires Gone(p.world.db, id) || (Finishable(p.world.db, id) && RefOf(id, p.world.db.attempts[id]) in refs)
    ensures Gone(FinalizeAll(p, schedule, crew, refs).world.db, id)
    decreases |refs|
  {
    hide Intact, Grows, Finalizes, Calm, Finalize, Step, AllDestroyed;
    if refs != [] {
      var next := Finalize(p, schedule, crew, refs[0]);
      FinalizeAllLeads(next, schedule, crew, refs[1..]);
      CalmFinalize(p, schedule, crew, refs[0]);
      FinishableKept(p.world.db, next.world.db, id);
      if !Gone(p.world.db, id) && refs[0] == RefOf(id, p.world.db.attempts[id]) {
        CompletionSucceeds(p.world.db, crew, id, schedule(p.world.tick));
      }
      FinalizeAllFinishes(next, schedule, crew, refs[1..], id);
    }
  }

  lemma FinishableKept(before: Db, after: Db, id: AttemptId)
    requires Finalizes(before, after)
    ensures Gone(before, id) ==> Gone(after, id)
    ensures Finishable(before, id) ==> Gone(after, id) || (Finishable(after, id) && after.attempts[id] == before.attempts[id])
  {
  }

  // ----- what has to go -----

  /** The attempt is being shut down or past its deadline, or its current sandbox is being torn down. */
  ghost predicate MustFinish(db: Db, id: AttemptId, now: int) {
    && id in db.attempts
    && var a := db.attempts[id];
    a.destroy || a.expiresAt <= now || (a.sandbox in db.resources && db.resources[a.sandbox].destroy)
  }

  /** The retry times of the attempt's sandboxes have passed. */
  ghost predicate RetriesDue(db: Db, id: AttemptId, now: int) {
    && id in db.attempts
    && RetryDue(db, db.attempts[id].sandbox, now)
    && (forall s | s in db.resources && db.resources[s].attempt == id :: RetryDue(db, s, now))
  }

  lemma AllItsSandboxesAreDue(db: Db, id: AttemptId, now: int, s: SandboxId)
    requires Core(db) && MustFinish(db, id, now) && RetriesDue(db, id, now) && !Gone(db, id)
    requires s in db.resources && db.resources[s].attempt == id && db.resources[s].state != Destroyed
    ensures DueResource(db, s, now)
  {
    hide Core;
    ResourceIsShaped(db, s);
    AttemptIsShaped(db, id);
    if db.attempts[id].sandbox in db.resources {
      ResourceIsShaped(db, db.attempts[id].sandbox);
    }
  }

  lemma DueIsSelected(db: Db, now: int, limit: nat, s: SandboxId)
    requires Core(db) && DueResource(db, s, now) && |CleanupRows(db, now)| <= limit
    ensures RowsFit(db, Select(CleanupRows(db, now), limit))
    ensures exists i :: 0 <= i < |Select(CleanupRows(db, now), limit)| && RowTuples(db, Select(CleanupRows(db, now), limit))[i].sandbox == s
  {
    hide Core, RowFits, DueReservation;
    SelectionFits(db, now, limit);
    var row := Plain(db.attempts[db.resources[s].attempt].expiresAt, db.resources[s].attempt, s + 1);
    assert row in CleanupRows(db, now);
    assert row in Select(CleanupRows(db, now), limit);
    var i :| 0 <= i < |Select(CleanupRows(db, now), limit)| && Select(CleanupRows(db, now), limit)[i] == row;
    assert RowTuples(db, Select(CleanupRows(db, now), limit))[i].sandbox == s;
  }

  lemma ReservationIsSelected(db: Db, now: int, limit: nat, id: AttemptId)
    requires Core(db) && DueReservation(db, id, now) && |CleanupRows(db, now)| <= limit
    ensures RowsFit(db, Select(CleanupRows(db, now), limit))
    ensures exists i ::
      0 <= i < |Select(CleanupRows(db, now), limit)| && RowTuples(db, Select(CleanupRows(db, now), limit))[i].sandbox == db.attempts[id].sandbox
  {
    hide Core, RowFits, DueResource;
    SelectionFits(db, now, limit);
    var row := Plain(db.attempts[id].expiresAt, id, 0);
    assert row in CleanupRows(db, now);
    assert row in Select(CleanupRows(db, now), limit);
    var i :| 0 <= i < |Select(CleanupRows(db, now), limit)| && Select(CleanupRows(db, now), limit)[i] == row;
    assert RowTuples(db, Select(CleanupRows(db, now), limit))[i].sandbox == db.attempts[id].sandbox;
  }

  /** The state after reconciling all due rows and destroying all their sandboxes. */
  ghost predicate SweptFrom(before: Db, now: int, limit: nat, tasks: seq<Task>, mid: Db, after: Db) {
    && RowsFit(before, Select(CleanupRows(before, now), limit))
    && Reconciled(before, RowTuples(before, Select(CleanupRows(before, now), limit)), mid, tasks)
    && Cleaned(mid, Sandboxes(tasks), after)
  }

  lemma TupleIsTask(db: Db, refs: seq<Ref>, after: Db, tasks: seq<Task>, i: nat)
    requires Reconciled(db, refs, after, tasks) && i < |refs|
    ensures refs[i].sandbox in Sandboxes(tasks)
  {
    assert tasks[i].ref == refs[i];
  }

  /** Every sandbox of an attempt that has to go is destroyed by the sweep. */
  lemma SweepFinishes(before: Db, now: int, limit: nat, tasks: seq<Task>, mid: Db, after: Db, id: AttemptId)
    requires Core(before) && Core(after) && SweptFrom(before, now, limit, tasks, mid, after)
    requires |CleanupRows(before, now)| <= limit
    requires MustFinish(before, id, now) && RetriesDue(before, id, now) && !Gone(before, id)
    ensures Gone(after, id) || Finishable(after, id)
  {
    hide Core, RowFits, TaskReady, CleanupRows, Select, RetriesDue, DueResource, DueReservation;
    var refs := RowTuples(before, Select(CleanupRows(before, now), limit));
    var a := before.attempts[id];
    forall s | s in after.resources && after.resources[s].attempt == id
      ensures after.resources[s].state == Destroyed
    {
      if s !in Sandboxes(tasks) && before.resources[s].state != Destroyed {
        AllItsSandboxesAreDue(before, id, now, s);
        DueIsSelected(before, now, limit, s);
        var i :| 0 <= i < |refs| && refs[i].sandbox == s;
        TupleIsTask(before, refs, mid, tasks, i);
      }
    }
    if a.sandbox !in before.resources {
      ReservationIsDue(before, id, now);
      ReservationIsSelected(before, now, limit, id);
      var i :| 0 <= i < |refs| && refs[i].sandbox == a.sandbox;
      TupleIsTask(before, refs, mid, tasks, i);
    }
    if !Gone(after, id) {
      assert a.sandbox in after.resources;
      FinishedIsPending(after, id);
    }
  }

  lemma ReservationIsDue(db: Db, id: AttemptId, now: int)
    requires MustFinish(db, id, now) && RetriesDue(db, id, now) && !Gone(db, id) && db.attempts[id].sandbox !in db.resources
    ensures DueReservation(db, id, now)
  {
  }

  lemma FinishedIsPending(db: Db, id: AttemptId)
    requires Core(db) && id in db.attempts && db.attempts[id].state != Destroyed && AllDestroyed(db, id)
    requires db.attempts[id].sandbox in db.resources
    ensures Finishable(db, id)
  {
    hide Core;
    AttemptIsShaped(db, id);
    ResourceIsShaped(db, db.attempts[id].sandbox);
  }

  // ----- the limit -----

  /** Finalizations leave no new cleanup work. */
  lemma FinalizationsAddNoWork(before: Db, after: Db, now: int)
    requires Finalizes(before, after)
    ensures CleanupRows(after, now) <= CleanupRows(before, now)
    ensures |CleanupRows(after, now)| <= |CleanupRows(before, now)|
  {
    forall row | row in CleanupRows(after, now)
      ensures row in CleanupRows(before, now)
    {
      WorkWasThere(before, after, now, row);
    }
    SubsetIsSmaller(CleanupRows(after, now), CleanupRows(before, now));
  }

  lemma WorkWasThere(before: Db, after: Db, now: int, row: Row)
    requires Finalizes(before, after) && row in CleanupRows(after, now)
    ensures row in CleanupRows(before, now)
  {
    if s :| s in after.resources && DueResource(after, s, now)
            && row == Plain(after.attempts[after.resources[s].attempt].expiresAt, after.resources[s].attempt, s + 1) {
      assert after.attempts[after.resources[s].attempt] == before.attempts[after.resources[s].attempt];
      assert DueResource(before, s, now);
    } else {
      var id :| id in after.attempts && DueReservation(after, id, now) && row == Plain(after.attempts[id].expiresAt, id, 0);
      assert after.attempts[id] == before.attempts[id];
      assert DueReservation(before, id, now);
    }
  }

  lemma {:induction false} SubsetIsSmaller<T>(a: set<T>, b: set<T>)
    requires a <= b
    ensures |a| <= |b|
    decreases |a|
  {
    if a != {} {
      var x :| x in a;
      SubsetIsSmaller(a - {x}, b - {x});
    }
  }

  ghost predicate NamesAttempt(db: Db, row: Row) {
    row.attempt in db.attempts && row == Plain(db.attempts[row.attempt].expiresAt, row.attempt, 0)
  }

  /** Rows of attempts with distinct sandboxes are at most as many as the sandboxes. */
  lemma {:induction false} CountBySandbox(db: Db, rows: set<Row>, sandboxes: set<SandboxId>)
    requires DistinctSandboxes(db.attempts)
    requires forall x | x in rows :: NamesAttempt(db, x) && db.attempts[x.attempt].sandbox in sandboxes
    ensures |rows| <= |sandboxes|
    decreases |rows|
  {
    if rows != {} {
      var x :| x in rows;
      var s := db.attempts[x.attempt].sandbox;
      CountBySandbox(db, rows - {x}, sandboxes - {s});
    }
  }

  lemma {:induction false} TaskCount(tasks: seq<Task>)
    ensures |Sandboxes(tasks)| <= |tasks|
    decreases |tasks|
  {
    if tasks != [] {
      TaskCount(tasks[1..]);
      OneMoreSandbox(tasks[0], tasks[1..]);
      assert [tasks[0]] + tasks[1..] == tasks;
    } else {
      assert Sandboxes(tasks) == {};
    }
  }

  /** A pass makes at most as many attempts pending as it had tasks. */
  lemma PendingGrowsByTasks(start: Db, before: Db, refs: seq<Ref>, mid: Db, tasks: seq<Task>, after: Db)
    requires Core(after) && Finalizes(start, before) && Reconciled(before, refs, mid, tasks) && Cleaned(mid, Sandboxes(tasks), after)
    ensures |FinalizationRows(after)| <= |FinalizationRows(start)| + |tasks|
  {
    hide Core, TaskReady, FinalizationRows;
    var added := FinalizationRows(after) - FinalizationRows(start);
    forall x | x in added
      ensures NamesAttempt(after, x) && after.attempts[x.attempt].sandbox in Sandboxes(tasks)
    {
      PendingIsNew(start, before, refs, mid, tasks, after, x);
    }
    SandboxesAreDistinct(after);
    CountBySandbox(after, added, Sandboxes(tasks));
    TaskCount(tasks);
    SubsetIsSmaller(FinalizationRows(after) * FinalizationRows(start), FinalizationRows(start));
    assert FinalizationRows(after) == FinalizationRows(after) * FinalizationRows(start) + added;
  }

  lemma SandboxesAreDistinct(db: Db)
    requires Core(db)
    ensures DistinctSandboxes(db.attempts)
  {
  }

  lemma PendingIsNew(start: Db, before: Db, refs: seq<Ref>, mid: Db, tasks: seq<Task>, after: Db, x: Row)
    requires Finalizes(start, before) && Reconciled(before, refs, mid, tasks) && Cleaned(mid, Sandboxes(tasks), after)
    requires x in FinalizationRows(after) && x !in FinalizationRows(start)
    ensures NamesAttempt(after, x) && after.attempts[x.attempt].sandbox in Sandboxes(tasks)
  {
    hide TaskReady;
    assert AwaitsFinalization(after, x.attempt);
    var s := after.attempts[x.attempt].sandbox;
    if s !in Sandboxes(tasks) {
      assert false;
    }
  }

  // ----- the two passes -----

  /** Room for all pending finalizations and all due tasks. */
  ghost predicate HasRoom(db: Db, now: int, limit: int) {
    LimitOk(limit) && |FinalizationRows(db)| + |CleanupRows(db, now)| <= limit
  }

  /** The clock when an undisturbed pass reconciles. */
  ghost function ReconcileTime(w: World, schedule: Schedule): int {
    schedule(w.tick + 1 + |FinalizationRows(w.db)|).now
  }

  lemma {:induction false} FinalizeAllTicks(p: Sweep, schedule: Schedule, crew: Crew, refs: seq<Ref>)
    requires p.raised.None?
    ensures FinalizeAll(p, schedule, crew, refs).world.tick == p.world.tick + |refs|
    decreases |refs|
  {
    hide Finalize;
    if refs != [] {
      FinalizeTicks(p, schedule, crew, refs[0]);
      FinalizeNeverRaises(p, schedule, crew, refs[0]);
      FinalizeAllTicks(Finalize(p, schedule, crew, refs[0]), schedule, crew, refs[1..]);
    }
  }

  lemma FinalizeTicks(p: Sweep, schedule: Schedule, crew: Crew, ref: Ref)
    ensures Finalize(p, schedule, crew, ref).world.tick == p.world.tick + 1
  {
    hide Transact;
    TransactErrors(p.world, schedule, CompletionOf(crew, ref, schedule(p.world.tick)));
  }

  lemma StillMustFinish(before: Db, after: Db, id: AttemptId, now: int)
    requires Finalizes(before, after) && MustFinish(before, id, now) && RetriesDue(before, id, now)
    ensures Gone(after, id) || (MustFinish(after, id, now) && RetriesDue(after, id, now))
  {
  }

  lemma ScanReadies(w: World, schedule: Schedule, limit: nat)
    requires Calm(schedule) && Healthy(w) && LimitOk(limit) && ScanTasks(w, schedule, limit).0.legal
    ensures var (later, found) := ScanTasks(w, schedule, limit);
      var rows := Select(CleanupRows(w.db, schedule(w.tick).now), limit);
      && found.Allow? && Healthy(later)
      && RowsFit(w.db, rows) && Reconciled(w.db, RowTuples(w.db, rows), later.db, found.value)
      && DistinctTasks(found.value)
  {
    hide Core, LogOk, LedgerOk, AccessOk, ResetsOk, KeysOk, ReconcileRows, Select, CleanupRows, RowFits, AllReady, Grows;
    CalmServe(w, schedule);
    ScanTasksLeads(w, schedule, limit);
    var slice := schedule(w.tick);
    var rows := Select(CleanupRows(w.db, slice.now), limit);
    SelectionFits(w.db, slice.now, limit);
    ReconcileReadies(w.db, rows, slice.now, slice.ids.batch, 0);
    TasksApart(RowTuples(w.db, rows), ReconcileRows(w.db, rows, slice.now, slice.ids.batch, 0).value);
  }

  lemma TasksApart(refs: seq<Ref>, tasks: seq<Task>)
    requires DistinctRefs(refs) && |tasks| == |refs| && forall i | 0 <= i < |refs| :: tasks[i].ref == refs[i]
    ensures DistinctTasks(tasks)
  {
  }

  /** What a pass does after its finalizations. */
  lemma CalmSweep(p: Sweep, schedule: Schedule, crew: Crew, limit: nat, id: AttemptId, start: Db)
    requires Calm(schedule) && Healthy(p.world) && p.raised.None? && 1 <= limit <= 1000
    requires Finalizes(start, p.world.db) && Core(p.world.db)
    requires |CleanupRows(p.world.db, schedule(p.world.tick).now)| <= limit
    requires Gone(p.world.db, id)
      || (MustFinish(p.world.db, id, schedule(p.world.tick).now) && RetriesDue(p.world.db, id, schedule(p.world.tick).now))
    requires ScanTasks(p.world, schedule, limit).1.Allow? ==>
      WorkAll(p.(world := ScanTasks(p.world, schedule, limit).0), schedule, crew, ScanTasks(p.world, schedule, limit).1.value).world.legal
    requires ScanTasks(p.world, schedule, limit).0.legal
    ensures ScanTasks(p.world, schedule, limit).1.Allow?
    ensures var (reconciled, found) := ScanTasks(p.world, schedule, limit);
      var q := WorkAll(p.(world := reconciled), schedule, crew, found.value);
      && Healthy(q.world) && (Gone(q.world.db, id) || Finishable(q.world.db, id))
      && |FinalizationRows(q.world.db)| <= |FinalizationRows(start)| + |CleanupRows(p.world.db, schedule(p.world.tick).now)|
  {
    hide Core, LogOk, LedgerOk, AccessOk, ResetsOk, KeysOk, Grows, ScanTasks, WorkAll, CleanupRows, FinalizationRows, Select,
      RowFits, Finalizes, MustFinish, RetriesDue, Finishable, AllReady, Calm;
    var now := schedule(p.world.tick).now;
    var (reconciled, found) := ScanTasks(p.world, schedule, limit);
    ScanReadies(p.world, schedule, limit);
    var tasks := found.value;
    var swept := p.(world := reconciled);
    CalmWorkAll(swept, schedule, crew, tasks);
    var after := WorkAll(swept, schedule, crew, tasks).world.db;
    var refs := RowTuples(p.world.db, Select(CleanupRows(p.world.db, now), limit));
    PendingGrowsByTasks(start, p.world.db, refs, reconciled.db, tasks, after);
    if !Gone(p.world.db, id) {
      SweepFinishes(p.world.db, now, limit, tasks, reconciled.db, after, id);
    }
  }

  /** The finalizations at the start of a pass. */
  ghost function Finalizations(w: World, schedule: Schedule, crew: Crew, limit: nat): Sweep {
    FinalizeAll(Begin(w.(tick := w.tick + 1)), schedule, crew, RowRefs(w.db, Select(FinalizationRows(w.db), limit)))
  }

  lemma PassIsLegalThroughout(w: World, schedule: Schedule, crew: Crew, limit: nat)
    requires Calm(schedule) && Healthy(w) && LimitOk(limit) && RunOnce(w, schedule, crew, limit).world.legal
    ensures var p := Finalizations(w, schedule, crew, limit);
      Healthy(p.world) && p.raised.None? && Finalizes(w.db, p.world.db)
      && p.world.tick == w.tick + 1 + |Select(FinalizationRows(w.db), limit)|
      && Leads(p.world, RunOnce(w, schedule, crew, limit).world)
  {
    hide Intact, Leads, FinalizeAll, WorkAll, ScanTasks, Select, FinalizationRows, Finalizes, Calm;
    CalmServe(w, schedule);
    var rows := Select(FinalizationRows(w.db), limit);
    var refs := RowRefs(w.db, rows);
    var begun := Begin(w.(tick := w.tick + 1));
    var p := FinalizeAll(begun, schedule, crew, refs);
    Stays(p.world);
    ScanIsCalm(w, schedule, limit);
    FinalizeAllNeverRaises(begun, schedule, crew, refs);
    FinalizeAllTicks(begun, schedule, crew, refs);
    if |refs| < limit {
      var n := limit - |refs|;
      ScanTasksLeads(p.world, schedule, n);
      var (reconciled, found) := ScanTasks(p.world, schedule, n);
      if found.Allow? {
        WorkAllLeads(p.(world := reconciled), schedule, crew, found.value);
        LeadsOn(p.world, reconciled, WorkAll(p.(world := reconciled), schedule, crew, found.value).world);
      }
    }
    LeadsBack(p.world, RunOnce(w, schedule, crew, limit).world);
    CalmFinalizeAll(begun, schedule, crew, refs);
  }

  lemma ScanIsCalm(w: World, schedule: Schedule, limit: nat)
    requires Calm(schedule) && LimitOk(limit)
    ensures ScanFinalizations(w, schedule, limit) ==
      (w.(tick := w.tick + 1), Allow(RowRefs(w.db, Select(FinalizationRows(w.db), limit))))
  {
    CalmServe(w, schedule);
  }

  lemma LeadsBack(w: World, later: World)
    requires Leads(w, later)
    ensures later.legal ==> w.legal
    ensures later.legal && w.legal && Intact(w.db) ==> Intact(later.db) && Grows(w.db, later.db)
  {
  }

  lemma FirstPass(w: World, schedule: Schedule, crew: Crew, limit: nat, id: AttemptId)
    requires Calm(schedule) && Healthy(w) && HasRoom(w.db, ReconcileTime(w, schedule), limit)
    requires MustFinish(w.db, id, ReconcileTime(w, schedule)) && RetriesDue(w.db, id, ReconcileTime(w, schedule))
    requires RunOnce(w, schedule, crew, limit).world.legal
    ensures var q := RunOnce(w, schedule, crew, limit);
      && Healthy(q.world) && (Gone(q.world.db, id) || Finishable(q.world.db, id))
      && |FinalizationRows(q.world.db)| <= limit
  {
    hide Core, LogOk, LedgerOk, AccessOk, ResetsOk, KeysOk, Leads, FinalizeAll, WorkAll, ScanTasks, Select, FinalizationRows,
      CleanupRows, Finalizes, Calm, MustFinish, RetriesDue, Finishable, Grows;
    PassIsLegalThroughout(w, schedule, crew, limit);
    ScanIsCalm(w, schedule, limit);
    var p := Finalizations(w, schedule, crew, limit);
    var now := ReconcileTime(w, schedule);
    var n := limit - |FinalizationRows(w.db)|;
    FinalizationsAddNoWork(w.db, p.world.db, now);
    StillMustFinish(w.db, p.world.db, id, now);
    if n > 0 {
      LegalScan(p, schedule, crew, n);
      CalmSweep(p, schedule, crew, n, id, w.db);
    } else {
      NothingToSweep(w.db, p.world.db, now, id);
    }
  }

  lemma LegalScan(p: Sweep, schedule: Schedule, crew: Crew, limit: nat)
    ensures var (reconciled, found) := ScanTasks(p.world, schedule, limit);
      found.Allow? && WorkAll(p.(world := reconciled), schedule, crew, found.value).world.legal ==> reconciled.legal
  {
    hide WorkAll, ScanTasks, Intact, Grows;
    var (reconciled, found) := ScanTasks(p.world, schedule, limit);
    if found.Allow? {
      WorkAllLeads(p.(world := reconciled), schedule, crew, found.value);
    }
  }

  lemma NothingToSweep(start: Db, db: Db, now: int, id: AttemptId)
    requires Core(db) && Finalizes(start, db) && |CleanupRows(db, now)| == 0
    requires Gone(db, id) || (MustFinish(db, id, now) && RetriesDue(db, id, now))
    ensures Gone(db, id) || Finishable(db, id)
    ensures |FinalizationRows(db)| <= |FinalizationRows(start)|
  {
    hide Core, CleanupRows, FinalizationRows, Finalizes, MustFinish, RetriesDue, Finishable;
    var rows := Select(CleanupRows(db, now), 0);
    assert rows == [];
    NothingReconciled(db);
    NothingCleaned(db);
    assert RowTuples(db, rows) == [];
    PendingGrowsByTasks(start, db, [], db, [], db);
    if !Gone(db, id) {
      SweepFinishes(db, now, 0, [], db, db, id);
    }
  }

  lemma SecondPass(w: World, schedule: Schedule, crew: Crew, limit: nat, id: AttemptId)
    requires Calm(schedule) && Healthy(w) && LimitOk(limit) && |FinalizationRows(w.db)| <= limit
    requires Gone(w.db, id) || Finishable(w.db, id)
    requires RunOnce(w, schedule, crew, limit).world.legal
    ensures Gone(RunOnce(w, schedule, crew, limit).world.db, id)
  {
    hide Intact, Leads, FinalizeAll, RunOnce, Select, FinalizationRows, Finalizes, Calm, AwaitsFinalization, AllDestroyed, RowsGrow,
      LogGrows, RecordsKept;
    PassIsLegalThroughout(w, schedule, crew, limit);
    var rows := Select(FinalizationRows(w.db), limit);
    var begun := Begin(w.(tick := w.tick + 1));
    var p := Finalizations(w, schedule, crew, limit);
    if !Gone(w.db, id) {
      PendingIsListed(w.db, limit, id);
    }
    FinalizeAllFinishes(begun, schedule, crew, RowRefs(w.db, rows), id);
    LeadsBack(p.world, RunOnce(w, schedule, crew, limit).world);
    GoneForGood(p.world.db, RunOnce(w, schedule, crew, limit).world.db, id);
  }

  lemma PendingIsListed(db: Db, limit: nat, id: AttemptId)
    requires Finishable(db, id) && |FinalizationRows(db)| <= limit
    ensures RefOf(id, db.attempts[id]) in RowRefs(db, Select(FinalizationRows(db), limit))
  {
    hide AllDestroyed, CleanlyDestroyed;
    var row := Plain(db.attempts[id].expiresAt, id, 0);
    assert row in FinalizationRows(db);
    var rows := Select(FinalizationRows(db), limit);
    assert row in rows;
    var i :| 0 <= i < |rows| && rows[i] == row;
    assert RowRefs(db, rows)[i] == RefOf(id, db.attempts[id]);
  }

  lemma GoneForGood(before: Db, after: Db, id: AttemptId)
    requires Grows(before, after) && Gone(before, id)
    ensures Gone(after, id)
  {
    assert AttemptGrows(before.resources, before.attempts[id], after.attempts[id]);
  }

  /** Cleanup cannot get stuck. Take any state that legal calls can reach and an attempt in
      it that is being shut down, is past its deadline, or whose current sandbox is being
      torn down. If nobody interferes, the runtime succeeds, the retry times have passed and
      the limit has room for all pending finalizations and due tasks, then two passes leave
      the attempt destroyed. */
  lemma TwoPassesDestroy(w: World, schedule: Schedule, first: Crew, second: Crew, limit: nat, id: AttemptId)
    requires Calm(schedule) && Healthy(w) && HasRoom(w.db, ReconcileTime(w, schedule), limit)
    requires MustFinish(w.db, id, ReconcileTime(w, schedule)) && RetriesDue(w.db, id, ReconcileTime(w, schedule))
    requires RunOnce(RunOnce(w, schedule, first, limit).world, schedule, second, limit).world.legal
    ensures Gone(RunOnce(RunOnce(w, schedule, first, limit).world, schedule, second, limit).world.db, id)
  {
    hide Calm, Intact, RunOnce, FinalizationRows, CleanupRows, MustFinish, RetriesDue, Finishable, Gone, Grows;
    var between := RunOnce(w, schedule, first, limit).world;
    PassKeepsTheStoreSound(between, schedule, second, limit);
    FirstPass(w, schedule, first, limit, id);
    SecondPass(between, schedule, second, limit, id);
  }
}
