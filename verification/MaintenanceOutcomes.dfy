/** What a maintenance pass achieves: rooms past their deadline are expired, due sandboxes are
    destroyed, and interrupted resets become READY. */
module MaintenanceOutcomes {
  import opened Records
  import opened Selection
  import opened Backend
  import opened ControlPlane
  import opened Invariant
  import opened Log
  import opened Ledger
  import opened Access
  import opened Reachable
  import opened Keys
  import opened Worlds
  import opened Worker
  import opened WorkerProgress
  import opened CleanupTermination
  import opened BackendOutcomes
  import opened ReconcileOutcomes
  import opened WorkerOutcomes
  import opened PassLocality
  import opened Maintenance

  // ----- a cleanup pass destroys exactly what is due -----

  ghost predicate IsRemoved(db: Db, s: SandboxId) {
    s in db.resources && db.resources[s].state == Destroyed
  }

  ghost predicate IsDueSandbox(db: Db, s: SandboxId, now: int) {
    exists ref :: IsDue(db, ref, now) && ref.sandbox == s
  }

  /** Due sandboxes are destroyed, all others are as before, and an attempt that changed is
      destroyed along with its sandbox. */
  ghost predicate IsSwept(before: Db, now: int, after: Db) {
    && (forall s | IsDueSandbox(before, s, now) :: IsRemoved(after, s))
    && (forall s | !IsDueSandbox(before, s, now) ::
          && (s in after.resources <==> s in before.resources)
          && (s in before.resources ==> after.resources[s] == before.resources[s]))
    && after.attempts.Keys == before.attempts.Keys
    && (forall id | id in before.attempts && after.attempts[id] != before.attempts[id] ::
          && after.attempts[id].state == Destroyed
          && after.attempts[id].sandbox == before.attempts[id].sandbox && after.attempts[id].sandbox in after.resources)
  }

  lemma DueThroughFinalizations(before: Db, after: Db, ref: Ref, now: int)
    requires Finalizes(before, after)
    ensures IsDue(before, ref, now) <==> IsDue(after, ref, now)
  {
  }

  lemma TaskIsDue(db: Db, now: int, limit: nat, after: Db, tasks: seq<Task>, s: SandboxId)
    requires Core(db) && |CleanupRows(db, now)| <= limit && RowsFit(db, Select(CleanupRows(db, now), limit))
    requires Reconciled(db, RowTuples(db, Select(CleanupRows(db, now), limit)), after, tasks)
    ensures s in Sandboxes(tasks) <==> IsDueSandbox(db, s, now)
  {
    hide Core, CleanupRows, RowFits, IsDue, Select, AllReady;
    var rows := Select(CleanupRows(db, now), limit);
    var refs := RowTuples(db, rows);
    if i :| 0 <= i < |tasks| && tasks[i].ref.sandbox == s {
      RowIsDue(db, now, rows[i]);
      assert IsDue(db, refs[i], now) && refs[i].sandbox == s;
    }
    if ref :| IsDue(db, ref, now) && ref.sandbox == s {
      DueHasAttempt(db, now, ref);
      DueHasRow(db, now, ref);
      AllSelected(CleanupRows(db, now), limit, DueRow(db, ref));
      if ref !in refs {
        UnlistedHasNoRow(db, rows, DueRow(db, ref), ref);
        assert false;
      }
      var i :| 0 <= i < |refs| && refs[i] == ref;
      TupleIsTask(db, refs, after, tasks, i);
    }
  }

  lemma AllSelected(rows: set<Row>, limit: nat, row: Row)
    requires |rows| <= limit && row in rows
    ensures row in Select(rows, limit)
  {
  }

  lemma SweepIsExact(start: Db, before: Db, now: int, limit: nat, tasks: seq<Task>, mid: Db, after: Db)
    requires Core(before) && |CleanupRows(before, now)| <= limit && Finalizes(start, before)
    requires SweptFrom(before, now, limit, tasks, mid, after)
    ensures IsSwept(start, now, after)
  {
    hide Core, CleanupRows, RowFits, IsDue, Select, AllReady, Sandboxes;
    forall s
      ensures s in Sandboxes(tasks) <==> IsDueSandbox(start, s, now)
    {
      TaskIsDue(before, now, limit, mid, tasks, s);
      SandboxThroughFinalizations(start, before, s, now);
    }
  }

  lemma SandboxThroughFinalizations(before: Db, after: Db, s: SandboxId, now: int)
    requires Finalizes(before, after)
    ensures IsDueSandbox(before, s, now) <==> IsDueSandbox(after, s, now)
  {
    hide IsDue, Finalizes;
    if ref :| IsDue(before, ref, now) && ref.sandbox == s {
      DueThroughFinalizations(before, after, ref, now);
    }
    if ref :| IsDue(after, ref, now) && ref.sandbox == s {
      DueThroughFinalizations(before, after, ref, now);
    }
  }

  lemma NothingDue(start: Db, after: Db, now: int)
    requires Finalizes(start, after) && CleanupRows(after, now) == {}
    ensures IsSwept(start, now, after)
  {
    hide CleanupRows, IsDue;
    forall s
      ensures !IsDueSandbox(start, s, now)
    {
      if ref :| IsDue(start, ref, now) && ref.sandbox == s {
        DueThroughFinalizations(start, after, ref, now);
        DueHasAttempt(after, now, ref);
        DueHasRow(after, now, ref);
        assert false;
      }
    }
  }

  /** What an undisturbed pass does after its finalizations. */
  lemma CalmSweepIsExact(p: Sweep, schedule: Schedule, crew: Crew, limit: nat, start: Db)
    requires Calm(schedule) && Healthy(p.world) && p.raised.None? && 1 <= limit <= 1000 && Finalizes(start, p.world.db)
    requires |CleanupRows(p.world.db, schedule(p.world.tick).now)| <= limit
    requires ScanTasks(p.world, schedule, limit).1.Allow? ==>
      WorkAll(p.(world := ScanTasks(p.world, schedule, limit).0), schedule, crew, ScanTasks(p.world, schedule, limit).1.value).world.legal
    requires ScanTasks(p.world, schedule, limit).0.legal
    ensures ScanTasks(p.world, schedule, limit).1.Allow?
    ensures var (reconciled, found) := ScanTasks(p.world, schedule, limit);
      var q := WorkAll(p.(world := reconciled), schedule, crew, found.value);
      && q.raised.None? && Healthy(q.world) && IsSwept(start, schedule(p.world.tick).now, q.world.db)
      && |FinalizationRows(q.world.db)| <= |FinalizationRows(start)| + |CleanupRows(p.world.db, schedule(p.world.tick).now)|
  {
    hide Core, LogOk, LedgerOk, AccessOk, ResetsOk, KeysOk, Grows, ScanTasks, WorkAll, CleanupRows, FinalizationRows, Select,
      RowFits, Finalizes, AllReady, Calm, IsSwept;
    var now := schedule(p.world.tick).now;
    var (reconciled, found) := ScanTasks(p.world, schedule, limit);
    ScanReadies(p.world, schedule, limit);
    CalmWorkAll(p.(world := reconciled), schedule, crew, found.value);
    var after := WorkAll(p.(world := reconciled), schedule, crew, found.value).world.db;
    var refs := RowTuples(p.world.db, Select(CleanupRows(p.world.db, now), limit));
    PendingGrowsByTasks(start, p.world.db, refs, reconciled.db, found.value, after);
    SweepIsExact(start, p.world.db, now, limit, found.value, reconciled.db, after);
  }

  /** With room and a succeeding runtime, an undisturbed pass destroys exactly the sandboxes
      that are due when it hands out its tasks. */
  lemma CalmPassIsExact(w: World, schedule: Schedule, crew: Crew, limit: nat)
    requires Calm(schedule) && Healthy(w) && HasRoom(w.db, ReconcileTime(w, schedule), limit)
    requires RunOnce(w, schedule, crew, limit).world.legal
    ensures var q := RunOnce(w, schedule, crew, limit);
      && q.raised.None? && Healthy(q.world) && IsSwept(w.db, ReconcileTime(w, schedule), q.world.db)
      && |FinalizationRows(q.world.db)| <= limit
  {
    hide Core, LogOk, LedgerOk, AccessOk, ResetsOk, KeysOk, Leads, FinalizeAll, WorkAll, ScanTasks, Select, FinalizationRows,
      CleanupRows, Finalizes, Calm, Grows, IsSwept;
    PassIsLegalThroughout(w, schedule, crew, limit);
    ScanIsCalm(w, schedule, limit);
    var p := Finalizations(w, schedule, crew, limit);
    var now := ReconcileTime(w, schedule);
    var n := limit - |FinalizationRows(w.db)|;
    FinalizationsAddNoWork(w.db, p.world.db, now);
    if n > 0 {
      LegalScan(p, schedule, crew, n);
      CalmSweepIsExact(p, schedule, crew, n, w.db);
    } else {
      NothingDue(w.db, p.world.db, now);
      NothingMorePending(w.db, p.world.db);
    }
  }

  /** The same with a runtime that succeeds during the pass. */
  lemma PassIsExact(w: World, schedule: Schedule, crew: Crew, limit: nat)
    requires Untroubled(schedule) && VerifiesDuring(schedule, w.tick, RunOnce(w, schedule, crew, limit).world.tick)
    requires Healthy(w) && HasRoom(w.db, ReconcileTime(w, schedule), limit) && RunOnce(w, schedule, crew, limit).world.legal
    ensures var q := RunOnce(w, schedule, crew, limit);
      && q.raised.None? && Healthy(q.world) && IsSwept(w.db, ReconcileTime(w, schedule), q.world.db)
      && |FinalizationRows(q.world.db)| <= limit
  {
    hide Intact, RunOnce, CleanupRows, FinalizationRows, IsSwept, Calm, Untroubled, VerifiesDuring, HasRoom;
    PassIsCalm(w, schedule, crew, limit);
    CalmPassIsExact(w, Calmed(schedule, w.tick, RunOnce(w, schedule, crew, limit).world.tick), crew, limit);
  }

  lemma PassReadies(w: World, schedule: Schedule, crew: Crew, limit: nat, id: AttemptId)
    requires Untroubled(schedule) && VerifiesDuring(schedule, w.tick, RunOnce(w, schedule, crew, limit).world.tick)
    requires Healthy(w) && HasRoom(w.db, ReconcileTime(w, schedule), limit) && RunOnce(w, schedule, crew, limit).world.legal
    requires MustFinish(w.db, id, ReconcileTime(w, schedule)) && RetriesDue(w.db, id, ReconcileTime(w, schedule))
    ensures Gone(RunOnce(w, schedule, crew, limit).world.db, id) || Finishable(RunOnce(w, schedule, crew, limit).world.db, id)
  {
    hide Intact, RunOnce, FinalizationRows, Calm, Untroubled, VerifiesDuring, HasRoom, MustFinish, RetriesDue, Finishable;
    PassIsCalm(w, schedule, crew, limit);
    FirstPass(w, Calmed(schedule, w.tick, RunOnce(w, schedule, crew, limit).world.tick), crew, limit, id);
  }

  lemma PassFinishes(w: World, schedule: Schedule, crew: Crew, limit: nat, id: AttemptId)
    requires Untroubled(schedule) && VerifiesDuring(schedule, w.tick, RunOnce(w, schedule, crew, limit).world.tick)
    requires Healthy(w) && LimitOk(limit) && |FinalizationRows(w.db)| <= limit && RunOnce(w, schedule, crew, limit).world.legal
    requires Gone(w.db, id) || Finishable(w.db, id)
    ensures Gone(RunOnce(w, schedule, crew, limit).world.db, id)
  {
    hide Intact, RunOnce, FinalizationRows, Calm, Untroubled, VerifiesDuring, Finishable;
    PassIsCalm(w, schedule, crew, limit);
    SecondPass(w, Calmed(schedule, w.tick, RunOnce(w, schedule, crew, limit).world.tick), crew, limit, id);
  }

  lemma NothingMorePending(before: Db, after: Db)
    requires Finalizes(before, after)
    ensures |FinalizationRows(after)| <= |FinalizationRows(before)|
  {
    forall row | row in FinalizationRows(after)
      ensures row in FinalizationRows(before)
    {
      var id := row.attempt;
      assert after.attempts[id] == before.attempts[id];
    }
    SubsetIsSmaller(FinalizationRows(after), FinalizationRows(before));
  }

  // ----- expiry first -----

  lemma UntroubledExpiry(w: World, schedule: Schedule, limit: int)
    requires Untroubled(schedule) && Healthy(w) && 1 <= limit <= 1000
    ensures var o := Expire(w.db, schedule(w.tick).now, limit);
      && o.Done? && ExpirePass(w, schedule, limit) == (w.(db := o.db, tick := w.tick + 1), Allow(o.value))
      && Healthy(ExpirePass(w, schedule, limit).0)
  {
    hide Core, LogOk, LedgerOk, AccessOk, ResetsOk, KeysOk, Grows, Expire;
    UntroubledServe(w, schedule);
    ExpirePassLeads(w, schedule, limit);
    ExpireOutcome(w.db, schedule(w.tick).now, limit);
  }

  /** Expiry shuts down rooms past their deadline and changes nothing else but their rows. */
  ghost predicate ExpiredOnly(before: Db, now: int, after: Db) {
    && after.resources == before.resources && after.operations == before.operations
    && after.attempts.Keys == before.attempts.Keys
    && forall id | id in before.attempts ::
         || after.attempts[id] == before.attempts[id]
         || (before.attempts[id].expiresAt <= now && ShutDown(before.attempts[id], after.attempts[id], now))
  }

  lemma ExpiryIsExact(db: Db, now: int, limit: int)
    requires Core(db) && 1 <= limit <= 1000
    ensures Expire(db, now, limit).Done? && ExpiredOnly(db, now, Expire(db, now, limit).db)
  {
    hide Core, Expire, ShutDown;
    ExpireOutcome(db, now, limit);
    var o := Expire(db, now, limit);
    forall id | id in db.attempts && IsAnswered(o.value, id)
      ensures db.attempts[id].expiresAt <= now
    {
      var i :| 0 <= i < |o.value| && o.value[i].attempt == id;
      assert IsOverdue(db, o.value[i].attempt, now);
    }
  }

  /** A sandbox is due at the second clock reading, or would have been at the first, when the
      room was expired, and may be tried again. */
  ghost predicate HasToGo(db: Db, ref: Ref, first: int, second: int) {
    IsDue(db, ref, second) || (IsDue(db, ref, first) && RetryTimePassed(db, ref.sandbox, second))
  }

  lemma DueOnceExpired(db: Db, now: int, limit: int, ref: Ref, second: int)
    requires Core(db) && 1 <= limit <= 1000 && |ExpiryRows(db, now)| <= limit
    ensures Expire(db, now, limit).Done?
    ensures IsDue(Expire(db, now, limit).db, ref, second) <==> HasToGo(db, ref, now, second)
  {
    hide Core, Expire, ExpiryRows;
    ExpiryIsExact(db, now, limit);
    if ref.attempt in db.attempts && db.attempts[ref.attempt].expiresAt <= now {
      ExpiryIsComplete(db, now, limit, ref.attempt);
    }
  }

  ghost function Later(x: int, y: int): int {
    if x < y then y else x
  }

  lemma ExpiredWorkWasThere(db: Db, now: int, limit: int, second: int)
    requires Core(db) && 1 <= limit <= 1000 && |ExpiryRows(db, now)| <= limit
    ensures Expire(db, now, limit).Done?
    ensures |CleanupRows(Expire(db, now, limit).db, second)| <= |CleanupRows(db, Later(now, second))|
    ensures FinalizationRows(Expire(db, now, limit).db) == FinalizationRows(db)
  {
    hide Core, Expire, ExpiryRows, CleanupRows, FinalizationRows;
    ExpiryIsExact(db, now, limit);
    var after := Expire(db, now, limit).db;
    ExpiryAddsNoPending(db, now, after);
    forall row | row in CleanupRows(after, second)
      ensures row in CleanupRows(db, Later(now, second))
    {
      RowIsDue(after, second, row);
      RowIsOfItsTuple(after, second, row);
      var ref := CleanupRef(after, row);
      DueOnceExpired(db, now, limit, ref, second);
      DueLater(db, ref, now, second);
      DueHasRow(db, Later(now, second), ref);
      SameDeadline(db, now, after, ref.attempt);
    }
    SubsetIsSmaller(CleanupRows(after, second), CleanupRows(db, Later(now, second)));
  }

  lemma DueLater(db: Db, ref: Ref, first: int, second: int)
    requires HasToGo(db, ref, first, second)
    ensures IsDue(db, ref, Later(first, second))
  {
  }

  lemma SameDeadline(before: Db, now: int, after: Db, id: AttemptId)
    requires ExpiredOnly(before, now, after) && id in after.attempts
    ensures id in before.attempts && after.attempts[id].expiresAt == before.attempts[id].expiresAt
    ensures after.resources == before.resources
  {
  }

  lemma RowIsOfItsTuple(db: Db, now: int, row: Row)
    requires row in CleanupRows(db, now)
    ensures RowKnown(db, row) && CleanupRef(db, row).attempt in db.attempts && row == DueRow(db, CleanupRef(db, row))
  {
    hide CleanupRows;
    SelectedFits(db, now, row);
  }

  lemma ExpiryAddsNoPending(before: Db, now: int, after: Db)
    requires ExpiredOnly(before, now, after)
    ensures FinalizationRows(after) == FinalizationRows(before)
    ensures forall id :: Finishable(before, id) <==> Finishable(after, id)
  {
    forall id
      ensures AwaitsFinalization(before, id) <==> AwaitsFinalization(after, id)
    {
    }
    assert forall id | id in before.attempts :: after.attempts[id].expiresAt == before.attempts[id].expiresAt;
  }
}
