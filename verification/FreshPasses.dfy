/** Identifiers numbered by access are always fresh, so undisturbed passes are legal. */
module FreshPasses {
  import opened Records
  import opened Schema
  import opened Common
  import opened Selection
  import opened Backend
  import opened ControlPlane
  import opened Runs
  import opened Effects
  import opened Invariant
  import opened Preservation
  import opened Log
  import opened Reachable
  import opened Idempotence
  import opened Keys
  import opened Worlds
  import opened Worker
  import opened WorkerSafety
  import opened WorkerProgress
  import opened CleanupTermination

  /** Every logged identifier was drawn in an earlier batch. */
  ghost predicate Earlier(db: Db, batch: int) {
    forall k | k in db.operations :: db.operations[k].id.batch < batch
  }

  /** The n-th access draws the n-th batch. */
  ghost predicate Numbered(schedule: Schedule, base: nat) {
    forall t: nat :: schedule(t).ids.batch == base + t
  }

  lemma FinishDraws(db: Db, k: OpKey, id: OperationId, request: Request, ref: Ref, state: State, version: nat)
    requires Earlier(db, id.batch)
    ensures var o := Finish(db, k, id, request, ref, state, version);
      !o.Denied? && (o.Done? ==> Earlier(o.db, id.batch + 1))
  {
  }

  lemma CompletionDraws(db: Db, service: ServiceId, ref: Ref, key: Key, now: int, batch: nat)
    requires Earlier(db, batch)
    ensures Earlier(Complete(db, service, ref, key, now, batch).After(db), batch + 1)
  {
    hide Earlier, Finish, StopAttempt, UpdateAttempt, AllDestroyed, Finalized;
    Later(db, db, batch);
    var k, id := OpKey(BackendActor(service), key), OperationId(batch, 0);
    if Binding(db, ref, true).Allow? && ref.sandbox in db.resources {
      FinishDraws(db, k, id, CompleteRequest(ref), ref, Destroyed, db.resources[ref.sandbox].version);
      StopNeverDenies(db, ref.attempt, now);
      StopAttemptLogs(db, ref.attempt, now);
      var o := StopAttempt(db, ref.attempt, now);
      if o.Done? && ref.attempt in o.db.attempts {
        var b := Finalized(o.db.attempts[ref.attempt]);
        UpdateSets(o.db, ref.attempt, b);
        var after := o.db.(attempts := o.db.attempts[ref.attempt := b]);
        Later(db, after, batch);
        FinishDraws(after, k, id, CompleteRequest(ref), ref, Destroyed, b.version);
      }
    }
  }

  lemma Later(before: Db, after: Db, batch: nat)
    requires Earlier(before, batch) && after.operations == before.operations
    ensures Earlier(after, batch) && Earlier(after, batch + 1)
  {
  }

  lemma DestructionDraws(db: Db, c: Call)
    requires c.TransitionCall? && Earlier(db, c.batch)
    ensures Earlier(Answer(db, c).After(db), c.batch + 1)
  {
    hide Transition, MayMove, Quiet;
    TransitionShape(db, c.service, c.ref, c.expected, c.move, c.key, c.now, c.batch);
    if Quiet(db, Answer(db, c).After(db)) {
      QuietLog(db, Answer(db, c).After(db));
    }
  }

  lemma {:induction false} RowsDraw(db: Db, rows: seq<Row>, now: int, batch: nat, index: nat)
    requires Core(db) && AllLive(db, rows) && BatchUnused(db.operations, batch, index) && Earlier(db, batch + 1)
    ensures AllKnown(db, rows) && Earlier(ReconcileRows(db, rows, now, batch, index).After(db), batch + 1)
    decreases |rows|
  {
    hide Core, RowsGrow, ReconcileRow;
    if rows != [] {
      var id := OperationId(batch, index);
      assert forall i | 0 <= i < |rows[1..]| :: RowKnown(db, rows[1..][i]);
      ReconcileRowKeeps(db, rows[0], now, id);
      RowNeverDenies(db, rows[0], now, id);
      ReconcileRowsNeverDeny(db, rows, now, batch, index);
      var o := ReconcileRow(db, rows[0], now, id);
      if o.Done? {
        assert forall i | 0 <= i < |rows[1..]| :: RowLive(o.db, rows[1..][i]);
        RowsDraw(o.db, rows[1..], now, batch, index + 1);
      } else {
        assert ReconcileRows(db, rows, now, batch, index).After(db) == db;
      }
    }
  }

  lemma EarlierIsFresh(db: Db, batch: nat)
    requires Earlier(db, batch)
    ensures FreshBatch(db, batch) && BatchUnused(db.operations, batch, 0) && Earlier(db, batch + 1)
  {
  }

  lemma ReconcileDraws(db: Db, now: int, limit: int, batch: nat)
    requires Core(db) && Earlier(db, batch)
    ensures Earlier(Reconcile(db, now, limit, batch).After(db), batch + 1)
  {
    hide Core, Earlier, ReconcileRows, AllLive, Select, CleanupRows, BatchUnused;
    EarlierIsFresh(db, batch);
    if LimitOk(limit) {
      CleanupRowsAreLive(db, now, limit);
      RowsDraw(db, Select(CleanupRows(db, now), limit), now, batch, 0);
    }
  }

  // ----- undisturbed passes -----

  /** Legal so far, with all identifiers from the accesses so far. */
  ghost predicate IsCounted(w: World, base: nat) {
    Healthy(w) && Earlier(w.db, base + w.tick)
  }

  lemma CountedOn(w: World, base: nat)
    requires IsCounted(w, base)
    ensures IsCounted(w.(tick := w.tick + 1), base)
  {
    hide Intact;
  }

  lemma CountedTransact(w: World, schedule: Schedule, base: nat, c: Call)
    requires Calm(schedule) && IsCounted(w, base) && HasReceipt(c) && FreshIds(w.db, c) && Honest(c)
    requires Earlier(Step(w.db, c), base + w.tick + 1)
    ensures IsCounted(Transact(w, schedule, c).0, base) && Transact(w, schedule, c).0.legal
  {
    hide Intact, Answer, Apply, Honest, Earlier, FreshIds;
    CalmServe(w, schedule);
    TransactLeads(w, schedule, c);
    TransactKeepsIntact(w, schedule, c);
  }

  lemma TransactKeepsIntact(w: World, schedule: Schedule, c: Call)
    requires HasReceipt(c) && Healthy(w) && Leads(w, Transact(w, schedule, c).0)
    ensures Transact(w, schedule, c).0.legal ==> Intact(Transact(w, schedule, c).0.db)
  {
    hide Intact, Transact, Grows;
  }

  lemma CountedFinalize(p: Sweep, schedule: Schedule, crew: Crew, ref: Ref, base: nat)
    requires Calm(schedule) && Numbered(schedule, base) && IsCounted(p.world, base)
    ensures IsCounted(Finalize(p, schedule, crew, ref).world, base)
  {
    hide Intact, Earlier, Transact, Calm, Complete;
    var c := CompletionOf(crew, ref, schedule(p.world.tick));
    EarlierIsFresh(p.world.db, c.batch);
    CompletionDraws(p.world.db, c.service, c.ref, c.key, c.now, c.batch);
    CountedTransact(p.world, schedule, base, c);
  }

  lemma {:induction false} CountedFinalizeAll(p: Sweep, schedule: Schedule, crew: Crew, refs: seq<Ref>, base: nat)
    requires Calm(schedule) && Numbered(schedule, base) && IsCounted(p.world, base)
    ensures IsCounted(FinalizeAll(p, schedule, crew, refs).world, base)
    decreases |refs|
  {
    hide IsCounted, Calm, Numbered, Finalize;
    if refs != [] && p.raised.None? {
      CountedFinalize(p, schedule, crew, refs[0], base);
      CountedFinalizeAll(Finalize(p, schedule, crew, refs[0]), schedule, crew, refs[1..], base);
    }
  }

  lemma CountedDestroy(p: Sweep, schedule: Schedule, crew: Crew, task: Task, base: nat)
    requires Calm(schedule) && Numbered(schedule, base) && IsCounted(p.world, base)
    ensures IsCounted(Destroy(p, schedule, crew, task).0.world, base)
  {
    hide Intact, Earlier, Transact, Transition, Inspect, RecordFailure;
    CalmServe(p.world, schedule);
    CountedOn(p.world, base);
    var (looked, found) := Look(p.world, schedule, task.ref);
    if found.Allow? && StillDue(found.value, task) {
      var question := DestroyQuestion(task, found.value);
      CalmServe(looked, schedule);
      CountedOn(looked, base);
      var (asked, answer) := AskRuntime(looked, schedule, question);
      var c := DestructionOf(crew, task, answer.digest, schedule(asked.tick));
      EarlierIsFresh(asked.db, c.batch);
      DestructionDraws(asked.db, c);
      CountedTransact(asked, schedule, base, c);
    }
  }

  lemma {:induction false} CountedWorkAll(p: Sweep, schedule: Schedule, crew: Crew, tasks: seq<Task>, base: nat)
    requires Calm(schedule) && Numbered(schedule, base) && IsCounted(p.world, base)
    ensures IsCounted(WorkAll(p, schedule, crew, tasks).world, base)
    decreases |tasks|
  {
    hide IsCounted, Calm, Numbered, Destroy, Finalize;
    if tasks != [] && p.raised.None? {
      CountedDestroy(p, schedule, crew, tasks[0], base);
      CountedFinalize(Destroy(p, schedule, crew, tasks[0]).0, schedule, crew, tasks[0].ref, base);
      CountedWorkAll(Work(p, schedule, crew, tasks[0]), schedule, crew, tasks[1..], base);
    }
  }

  lemma CountedScan(w: World, schedule: Schedule, limit: nat, base: nat)
    requires Calm(schedule) && Numbered(schedule, base) && IsCounted(w, base)
    ensures IsCounted(ScanTasks(w, schedule, limit).0, base)
  {
    hide Core, LogOk, KeysOk, ResetsOk, Earlier, Reconcile, Grows;
    CalmServe(w, schedule);
    var slice := schedule(w.tick);
    EarlierIsFresh(w.db, slice.ids.batch);
    ReconcileDraws(w.db, slice.now, limit, slice.ids.batch);
    ScanTasksLeads(w, schedule, limit);
  }

  /** An undisturbed pass that numbers its identifiers is legal. */
  lemma CountedPass(w: World, schedule: Schedule, crew: Crew, limit: int, base: nat)
    requires Calm(schedule) && Numbered(schedule, base) && IsCounted(w, base)
    ensures IsCounted(RunOnce(w, schedule, crew, limit).world, base)
  {
    hide IsCounted, Calm, Numbered, FinalizeAll, WorkAll, ScanTasks, PendingFinalizations, Serve;
    CalmServe(w, schedule);
    CountedOn(w, base);
    if LimitOk(limit) {
      var (scanned, pending) := ScanFinalizations(w, schedule, limit);
      if pending.Allow? {
        var p := FinalizeAll(Begin(scanned), schedule, crew, pending.value);
        CountedFinalizeAll(Begin(scanned), schedule, crew, pending.value, base);
        if p.raised.None? && |pending.value| < limit {
          var n := limit - |pending.value|;
          CountedScan(p.world, schedule, n, base);
          var (reconciled, found) := ScanTasks(p.world, schedule, n);
          if found.Allow? {
            CountedWorkAll(p.(world := reconciled), schedule, crew, found.value, base);
          }
        }
      }
    }
  }

  /** Cleanup cannot get stuck, with fresh identifiers instead of the assumption that both
      passes are legal. */
  lemma CleanupCannotGetStuck(w: World, schedule: Schedule, first: Crew, second: Crew, limit: nat, id: AttemptId, base: nat)
    requires Calm(schedule) && Numbered(schedule, base) && Healthy(w) && Earlier(w.db, base + w.tick)
    requires HasRoom(w.db, ReconcileTime(w, schedule), limit)
    requires MustFinish(w.db, id, ReconcileTime(w, schedule)) && RetriesDue(w.db, id, ReconcileTime(w, schedule))
    ensures Gone(RunOnce(RunOnce(w, schedule, first, limit).world, schedule, second, limit).world.db, id)
  {
    hide Calm, Numbered, Earlier, Intact, RunOnce, FinalizationRows, CleanupRows, MustFinish, RetriesDue, Gone;
    CountedPass(w, schedule, first, limit, base);
    CountedPass(RunOnce(w, schedule, first, limit).world, schedule, second, limit, base);
    TwoPassesDestroy(w, schedule, first, second, limit, id);
  }

  /** The same from every state that proper calls, of any clients in any order, can reach. */
  lemma ReachedRoomsAreCleaned(run: seq<Call>, w: World, schedule: Schedule, first: Crew, second: Crew, limit: nat, id: AttemptId, base: nat)
    requires Proper(EMPTY, run) && w.db == Run(EMPTY, run) && w.legal
    requires Calm(schedule) && Numbered(schedule, base) && Earlier(w.db, base + w.tick)
    requires HasRoom(w.db, ReconcileTime(w, schedule), limit)
    requires MustFinish(w.db, id, ReconcileTime(w, schedule)) && RetriesDue(w.db, id, ReconcileTime(w, schedule))
    ensures Gone(RunOnce(RunOnce(w, schedule, first, limit).world, schedule, second, limit).world.db, id)
  {
    hide Calm, Numbered, Earlier, Intact, RunOnce, FinalizationRows, CleanupRows, MustFinish, RetriesDue, Gone, Run, Proper;
    ProperRunsAreIntact(run);
    CleanupCannotGetStuck(w, schedule, first, second, limit, id, base);
  }
}
