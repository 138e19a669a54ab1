/** What every pass of the cleanup worker keeps, whatever happens around it. */
module WorkerSafety {
  import opened Records
  import opened Schema
  import opened Common
  import opened Selection
  import opened Backend
  import opened ControlPlane
  import opened Runs
  import opened Invariant
  import opened Reachable
  import opened Idempotence
  import opened Keys
  import opened Worlds
  import opened Worker

  // ----- a pass only makes store calls -----

  lemma FinalizeLeads(p: Sweep, schedule: Schedule, crew: Crew, ref: Ref)
    ensures Leads(p.world, Finalize(p, schedule, crew, ref).world)
  {
    hide Leads, Transact;
    TransactLeads(p.world, schedule, CompletionOf(crew, ref, schedule(p.world.tick)));
  }

  lemma {:induction false} FinalizeAllLeads(p: Sweep, schedule: Schedule, crew: Crew, refs: seq<Ref>)
    ensures Leads(p.world, FinalizeAll(p, schedule, crew, refs).world)
    decreases |refs|
  {
    hide Leads, Finalize;
    Stays(p.world);
    if refs != [] && p.raised.None? {
      var next := Finalize(p, schedule, crew, refs[0]);
      FinalizeLeads(p, schedule, crew, refs[0]);
      FinalizeAllLeads(next, schedule, crew, refs[1..]);
      LeadsOn(p.world, next.world, FinalizeAll(p, schedule, crew, refs).world);
    }
  }

  lemma RecordFailureLeads(p: Sweep, schedule: Schedule, crew: Crew, task: Task, error: ErrorCode)
    ensures Leads(p.world, RecordFailure(p, schedule, crew, task, error).world)
  {
    hide Leads, Transact, Serve;
    var retryAt := schedule(p.world.tick).now + crew.delay;
    var read := Serve(p.world, schedule);
    ServeLeads(p.world, schedule);
    var c := FailureCall(crew, task, error, retryAt, schedule(read.tick));
    TransactLeads(read, schedule, c);
    var world := Transact(read, schedule, c).0;
    LeadsOn(p.world, read, world);
    ServeLeads(world, schedule);
    LeadsOn(p.world, world, Serve(world, schedule));
  }

  lemma DestroyLeads(p: Sweep, schedule: Schedule, crew: Crew, task: Task)
    ensures Leads(p.world, Destroy(p, schedule, crew, task).0.world)
  {
    hide Leads, Transact, Serve, RecordFailure, AskRuntime, Inspect;
    ServeLeads(p.world, schedule);
    var looked, found := Look(p.world, schedule, task.ref).0, Look(p.world, schedule, task.ref).1;
    if found.Allow? && StillDue(found.value, task) {
      var question := DestroyQuestion(task, found.value);
      AskLeads(looked, schedule, question);
      var asked, answer := AskRuntime(looked, schedule, question).0, AskRuntime(looked, schedule, question).1;
      LeadsOn(p.world, looked, asked);
      match answer
      case Evidence(digest) =>
        var c := DestructionOf(crew, task, digest, schedule(asked.tick));
        TransactLeads(asked, schedule, c);
        LeadsOn(p.world, asked, Transact(asked, schedule, c).0);
      case Fault(error) =>
        RecordFailureLeads(p.(world := asked), schedule, crew, task, error);
        LeadsOn(p.world, asked, RecordFailure(p.(world := asked), schedule, crew, task, error).world);
      case Created(_) =>
        RecordFailureLeads(p.(world := asked), schedule, crew, task, CleanupIncomplete);
        LeadsOn(p.world, asked, RecordFailure(p.(world := asked), schedule, crew, task, CleanupIncomplete).world);
    }
  }

  lemma WorkLeads(p: Sweep, schedule: Schedule, crew: Crew, task: Task)
    ensures Leads(p.world, Work(p, schedule, crew, task).world)
  {
    hide Leads, Destroy, Finalize;
    DestroyLeads(p, schedule, crew, task);
    var after, gone := Destroy(p, schedule, crew, task).0, Destroy(p, schedule, crew, task).1;
    if gone {
      FinalizeLeads(after, schedule, crew, task.ref);
      LeadsOn(p.world, after.world, Finalize(after, schedule, crew, task.ref).world);
    }
  }

  lemma {:induction false} WorkAllLeads(p: Sweep, schedule: Schedule, crew: Crew, tasks: seq<Task>)
    ensures Leads(p.world, WorkAll(p, schedule, crew, tasks).world)
    decreases |tasks|
  {
    hide Leads, Work;
    Stays(p.world);
    if tasks != [] && p.raised.None? {
      var next := Work(p, schedule, crew, tasks[0]);
      WorkLeads(p, schedule, crew, tasks[0]);
      WorkAllLeads(next, schedule, crew, tasks[1..]);
      LeadsOn(p.world, next.world, WorkAll(p, schedule, crew, tasks).world);
    }
  }

  lemma ScanTasksLeads(w: World, schedule: Schedule, limit: nat)
    ensures Leads(w, ScanTasks(w, schedule, limit).0)
  {
    hide Leads, Reconcile, Honest, Intact, Grows;
    ServeLeads(w, schedule);
    if !schedule(w.tick).busy {
      var served, slice := Serve(w, schedule), schedule(w.tick);
      var c := ReconcileCall(slice.now, limit, slice.ids.batch);
      CallLeads(served, c);
      assert Honest(c) by { HonestReconcile(c); }
      var stepped := served.(db := Step(served.db, c), legal := served.legal && FreshIds(served.db, c) && Honest(c));
      LeadsOn(w, served, stepped);
      TraceAside(w, stepped, ScanTasks(w, schedule, limit).0);
    }
  }

  lemma HonestReconcile(c: Call)
    requires c.ReconcileCall?
    ensures Honest(c)
  {
  }

  /** A whole pass is a run of legal calls: the store stays sound and only grows. */
  lemma PassKeepsTheStoreSound(w: World, schedule: Schedule, crew: Crew, limit: int)
    ensures Leads(w, RunOnce(w, schedule, crew, limit).world)
  {
    hide Leads, Serve, PendingFinalizations, FinalizeAll, WorkAll, ScanTasks;
    Stays(w);
    ServeLeads(w, schedule);
    if LimitOk(limit) {
      var (scanned, pending) := ScanFinalizations(w, schedule, limit);
      if pending.Allow? {
        var p := FinalizeAll(Begin(scanned), schedule, crew, pending.value);
        FinalizeAllLeads(Begin(scanned), schedule, crew, pending.value);
        LeadsOn(w, scanned, p.world);
        if p.raised.None? && |pending.value| < limit {
          var n := limit - |pending.value|;
          ScanTasksLeads(p.world, schedule, n);
          var (reconciled, found) := ScanTasks(p.world, schedule, n);
          LeadsOn(w, p.world, reconciled);
          if found.Allow? {
            WorkAllLeads(p.(world := reconciled), schedule, crew, found.value);
            LeadsOn(w, reconciled, WorkAll(p.(world := reconciled), schedule, crew, found.value).world);
          }
        }
      }
    }
  }

  // ----- the counters -----

  /** One more unit of work was finished or put off, unless the pass ended. */
  ghost predicate OneMore(p: Sweep, q: Sweep) {
    q.raised.None? ==> q.finalized + q.deferred == p.finalized + p.deferred + 1
  }

  lemma FinalizeCounts(p: Sweep, schedule: Schedule, crew: Crew, ref: Ref)
    ensures OneMore(p, Finalize(p, schedule, crew, ref)) && Finalize(p, schedule, crew, ref).destroyed == p.destroyed
  {
    hide Transact;
  }

  lemma {:induction false} FinalizeAllCounts(p: Sweep, schedule: Schedule, crew: Crew, refs: seq<Ref>)
    ensures var q := FinalizeAll(p, schedule, crew, refs);
      q.destroyed == p.destroyed && (q.raised.None? ==> q.finalized + q.deferred == p.finalized + p.deferred + |refs|)
    decreases |refs|
  {
    hide Finalize;
    if refs != [] && p.raised.None? {
      FinalizeCounts(p, schedule, crew, refs[0]);
      FinalizeAllCounts(Finalize(p, schedule, crew, refs[0]), schedule, crew, refs[1..]);
    }
  }

  lemma DestroyCounts(p: Sweep, schedule: Schedule, crew: Crew, task: Task)
    ensures var (q, gone) := Destroy(p, schedule, crew, task);
      && q.finalized == p.finalized
      && q.destroyed == p.destroyed + (if gone then 1 else 0)
      && (gone ==> q.deferred == p.deferred && q.raised == p.raised)
      && (!gone && q.raised.None? ==> q.deferred == p.deferred + 1)
  {
    hide Transact, Serve, Inspect, AskRuntime;
  }

  lemma WorkCounts(p: Sweep, schedule: Schedule, crew: Crew, task: Task)
    ensures var q := Work(p, schedule, crew, task);
      OneMore(p, q) && p.destroyed <= q.destroyed <= p.destroyed + 1
  {
    hide Destroy, Finalize;
    DestroyCounts(p, schedule, crew, task);
    FinalizeCounts(Destroy(p, schedule, crew, task).0, schedule, crew, task.ref);
  }

  lemma {:induction false} WorkAllCounts(p: Sweep, schedule: Schedule, crew: Crew, tasks: seq<Task>)
    ensures var q := WorkAll(p, schedule, crew, tasks);
      && p.destroyed <= q.destroyed <= p.destroyed + |tasks|
      && (q.raised.None? ==> q.finalized + q.deferred == p.finalized + p.deferred + |tasks|)
    decreases |tasks|
  {
    hide Work;
    if tasks != [] && p.raised.None? {
      WorkCounts(p, schedule, crew, tasks[0]);
      WorkAllCounts(Work(p, schedule, crew, tasks[0]), schedule, crew, tasks[1..]);
    }
  }

  lemma {:induction false} OneTaskPerRow(db: Db, rows: seq<Row>, now: int, batch: nat, index: nat)
    requires AllKnown(db, rows) && ReconcileRows(db, rows, now, batch, index).Done?
    ensures |ReconcileRows(db, rows, now, batch, index).value| == |rows|
    decreases |rows|
  {
    hide ReconcileRow, AllKnown;
    if rows != [] {
      KnownParts(db, rows);
      var o := ReconcileRow(db, rows[0], now, OperationId(batch, index));
      StillKnown(db, o.db, rows[1..]);
      OneTaskPerRow(o.db, rows[1..], now, batch, index + 1);
    }
  }

  lemma TasksAreLimited(w: World, schedule: Schedule, limit: nat)
    ensures var found := ScanTasks(w, schedule, limit).1;
      found.Allow? ==> |found.value| <= limit
  {
    hide ReconcileRows, RowKnown;
    var served, slice := Serve(w, schedule), schedule(w.tick);
    if !slice.busy && Reconcile(served.db, slice.now, limit, slice.ids.batch).Done? {
      OneTaskPerRow(served.db, Select(CleanupRows(served.db, slice.now), limit), slice.now, slice.ids.batch, 0);
    }
  }

  lemma PendingIsLimited(db: Db, limit: int)
    ensures LimitOk(limit) ==> PendingFinalizations(db, limit).Allow? && |PendingFinalizations(db, limit).value| <= limit
  {
    hide FinalizationRows;
  }

  /** The pending finalizations of a pass, and its cleanup tasks, when both were scanned. */
  ghost function ScannedRefs(w: World, schedule: Schedule, limit: int): Verdict<seq<Ref>>
    requires LimitOk(limit)
  {
    ScanFinalizations(w, schedule, limit).1
  }

  ghost function ScannedTasks(w: World, schedule: Schedule, crew: Crew, limit: int): Verdict<seq<Task>>
    requires LimitOk(limit) && ScannedRefs(w, schedule, limit).Allow?
  {
    var refs := ScannedRefs(w, schedule, limit).value;
    if |refs| >= limit then Allow([])
    else ScanTasks(FinalizeAll(Begin(ScanFinalizations(w, schedule, limit).0), schedule, crew, refs).world, schedule, limit - |refs|).1
  }

  /** Every pending finalization and every task is finished or put off once, and together
      they stay within the limit. */
  lemma PassAccountsForItsWork(w: World, schedule: Schedule, crew: Crew, limit: int)
    requires LimitOk(limit) && ScannedRefs(w, schedule, limit).Allow? && ScannedTasks(w, schedule, crew, limit).Allow?
    ensures var refs, tasks := ScannedRefs(w, schedule, limit).value, ScannedTasks(w, schedule, crew, limit).value;
      var p := RunOnce(w, schedule, crew, limit);
      && |refs| + |tasks| <= limit
      && p.destroyed <= |tasks|
      && (p.raised.None? ==> p.finalized + p.deferred == |refs| + |tasks|)
  {
    hide FinalizeAll, WorkAll, ScanTasks, Serve, PendingFinalizations;
    var (scanned, _) := ScanFinalizations(w, schedule, limit);
    var refs := ScannedRefs(w, schedule, limit).value;
    var p := FinalizeAll(Begin(scanned), schedule, crew, refs);
    PendingIsLimited(scanned.db, limit);
    FinalizeAllCounts(Begin(scanned), schedule, crew, refs);
    if |refs| < limit {
      TasksAreLimited(p.world, schedule, limit - |refs|);
      var (reconciled, found) := ScanTasks(p.world, schedule, limit - |refs|);
      WorkAllCounts(p.(world := reconciled), schedule, crew, found.value);
    }
  }

  // ----- evidence -----

  /** A step to DESTROYED directly follows the runtime's answer for the same tuple and
      version, and carries the digest of that answer. */
  ghost predicate IsEvidenced(trace: seq<Event>, i: nat)
    requires i < |trace|
  {
    trace[i].Committed? && trace[i].call.TransitionCall? && trace[i].call.move.state == Destroyed ==>
      && i > 0
      && trace[i - 1].Asked? && trace[i - 1].question.DestroyQuestion?
      && trace[i - 1].question.task.ref == trace[i].call.ref
      && trace[i - 1].question.task.version == trace[i].call.expected
      && StillDue(trace[i - 1].question.row, trace[i - 1].question.task)
      && trace[i - 1].answer.Evidence?
      && trace[i].call.move.evidence == Some(trace[i - 1].answer.digest)
  }

  ghost predicate AllEvidenced(trace: seq<Event>) {
    forall i | 0 <= i < |trace| :: IsEvidenced(trace, i)
  }

  lemma Append(trace: seq<Event>, e: Event)
    requires AllEvidenced(trace) && IsEvidenced(trace + [e], |trace|)
    ensures AllEvidenced(trace + [e])
  {
    forall i | 0 <= i < |trace|
      ensures IsEvidenced(trace + [e], i)
    {
      assert IsEvidenced(trace, i);
    }
  }

  lemma TransactEvidence(w: World, schedule: Schedule, c: Call)
    requires HasReceipt(c) && AllEvidenced(w.trace) && IsEvidenced(w.trace + [Committed(c)], |w.trace|)
    ensures AllEvidenced(Transact(w, schedule, c).0.trace)
  {
    hide AllEvidenced, Answer, Proper, Honest;
    Append(w.trace, Committed(c));
    if !schedule(w.tick).busy {
      var o := Answer(Serve(w, schedule).db, c);
      if !o.Done? {
        Append(w.trace, Rejected(c, o.code));
      }
    }
  }

  lemma ServingIsSilent(w: World, schedule: Schedule)
    ensures Serve(w, schedule).trace == w.trace
  {
    hide Proper;
  }

  lemma FinalizeEvidence(p: Sweep, schedule: Schedule, crew: Crew, ref: Ref)
    requires AllEvidenced(p.world.trace)
    ensures AllEvidenced(Finalize(p, schedule, crew, ref).world.trace)
  {
    hide AllEvidenced, Transact;
    TransactEvidence(p.world, schedule, CompletionOf(crew, ref, schedule(p.world.tick)));
  }

  lemma {:induction false} FinalizeAllEvidence(p: Sweep, schedule: Schedule, crew: Crew, refs: seq<Ref>)
    requires AllEvidenced(p.world.trace)
    ensures AllEvidenced(FinalizeAll(p, schedule, crew, refs).world.trace)
    decreases |refs|
  {
    hide AllEvidenced, Finalize;
    if refs != [] && p.raised.None? {
      FinalizeEvidence(p, schedule, crew, refs[0]);
      FinalizeAllEvidence(Finalize(p, schedule, crew, refs[0]), schedule, crew, refs[1..]);
    }
  }

  lemma RecordFailureEvidence(p: Sweep, schedule: Schedule, crew: Crew, task: Task, error: ErrorCode)
    requires AllEvidenced(p.world.trace)
    ensures AllEvidenced(RecordFailure(p, schedule, crew, task, error).world.trace)
  {
    hide AllEvidenced, Transact, Serve;
    var retryAt := schedule(p.world.tick).now + crew.delay;
    var read := Serve(p.world, schedule);
    var c := FailureCall(crew, task, error, retryAt, schedule(read.tick));
    ServingIsSilent(p.world, schedule);
    TransactEvidence(read, schedule, c);
    ServingIsSilent(Transact(read, schedule, c).0, schedule);
  }

  lemma DestroyEvidence(p: Sweep, schedule: Schedule, crew: Crew, task: Task)
    requires AllEvidenced(p.world.trace)
    ensures AllEvidenced(Destroy(p, schedule, crew, task).0.world.trace)
  {
    hide AllEvidenced, Transact, RecordFailure, Inspect;
    var looked, found := Look(p.world, schedule, task.ref).0, Look(p.world, schedule, task.ref).1;
    if found.Allow? && StillDue(found.value, task) {
      var question := DestroyQuestion(task, found.value);
      var asked, answer := AskRuntime(looked, schedule, question).0, AskRuntime(looked, schedule, question).1;
      Append(looked.trace, Asked(question, answer));
      match answer
      case Evidence(digest) => TransactEvidence(asked, schedule, DestructionOf(crew, task, digest, schedule(asked.tick)));
      case Fault(error) => RecordFailureEvidence(p.(world := asked), schedule, crew, task, error);
      case Created(_) => RecordFailureEvidence(p.(world := asked), schedule, crew, task, CleanupIncomplete);
    }
  }

  lemma {:induction false} WorkAllEvidence(p: Sweep, schedule: Schedule, crew: Crew, tasks: seq<Task>)
    requires AllEvidenced(p.world.trace)
    ensures AllEvidenced(WorkAll(p, schedule, crew, tasks).world.trace)
    decreases |tasks|
  {
    hide AllEvidenced, Destroy, Finalize;
    if tasks != [] && p.raised.None? {
      DestroyEvidence(p, schedule, crew, tasks[0]);
      var after, gone := Destroy(p, schedule, crew, tasks[0]).0, Destroy(p, schedule, crew, tasks[0]).1;
      if gone {
        FinalizeEvidence(after, schedule, crew, tasks[0].ref);
      }
      WorkAllEvidence(Work(p, schedule, crew, tasks[0]), schedule, crew, tasks[1..]);
    }
  }

  /** The worker moves a sandbox to DESTROYED only with a digest that the runtime returned
      for exactly that tuple and version, directly before. */
  lemma DestructionNeedsEvidence(w: World, schedule: Schedule, crew: Crew, limit: int)
    requires AllEvidenced(w.trace)
    ensures AllEvidenced(RunOnce(w, schedule, crew, limit).world.trace)
  {
    hide AllEvidenced, FinalizeAll, WorkAll, Reconcile, PendingFinalizations, Proper;
    if LimitOk(limit) {
      var (scanned, pending) := ScanFinalizations(w, schedule, limit);
      if pending.Allow? {
        var p := FinalizeAll(Begin(scanned), schedule, crew, pending.value);
        FinalizeAllEvidence(Begin(scanned), schedule, crew, pending.value);
        if p.raised.None? && |pending.value| < limit {
          var n := limit - |pending.value|;
          var (reconciled, found) := ScanTasks(p.world, schedule, n);
          ScanEvidence(p.world, schedule, n);
          if found.Allow? {
            WorkAllEvidence(p.(world := reconciled), schedule, crew, found.value);
          }
        }
      }
    }
  }

  lemma ScanEvidence(w: World, schedule: Schedule, limit: nat)
    requires AllEvidenced(w.trace)
    ensures AllEvidenced(ScanTasks(w, schedule, limit).0.trace)
  {
    hide AllEvidenced, Reconcile, Proper;
    var served, slice := Serve(w, schedule), schedule(w.tick);
    var c := ReconcileCall(slice.now, limit, slice.ids.batch);
    var o := Reconcile(served.db, slice.now, limit, slice.ids.batch);
    Append(w.trace, Committed(c));
    if !o.Done? {
      Append(w.trace, Rejected(c, o.code));
    }
  }

  /** What is destroyed is what was verified: the row that the runtime was asked about is
      still the row that the step to DESTROYED replaces, container included, unless another
      worker already took this very step on the same digest, and is answered with its receipt. */
  lemma DestroyedRowWasVerified(p: Sweep, schedule: Schedule, crew: Crew, task: Task)
    requires p.world.legal && Intact(p.world.db)
    requires Destroy(p, schedule, crew, task).1 && Destroy(p, schedule, crew, task).0.world.legal
    ensures var (looked, found) := Look(p.world, schedule, task.ref);
      && found.Allow? && StillDue(found.value, task)
      && var (asked, answer) := AskRuntime(looked, schedule, DestroyQuestion(task, found.value));
      && answer.Evidence?
      && var c := DestructionOf(crew, task, answer.digest, schedule(asked.tick));
      && var db := Serve(asked, schedule).db;
      && task.ref.sandbox in db.resources
      && if KeyOf(c) in db.operations then db.operations[KeyOf(c)].request == RequestOf(c)
         else db.resources[task.ref.sandbox] == found.value
  {
    hide Intact, Transact, Serve, Binding;
    var looked, found := Look(p.world, schedule, task.ref).0, Look(p.world, schedule, task.ref).1;
    var question := DestroyQuestion(task, found.value);
    var asked, answer := AskRuntime(looked, schedule, question).0, AskRuntime(looked, schedule, question).1;
    var c := DestructionOf(crew, task, answer.digest, schedule(asked.tick));
    ServeLeads(p.world, schedule);
    AskLeads(looked, schedule, question);
    ServeLeads(asked, schedule);
    TransactLeads(asked, schedule, c);
    TransactedNeedsVersion(asked, schedule, c);
    LeadsOn(looked, asked, Serve(asked, schedule));
    SameVersionSameRow(looked.db, Serve(asked, schedule).db, task.ref.sandbox);
  }

  lemma SameVersionSameRow(before: Db, after: Db, s: SandboxId)
    requires Grows(before, after) && s in before.resources
    ensures s in after.resources
    ensures after.resources[s].version == before.resources[s].version ==> after.resources[s] == before.resources[s]
  {
    assert ResourceGrows(before.resources[s], after.resources[s]);
  }

  lemma TransactedNeedsVersion(w: World, schedule: Schedule, c: Call)
    requires c.TransitionCall? && c.move.state == Destroyed && Transact(w, schedule, c).1.Allow?
    requires Transact(w, schedule, c).0.legal
    ensures Serve(w, schedule).legal
    ensures var db := Serve(w, schedule).db;
      if KeyOf(c) in db.operations then db.operations[KeyOf(c)].request == RequestOf(c)
      else c.ref.sandbox in db.resources && db.resources[c.ref.sandbox].version == c.expected
  {
    hide Transition, Serve, Proper;
    DestructionNeedsVersion(Serve(w, schedule).db, c);
  }

  lemma DestructionNeedsVersion(db: Db, c: Call)
    requires c.TransitionCall? && c.move.state == Destroyed && Answer(db, c).Done?
    ensures if KeyOf(c) in db.operations then db.operations[KeyOf(c)].request == RequestOf(c)
            else c.ref.sandbox in db.resources && db.resources[c.ref.sandbox].version == c.expected
  {
    hide UpdateResource, Finish, MarkCleaned, MayMove, MoveOk, Moved;
  }

  // ----- errors -----

  lemma CompletionErrors(db: Db, service: ServiceId, ref: Ref, key: Key, now: int, batch: nat)
    ensures var o := Complete(db, service, ref, key, now, batch);
      o.Done? || Deferrable(o.code)
  {
    hide AllDestroyed, IsCurrent;
  }

  lemma DestructionErrors(db: Db, c: Call)
    requires c.TransitionCall? && MoveOk(c.move) && c.move.state == Destroyed
    ensures Answer(db, c).Done? || Deferrable(Answer(db, c).code)
  {
    hide Moved, MayMove;
  }

  lemma FailureErrors(db: Db, c: Call)
    requires c.CleanupFailedCall? && (c.error.RuntimeUnavailable? || c.error.CleanupIncomplete?)
    ensures var o := Answer(db, c);
      o.Done? || Deferrable(o.code) || (o.code == InvalidRequest && c.retryAt <= c.now)
  {
  }

  lemma {:induction false} ReconcileErrors(db: Db, rows: seq<Row>, now: int, batch: nat, index: nat)
    requires AllKnown(db, rows)
    ensures var o := ReconcileRows(db, rows, now, batch, index);
      o.Done? || Deferrable(o.code)
    decreases |rows|
  {
    hide ReconcileRow, AllKnown;
    if rows != [] {
      KnownParts(db, rows);
      RowErrors(db, rows[0], now, OperationId(batch, index));
      var o := ReconcileRow(db, rows[0], now, OperationId(batch, index));
      if o.Done? {
        StillKnown(db, o.db, rows[1..]);
        ReconcileErrors(o.db, rows[1..], now, batch, index + 1);
      }
    }
  }

  lemma RowErrors(db: Db, row: Row, now: int, id: OperationId)
    requires RowKnown(db, row)
    ensures var o := ReconcileRow(db, row, now, id);
      o.Done? || Deferrable(o.code)
  {
  }

  lemma ScanTasksErrors(w: World, schedule: Schedule, limit: nat)
    requires LimitOk(limit)
    ensures var found := ScanTasks(w, schedule, limit).1;
      found.Reject? ==> Deferrable(found.code)
  {
    hide ReconcileRows, RowKnown, Proper, Select, CleanupRows;
    var served, slice := Serve(w, schedule), schedule(w.tick);
    ReconcileErrors(served.db, Select(CleanupRows(served.db, slice.now), limit), slice.now, slice.ids.batch, 0);
  }

  lemma TransactErrors(w: World, schedule: Schedule, c: Call)
    requires HasReceipt(c)
    ensures var reply := Transact(w, schedule, c).1;
      reply.Reject? ==>
        Deferrable(reply.code) || (!Answer(Serve(w, schedule).db, c).Done? && reply.code == Answer(Serve(w, schedule).db, c).code)
    ensures Transact(w, schedule, c).0.tick == w.tick + 1
  {
    hide Answer;
  }

  /** Readings of the clock never go back. */
  ghost predicate Steady(schedule: Schedule) {
    forall i: nat, j: nat | i <= j :: schedule(i).now <= schedule(j).now
  }

  lemma FinalizeNeverRaises(p: Sweep, schedule: Schedule, crew: Crew, ref: Ref)
    requires p.raised.None?
    ensures Finalize(p, schedule, crew, ref).raised.None?
  {
    hide Transact, Complete, Deferrable;
    var c := CompletionOf(crew, ref, schedule(p.world.tick));
    TransactErrors(p.world, schedule, c);
    CompletionErrors(Serve(p.world, schedule).db, c.service, c.ref, c.key, c.now, c.batch);
  }

  lemma {:induction false} FinalizeAllNeverRaises(p: Sweep, schedule: Schedule, crew: Crew, refs: seq<Ref>)
    requires p.raised.None?
    ensures FinalizeAll(p, schedule, crew, refs).raised.None?
    decreases |refs|
  {
    hide Finalize;
    if refs != [] {
      FinalizeNeverRaises(p, schedule, crew, refs[0]);
      FinalizeAllNeverRaises(Finalize(p, schedule, crew, refs[0]), schedule, crew, refs[1..]);
    }
  }

  lemma RecordFailureNeverRaises(p: Sweep, schedule: Schedule, crew: Crew, task: Task, error: ErrorCode)
    requires p.raised.None? && Steady(schedule)
    ensures RecordFailure(p, schedule, crew, task, error).raised.None?
  {
    hide Transact, CleanupFailed, Serve;
    var retryAt := schedule(p.world.tick).now + crew.delay;
    var read := Serve(p.world, schedule);
    var c := FailureCall(crew, task, error, retryAt, schedule(read.tick));
    TransactErrors(read, schedule, c);
    FailureErrors(Serve(read, schedule).db, c);
    assert schedule(read.tick).now <= schedule(read.tick + 1).now;
  }

  lemma DestroyNeverRaises(p: Sweep, schedule: Schedule, crew: Crew, task: Task)
    requires p.raised.None? && Steady(schedule)
    ensures Destroy(p, schedule, crew, task).0.raised.None?
  {
    hide Transact, RecordFailure, Transition, Serve;
    var looked, found := Look(p.world, schedule, task.ref).0, Look(p.world, schedule, task.ref).1;
    if found.Allow? && StillDue(found.value, task) {
      var question := DestroyQuestion(task, found.value);
      var asked, answer := AskRuntime(looked, schedule, question).0, AskRuntime(looked, schedule, question).1;
      match answer
      case Evidence(digest) =>
        var c := DestructionOf(crew, task, digest, schedule(asked.tick));
        TransactErrors(asked, schedule, c);
        DestructionErrors(Serve(asked, schedule).db, c);
      case Fault(error) => RecordFailureNeverRaises(p.(world := asked), schedule, crew, task, error);
      case Created(_) => RecordFailureNeverRaises(p.(world := asked), schedule, crew, task, CleanupIncomplete);
    }
  }

  lemma {:induction false} WorkAllNeverRaises(p: Sweep, schedule: Schedule, crew: Crew, tasks: seq<Task>)
    requires p.raised.None? && Steady(schedule)
    ensures WorkAll(p, schedule, crew, tasks).raised.None?
    decreases |tasks|
  {
    hide Destroy, Finalize;
    if tasks != [] {
      DestroyNeverRaises(p, schedule, crew, tasks[0]);
      FinalizeNeverRaises(Destroy(p, schedule, crew, tasks[0]).0, schedule, crew, tasks[0].ref);
      WorkAllNeverRaises(Work(p, schedule, crew, tasks[0]), schedule, crew, tasks[1..]);
    }
  }

  /** With a clock that never goes back, a pass with a valid limit ends with its counters:
      every store error that can occur puts work off. */
  lemma PassNeverRaises(w: World, schedule: Schedule, crew: Crew, limit: int)
    requires LimitOk(limit) && Steady(schedule)
    ensures RunOnce(w, schedule, crew, limit).raised.None?
  {
    hide FinalizeAll, WorkAll, ScanTasks, Serve, PendingFinalizations, Steady;
    var (scanned, pending) := ScanFinalizations(w, schedule, limit);
    PendingIsLimited(scanned.db, limit);
    if pending.Allow? {
      var p := FinalizeAll(Begin(scanned), schedule, crew, pending.value);
      FinalizeAllNeverRaises(Begin(scanned), schedule, crew, pending.value);
      if |pending.value| < limit {
        var n := limit - |pending.value|;
        ScanTasksErrors(p.world, schedule, n);
        var (reconciled, found) := ScanTasks(p.world, schedule, n);
        if found.Allow? {
          WorkAllNeverRaises(p.(world := reconciled), schedule, crew, found.value);
        }
      }
    }
  }
}
