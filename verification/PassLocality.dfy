/** A pass depends on its surroundings only while it lasts, so what holds of a runtime that
    always succeeds holds of one that succeeds during the pass. */
module PassLocality {
  import opened Records
  import opened Backend
  import opened ControlPlane
  import opened Runs
  import opened Idempotence
  import opened Worlds
  import opened Worker
  import opened WorkerSafety
  import opened WorkerProgress
  import opened CleanupTermination
  import opened WorkerOutcomes

  /** The two surroundings are the same from one access up to another. */
  ghost predicate Agree(s: Schedule, t: Schedule, from: nat, to: nat) {
    forall i: nat | from <= i < to :: s(i) == t(i)
  }

  lemma ServeLocal(w: World, s: Schedule, t: Schedule, to: nat)
    requires Agree(s, t, w.tick, to) && w.tick < to
    ensures Serve(w, s) == Serve(w, t) && Serve(w, s).tick == w.tick + 1 && s(w.tick) == t(w.tick)
  {
    hide Run, Proper;
  }

  lemma TransactLocal(w: World, s: Schedule, t: Schedule, c: Call, to: nat)
    requires HasReceipt(c) && Agree(s, t, w.tick, to) && w.tick < to
    ensures Transact(w, s, c) == Transact(w, t, c) && Transact(w, s, c).0.tick == w.tick + 1
  {
    hide Serve, Answer, Agree;
    ServeLocal(w, s, t, to);
  }

  lemma TicksOn(w: World, later: World)
    requires Leads(w, later)
    ensures w.tick <= later.tick
  {
  }

  lemma FinalizeLocal(p: Sweep, s: Schedule, t: Schedule, crew: Crew, ref: Ref, to: nat)
    requires Agree(s, t, p.world.tick, to) && Finalize(p, s, crew, ref).world.tick <= to
    ensures Finalize(p, s, crew, ref) == Finalize(p, t, crew, ref)
  {
    hide Transact;
    FinalizeTicks(p, s, crew, ref);
    assert s(p.world.tick) == t(p.world.tick);
    TransactLocal(p.world, s, t, CompletionOf(crew, ref, s(p.world.tick)), to);
  }

  lemma {:induction false} FinalizeAllLocal(p: Sweep, s: Schedule, t: Schedule, crew: Crew, refs: seq<Ref>, to: nat)
    requires Agree(s, t, p.world.tick, to) && FinalizeAll(p, s, crew, refs).world.tick <= to
    ensures FinalizeAll(p, s, crew, refs) == FinalizeAll(p, t, crew, refs)
    decreases |refs|
  {
    hide Finalize, Leads;
    if refs != [] && p.raised.None? {
      var next := Finalize(p, s, crew, refs[0]);
      FinalizeTicks(p, s, crew, refs[0]);
      FinalizeAllLeads(next, s, crew, refs[1..]);
      TicksOn(next.world, FinalizeAll(next, s, crew, refs[1..]).world);
      FinalizeLocal(p, s, t, crew, refs[0], to);
      FinalizeAllLocal(next, s, t, crew, refs[1..], to);
    }
  }

  lemma AskLocal(w: World, s: Schedule, t: Schedule, question: Question, to: nat)
    requires Agree(s, t, w.tick, to) && w.tick < to
    ensures AskRuntime(w, s, question) == AskRuntime(w, t, question) && AskRuntime(w, s, question).0.tick == w.tick + 1
  {
    hide Serve;
    ServeLocal(w, s, t, to);
  }

  lemma RecordFailureLocal(p: Sweep, s: Schedule, t: Schedule, crew: Crew, task: Task, error: ErrorCode, to: nat)
    requires Agree(s, t, p.world.tick, to) && RecordFailure(p, s, crew, task, error).world.tick <= to
    ensures RecordFailure(p, s, crew, task, error) == RecordFailure(p, t, crew, task, error)
  {
    hide Transact, Serve;
    var read := Serve(p.world, s);
    assert read.tick == p.world.tick + 1 by { ServeTicks(p.world, s); }
    var c := FailureCall(crew, task, error, s(p.world.tick).now + crew.delay, s(read.tick));
    var world := Transact(read, s, c).0;
    TransactTicks(read, s, c);
    ServeTicks(world, s);
    ServeLocal(p.world, s, t, to);
    TransactLocal(read, s, t, c, to);
    if world.tick < to {
      ServeLocal(world, s, t, to);
    }
  }

  lemma ServeTicks(w: World, s: Schedule)
    ensures Serve(w, s).tick == w.tick + 1
  {
  }

  lemma TransactTicks(w: World, s: Schedule, c: Call)
    requires HasReceipt(c)
    ensures Transact(w, s, c).0.tick == w.tick + 1
  {
    hide Answer;
  }

  lemma DestroyTicks(p: Sweep, s: Schedule, crew: Crew, task: Task)
    ensures var (q, gone) := Destroy(p, s, crew, task);
      var (looked, found) := Look(p.world, s, task.ref);
      if found.Allow? && StillDue(found.value, task) then q.world.tick >= p.world.tick + 3 else q.world.tick == p.world.tick + 1
  {
    hide Transact, Serve, RecordFailure, Inspect, Leads;
    ServeTicks(p.world, s);
    var (looked, found) := Look(p.world, s, task.ref);
    if found.Allow? && StillDue(found.value, task) {
      ServeTicks(looked, s);
      var (asked, answer) := AskRuntime(looked, s, DestroyQuestion(task, found.value));
      match answer
      case Evidence(digest) => TransactTicks(asked, s, DestructionOf(crew, task, digest, s(asked.tick)));
      case Fault(error) => RecordTicks(p.(world := asked), s, crew, task, error);
      case Created(_) => RecordTicks(p.(world := asked), s, crew, task, CleanupIncomplete);
    }
  }

  lemma RecordTicks(p: Sweep, s: Schedule, crew: Crew, task: Task, error: ErrorCode)
    ensures RecordFailure(p, s, crew, task, error).world.tick >= p.world.tick + 2
  {
    hide Transact, Serve;
    ServeTicks(p.world, s);
    var read := Serve(p.world, s);
    var c := FailureCall(crew, task, error, s(p.world.tick).now + crew.delay, s(read.tick));
    TransactTicks(read, s, c);
    ServeTicks(Transact(read, s, c).0, s);
  }

  lemma DestroyLocal(p: Sweep, s: Schedule, t: Schedule, crew: Crew, task: Task, to: nat)
    requires Agree(s, t, p.world.tick, to) && Destroy(p, s, crew, task).0.world.tick <= to
    ensures Destroy(p, s, crew, task) == Destroy(p, t, crew, task)
  {
    hide Transact, Serve, RecordFailure, Inspect, AskRuntime;
    DestroyTicks(p, s, crew, task);
    ServeLocal(p.world, s, t, to);
    var (looked, found) := Look(p.world, s, task.ref);
    if found.Allow? && StillDue(found.value, task) {
      var question := DestroyQuestion(task, found.value);
      AskLocal(looked, s, t, question, to);
      var (asked, answer) := AskRuntime(looked, s, question);
      match answer
      case Evidence(digest) =>
        assert s(asked.tick) == t(asked.tick);
        TransactLocal(asked, s, t, DestructionOf(crew, task, digest, s(asked.tick)), to);
      case Fault(error) => RecordFailureLocal(p.(world := asked), s, t, crew, task, error, to);
      case Created(_) => RecordFailureLocal(p.(world := asked), s, t, crew, task, CleanupIncomplete, to);
    }
  }

  lemma WorkLocal(p: Sweep, s: Schedule, t: Schedule, crew: Crew, task: Task, to: nat)
    requires Agree(s, t, p.world.tick, to) && Work(p, s, crew, task).world.tick <= to
    ensures Work(p, s, crew, task) == Work(p, t, crew, task)
  {
    hide Destroy, Finalize, Leads;
    var (after, gone) := Destroy(p, s, crew, task);
    DestroyLeads(p, s, crew, task);
    TicksOn(p.world, after.world);
    if gone {
      FinalizeTicks(after, s, crew, task.ref);
    }
    DestroyLocal(p, s, t, crew, task, to);
    if gone {
      FinalizeLocal(after, s, t, crew, task.ref, to);
    }
  }

  lemma {:induction false} WorkAllLocal(p: Sweep, s: Schedule, t: Schedule, crew: Crew, tasks: seq<Task>, to: nat)
    requires Agree(s, t, p.world.tick, to) && WorkAll(p, s, crew, tasks).world.tick <= to
    ensures WorkAll(p, s, crew, tasks) == WorkAll(p, t, crew, tasks)
    decreases |tasks|
  {
    hide Work, Leads;
    if tasks != [] && p.raised.None? {
      var next := Work(p, s, crew, tasks[0]);
      WorkLeads(p, s, crew, tasks[0]);
      TicksOn(p.world, next.world);
      WorkAllLeads(next, s, crew, tasks[1..]);
      TicksOn(next.world, WorkAll(next, s, crew, tasks[1..]).world);
      WorkLocal(p, s, t, crew, tasks[0], to);
      WorkAllLocal(next, s, t, crew, tasks[1..], to);
    }
  }

  lemma ScanTasksLocal(w: World, s: Schedule, t: Schedule, limit: nat, to: nat)
    requires Agree(s, t, w.tick, to) && w.tick < to
    ensures ScanTasks(w, s, limit) == ScanTasks(w, t, limit) && ScanTasks(w, s, limit).0.tick == w.tick + 1
  {
    hide Serve, Reconcile, FreshIds;
    ServeLocal(w, s, t, to);
  }

  /** A pass only depends on its surroundings from its first access to its last. */
  lemma PassIsLocal(w: World, s: Schedule, t: Schedule, crew: Crew, limit: int)
    requires Agree(s, t, w.tick, RunOnce(w, s, crew, limit).world.tick)
    ensures RunOnce(w, s, crew, limit) == RunOnce(w, t, crew, limit)
  {
    hide Serve, PendingFinalizations, FinalizeAll, WorkAll, ScanTasks, Leads;
    if LimitOk(limit) {
      var to := RunOnce(w, s, crew, limit).world.tick;
      var (scanned, pending) := ScanFinalizations(w, s, limit);
      ServeTicks(w, s);
      if pending.Allow? {
        var p := FinalizeAll(Begin(scanned), s, crew, pending.value);
        FinalizeAllLeads(Begin(scanned), s, crew, pending.value);
        TicksOn(scanned, p.world);
        if p.raised.None? && |pending.value| < limit {
          var n := limit - |pending.value|;
          ScansOn(p, s, crew, n);
          ServeLocal(w, s, t, to);
          FinalizeAllLocal(Begin(scanned), s, t, crew, pending.value, to);
          ScanTasksLocal(p.world, s, t, n, to);
          var (reconciled, found) := ScanTasks(p.world, s, n);
          if found.Allow? {
            WorkAllLocal(p.(world := reconciled), s, t, crew, found.value, to);
          }
        } else {
          ServeLocal(w, s, t, to);
          FinalizeAllLocal(Begin(scanned), s, t, crew, pending.value, to);
        }
      } else {
        ServeLocal(w, s, t, to);
      }
    }
  }

  lemma ScansOn(p: Sweep, s: Schedule, crew: Crew, limit: nat)
    ensures var (reconciled, found) := ScanTasks(p.world, s, limit);
      && reconciled.tick == p.world.tick + 1
      && (found.Allow? ==> reconciled.tick <= WorkAll(p.(world := reconciled), s, crew, found.value).world.tick)
  {
    hide Serve, Reconcile, WorkAll, Leads, FreshIds;
    ServeTicks(p.world, s);
    var (reconciled, found) := ScanTasks(p.world, s, limit);
    if found.Allow? {
      WorkAllLeads(p.(world := reconciled), s, crew, found.value);
      TicksOn(reconciled, WorkAll(p.(world := reconciled), s, crew, found.value).world);
    }
  }

  // ----- a runtime that succeeds during the pass -----

  /** Whatever the runtime is asked from one access up to another, it answers with evidence. */
  ghost predicate VerifiesDuring(schedule: Schedule, from: nat, to: nat) {
    forall t: nat | from <= t < to :: schedule(t).answer.Evidence?
  }

  /** The same surroundings, with a runtime that also succeeds outside the pass. */
  ghost function Calmed(schedule: Schedule, from: nat, to: nat): Schedule {
    (t: nat) => if from <= t < to then schedule(t) else schedule(t).(answer := Evidence(0))
  }

  lemma PassIsCalm(w: World, schedule: Schedule, crew: Crew, limit: int)
    requires Untroubled(schedule) && VerifiesDuring(schedule, w.tick, RunOnce(w, schedule, crew, limit).world.tick)
    ensures var calm := Calmed(schedule, w.tick, RunOnce(w, schedule, crew, limit).world.tick);
      && Calm(calm) && RunOnce(w, calm, crew, limit) == RunOnce(w, schedule, crew, limit)
      && forall t: nat :: calm(t).now == schedule(t).now
  {
    hide RunOnce;
    PassIsLocal(w, schedule, Calmed(schedule, w.tick, RunOnce(w, schedule, crew, limit).world.tick), crew, limit);
  }
}
