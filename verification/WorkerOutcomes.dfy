/** What the cleanup worker records: a runtime failure, until when it is put off, and the
    counters of a pass. */
module WorkerOutcomes {
  import opened Records
  import opened Backend
  import opened ControlPlane
  import opened Runs
  import opened Invariant
  import opened Preservation
  import opened Log
  import opened Ledger
  import opened Access
  import opened Reachable
  import opened Idempotence
  import opened Keys
  import opened Worlds
  import opened Worker
  import opened WorkerSafety
  import opened WorkerProgress
  import opened CleanupTermination
  import opened BackendOutcomes
  import opened ControlOutcomes
  import opened ReconcileOutcomes

  // ----- failures -----

  /** Nobody else calls the store, and it is never busy. */
  ghost predicate Untroubled(schedule: Schedule) {
    forall t: nat :: schedule(t).others == [] && !schedule(t).busy
  }

  lemma UntroubledServe(w: World, schedule: Schedule)
    requires Untroubled(schedule)
    ensures Serve(w, schedule) == w.(tick := w.tick + 1)
  {
  }

  lemma UntroubledTransact(w: World, schedule: Schedule, c: Call)
    requires Untroubled(schedule) && HasReceipt(c)
    ensures var (later, reply) := Transact(w, schedule, c);
      && later.db == Answer(w.db, c).After(w.db) && later.tick == w.tick + 1
      && reply == (if Answer(w.db, c).Done? then Allow(Answer(w.db, c).value) else Reject(Answer(w.db, c).code))
      && (later.legal ==> FreshIds(w.db, c))
  {
    hide Answer, Honest;
    UntroubledServe(w, schedule);
  }

  /** The task was handed out for this stopping row and its present cleanup operation. */
  ghost predicate IsCurrentTask(db: Db, t: Task) {
    && HasRow(db, t.ref) && db.resources[t.ref.sandbox].state == Stopping && db.resources[t.ref.sandbox].version == t.version
    && CleanupKey(t.ref.sandbox) in db.operations && db.operations[CleanupKey(t.ref.sandbox)].id == t.operation
  }

  lemma ToldIsCurrent(before: Db, ref: Ref, now: int, after: Db, t: Task)
    requires IsTold(before, ref, now, after, t) && (ref.sandbox in before.resources ==> HasRow(before, ref))
    ensures IsCurrentTask(after, t)
  {
  }

  lemma CurrentIsReady(db: Db, t: Task)
    requires Core(db) && IsCurrentTask(db, t)
    ensures TaskReady(db, t) && IsPresentOrActive(db, t.ref)
  {
    hide Core;
    ResourceIsShaped(db, t.ref.sandbox);
    LiveSandboxIsBound(db, t.ref);
  }

  lemma CurrentIsInspected(db: Db, t: Task)
    requires Intact(db) && IsCurrentTask(db, t)
    ensures Inspect(db, t.ref).Allow? && StillDue(Inspect(db, t.ref).value, t)
  {
    hide Core, LogOk, LedgerOk, AccessOk, ResetsOk, KeysOk;
    CurrentIsReady(db, t);
    LiveSandboxIsBound(db, t.ref);
  }

  /** A failure of this version has not been recorded. */
  lemma FailureKeyUnspent(db: Db, service: ServiceId, t: Task)
    requires Intact(db) && IsCurrentTask(db, t)
    ensures OpKey(ControlActor(service), FailedKey(t.ref, t.operation, t.version)) !in db.operations
  {
    hide Core, LedgerOk, AccessOk, ResetsOk;
    EntryIsHonest(db, OpKey(ControlActor(service), FailedKey(t.ref, t.operation, t.version)));
  }

  /** The reason on record: an unavailable runtime, or else an incomplete cleanup. */
  ghost function ReasonOf(answer: Response): ErrorCode {
    if answer == Fault(RuntimeUnavailable) then RuntimeUnavailable else CleanupIncomplete
  }

  /** The sandbox has failed, and its operation waits until the retry time. */
  ghost predicate IsPutOff(before: Db, t: Task, after: Db, reason: ErrorCode, retryAt: int) {
    && IsCurrentTask(before, t) && OnlyResource(before, after, t.ref.sandbox)
    && FailedCleanup(before.resources[t.ref.sandbox], after.resources[t.ref.sandbox])
    && CleanupKey(t.ref.sandbox) in after.operations
    && WillRetry(before.operations[CleanupKey(t.ref.sandbox)], after.operations[CleanupKey(t.ref.sandbox)], reason, retryAt, t.version + 1)
  }

  lemma PutOffIsNotDue(before: Db, t: Task, after: Db, reason: ErrorCode, retryAt: int, now: int)
    requires IsPutOff(before, t, after, reason, retryAt) && now < retryAt
    ensures !IsDue(after, t.ref, now)
  {
  }

  lemma FailureCallOutcome(db: Db, c: Call, t: Task)
    requires Intact(db) && IsCurrentTask(db, t) && FreshIds(db, c) && c.CleanupFailedCall?
    requires c.ref == t.ref && c.operation == t.operation && c.expected == t.version && c.key == FailedKey(t.ref, t.operation, t.version)
    requires c.error == RuntimeUnavailable || c.error == CleanupIncomplete
    ensures var o := Answer(db, c);
      if c.retryAt <= c.now then o == Refused(InvalidRequest) else o.Done? && IsPutOff(db, t, o.db, c.error, c.retryAt)
  {
    hide Core, LogOk, LedgerOk, AccessOk, ResetsOk, KeysOk, CleanupFailed, FailedCleanup, WillRetry, OnlyResource;
    FailureKeyUnspent(db, c.service, t);
    CurrentIsReady(db, t);
    CleanupFailedOutcome(db, c.service, c.ref, c.operation, c.expected, c.key, c.error, c.retryAt, c.now, c.batch);
  }

  /** The pass went on, having put one piece of work off. */
  ghost predicate OneDeferred(p: Sweep, q: Sweep) {
    q.raised.None? && q.deferred == p.deferred + 1 && q.destroyed == p.destroyed && q.finalized == p.finalized
  }

  lemma RecordingOutcome(p: Sweep, schedule: Schedule, crew: Crew, t: Task, answer: Response)
    requires Untroubled(schedule) && Healthy(p.world) && p.raised.None? && IsCurrentTask(p.world.db, t) && !answer.Evidence?
    requires var error := if answer.Fault? then answer.error else CleanupIncomplete;
      RecordFailure(p, schedule, crew, t, error).world.legal
    ensures var error := if answer.Fault? then answer.error else CleanupIncomplete;
      var q := RecordFailure(p, schedule, crew, t, error);
      var retryAt := schedule(p.world.tick).now + crew.delay;
      if schedule(p.world.tick + 1).now < retryAt then
        q == p.(world := q.world) && IsPutOff(p.world.db, t, q.world.db, ReasonOf(answer), retryAt)
      else
        && q.world.db == p.world.db
        && q == if schedule(p.world.tick + 2).now >= retryAt then p.(world := q.world)
                else p.(world := q.world, raised := Some(InvalidRequest))
  {
    hide Intact, Grows, Transact, Answer, Apply, Honest, FreshIds, IsPutOff, IsCurrentTask, Run, Legal;
    var error := if answer.Fault? then answer.error else CleanupIncomplete;
    var retryAt := schedule(p.world.tick).now + crew.delay;
    UntroubledServe(p.world, schedule);
    var read := Serve(p.world, schedule);
    var c := FailureCall(crew, t, error, retryAt, schedule(read.tick));
    UntroubledTransact(read, schedule, c);
    var world := Transact(read, schedule, c).0;
    UntroubledServe(world, schedule);
    FailureCallOutcome(p.world.db, c, t);
  }

  /** An undisturbed worker that the runtime fails puts the sandbox off, with the reason, by the
      delay from its clock, unless waiting for the store has used the delay up; then the
      sandbox stays due. */
  lemma FailureIsRecorded(p: Sweep, schedule: Schedule, crew: Crew, t: Task)
    requires Untroubled(schedule) && Healthy(p.world) && p.raised.None? && IsCurrentTask(p.world.db, t)
    requires !schedule(p.world.tick + 1).answer.Evidence? && Destroy(p, schedule, crew, t).0.world.legal
    ensures var (q, gone) := Destroy(p, schedule, crew, t);
      var start := p.world.tick;
      var retryAt := schedule(start + 2).now + crew.delay;
      && !gone
      && if schedule(start + 3).now < retryAt then
           && OneDeferred(p, q) && IsPutOff(p.world.db, t, q.world.db, ReasonOf(schedule(start + 1).answer), retryAt)
           && (forall now | now < retryAt :: !IsDue(q.world.db, t.ref, now))
         else
           && q.world.db == p.world.db
           && (if schedule(start + 4).now >= retryAt then OneDeferred(p, q) else q.raised == Some(InvalidRequest))
  {
    hide Intact, Grows, RecordFailure, IsPutOff, IsDue, Inspect, IsCurrentTask, TaskReady, Run, Legal, Proper;
    CurrentIsInspected(p.world.db, t);
    UntroubledServe(p.world, schedule);
    var (looked, found) := Look(p.world, schedule, t.ref);
    UntroubledServe(looked, schedule);
    var (asked, answer) := AskRuntime(looked, schedule, DestroyQuestion(t, found.value));
    RecordingOutcome(p.(world := asked), schedule, crew, t, answer);
    var q := Destroy(p, schedule, crew, t).0;
    var retryAt := schedule(p.world.tick + 2).now + crew.delay;
    if schedule(p.world.tick + 3).now < retryAt {
      forall now | now < retryAt
        ensures !IsDue(q.world.db, t.ref, now)
      {
        PutOffIsNotDue(p.world.db, t, q.world.db, ReasonOf(answer), retryAt, now);
      }
    }
  }

  // ----- counters -----

  ghost predicate IsDestruction(e: Event) {
    e.Committed? && e.call.TransitionCall? && e.call.move.state == Destroyed
  }

  ghost predicate IsCompletion(e: Event) {
    e.Committed? && e.call.CompleteCall?
  }

  ghost function Destructions(trace: seq<Event>): nat {
    if trace == [] then 0
    else Destructions(trace[..|trace| - 1]) + (if IsDestruction(trace[|trace| - 1]) then 1 else 0)
  }

  ghost function Completions(trace: seq<Event>): nat {
    if trace == [] then 0
    else Completions(trace[..|trace| - 1]) + (if IsCompletion(trace[|trace| - 1]) then 1 else 0)
  }

  lemma OneMoreEvent(trace: seq<Event>, e: Event)
    ensures Destructions(trace + [e]) == Destructions(trace) + (if IsDestruction(e) then 1 else 0)
    ensures Completions(trace + [e]) == Completions(trace) + (if IsCompletion(e) then 1 else 0)
  {
    assert (trace + [e])[..|trace|] == trace;
  }

  /** From p to q the counters of destroyed and finalized grew by what was committed. */
  ghost predicate Tallies(p: Sweep, q: Sweep) {
    && q.destroyed - p.destroyed == Destructions(q.world.trace) - Destructions(p.world.trace)
    && q.finalized - p.finalized == Completions(q.world.trace) - Completions(p.world.trace)
  }

  lemma TransactTally(w: World, schedule: Schedule, c: Call)
    requires HasReceipt(c)
    ensures var (later, reply) := Transact(w, schedule, c);
      && Destructions(later.trace) == Destructions(w.trace) + (if reply.Allow? && IsDestruction(Committed(c)) then 1 else 0)
      && Completions(later.trace) == Completions(w.trace) + (if reply.Allow? && IsCompletion(Committed(c)) then 1 else 0)
  {
    hide Answer, Proper, Honest, FreshIds, Destructions, Completions;
    var served := Serve(w, schedule);
    OneMoreEvent(w.trace, Committed(c));
    if !schedule(w.tick).busy && !Answer(served.db, c).Done? {
      OneMoreEvent(w.trace, Rejected(c, Answer(served.db, c).code));
    }
  }

  lemma FinalizeTallies(p: Sweep, schedule: Schedule, crew: Crew, ref: Ref)
    ensures Tallies(p, Finalize(p, schedule, crew, ref))
  {
    hide Transact, Destructions, Completions;
    TransactTally(p.world, schedule, CompletionOf(crew, ref, schedule(p.world.tick)));
  }

  lemma {:induction false} FinalizeAllTallies(p: Sweep, schedule: Schedule, crew: Crew, refs: seq<Ref>)
    ensures Tallies(p, FinalizeAll(p, schedule, crew, refs))
    decreases |refs|
  {
    hide Finalize, Destructions, Completions;
    if refs != [] && p.raised.None? {
      FinalizeTallies(p, schedule, crew, refs[0]);
      FinalizeAllTallies(Finalize(p, schedule, crew, refs[0]), schedule, crew, refs[1..]);
    }
  }

  lemma RecordingTallies(p: Sweep, schedule: Schedule, crew: Crew, t: Task, error: ErrorCode)
    ensures Tallies(p, RecordFailure(p, schedule, crew, t, error))
  {
    hide Transact, Serve, Destructions, Completions;
    var read := Serve(p.world, schedule);
    ServingIsSilent(p.world, schedule);
    var c := FailureCall(crew, t, error, schedule(p.world.tick).now + crew.delay, schedule(read.tick));
    TransactTally(read, schedule, c);
    ServingIsSilent(Transact(read, schedule, c).0, schedule);
  }

  lemma DestroyTallies(p: Sweep, schedule: Schedule, crew: Crew, t: Task)
    ensures Tallies(p, Destroy(p, schedule, crew, t).0)
  {
    hide Transact, Serve, Destructions, Completions, RecordFailure, Inspect;
    ServingIsSilent(p.world, schedule);
    var (looked, found) := Look(p.world, schedule, t.ref);
    if found.Allow? && StillDue(found.value, t) {
      var question := DestroyQuestion(t, found.value);
      var (asked, answer) := AskRuntime(looked, schedule, question);
      ServingIsSilent(looked, schedule);
      OneMoreEvent(looked.trace, Asked(question, answer));
      if answer.Evidence? {
        TransactTally(asked, schedule, DestructionOf(crew, t, answer.digest, schedule(asked.tick)));
      } else {
        RecordingTallies(p.(world := asked), schedule, crew, t, if answer.Fault? then answer.error else CleanupIncomplete);
      }
    }
  }

  lemma {:induction false} WorkAllTallies(p: Sweep, schedule: Schedule, crew: Crew, tasks: seq<Task>)
    ensures Tallies(p, WorkAll(p, schedule, crew, tasks))
    decreases |tasks|
  {
    hide Destroy, Finalize, Destructions, Completions;
    if tasks != [] && p.raised.None? {
      var after := Destroy(p, schedule, crew, tasks[0]).0;
      DestroyTallies(p, schedule, crew, tasks[0]);
      FinalizeTallies(after, schedule, crew, tasks[0].ref);
      WorkAllTallies(Work(p, schedule, crew, tasks[0]), schedule, crew, tasks[1..]);
    }
  }

  /** Whatever happens around a pass, it reports as destroyed and as finalized exactly the
      steps to DESTROYED and the completions that it committed. */
  lemma CountersAreExact(w: World, schedule: Schedule, crew: Crew, limit: int)
    ensures var q := RunOnce(w, schedule, crew, limit);
      && q.destroyed == Destructions(q.world.trace) - Destructions(w.trace)
      && q.finalized == Completions(q.world.trace) - Completions(w.trace)
  {
    hide FinalizeAll, WorkAll, ScanTasks, Serve, Destructions, Completions, PendingFinalizations;
    if LimitOk(limit) {
      var (scanned, pending) := ScanFinalizations(w, schedule, limit);
      ServingIsSilent(w, schedule);
      if pending.Allow? {
        var p := FinalizeAll(Begin(scanned), schedule, crew, pending.value);
        FinalizeAllTallies(Begin(scanned), schedule, crew, pending.value);
        if p.raised.None? && |pending.value| < limit {
          var n := limit - |pending.value|;
          ScanTallies(p.world, schedule, n);
          var (reconciled, found) := ScanTasks(p.world, schedule, n);
          if found.Allow? {
            WorkAllTallies(p.(world := reconciled), schedule, crew, found.value);
          }
        }
      }
    }
  }

  lemma ScanTallies(w: World, schedule: Schedule, limit: nat)
    ensures var later := ScanTasks(w, schedule, limit).0;
      Destructions(later.trace) == Destructions(w.trace) && Completions(later.trace) == Completions(w.trace)
  {
    hide Reconcile, Proper, FreshBatch, Destructions, Completions;
    var slice := schedule(w.tick);
    var c := ReconcileCall(slice.now, limit, slice.ids.batch);
    OneMoreEvent(w.trace, Committed(c));
    var o := Reconcile(Serve(w, schedule).db, slice.now, limit, slice.ids.batch);
    if !slice.busy && !o.Done? {
      OneMoreEvent(w.trace, Rejected(c, o.code));
    }
  }
}
