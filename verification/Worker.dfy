/** One pass of the Docker cleanup worker, as a function of the store and of everything
    that may happen around it. */
module Worker {
  import opened Records
  import opened Backend
  import opened ControlPlane
  import opened Runs
  import opened Worlds

  /** Store errors that put work off to a later pass; any other error ends this one. */
  predicate Deferrable(code: Code) {
    || code.StoreBusy? || code.StoreFailure? || code.StaleBinding? || code.StaleVersion?
    || code.InvalidTransition? || code.IdempotencyConflict? || code.CleanupUnverified?
  }

  /** The worker's identities and its retry delay. */
  datatype Crew = Crew(control: ServiceId, backend: ServiceId, delay: nat)

  /** A pass so far: the world, its three counters, and the error that ended it. */
  datatype Sweep = Sweep(world: World, destroyed: nat, deferred: nat, finalized: nat, raised: Option<Code>) {
    /** Put off, or end the pass. */
    function Defer(code: Code): Sweep {
      if Deferrable(code) then this.(deferred := deferred + 1) else this.(raised := Some(code))
    }
  }

  function CompletionOf(crew: Crew, ref: Ref, slice: Slice): Call {
    CompleteCall(crew.backend, ref, FinalizeKey(ref), slice.now, slice.ids.batch)
  }

  function Finalize(p: Sweep, schedule: Schedule, crew: Crew, ref: Ref): Sweep {
    var (world, reply) := Transact(p.world, schedule, CompletionOf(crew, ref, schedule(p.world.tick)));
    match reply
    case Allow(_) => p.(world := world, finalized := p.finalized + 1)
    case Reject(code) => p.(world := world).Defer(code)
  }

  function FinalizeAll(p: Sweep, schedule: Schedule, crew: Crew, refs: seq<Ref>): Sweep
    decreases |refs|
  {
    if refs == [] || p.raised.Some? then p
    else FinalizeAll(Finalize(p, schedule, crew, refs[0]), schedule, crew, refs[1..])
  }

  /** The row is still the stopped one that the task was issued for. */
  predicate StillDue(row: Resource, task: Task) {
    row.version == task.version && row.state == Stopping && row.destroy
  }

  function DestructionOf(crew: Crew, task: Task, evidence: Digest, slice: Slice): Call {
    TransitionCall(crew.control, task.ref, task.version, Move(Destroyed, None, Some(evidence), None),
                   DestroyKey(task.ref, task.operation, task.version), slice.now, slice.ids.batch)
  }

  function FailureOf(error: ErrorCode): ErrorCode {
    if error.RuntimeUnavailable? then error else CleanupIncomplete
  }

  function FailureCall(crew: Crew, task: Task, error: ErrorCode, retryAt: int, slice: Slice): Call {
    CleanupFailedCall(crew.control, task.ref, task.operation, task.version, FailedKey(task.ref, task.operation, task.version),
                      FailureOf(error), retryAt, slice.now, slice.ids.batch)
  }

  /** Record a runtime failure. If waiting for the store used up the retry interval, the
      work stays pending. */
  function RecordFailure(p: Sweep, schedule: Schedule, crew: Crew, task: Task, error: ErrorCode): Sweep {
    var retryAt := schedule(p.world.tick).now + crew.delay;
    var read := Serve(p.world, schedule);
    var (world, reply) := Transact(read, schedule, FailureCall(crew, task, error, retryAt, schedule(read.tick)));
    match reply
    case Allow(_) => p.(world := world)
    case Reject(code) =>
      if code == InvalidRequest then
        var again := Serve(world, schedule);
        if schedule(world.tick).now >= retryAt then p.(world := again) else p.(world := again, raised := Some(code))
      else if Deferrable(code) then p.(world := world)
      else p.(world := world, raised := Some(code))
  }

  /** Remove what the task names, on the runtime's word alone. The flag tells success. */
  function Destroy(p: Sweep, schedule: Schedule, crew: Crew, task: Task): (Sweep, bool) {
    var (looked, found) := Look(p.world, schedule, task.ref);
    match found
    case Reject(code) => (p.(world := looked).Defer(code), false)
    case Allow(row) =>
      if !StillDue(row, task) then (p.(world := looked, deferred := p.deferred + 1), false)
      else
        var (asked, answer) := AskRuntime(looked, schedule, DestroyQuestion(task, row));
        match answer
        case Evidence(digest) =>
          var (world, reply) := Transact(asked, schedule, DestructionOf(crew, task, digest, schedule(asked.tick)));
          (match reply
           case Allow(_) => (p.(world := world, destroyed := p.destroyed + 1), true)
           case Reject(code) => (p.(world := world).Defer(code), false))
        case Fault(error) => (PutOff(RecordFailure(p.(world := asked), schedule, crew, task, error)), false)
        case Created(_) => (PutOff(RecordFailure(p.(world := asked), schedule, crew, task, CleanupIncomplete)), false)
  }

  function PutOff(p: Sweep): Sweep {
    if p.raised.Some? then p else p.(deferred := p.deferred + 1)
  }

  function Work(p: Sweep, schedule: Schedule, crew: Crew, task: Task): Sweep {
    var (after, gone) := Destroy(p, schedule, crew, task);
    if gone then Finalize(after, schedule, crew, task.ref) else after
  }

  function WorkAll(p: Sweep, schedule: Schedule, crew: Crew, tasks: seq<Task>): Sweep
    decreases |tasks|
  {
    if tasks == [] || p.raised.Some? then p
    else WorkAll(Work(p, schedule, crew, tasks[0]), schedule, crew, tasks[1..])
  }

  function ScanFinalizations(w: World, schedule: Schedule, limit: nat): (World, Verdict<seq<Ref>>) {
    var served := Serve(w, schedule);
    (served, if schedule(w.tick).busy then Reject(StoreBusy) else PendingFinalizations(served.db, limit))
  }

  function ScanTasks(w: World, schedule: Schedule, limit: nat): (World, Verdict<seq<Task>>) {
    var served, slice := Serve(w, schedule), schedule(w.tick);
    if slice.busy then (served, Reject(StoreBusy))
    else
      var c := ReconcileCall(slice.now, limit, slice.ids.batch);
      var o := Reconcile(served.db, slice.now, limit, slice.ids.batch);
      var after := served.(db := o.After(served.db), legal := served.legal && FreshIds(served.db, c));
      if o.Done? then (after.(trace := after.trace + [Committed(c)]), Allow(o.value))
      else (after.(trace := after.trace + [Rejected(c, o.code)]), Reject(o.code))
  }

  function Begin(w: World): Sweep {
    Sweep(w, 0, 0, 0, None)
  }

  /** Pending finalizations come first; what they leave of the limit goes to cleanup tasks. */
  function RunOnce(w: World, schedule: Schedule, crew: Crew, limit: int): Sweep {
    if !LimitOk(limit) then Begin(w).(raised := Some(InvalidRequest)) else
    var (scanned, pending) := ScanFinalizations(w, schedule, limit);
    match pending
    case Reject(code) => Begin(scanned).Defer(code)
    case Allow(refs) =>
      var p := FinalizeAll(Begin(scanned), schedule, crew, refs);
      if p.raised.Some? || |refs| >= limit then p
      else
        var (reconciled, found) := ScanTasks(p.world, schedule, limit - |refs|);
        match found
        case Reject(code) => p.(world := reconciled).Defer(code)
        case Allow(tasks) => WorkAll(p.(world := reconciled), schedule, crew, tasks)
  }
}
