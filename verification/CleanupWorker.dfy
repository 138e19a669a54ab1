/** DockerCleanupWorker: one synchronous pass over pending finalizations and cleanup tasks. */
module CleanupWorker {
  import opened Records
  import opened Site
  import S = Worker
  import Backend
  import ControlPlane

  class DockerCleanupWorker {
    const stores: Stores
    const crew: S.Crew
    var destroyed: nat
    var deferred: nat
    var finalized: nat
    var raised: Option<Code>

    constructor (shared: Stores, identities: S.Crew)
      ensures stores == shared && crew == identities
    {
      stores, crew := shared, identities;
      destroyed, deferred, finalized, raised := 0, 0, 0, None;
    }

    /** The pass so far. */
    ghost function Here(): S.Sweep
      reads this, stores, stores.database
    {
      S.Sweep.Sweep(stores.Here(), destroyed, deferred, finalized, raised)
    }

    method Defer(code: Code)
      modifies this
      ensures Here() == old(Here()).Defer(code)
    {
      if S.Deferrable(code) {
        deferred := deferred + 1;
      } else {
        raised := Some(code);
      }
    }

    method Finalize(ref: Ref)
      requires stores.Valid()
      modifies this, stores, stores.database
      ensures stores.Valid() && Here() == S.Finalize(old(Here()), stores.schedule, crew, ref)
    {
      hide W.Transact, S.Deferrable;
      var reply := stores.Transact(S.CompletionOf(crew, ref, stores.schedule(stores.tick)));
      match reply
      case Allow(_) => finalized := finalized + 1;
      case Reject(code) => Defer(code);
    }

    method RecordFailure(task: Task, error: ErrorCode)
      requires stores.Valid()
      modifies this, stores, stores.database
      ensures stores.Valid() && Here() == S.RecordFailure(old(Here()), stores.schedule, crew, task, error)
    {
      hide W.Transact, W.Serve, S.Deferrable;
      var retryAt := stores.schedule(stores.tick).now + crew.delay;
      stores.Serve();
      var reply := stores.Transact(S.FailureCall(crew, task, error, retryAt, stores.schedule(stores.tick)));
      if reply.Reject? {
        if reply.code == InvalidRequest {
          var now := stores.schedule(stores.tick).now;
          stores.Serve();
          if now < retryAt {
            raised := Some(reply.code);
          }
        } else if !S.Deferrable(reply.code) {
          raised := Some(reply.code);
        }
      }
    }

    method Destroy(task: Task) returns (gone: bool)
      requires stores.Valid()
      modifies this, stores, stores.database
      ensures stores.Valid() && (Here(), gone) == S.Destroy(old(Here()), stores.schedule, crew, task)
    {
      hide W.Transact, W.Look, W.AskRuntime, S.RecordFailure, S.Deferrable;
      gone := false;
      var found := stores.Look(task.ref);
      if found.Reject? {
        Defer(found.code);
        return;
      }
      if !S.StillDue(found.value, task) {
        deferred := deferred + 1;
        return;
      }
      var answer := stores.AskRuntime(W.DestroyQuestion(task, found.value));
      if answer.Evidence? {
        var reply := stores.Transact(S.DestructionOf(crew, task, answer.digest, stores.schedule(stores.tick)));
        if reply.Reject? {
          Defer(reply.code);
        } else {
          destroyed := destroyed + 1;
          gone := true;
        }
      } else {
        RecordFailure(task, if answer.Fault? then answer.error else CleanupIncomplete);
        if raised.None? {
          deferred := deferred + 1;
        }
      }
    }

    method ScanFinalizations(limit: nat) returns (found: Verdict<seq<Ref>>)
      requires stores.Valid()
      modifies stores, stores.database
      ensures stores.Valid() && (stores.Here(), found) == S.ScanFinalizations(old(stores.Here()), stores.schedule, limit)
    {
      hide W.Serve, Backend.PendingFinalizations;
      var busy := stores.schedule(stores.tick).busy;
      stores.Serve();
      if busy {
        return Reject(StoreBusy);
      }
      found := stores.backend.PendingFinalizations(limit);
    }

    method ScanTasks(limit: nat) returns (found: Verdict<seq<Task>>)
      requires stores.Valid()
      modifies stores, stores.database
      ensures stores.Valid() && (stores.Here(), found) == S.ScanTasks(old(stores.Here()), stores.schedule, limit)
    {
      hide W.Serve, ControlPlane.Reconcile, Runs.FreshIds;
      var slice := stores.schedule(stores.tick);
      stores.Serve();
      if slice.busy {
        return Reject(StoreBusy);
      }
      ghost var c := Runs.ReconcileCall(slice.now, limit, slice.ids.batch);
      stores.legal := stores.legal && Runs.FreshIds(stores.database.View(), c);
      var reply := stores.control.Reconcile(slice.now, limit, slice.ids.batch);
      match reply
      case Answered(tasks) =>
        stores.trace := stores.trace + [W.Committed(c)];
        found := Allow(tasks);
      case Error(code) =>
        stores.trace := stores.trace + [W.Rejected(c, code)];
        found := Reject(code);
    }

    /** Visit at most `limit` pending finalizations and cleanup tasks in total. */
    method RunOnce(limit: int)
      requires stores.Valid()
      modifies this, stores, stores.database
      ensures stores.Valid() && Here() == S.RunOnce(old(stores.Here()), stores.schedule, crew, limit)
    {
      hide W.Serve, S.Finalize, S.Destroy, S.Work, S.ScanTasks, Backend.PendingFinalizations;
      destroyed, deferred, finalized, raised := 0, 0, 0, None;
      if !Backend.LimitOk(limit) {
        raised := Some(InvalidRequest);
        return;
      }
      var pending := ScanFinalizations(limit);
      if pending.Reject? {
        Defer(pending.code);
        return;
      }
      var refs := pending.value;
      ghost var begun := Here();
      var i := 0;
      assert refs[0..] == refs;
      while i < |refs| && raised.None?
        invariant 0 <= i <= |refs| && stores.Valid()
        invariant S.FinalizeAll(begun, stores.schedule, crew, refs) == S.FinalizeAll(Here(), stores.schedule, crew, refs[i..])
      {
        assert refs[i..][0] == refs[i] && refs[i..][1..] == refs[i + 1..];
        Finalize(refs[i]);
        i := i + 1;
      }
      if raised.Some? || |refs| >= limit {
        return;
      }
      var found := ScanTasks(limit - |refs|);
      if found.Reject? {
        Defer(found.code);
        return;
      }
      var tasks := found.value;
      ghost var reconciled := Here();
      i := 0;
      assert tasks[0..] == tasks;
      while i < |tasks| && raised.None?
        invariant 0 <= i <= |tasks| && stores.Valid()
        invariant S.WorkAll(reconciled, stores.schedule, crew, tasks) == S.WorkAll(Here(), stores.schedule, crew, tasks[i..])
      {
        assert tasks[i..][0] == tasks[i] && tasks[i..][1..] == tasks[i + 1..];
        DoWork(tasks[i]);
        i := i + 1;
      }
    }

    method DoWork(task: Task)
      requires stores.Valid()
      modifies this, stores, stores.database
      ensures stores.Valid() && Here() == S.Work(old(Here()), stores.schedule, crew, task)
    {
      hide S.Finalize, S.Destroy;
      var gone := Destroy(task);
      if gone {
        Finalize(task.ref);
      }
    }
  }
}
