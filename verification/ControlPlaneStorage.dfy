/** ControlPlaneStore: every method is one transaction on the resource rows, the leases
    and the durable cleanup work. */
module ControlPlaneStorage {
  import opened Records
  import opened Common
  import opened Selection
  import opened Storage
  import C = ControlPlane
  import Backend
  import Idempotence
  import Reachable

  class ControlPlaneStore {
    const database: Database

    constructor (db: Database)
      ensures database == db
    {
      database := db;
    }

    method StopResource(sandbox: SandboxId, expired: bool) returns (ok: bool)
      requires sandbox in database.resources
      modifies database`resources
      ensures Ran(old(database.View()), C.StopResource(old(database.View()), sandbox, expired), ok, database.View())
    {
      ok := true;
      var r := database.resources[sandbox];
      if r.state != Destroyed && (r.state != Stopping || !r.destroy || (expired && !r.expiry)) {
        ok := database.UpdateResource(sandbox, C.TornDown(r, expired));
      }
    }

    /** Refuse a dead attempt; past the deadline its resource is stopped and that is committed. */
    method RequireLive(a: Attempt, sandbox: Option<SandboxId>, now: int) returns (reply: Reply<()>)
      requires sandbox.Some? ==> sandbox.value in database.resources
      modifies database
      ensures var o := C.RequireLive(old(database.View()), a, sandbox, now);
        database.View() == o.After(old(database.View())) && reply == ReplyOf(o)
    {
      var expired := now >= a.expiresAt || a.expiry;
      if C.Dead(a, now) || (sandbox.Some? && database.resources[sandbox.value].destroy) {
        if expired && sandbox.Some? {
          var ok := StopResource(sandbox.value, expired);
          if !ok {
            return Error(StoreFailure);
          }
        }
        return Error(AttemptUnavailable);
      }
      reply := Answered(());
    }

    method Accept(service: ServiceId, ref: Ref, key: Key, now: int, batch: nat) returns (reply: Reply<Receipt>)
      modifies database
      ensures var o := C.Accept(old(database.View()), service, ref, key, now, batch);
        database.View() == o.After(old(database.View())) && reply == ReplyOf(o)
    {
      hide C.OldDestroyed, C.Dead;
      var saved := database.View();
      var bound := Binding(saved, ref, false);
      if bound.Reject? {
        return Error(bound.code);
      }
      var a := bound.value;
      var live := RequireLive(a, None, now);
      if live.Error? {
        return Error(live.code);
      }
      var k := OpKey(BackendActor(service), key);
      var previous := Replay(saved, k, AcceptRequest(ref));
      if previous.Reject? {
        return Error(previous.code);
      }
      if previous.value.Some? {
        return Answered(previous.value.value);
      }
      var awaitsReset := Backend.AwaitsReset(a, ref);
      if !(a.state == Provisioning && a.provisioning) && !awaitsReset {
        return Error(InvalidTransition);
      }
      if awaitsReset && !C.OldDestroyed(saved, ref.attempt, a) {
        return Error(InvalidTransition);
      }
      if ref.sandbox in saved.resources {
        return Error(ResourceExists);
      }
      var ok := database.InsertResource(ref.sandbox, C.NewResource(ref, a));
      if !ok {
        return Error(StoreFailure);
      }
      reply := database.Finish(k, OperationId(batch, 0), AcceptRequest(ref), ref, Requested, 0, None, saved);
    }

    /** The row of the tuple, as long as it is the current or active one of its attempt. */
    method Inspect(ref: Ref) returns (reply: Verdict<Resource>)
      ensures reply == C.Inspect(database.View(), ref)
      ensures reply.Allow? <==>
        && ref.attempt in database.attempts && ref.sandbox in database.resources
        && ref == ResourceRef(ref.sandbox, database.resources[ref.sandbox])
        && (ref == RefOf(ref.attempt, database.attempts[ref.attempt])
            || (database.attempts[ref.attempt].activeSandbox == Some(ref.sandbox)
                && database.attempts[ref.attempt].activeGeneration == Some(ref.generation)))
      ensures reply.Allow? ==> reply.value == database.resources[ref.sandbox]
      ensures reply.Reject? ==> reply.code == StaleBinding
    {
      var saved := database.View();
      var bound := Binding(saved, ref, true);
      if bound.Reject? {
        return Reject(bound.code);
      }
      reply := Observed(saved, ref);
    }

    method ApplyMove(k: OpKey, ref: Ref, expected: nat, m: Move, expired: bool, batch: nat) returns (reply: Reply<Receipt>)
      requires ref.sandbox in database.resources
      modifies database
      ensures var o := C.ApplyMove(old(database.View()), k, ref, expected, m, expired, batch);
        database.View() == o.After(old(database.View())) && reply == ReplyOf(o)
    {
      hide C.Moved, Finish, Schema.UpdateResource, Schema.UpdateOperation;
      var saved := database.View();
      var ok := database.UpdateResource(ref.sandbox, C.Moved(database.resources[ref.sandbox], m, expired));
      if !ok {
        return Error(StoreFailure);
      }
      var cleanup := C.CleanupKey(ref.sandbox);
      if m.state == Destroyed && cleanup in database.operations {
        database.UpdateOperation(cleanup,
          database.operations[cleanup].(status := Succeeded, state := Destroyed, version := expected + 1, error := None));
      }
      reply := database.Finish(k, OperationId(batch, 0), TransitionRequest(ref, expected, m), ref, m.state, expected + 1, m.error, saved);
    }

    method Transition(service: ServiceId, ref: Ref, expected: nat, m: Move, key: Key, now: int, batch: nat)
      returns (reply: Reply<Receipt>)
      modifies database
      ensures var o := C.Transition(old(database.View()), service, ref, expected, m, key, now, batch);
        database.View() == o.After(old(database.View())) && reply == ReplyOf(o)
    {
      hide Replay, Binding, IsCurrent, C.MayMove, C.MoveOk, C.RequireLive, C.ApplyMove, Idempotence.OnlyStops;
      var saved := database.View();
      if !C.MoveOk(m) {
        return Error(InvalidRequest);
      }
      var bound := Binding(saved, ref, true);
      if bound.Reject? {
        return Error(bound.code);
      }
      var a := bound.value;
      var row := Observed(saved, ref);
      if row.Reject? {
        return Error(row.code);
      }
      var r := row.value;
      var cleanup := m.state.Stopping? || m.state.Destroyed? || (m.state == Failed && r.destroy);
      if !IsCurrent(a, ref) && !cleanup {
        return Error(InvalidTransition);
      }
      Idempotence.RequireLiveStops(saved, a, Some(ref.sandbox), now);
      if !cleanup {
        var live := RequireLive(a, Some(ref.sandbox), now);
        if live.Error? {
          return Error(live.code);
        }
      }
      var k, request := OpKey(ControlActor(service), key), TransitionRequest(ref, expected, m);
      var previous := Replay(saved, k, request);
      if previous.Reject? {
        return Error(previous.code);
      }
      if previous.value.Some? {
        return Answered(previous.value.value);
      }
      if r.version != expected {
        return Error(StaleVersion);
      }
      if !C.MayMove(r.state, m.state) {
        return Error(InvalidTransition);
      }
      reply := ApplyMove(k, ref, expected, m, now >= r.expiresAt || a.expiry, batch);
    }

    method GrantLease(service: ServiceId, ref: Ref, consumed: CapabilityUse, session: SessionHash, duration: int,
                      key: Key, now: int, lease: LeaseId) returns (reply: Reply<Grant>)
      modifies database
      ensures var o := C.GrantLease(old(database.View()), service, ref, consumed, session, duration, key, now, lease);
        database.View() == o.After(old(database.View())) && reply == ReplyOf(o)
    {
      hide C.Dead;
      var saved := database.View();
      if consumed.ref != ref {
        return Error(CapabilityInvalid);
      }
      if duration < 1 || duration > 60_000_000 {
        return Error(InvalidRequest);
      }
      var bound := Binding(saved, ref, false);
      if bound.Reject? {
        return Error(bound.code);
      }
      var a := bound.value;
      var row := Observed(saved, ref);
      if row.Reject? {
        return Error(row.code);
      }
      var r := row.value;
      var live := RequireLive(a, Some(ref.sandbox), now);
      if live.Error? {
        return Error(live.code);
      }
      if !r.state.Attachable() || a.activeSandbox != Some(ref.sandbox) || r.destroy || r.expiry || a.epoch != consumed.epoch {
        return Error(AttemptUnavailable);
      }
      if consumed.jti !in saved.uses || saved.uses[consumed.jti].attempt != ref.attempt
        || saved.uses[consumed.jti].expiresAt <= now || saved.uses[consumed.jti].expiresAt != consumed.expiresAt
      {
        return Error(CapabilityInvalid);
      }
      var actor, request := GatewayActor(service), LeaseRequest(ref, consumed.jti, consumed.epoch, session, duration);
      var sameKey := C.LeaseWithKey(saved, actor, key);
      if sameKey.Some? {
        if saved.leases[sameKey.value].request != request {
          return Error(IdempotencyConflict);
        }
        return Answered(Grant(sameKey.value, saved.leases[sameKey.value]));
      }
      var sameJti := C.LeaseWithJti(saved, consumed.jti);
      if sameJti.Some? {
        if saved.leases[sameJti.value].request != request {
          return Error(CapabilityReplay);
        }
        return Answered(Grant(sameJti.value, saved.leases[sameJti.value]));
      }
      if exists l | l in saved.leases :: saved.leases[l].session == session {
        return Error(CapabilityReplay);
      }
      var expires := C.Min(saved.uses[consumed.jti].expiresAt, C.Min(a.expiresAt, now + duration));
      if expires <= now {
        return Error(CapabilityInvalid);
      }
      var entry := Lease(consumed.jti, actor, key, request, ref, consumed.epoch, session, now, expires, now);
      var ok := database.InsertLease(lease, entry);
      if !ok {
        return Error(StoreFailure);
      }
      reply := Answered(Grant(lease, entry));
    }

    /** Stop one selected resource, reserving its row first if it has none, and make sure
        that its cleanup operation exists. */
    method ReconcileRow(row: Row, now: int, id: OperationId) returns (reply: Reply<Task>)
      requires C.RowKnown(database.View(), row)
      modifies database
      ensures var o := C.ReconcileRow(old(database.View()), row, now, id);
        reply == ReplyOf(o) && (o.Done? ==> database.View() == o.db)
    {
      var ref := C.CleanupRef(database.View(), row);
      var a := database.attempts[row.attempt];
      var expired := now >= a.expiresAt || a.expiry;
      var ok := true;
      if row.sandbox == 0 && ref.sandbox !in database.resources {
        ok := database.InsertResource(ref.sandbox, C.NewResource(ref, a).(state := Stopping, destroy := true, expiry := expired));
        if !ok {
          return Error(StoreFailure);
        }
      }
      var found := Observed(database.View(), ref);
      if found.Reject? {
        return Error(found.code);
      }
      ok := StopResource(ref.sandbox, expired);
      if !ok {
        return Error(StoreFailure);
      }
      found := Observed(database.View(), ref);
      if found.Reject? {
        return Error(found.code);
      }
      var r, k := found.value, C.CleanupKey(ref.sandbox);
      if k !in database.operations {
        ok := database.InsertOperation(k, C.NewCleanup(id, ref, r.version));
        if !ok {
          return Error(StoreFailure);
        }
      }
      var op := database.operations[k];
      reply := Answered(Task(op.id, ref, r.state, r.version, r.expiry, op.retryCount));
    }

    /** Turn the due rows, earliest deadline first, into cleanup tasks. */
    method Reconcile(now: int, limit: int, batch: nat) returns (reply: Reply<seq<Task>>)
      modifies database
      ensures var o := C.Reconcile(old(database.View()), now, limit, batch);
        database.View() == o.After(old(database.View())) && reply == ReplyOf(o)
    {
      hide Select, C.ReconcileRow, C.RowKnown, C.ReconcileRows, C.CleanupRows, AddsTo;
      var saved := database.View();
      if !Backend.LimitOk(limit) {
        return Error(InvalidRequest);
      }
      var rows := Select(C.CleanupRows(saved, now), limit);
      ghost var all := C.ReconcileRows(saved, rows, now, batch, 0);
      var tasks: seq<Task> := [];
      var i := 0;
      assert rows[0..] == rows;
      Begins(all);
      while i < |rows|
        invariant 0 <= i <= |rows|
        invariant C.AllKnown(database.View(), rows[i..])
        invariant AddsTo(all, tasks, C.ReconcileRows(database.View(), rows[i..], now, batch, i))
      {
        Unfold(database.View(), rows[i..], now, batch, i);
        assert rows[i..][0] == rows[i] && rows[i..][1..] == rows[i + 1..];
        ghost var here := C.ReconcileRows(database.View(), rows[i..], now, batch, i);
        var task := ReconcileRow(rows[i], now, OperationId(batch, i));
        if task.Error? {
          database.Restore(saved);
          Ends(all, tasks, here);
          return Error(task.code);
        }
        AddsMore(all, tasks, here, task.value, C.ReconcileRows(database.View(), rows[i + 1..], now, batch, i + 1));
        tasks := tasks + [task.value];
        i := i + 1;
      }
      Unfold(database.View(), rows[i..], now, batch, i);
      Ends(all, tasks, C.ReconcileRows(database.View(), rows[i..], now, batch, i));
      reply := Answered(tasks);
    }

    method CleanupFailed(service: ServiceId, ref: Ref, operation: OperationId, expected: nat, key: Key,
                         error: ErrorCode, retryAt: int, now: int, batch: nat) returns (reply: Reply<Receipt>)
      modifies database
      ensures var o := C.CleanupFailed(old(database.View()), service, ref, operation, expected, key, error, retryAt, now, batch);
        database.View() == o.After(old(database.View())) && reply == ReplyOf(o)
    {
      hide C.ApplyFailure;
      var saved := database.View();
      if !error.RuntimeUnavailable? && !error.CleanupIncomplete? {
        return Error(InvalidRequest);
      }
      var bound := Binding(saved, ref, true);
      if bound.Reject? {
        return Error(bound.code);
      }
      var row := Observed(saved, ref);
      if row.Reject? {
        return Error(row.code);
      }
      var r := row.value;
      var k, request := OpKey(ControlActor(service), key), CleanupFailedRequest(ref, operation, expected, error, retryAt);
      var previous := Replay(saved, k, request);
      if previous.Reject? {
        return Error(previous.code);
      }
      if previous.value.Some? {
        return Answered(previous.value.value);
      }
      if retryAt <= now {
        return Error(InvalidRequest);
      }
      if r.version != expected {
        return Error(StaleVersion);
      }
      var cleanup := C.CleanupKey(ref.sandbox);
      if r.state != Stopping || cleanup !in saved.operations || saved.operations[cleanup].id != operation
        || saved.operations[cleanup].status == Succeeded
      {
        return Error(InvalidTransition);
      }
      reply := ApplyFailure(k, ref, operation, expected, error, retryAt, batch);
    }

    method ApplyFailure(k: OpKey, ref: Ref, operation: OperationId, expected: nat, error: ErrorCode, retryAt: int, batch: nat)
      returns (reply: Reply<Receipt>)
      requires ref.sandbox in database.resources && C.CleanupKey(ref.sandbox) in database.operations
      modifies database
      ensures var o := C.ApplyFailure(old(database.View()), k, ref, operation, expected, error, retryAt, batch);
        database.View() == o.After(old(database.View())) && reply == ReplyOf(o)
    {
      hide Finish, Schema.UpdateResource, Schema.UpdateOperation;
      var saved := database.View();
      var r, cleanup := database.resources[ref.sandbox], C.CleanupKey(ref.sandbox);
      var ok := database.UpdateResource(ref.sandbox, r.(state := Failed, version := r.version + 1));
      if !ok {
        return Error(StoreFailure);
      }
      database.UpdateOperation(cleanup, C.RetryLater(saved.operations[cleanup], expected + 1, error, retryAt));
      reply := database.Finish(k, OperationId(batch, 0), CleanupFailedRequest(ref, operation, expected, error, retryAt), ref,
                               Failed, expected + 1, Some(error), saved);
    }
  }

  /** The whole outcome follows from the tasks found so far and the outcome of the rest. */
  ghost predicate AddsTo(all: Outcome<seq<Task>>, tasks: seq<Task>, rest: Outcome<seq<Task>>) {
    match rest
    case Done(db, more) => all == Done(db, tasks + more)
    case Denied(db, code) => all == Denied(db, code)
    case Refused(code) => all == Refused(code)
  }

  lemma Begins(all: Outcome<seq<Task>>)
    ensures AddsTo(all, [], all)
  {
    if all.Done? {
      assert [] + all.value == all.value;
    }
  }

  lemma AddsMore(all: Outcome<seq<Task>>, tasks: seq<Task>, here: Outcome<seq<Task>>, task: Task, rest: Outcome<seq<Task>>)
    requires AddsTo(all, tasks, here) && AddsTo(here, [task], rest)
    ensures AddsTo(all, tasks + [task], rest)
  {
    if rest.Done? {
      assert tasks + ([task] + rest.value) == (tasks + [task]) + rest.value;
    }
  }

  lemma Ends(all: Outcome<seq<Task>>, tasks: seq<Task>, rest: Outcome<seq<Task>>)
    requires AddsTo(all, tasks, rest)
    ensures rest.Refused? ==> all == rest
    ensures rest.Done? && rest.value == [] ==> all == Done(rest.db, tasks)
  {
    assert tasks + [] == tasks;
  }

  lemma Unfold(db: Db, rows: seq<Row>, now: int, batch: nat, index: nat)
    requires C.AllKnown(db, rows)
    ensures rows == [] ==> C.ReconcileRows(db, rows, now, batch, index) == Done(db, [])
    ensures rows != [] ==>
      && C.RowKnown(db, rows[0])
      && var o := C.ReconcileRow(db, rows[0], now, OperationId(batch, index));
      && !o.Denied?
      && (o.Refused? ==> C.ReconcileRows(db, rows, now, batch, index) == Refused(o.code))
      && (o.Done? ==>
            && C.AllKnown(o.db, rows[1..])
            && AddsTo(C.ReconcileRows(db, rows, now, batch, index), [o.value],
                      C.ReconcileRows(o.db, rows[1..], now, batch, index + 1)))
  {
    hide C.ReconcileRow;
    if rows != [] {
      Reachable.KnownParts(db, rows);
      Idempotence.RowNeverDenies(db, rows[0], now, OperationId(batch, index));
      var o := C.ReconcileRow(db, rows[0], now, OperationId(batch, index));
      if o.Done? {
        Idempotence.StillKnown(db, o.db, rows[1..]);
      }
    }
  }
}
