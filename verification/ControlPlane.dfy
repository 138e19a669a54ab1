/** What each ControlPlaneStore call does to the store: resource rows, attachment
    leases and the durable cleanup work. */
module ControlPlane {
  import opened Records
  import opened Schema
  import opened Common
  import opened Backend
  import opened Selection

  predicate MayMove(from: State, to: State) {
    match from
    case Requested => to.Creating? || to.Stopping?
    case Creating => to.Starting? || to.Failed? || to.Stopping?
    case Starting => to.Ready? || to.Failed? || to.Stopping?
    case Ready => to.Running? || to.Stopping?
    case Running => to.Resolved? || to.Stopping?
    case Resolved => to.Stopping?
    case Stopping => to.Destroyed? || to.Failed?
    case Failed => to.Stopping?
    case _ => false
  }

  function TornDown(r: Resource, expired: bool): Resource {
    r.(state := Stopping, destroy := true, expiry := r.expiry || expired, version := r.version + 1)
  }

  function StopResource(db: Db, sandbox: SandboxId, expired: bool): Outcome<()>
    requires sandbox in db.resources
  {
    var r := db.resources[sandbox];
    if r.state != Destroyed && (r.state != Stopping || !r.destroy || (expired && !r.expiry))
    then UpdateResource(db, sandbox, TornDown(r, expired))
    else Done(db, ())
  }

  predicate Dead(a: Attempt, now: int) {
    now >= a.expiresAt || a.expiry || a.destroy || a.state.Ending()
  }

  function RequireLive(db: Db, a: Attempt, sandbox: Option<SandboxId>, now: int): Outcome<()>
    requires sandbox.Some? ==> sandbox.value in db.resources
  {
    var expired := now >= a.expiresAt || a.expiry;
    if Dead(a, now) || (sandbox.Some? && db.resources[sandbox.value].destroy) then
      if expired && sandbox.Some? then
        var (stopped, _) :- StopResource(db, sandbox.value, expired);
        Denied(stopped, AttemptUnavailable)
      else Refused(AttemptUnavailable)
    else Done(db, ())
  }

  function NewResource(ref: Ref, a: Attempt): Resource {
    Resource(ref.attempt, ref.generation, Requested, 0, None, a.runtimeId, a.expiresAt, false, false, None, None)
  }

  /** The old sandbox of a reset, by its whole tuple, is gone and its absence is evidenced. */
  predicate OldDestroyed(db: Db, id: AttemptId, a: Attempt) {
    && CleanlyDestroyed(db, a.activeSandbox)
    && db.resources[a.activeSandbox.value].attempt == id
    && a.activeGeneration == Some(db.resources[a.activeSandbox.value].generation)
  }

  function Accept(db: Db, service: ServiceId, ref: Ref, key: Key, now: int, batch: nat): Outcome<Receipt> {
    var a :- Binding(db, ref, false);
    var (_, _) :- RequireLive(db, a, None, now);
    var k := OpKey(BackendActor(service), key);
    var previous :- Replay(db, k, AcceptRequest(ref));
    if previous.Some? then Done(db, previous.value)
    else
      :- Need((a.state == Provisioning && a.provisioning) || AwaitsReset(a, ref), InvalidTransition);
      :- Need(AwaitsReset(a, ref) ==> OldDestroyed(db, ref.attempt, a), InvalidTransition);
      :- Need(ref.sandbox !in db.resources, ResourceExists);
      var (db1, _) :- InsertResource(db, ref.sandbox, NewResource(ref, a));
      Finish(db1, k, OperationId(batch, 0), AcceptRequest(ref), ref, Requested, 0)
  }

  function Inspect(db: Db, ref: Ref): Verdict<Resource> {
    if Binding(db, ref, true).Allow? then Observed(db, ref) else Reject(StaleBinding)
  }

  predicate MoveOk(m: Move) {
    && m.state.ForResource()
    && (m.error.Some? <==> m.state == Failed)
    && (m.evidence.Some? <==> m.state.Ready? || m.state.Resolved? || m.state.Destroyed?)
    && (m.container.Some? <==> m.state == Starting)
  }

  function Moved(r: Resource, m: Move, expired: bool): Resource {
    r.(state := m.state,
       version := r.version + 1,
       container := if m.container.Some? then m.container else r.container,
       destroy := r.destroy || m.state.Ending(),
       expiry := r.expiry || expired,
       evidence := if m.evidence.Some? && (m.state.Ready? || m.state.Resolved?) then m.evidence else r.evidence,
       cleanupEvidence := if m.state == Destroyed then m.evidence else r.cleanupEvidence)
  }

  function CleanupKey(sandbox: SandboxId): OpKey {
    OpKey(CleanupActor, SandboxKey(sandbox))
  }

  function MarkCleaned(db: Db, sandbox: SandboxId, version: nat): Outcome<()> {
    var k := CleanupKey(sandbox);
    if k in db.operations then
      UpdateOperation(db, k, db.operations[k].(status := Succeeded, state := Destroyed, version := version, error := None))
    else Done(db, ())
  }

  function Transition(db: Db, service: ServiceId, ref: Ref, expected: nat, m: Move, key: Key, now: int, batch: nat): Outcome<Receipt> {
    var k := OpKey(ControlActor(service), key);
    var request := TransitionRequest(ref, expected, m);
    :- Need(MoveOk(m), InvalidRequest);
    var a :- Binding(db, ref, true);
    var r :- Observed(db, ref);
    var cleanup := m.state.Stopping? || m.state.Destroyed? || (m.state == Failed && r.destroy);
    :- Need(IsCurrent(a, ref) || cleanup, InvalidTransition);
    var (_, _) :- if cleanup then Done(db, ()) else RequireLive(db, a, Some(ref.sandbox), now);
    var previous :- Replay(db, k, request);
    if previous.Some? then Done(db, previous.value)
    else
      :- Cas(r.version, expected);
      :- Need(MayMove(r.state, m.state), InvalidTransition);
      ApplyMove(db, k, ref, expected, m, now >= r.expiresAt || a.expiry, batch)
  }

  function ApplyMove(db: Db, k: OpKey, ref: Ref, expected: nat, m: Move, expired: bool, batch: nat): Outcome<Receipt>
    requires ref.sandbox in db.resources
  {
    var (db1, _) :- UpdateResource(db, ref.sandbox, Moved(db.resources[ref.sandbox], m, expired));
    var (db2, _) :- if m.state == Destroyed then MarkCleaned(db1, ref.sandbox, expected + 1) else Done(db1, ());
    Finish(db2, k, OperationId(batch, 0), TransitionRequest(ref, expected, m), ref, m.state, expected + 1, m.error)
  }

  function Min(x: int, y: int): int {
    if x <= y then x else y
  }

  function LeaseWithKey(db: Db, actor: Actor, key: Key): Option<LeaseId>
    ensures LeaseWithKey(db, actor, key).Some? ==>
      var l := LeaseWithKey(db, actor, key).value;
      l in db.leases && db.leases[l].actor == actor && db.leases[l].key == key
    ensures LeaseWithKey(db, actor, key).None? ==>
      forall l | l in db.leases :: (db.leases[l].actor, db.leases[l].key) != (actor, key)
  {
    var found := set l | l in db.leases && db.leases[l].actor == actor && db.leases[l].key == key;
    if found == {} then
      assert forall l | l in db.leases :: l !in found;
      None
    else Some(Least(found))
  }

  function LeaseWithJti(db: Db, jti: JtiHash): Option<LeaseId>
    ensures LeaseWithJti(db, jti).Some? ==>
      LeaseWithJti(db, jti).value in db.leases && db.leases[LeaseWithJti(db, jti).value].jti == jti
    ensures LeaseWithJti(db, jti).None? ==> forall l | l in db.leases :: db.leases[l].jti != jti
  {
    var found := set l | l in db.leases && db.leases[l].jti == jti;
    if found == {} then
      assert forall l | l in db.leases :: l !in found;
      None
    else Some(Least(found))
  }

  function Least(found: set<nat>): (l: nat)
    requires found != {}
    ensures l in found
  {
    LeastExists(found);
    var l :| IsLeast(l, found);
    l
  }

  lemma {:induction false} LeastExists(found: set<nat>)
    requires found != {}
    ensures exists l :: IsLeast(l, found)
    decreases |found|
  {
    var x :| x in found;
    var rest := found - {x};
    if rest == {} {
      assert found == {x};
      assert IsLeast(x, found);
    } else {
      LeastExists(rest);
      var y :| IsLeast(y, rest);
      var z := if x <= y then x else y;
      assert forall other | other in found :: other == x || other in rest;
      assert IsLeast(z, found);
    }
  }

  predicate IsLeast(l: nat, found: set<nat>) {
    l in found && forall other | other in found :: l <= other
  }

  function GrantLease(db: Db, service: ServiceId, ref: Ref, consumed: CapabilityUse, session: SessionHash, duration: int,
                      key: Key, now: int, lease: LeaseId): Outcome<Grant>
  {
    var actor := GatewayActor(service);
    var request := LeaseRequest(ref, consumed.jti, consumed.epoch, session, duration);
    :- Need(consumed.ref == ref, CapabilityInvalid);
    :- Need(1 <= duration <= 60_000_000, InvalidRequest);
    var a :- Binding(db, ref, false);
    var r :- Observed(db, ref);
    var (_, _) :- RequireLive(db, a, Some(ref.sandbox), now);
    :- Need(&& r.state.Attachable()
            && a.activeSandbox == Some(ref.sandbox)
            && !r.destroy && !r.expiry
            && a.epoch == consumed.epoch, AttemptUnavailable);
    :- Need(&& consumed.jti in db.uses
            && db.uses[consumed.jti].attempt == ref.attempt
            && now < db.uses[consumed.jti].expiresAt == consumed.expiresAt, CapabilityInvalid);
    var sameKey := LeaseWithKey(db, actor, key);
    var sameJti := LeaseWithJti(db, consumed.jti);
    if sameKey.Some? then
      :- Need(db.leases[sameKey.value].request == request, IdempotencyConflict);
      Done(db, Grant(sameKey.value, db.leases[sameKey.value]))
    else if sameJti.Some? then
      :- Need(db.leases[sameJti.value].request == request, CapabilityReplay);
      Done(db, Grant(sameJti.value, db.leases[sameJti.value]))
    else
      :- Need(forall l | l in db.leases :: db.leases[l].session != session, CapabilityReplay);
      var expires := Min(db.uses[consumed.jti].expiresAt, Min(a.expiresAt, now + duration));
      :- Need(now < expires, CapabilityInvalid);
      var row := Lease(consumed.jti, actor, key, request, ref, consumed.epoch, session, now, expires, now);
      var (db1, _) :- InsertLease(db, lease, row);
      Done(db1, Grant(lease, row))
  }

  /** No cleanup operation yet, or its retry time has come. */
  predicate RetryDue(db: Db, sandbox: SandboxId, now: int) {
    CleanupKey(sandbox) in db.operations ==> db.operations[CleanupKey(sandbox)].retryAt <= now
  }

  predicate MustClean(a: Attempt, sandbox: SandboxId, r: Resource, now: int) {
    || a.destroy
    || a.expiresAt <= now
    || r.destroy
    || (a.reset && a.activeSandbox == Some(sandbox) && a.activeGeneration == Some(r.generation))
  }

  predicate DueResource(db: Db, sandbox: SandboxId, now: int) {
    && sandbox in db.resources
    && var r := db.resources[sandbox];
    && r.attempt in db.attempts
    && var a := db.attempts[r.attempt];
    && a.state != Destroyed && r.state != Destroyed
    && MustClean(a, sandbox, r, now)
    && RetryDue(db, sandbox, now)
  }

  /** A reserved sandbox whose creation was interrupted before its row was inserted. */
  predicate DueReservation(db: Db, id: AttemptId, now: int) {
    && id in db.attempts
    && var a := db.attempts[id];
    && a.state != Destroyed
    && a.sandbox !in db.resources
    && (a.destroy || a.expiresAt <= now)
    && RetryDue(db, a.sandbox, now)
  }

  /** The row names an attempt and, unless its sandbox column is NULL, a resource. */
  predicate RowKnown(db: Db, row: Row) {
    row.attempt in db.attempts && (row.sandbox > 0 ==> row.sandbox - 1 in db.resources)
  }

  function CleanupRows(db: Db, now: int): (rows: set<Row>)
    ensures forall x | x in rows :: RowKnown(db, x)
  {
    (set s | s in db.resources && DueResource(db, s, now)
       :: Plain(db.attempts[db.resources[s].attempt].expiresAt, db.resources[s].attempt, s + 1))
    + (set id | id in db.attempts && DueReservation(db, id, now) :: Plain(db.attempts[id].expiresAt, id, 0))
  }

  function CleanupRef(db: Db, row: Row): Ref
    requires RowKnown(db, row)
  {
    if row.sandbox == 0 then RefOf(row.attempt, db.attempts[row.attempt])
    else Ref(row.attempt, row.sandbox - 1, db.resources[row.sandbox - 1].generation)
  }

  /** An interrupted creation gets a resource row, already stopping, so that its absence is verified too. */
  function ReserveStopping(db: Db, ref: Ref, expired: bool): Outcome<()>
    requires ref.attempt in db.attempts
  {
    if ref.sandbox in db.resources then Done(db, ())
    else InsertResource(db, ref.sandbox,
      NewResource(ref, db.attempts[ref.attempt]).(state := Stopping, destroy := true, expiry := expired))
  }

  function NewCleanup(id: OperationId, ref: Ref, version: nat): Operation {
    Operation(id, CleanupRequest(ref), ref, Pending, Stopping, version, 0, 0, None)
  }

  function EnsureCleanup(db: Db, ref: Ref, version: nat, id: OperationId): Outcome<()> {
    if CleanupKey(ref.sandbox) in db.operations then Done(db, ())
    else InsertOperation(db, CleanupKey(ref.sandbox), NewCleanup(id, ref, version))
  }

  function StopForCleanup(db: Db, row: Row, ref: Ref, expired: bool): (o: Outcome<Resource>)
    requires RowKnown(db, row) && ref == CleanupRef(db, row)
    ensures o.Done? ==> o.db.attempts == db.attempts && db.resources.Keys <= o.db.resources.Keys
  {
    var (db1, _) :- if row.sandbox == 0 then ReserveStopping(db, ref, expired) else Done(db, ());
    var _ :- Observed(db1, ref);
    var (db2, _) :- StopResource(db1, ref.sandbox, expired);
    var r :- Observed(db2, ref);
    Done(db2, r)
  }

  function ReconcileRow(db: Db, row: Row, now: int, id: OperationId): (o: Outcome<Task>)
    requires RowKnown(db, row)
    ensures o.Done? ==> o.db.attempts == db.attempts && db.resources.Keys <= o.db.resources.Keys
  {
    var ref := CleanupRef(db, row);
    var a := db.attempts[row.attempt];
    var (db1, r) :- StopForCleanup(db, row, ref, now >= a.expiresAt || a.expiry);
    var (db2, _) :- EnsureCleanup(db1, ref, r.version, id);
    var op := db2.operations[CleanupKey(ref.sandbox)];
    Done(db2, Task(op.id, ref, r.state, r.version, r.expiry, op.retryCount))
  }

  predicate AllKnown(db: Db, rows: seq<Row>) {
    forall i | 0 <= i < |rows| :: RowKnown(db, rows[i])
  }

  function ReconcileRows(db: Db, rows: seq<Row>, now: int, batch: nat, index: nat): Outcome<seq<Task>>
    requires AllKnown(db, rows)
    decreases |rows|
  {
    if rows == [] then Done(db, [])
    else
      assert forall i | 0 <= i < |rows[1..]| :: RowKnown(db, rows[1..][i]);
      var (db1, task) :- ReconcileRow(db, rows[0], now, OperationId(batch, index));
      var (db2, tasks) :- ReconcileRows(db1, rows[1..], now, batch, index + 1);
      Done(db2, [task] + tasks)
  }

  function Reconcile(db: Db, now: int, limit: int, batch: nat): Outcome<seq<Task>> {
    var due := CleanupRows(db, now);
    :- Need(LimitOk(limit), InvalidRequest);
    ReconcileRows(db, Select(due, limit), now, batch, 0)
  }

  function RetryLater(op: Operation, version: nat, error: ErrorCode, retryAt: int): Operation {
    op.(status := Retry, retryCount := op.retryCount + 1, retryAt := retryAt, error := Some(error),
        state := Failed, version := version)
  }

  function CleanupFailed(db: Db, service: ServiceId, ref: Ref, operation: OperationId, expected: nat, key: Key,
                         error: ErrorCode, retryAt: int, now: int, batch: nat): Outcome<Receipt>
  {
    var k := OpKey(ControlActor(service), key);
    var request := CleanupFailedRequest(ref, operation, expected, error, retryAt);
    :- Need(error.RuntimeUnavailable? || error.CleanupIncomplete?, InvalidRequest);
    var _ :- Binding(db, ref, true);
    var r :- Observed(db, ref);
    var previous :- Replay(db, k, request);
    if previous.Some? then Done(db, previous.value)
    else
      :- Need(retryAt > now, InvalidRequest);
      :- Cas(r.version, expected);
      var cleanup := CleanupKey(ref.sandbox);
      :- Need(&& r.state == Stopping
              && cleanup in db.operations
              && db.operations[cleanup].id == operation
              && db.operations[cleanup].status != Succeeded, InvalidTransition);
      ApplyFailure(db, k, ref, operation, expected, error, retryAt, batch)
  }

  function ApplyFailure(db: Db, k: OpKey, ref: Ref, operation: OperationId, expected: nat, error: ErrorCode, retryAt: int,
                        batch: nat): Outcome<Receipt>
    requires ref.sandbox in db.resources && CleanupKey(ref.sandbox) in db.operations
  {
    var r, cleanup := db.resources[ref.sandbox], CleanupKey(ref.sandbox);
    var (db1, _) :- UpdateResource(db, ref.sandbox, r.(state := Failed, version := r.version + 1));
    var (db2, _) :- UpdateOperation(db1, cleanup, RetryLater(db.operations[cleanup], expected + 1, error, retryAt));
    Finish(db2, k, OperationId(batch, 0), CleanupFailedRequest(ref, operation, expected, error, retryAt), ref, Failed,
           expected + 1, Some(error))
  }
}
