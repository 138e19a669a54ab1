/** What each BackendStore call does to the store: the attempt rows, their
    publications, expiry, finalization and capability consumption. */
module Backend {
  import opened Records
  import opened Schema
  import opened Common
  import opened Selection

  function Stopped(a: Attempt, expired: bool): Attempt {
    a.(state := Stopping, destroy := true, expiry := a.expiry || expired, provisioning := false,
       epoch := a.epoch + (if a.destroy then 0 else 1), version := a.version + 1)
  }

  function StopAttempt(db: Db, id: AttemptId, now: int): Outcome<()>
    requires id in db.attempts
  {
    var a := db.attempts[id];
    var expired := now >= a.expiresAt;
    if a.state != Destroyed && (!a.destroy || (expired && !a.expiry))
    then UpdateAttempt(db, id, Stopped(a, expired))
    else Done(db, ())
  }

  /** Commit the stop of an expired attempt and deny the call. */
  function DenyExpired<T>(db: Db, id: AttemptId, now: int): Outcome<T>
    requires id in db.attempts
  {
    var (stopped, _) :- StopAttempt(db, id, now);
    Denied(stopped, AttemptUnavailable)
  }

  function Live(db: Db, id: AttemptId, now: int): Outcome<()>
    requires id in db.attempts
  {
    var a := db.attempts[id];
    if now >= a.expiresAt then DenyExpired(db, id, now)
    else if a.destroy || a.state.Ending() then Refused(AttemptUnavailable)
    else Done(db, ())
  }

  function NewAttempt(user: UserId, room: RoomId, now: int, deadline: int, ids: Fresh): Attempt {
    Attempt(user, room, ids.sandbox, 1, None, None, Some(ids.sandbox), Some(1), Provisioning,
            0, 0, now, deadline, true, false, false, false, ids.runtimeId)
  }

  function Create(db: Db, identity: UserIdentity, room: RoomId, key: Key, deadline: int, now: int, ids: Fresh): Outcome<Receipt> {
    var k := OpKey(UserActor(identity.id), key);
    var request := CreateRequest(room, deadline);
    :- Need(room in identity.rooms, NotAuthorized);
    var previous :- Replay(db, k, request);
    if previous.Some? then Done(db, previous.value)
    else
      :- Need(deadline > now, InvalidRequest);
      var (db1, _) :- InsertAttempt(db, ids.attempt, NewAttempt(identity.id, room, now, deadline, ids));
      Finish(db1, k, OperationId(ids.batch, 0), request, Ref(ids.attempt, ids.sandbox, 1), Provisioning, 0)
  }

  function Leave(db: Db, identity: UserIdentity, ref: Ref, key: Key, now: int, batch: nat): Outcome<Receipt> {
    var _ :- Owned(db, identity, ref.attempt);
    var _ :- Binding(db, ref, false);
    var k := OpKey(UserActor(identity.id), key);
    var previous :- Replay(db, k, LeaveRequest(ref));
    if previous.Some? then Done(db, previous.value)
    else
      var (db1, _) :- StopAttempt(db, ref.attempt, now);
      var a :- Binding(db1, ref, false);
      Finish(db1, k, OperationId(batch, 0), LeaveRequest(ref), ref, a.state, a.version)
  }

  function Resetted(a: Attempt, ids: Fresh): Attempt {
    a.(sandbox := ids.sandbox, generation := a.generation + 1,
       candidateSandbox := Some(ids.sandbox), candidateGeneration := Some(a.generation + 1),
       state := Resetting, provisioning := true, reset := true,
       epoch := a.epoch + 1, version := a.version + 1, runtimeId := ids.runtimeId)
  }

  function BeginReset(db: Db, identity: UserIdentity, ref: Ref, key: Key, now: int, ids: Fresh): Outcome<Receipt> {
    var a :- Owned(db, identity, ref.attempt);
    var k := OpKey(UserActor(identity.id), key);
    var previous :- Replay(db, k, BeginResetRequest(ref));
    if previous.Some? then Done(db, previous.value)
    else
      var _ :- Binding(db, ref, false);
      if now >= a.expiresAt then DenyExpired(db, ref.attempt, now)
      else
        :- Need(a.state.Open() && !a.destroy && IsActive(a, ref), InvalidTransition);
        var (db1, _) :- UpdateAttempt(db, ref.attempt, Resetted(a, ids));
        Finish(db1, k, OperationId(ids.batch, 0), BeginResetRequest(ref),
               Ref(ref.attempt, ids.sandbox, ref.generation + 1), Resetting, a.version + 1)
  }

  predicate ResourceIs(db: Db, sandbox: SandboxId, state: State) {
    sandbox in db.resources && db.resources[sandbox].state == state
  }

  /** A publishable resource: in the state to publish and not being torn down. */
  predicate Publishable(db: Db, sandbox: SandboxId, state: State) {
    ResourceIs(db, sandbox, state) && !db.resources[sandbox].destroy
  }

  predicate CleanlyDestroyed(db: Db, sandbox: Option<SandboxId>) {
    sandbox.Some? && ResourceIs(db, sandbox.value, Destroyed) && db.resources[sandbox.value].cleanupEvidence.Some?
  }

  function PublicationState(p: Publication): State {
    match p
    case PublishReady => Ready
    case PublishRunning => Running
    case PublishResolved => Resolved
    case PublishResetReady => Ready
    case FailReset => Failed
  }

  predicate AwaitsReset(a: Attempt, ref: Ref) {
    a.state == Resetting && a.reset && a.provisioning && IsCandidate(a, ref)
  }

  predicate MayPublish(db: Db, a: Attempt, p: Publication, ref: Ref) {
    match p
    case PublishReady => a.state == Provisioning && Publishable(db, ref.sandbox, Ready)
    case PublishRunning => a.state == Ready && Publishable(db, ref.sandbox, Running)
    case PublishResolved =>
      && a.state == Running && Publishable(db, ref.sandbox, Resolved)
      && db.resources[ref.sandbox].evidence.Some?
    case PublishResetReady =>
      AwaitsReset(a, ref) && Publishable(db, ref.sandbox, Ready) && CleanlyDestroyed(db, a.activeSandbox)
    case FailReset =>
      AwaitsReset(a, ref) && ResourceIs(db, ref.sandbox, Failed) && db.resources[ref.sandbox].destroy
  }

  function Published(a: Attempt, p: Publication, ref: Ref): Attempt {
    var next := a.(version := a.version + 1);
    match p
    case PublishReady =>
      next.(state := Ready, activeSandbox := Some(a.sandbox), activeGeneration := Some(a.generation),
            candidateSandbox := None, candidateGeneration := None, provisioning := false)
    case PublishRunning => next.(state := Running)
    case PublishResolved => next.(state := Resolved)
    case PublishResetReady =>
      next.(state := Ready, activeSandbox := Some(ref.sandbox), activeGeneration := Some(ref.generation),
            candidateSandbox := None, candidateGeneration := None, provisioning := false, reset := false)
    case FailReset => next.(state := Failed, provisioning := false)
  }

  /** The three publications of a live attempt check liveness before a replay;
      the two that end a reset answer a replay first. */
  function Publish(db: Db, service: ServiceId, p: Publication, ref: Ref, expected: nat, key: Key, now: int, batch: nat): Outcome<Receipt> {
    var a :- Binding(db, ref, false);
    var k := OpKey(BackendActor(service), key);
    var request := PublishRequest(p, ref, expected);
    if p.PublishReady? || p.PublishRunning? || p.PublishResolved? then
      var (_, _) :- Live(db, ref.attempt, now);
      var previous :- Replay(db, k, request);
      if previous.Some? then Done(db, previous.value)
      else ApplyPublication(db, a, k, p, ref, expected, batch)
    else
      var previous :- Replay(db, k, request);
      if previous.Some? then Done(db, previous.value)
      else if now >= a.expiresAt then DenyExpired(db, ref.attempt, now)
      else
        :- Need(!a.destroy, AttemptUnavailable);
        ApplyPublication(db, a, k, p, ref, expected, batch)
  }

  function ApplyPublication(db: Db, a: Attempt, k: OpKey, p: Publication, ref: Ref, expected: nat, batch: nat): Outcome<Receipt>
    requires ref.attempt in db.attempts
  {
    var request := PublishRequest(p, ref, expected);
    :- Cas(a.version, expected);
    :- Need(MayPublish(db, a, p, ref), InvalidTransition);
    var (db1, _) :- UpdateAttempt(db, ref.attempt, Published(a, p, ref));
    Finish(db1, k, OperationId(batch, 0), request, ref, PublicationState(p), expected + 1)
  }

  function ExpiryRows(db: Db, now: int): (rows: set<Row>)
    ensures forall x | x in rows :: x.attempt in db.attempts
  {
    set id | id in db.attempts && db.attempts[id].expiresAt <= now && !db.attempts[id].expiry
             && db.attempts[id].state != Destroyed
      :: Plain(db.attempts[id].expiresAt, id, 0)
  }

  predicate RowsKnown(db: Db, rows: seq<Row>) {
    forall i | 0 <= i < |rows| :: rows[i].attempt in db.attempts
  }

  function StopAll(db: Db, rows: seq<Row>, now: int): Outcome<()>
    requires RowsKnown(db, rows)
    decreases |rows|
  {
    if rows == [] then Done(db, ())
    else
      var (db1, _) :- StopAttempt(db, rows[0].attempt, now);
      StopAll(db1, rows[1..], now)
  }

  function RowRefs(db: Db, rows: seq<Row>): seq<Ref>
    requires RowsKnown(db, rows)
  {
    seq(|rows|, i requires 0 <= i < |rows| => RefOf(rows[i].attempt, db.attempts[rows[i].attempt]))
  }

  predicate LimitOk(limit: int) {
    1 <= limit <= 1000
  }

  function Expire(db: Db, now: int, limit: int): Outcome<seq<Ref>> {
    var due := ExpiryRows(db, now);
    :- Need(LimitOk(limit), InvalidRequest);
    var rows := Select(due, limit);
    var (db1, _) :- StopAll(db, rows, now);
    Done(db1, RowRefs(db, rows))
  }

  predicate AwaitsFinalization(db: Db, id: AttemptId) {
    && id in db.attempts
    && var a := db.attempts[id];
    && a.state != Destroyed
    && CleanlyDestroyed(db, Some(a.sandbox))
    && db.resources[a.sandbox].attempt == id
    && db.resources[a.sandbox].generation == a.generation
  }

  function FinalizationRows(db: Db): (rows: set<Row>)
    ensures forall x | x in rows :: x.attempt in db.attempts
  {
    set id | id in db.attempts && AwaitsFinalization(db, id) :: Plain(db.attempts[id].expiresAt, id, 0)
  }

  function PendingFinalizations(db: Db, limit: int): Verdict<seq<Ref>> {
    if LimitOk(limit) then Allow(RowRefs(db, Select(FinalizationRows(db), limit))) else Reject(InvalidRequest)
  }

  predicate ResetCandidateUntouched(db: Db, id: AttemptId, a: Attempt) {
    || a.sandbox !in db.resources
    || db.resources[a.sandbox].attempt != id
    || db.resources[a.sandbox].generation != a.generation
    || db.resources[a.sandbox].state.Requested?
    || db.resources[a.sandbox].state.Ready?
  }

  predicate AwaitsResetProvisioning(db: Db, id: AttemptId) {
    && id in db.attempts
    && var a := db.attempts[id];
    && a.state == Resetting && a.provisioning && a.reset && !a.expiry && !a.destroy
    && CleanlyDestroyed(db, a.activeSandbox)
    && db.resources[a.activeSandbox.value].attempt == id
    && a.activeGeneration == Some(db.resources[a.activeSandbox.value].generation)
    && ResetCandidateUntouched(db, id, a)
  }

  predicate IsResetOperation(op: Operation) {
    op.request.BeginResetRequest? && op.state == Resetting
  }

  /** One row for each qualifying attempt and each reset operation on its current tuple. */
  function ResetRows(db: Db): (rows: set<Row>)
    ensures forall x | x in rows :: x.attempt in db.attempts
  {
    set id, k | id in db.attempts && k in db.operations && AwaitsResetProvisioning(db, id)
                && IsResetOperation(db.operations[k])
                && db.operations[k].ref == RefOf(id, db.attempts[id])
      :: Row(db.attempts[id].expiresAt, id, 0, db.operations[k].id, db.operations[k].version)
  }

  function ResetReceipts(db: Db, rows: seq<Row>): seq<Receipt>
    requires RowsKnown(db, rows)
  {
    seq(|rows|, i requires 0 <= i < |rows| =>
      Receipt(rows[i].operation, RefOf(rows[i].attempt, db.attempts[rows[i].attempt]), Resetting, rows[i].version))
  }

  function PendingResetProvisioning(db: Db, limit: int): Verdict<seq<Receipt>> {
    if LimitOk(limit) then Allow(ResetReceipts(db, Select(ResetRows(db), limit))) else Reject(InvalidRequest)
  }

  function Complete(db: Db, service: ServiceId, ref: Ref, key: Key, now: int, batch: nat): Outcome<Receipt> {
    var a :- Binding(db, ref, true);
    var k := OpKey(BackendActor(service), key);
    var previous :- Replay(db, k, CompleteRequest(ref));
    if previous.Some? then Done(db, previous.value)
    else
      :- Need(CleanlyDestroyed(db, Some(ref.sandbox)), CleanupUnverified);
      if !IsCurrent(a, ref) then
        :- Need(a.state == Resetting && a.reset, InvalidTransition);
        Finish(db, k, OperationId(batch, 0), CompleteRequest(ref), ref, Destroyed, db.resources[ref.sandbox].version)
      else
        :- Need(AllDestroyed(db, ref.attempt), CleanupUnverified);
        var (db1, _) :- StopAttempt(db, ref.attempt, now);
        var stopped :- Binding(db1, ref, false);
        var b := Finalized(stopped);
        var (db2, _) :- UpdateAttempt(db1, ref.attempt, b);
        Finish(db2, k, OperationId(batch, 0), CompleteRequest(ref), ref, Destroyed, b.version)
  }

  function Finalized(a: Attempt): Attempt {
    a.(state := Destroyed, activeSandbox := None, activeGeneration := None,
       version := a.version + (if a.state == Destroyed then 0 else 1))
  }

  predicate AllDestroyed(db: Db, id: AttemptId) {
    forall s | s in db.resources && db.resources[s].attempt == id :: db.resources[s].state == Destroyed
  }

  function Consume(db: Db, claims: Claims, now: int): Outcome<CapabilityUse> {
    var a :- Binding(db, claims.ref, false);
    :- Need(a.user == claims.user, NotAuthorized);
    var (_, _) :- Live(db, claims.ref.attempt, now);
    :- Need(&& a.state.Attachable()
            && a.activeSandbox == Some(claims.ref.sandbox)
            && a.epoch == claims.epoch
            && now < claims.expiresAt <= a.expiresAt, CapabilityInvalid);
    :- Need(Attachable(db, claims.ref.sandbox), AttemptUnavailable);
    :- Need(claims.jti !in db.uses, CapabilityReplay);
    var (db1, _) :- InsertUse(db, claims.jti, Use(claims.ref.attempt, now, claims.expiresAt));
    Done(db1, CapabilityUse(claims.jti, claims.ref, claims.epoch, claims.expiresAt))
  }

  predicate Attachable(db: Db, sandbox: SandboxId) {
    && sandbox in db.resources
    && db.resources[sandbox].state.Attachable()
    && !db.resources[sandbox].destroy
    && !db.resources[sandbox].expiry
  }
}
