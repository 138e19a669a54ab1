/** Whose entries the log holds: a call logs nothing but its own request under its own
    key, so keys that only the cleanup worker derives stay with the worker's requests. */
module Keys {
  import opened Records
  import opened Schema
  import opened Common
  import opened Selection
  import opened Backend
  import opened ControlPlane
  import opened Runs
  import opened Effects
  import opened Invariant
  import opened Log
  import opened Ledger
  import opened Idempotence

  /** New entries are the call's own, or belong to the internal cleanup. */
  ghost predicate LogsAtMost(before: Db, k: OpKey, request: Request, after: Db) {
    forall j | j in after.operations ::
      || j in before.operations
      || j.actor == CleanupActor
      || (j == k && after.operations[j].request == request)
  }

  lemma FinishLogs(before: Db, db: Db, k: OpKey, request: Request)
    requires LogsAtMost(before, k, request, db)
    ensures forall id, ref, state, version, error ::
      LogsAtMost(before, k, request, Finish(db, k, id, request, ref, state, version, error).After(before))
  {
  }

  lemma SameLog(before: Db, after: Db, k: OpKey, request: Request)
    requires after.operations == before.operations
    ensures LogsAtMost(before, k, request, after)
  {
  }

  lemma PublishLogsItself(db: Db, service: ServiceId, p: Publication, ref: Ref, expected: nat, key: Key, now: int, batch: nat)
    ensures LogsAtMost(db, OpKey(BackendActor(service), key), PublishRequest(p, ref, expected),
                       Publish(db, service, p, ref, expected, key, now, batch).After(db))
  {
    hide LogsAtMost, Finish, StopAttempt, UpdateAttempt, Published, MayPublish;
    var k, request := OpKey(BackendActor(service), key), PublishRequest(p, ref, expected);
    SameLog(db, db, k, request);
    if ref.attempt in db.attempts {
      StoppedLog(db, ref.attempt, now, k, request);
      UpdatedLog(db, db, ref.attempt, Published(db.attempts[ref.attempt], p, ref), k, request);
    }
  }

  lemma CompleteLogsItself(db: Db, service: ServiceId, ref: Ref, key: Key, now: int, batch: nat)
    ensures LogsAtMost(db, OpKey(BackendActor(service), key), CompleteRequest(ref),
                       Complete(db, service, ref, key, now, batch).After(db))
  {
    hide LogsAtMost, Finish, StopAttempt, UpdateAttempt, AllDestroyed;
    var k, request := OpKey(BackendActor(service), key), CompleteRequest(ref);
    SameLog(db, db, k, request);
    FinishLogs(db, db, k, request);
    if ref.attempt in db.attempts {
      StoppedLog(db, ref.attempt, now, k, request);
      var o := StopAttempt(db, ref.attempt, now);
      if o.Done? && ref.attempt in o.db.attempts {
        UpdatedLog(db, o.db, ref.attempt, Finalized(o.db.attempts[ref.attempt]), k, request);
      }
    }
  }

  lemma CreateLogsItself(db: Db, identity: UserIdentity, room: RoomId, key: Key, deadline: int, now: int, ids: Fresh)
    ensures LogsAtMost(db, OpKey(UserActor(identity.id), key), CreateRequest(room, deadline),
                       Create(db, identity, room, key, deadline, now, ids).After(db))
  {
    hide LogsAtMost, Finish;
    var k, request := OpKey(UserActor(identity.id), key), CreateRequest(room, deadline);
    SameLog(db, db, k, request);
    var db1 := db.(attempts := db.attempts[ids.attempt := NewAttempt(identity.id, room, now, deadline, ids)]);
    SameLog(db, db1, k, request);
    FinishLogs(db, db1, k, request);
  }

  lemma LeaveLogsItself(db: Db, identity: UserIdentity, ref: Ref, key: Key, now: int, batch: nat)
    ensures LogsAtMost(db, OpKey(UserActor(identity.id), key), LeaveRequest(ref), Leave(db, identity, ref, key, now, batch).After(db))
  {
    hide LogsAtMost, Finish, StopAttempt;
    var k, request := OpKey(UserActor(identity.id), key), LeaveRequest(ref);
    SameLog(db, db, k, request);
    if ref.attempt in db.attempts {
      StoppedLog(db, ref.attempt, now, k, request);
    }
  }

  lemma AcceptLogsItself(db: Db, service: ServiceId, ref: Ref, key: Key, now: int, batch: nat)
    ensures LogsAtMost(db, OpKey(BackendActor(service), key), AcceptRequest(ref), Accept(db, service, ref, key, now, batch).After(db))
  {
    hide LogsAtMost, Finish, RequireLive, OnlyStops;
    var k, request := OpKey(BackendActor(service), key), AcceptRequest(ref);
    SameLog(db, db, k, request);
    if ref.attempt in db.attempts {
      RequireLiveStops(db, db.attempts[ref.attempt], None, now);
      var db1 := db.(resources := db.resources[ref.sandbox := NewResource(ref, db.attempts[ref.attempt])]);
      SameLog(db, db1, k, request);
      FinishLogs(db, db1, k, request);
    }
  }

  lemma BackendLogs(db: Db, c: Call)
    requires c.CreateCall? || c.LeaveCall? || c.AcceptCall?
    ensures LogsAtMost(db, KeyOf(c), RequestOf(c), Step(db, c))
  {
    hide LogsAtMost, Create, Leave, Accept;
    match c
    case CreateCall(identity, room, key, deadline, now, ids) => CreateLogsItself(db, identity, room, key, deadline, now, ids);
    case LeaveCall(identity, ref, key, now, batch) => LeaveLogsItself(db, identity, ref, key, now, batch);
    case AcceptCall(service, ref, key, now, batch) => AcceptLogsItself(db, service, ref, key, now, batch);
    case _ =>
  }

  lemma StoppedLog(db: Db, id: AttemptId, now: int, k: OpKey, request: Request)
    requires id in db.attempts
    ensures var o := StopAttempt(db, id, now);
      LogsAtMost(db, k, request, o.After(db)) && (o.Done? ==> o.db.operations == db.operations)
    ensures forall op, ref, state, version, error ::
      LogsAtMost(db, k, request, Finish(StopAttempt(db, id, now).After(db), k, op, request, ref, state, version, error).After(db))
  {
    hide Finish;
    FinishLogs(db, StopAttempt(db, id, now).After(db), k, request);
  }

  lemma UpdatedLog(before: Db, db: Db, id: AttemptId, b: Attempt, k: OpKey, request: Request)
    requires id in db.attempts && db.operations == before.operations
    ensures LogsAtMost(before, k, request, UpdateAttempt(db, id, b).After(before))
    ensures var o := UpdateAttempt(db, id, b);
      forall op, ref, state, version, error ::
        o.Done? ==> LogsAtMost(before, k, request, Finish(o.db, k, op, request, ref, state, version, error).After(before))
  {
    hide Finish;
    var o := UpdateAttempt(db, id, b);
    if o.Done? {
      FinishLogs(before, o.db, k, request);
    }
  }

  /** A call with a receipt logs at most that receipt. */
  lemma CallLogsItsOwnRequest(db: Db, c: Call)
    requires HasReceipt(c)
    ensures LogsAtMost(db, KeyOf(c), RequestOf(c), Step(db, c))
  {
    hide Create, Leave, BeginReset, Publish, Complete, Accept, Transition, CleanupFailed, MayMove, AttemptWrites, LogsAtMost;
    match c
    case BeginResetCall(identity, ref, key, now, ids) =>
      BeginResetShape(db, identity, ref, key, now, ids);
      EffectLogs(db, c);
    case PublishCall(service, p, ref, expected, key, now, batch) =>
      PublishLogsItself(db, service, p, ref, expected, key, now, batch);
    case CompleteCall(service, ref, key, now, batch) => CompleteLogsItself(db, service, ref, key, now, batch);
    case TransitionCall(service, ref, expected, m, key, now, batch) =>
      TransitionShape(db, service, ref, expected, m, key, now, batch);
      EffectLogs(db, c);
    case CleanupFailedCall(service, ref, operation, expected, key, error, retryAt, now, batch) =>
      CleanupFailedShape(db, service, ref, operation, expected, key, error, retryAt, now, batch);
      EffectLogs(db, c);
    case _ => BackendLogs(db, c);
  }

  /** What is logged by the three calls whose whole effect is known. */
  lemma EffectLogs(db: Db, c: Call)
    requires HasReceipt(c)
    ensures Step(db, c).operations == db.operations ==> LogsAtMost(db, KeyOf(c), RequestOf(c), Step(db, c))
    ensures c.BeginResetCall? && c.ref.attempt in db.attempts ==>
      LogsAtMost(db, KeyOf(c), RequestOf(c), ResetEffect(db, KeyOf(c), c.ref, c.ids))
    ensures c.TransitionCall? && c.ref.sandbox in db.resources ==> forall expired ::
      LogsAtMost(db, KeyOf(c), RequestOf(c), TransitionEffect(db, KeyOf(c), c.ref, c.expected, c.move, expired, c.batch))
    ensures c.CleanupFailedCall? && c.ref.sandbox in db.resources && CleanupKey(c.ref.sandbox) in db.operations ==>
      LogsAtMost(db, KeyOf(c), RequestOf(c),
                 FailureEffect(db, KeyOf(c), c.ref, c.operation, c.expected, c.error, c.retryAt, c.batch))
  {
    hide Step;
  }

  /** The other calls log nothing but cleanup operations. */
  lemma OtherCallsLogNoReceipt(db: Db, c: Call)
    requires !HasReceipt(c)
    ensures SameReceipts(db, Step(db, c))
  {
    hide StopAll, Select, ReconcileRows, GrantLease, Consume, ExpiryRows, CleanupRows, SameReceipts, Quiet, MayGrant;
    match c
    case ExpireCall(now, limit) =>
      SameIsSame(db, db);
      if LimitOk(limit) {
        StopAllLogs(db, Select(ExpiryRows(db, now), limit), now);
        SameIsSame(db, Step(db, c));
      }
    case ReconcileCall(now, limit, batch) =>
      SameIsSame(db, db);
      if LimitOk(limit) {
        ReconcileRowsLog(db, Select(CleanupRows(db, now), limit), now, batch, 0);
      }
    case ConsumeCall(claims, now) =>
      ConsumeOnlyStops(db, claims, now);
      SameIsSame(db, Step(db, c));
    case GrantCall(service, ref, consumed, session, duration, key, now, lease) =>
      GrantShape(db, service, ref, consumed, session, duration, key, now, lease);
      QuietIsSame(db, Step(db, c));
      SameIsSame(db, Step(db, c));
    case _ =>
  }

  lemma SameIsSame(before: Db, after: Db)
    ensures after.operations == before.operations ==> SameReceipts(before, after)
  {
  }

  lemma QuietIsSame(before: Db, after: Db)
    ensures Quiet(before, after) ==> after.operations == before.operations
  {
  }

  lemma ConsumeOnlyStops(db: Db, claims: Claims, now: int)
    ensures Consume(db, claims, now).After(db).operations == db.operations
  {
  }

  /** Derived cleanup keys are used only for the requests they are derived from. */
  predicate Honest(c: Call) {
    HasReceipt(c) ==> KeyMatches(c.key, RequestOf(c))
  }

  predicate KeyMatches(key: Key, request: Request) {
    match key
    case FinalizeKey(ref) => request == CompleteRequest(ref)
    case DestroyKey(ref, _, version) => request.TransitionRequest? && request.ref == ref && request.version == version
    case FailedKey(ref, operation, version) =>
      request.CleanupFailedRequest? && request.ref == ref && request.operation == operation && request.version == version
    case PhaseKey(_, phase, ref, version) => PhaseMatches(phase, ref, version, request)
    case _ => true
  }

  /** The request that each phase of provisioning and recovery makes. */
  predicate PhaseMatches(phase: Phase, ref: Ref, version: nat, request: Request) {
    match phase
    case AcceptPhase => request == AcceptRequest(ref)
    case CreatingPhase => MovesTo(request, ref, version, Creating)
    case StartingPhase => MovesTo(request, ref, version, Starting)
    case ReadyPhase => MovesTo(request, ref, version, Ready)
    case CreateFailedPhase => MovesTo(request, ref, version, Failed)
    case StartFailedPhase => MovesTo(request, ref, version, Failed)
    case BootstrapFailedPhase => MovesTo(request, ref, version, Failed)
    case RunningPhase => MovesTo(request, ref, version, Running)
    case ResolvedPhase => MovesTo(request, ref, version, Resolved)
    case PublishPhase =>
      request == PublishRequest(PublishReady, ref, version) || request == PublishRequest(PublishResetReady, ref, version)
    case ResetFailedPhase => request == PublishRequest(FailReset, ref, version)
    case PublishRunningPhase => request == PublishRequest(PublishRunning, ref, version)
    case PublishResolvedPhase => request == PublishRequest(PublishResolved, ref, version)
  }

  predicate MovesTo(request: Request, ref: Ref, version: nat, state: State) {
    request.TransitionRequest? && request.ref == ref && request.version == version && request.move.state == state
  }

  ghost predicate KeysOk(db: Db) {
    forall k | k in db.operations && k.actor != CleanupActor :: KeyMatches(k.key, db.operations[k].request)
  }

  lemma HonestCallKeepsKeys(db: Db, c: Call)
    requires KeysOk(db) && LedgerOk(db) && LogGrows(db, Step(db, c)) && Honest(c)
    ensures KeysOk(Step(db, c))
  {
    hide Step, KeyMatches, LedgerOk;
    if HasReceipt(c) {
      CallLogsItsOwnRequest(db, c);
    } else {
      OtherCallsLogNoReceipt(db, c);
    }
  }
}
