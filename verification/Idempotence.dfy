/** Calls apply at most once, and a call that fails leaves at most a stop behind. */
module Idempotence {
  import opened Records
  import opened Schema
  import opened Common
  import opened Selection
  import opened Backend
  import opened ControlPlane
  import opened Runs
  import opened Effects
  import opened Invariant
  import opened Reachable

  /** The calls that answer with a logged receipt. */
  predicate HasReceipt(c: Call) {
    !c.ExpireCall? && !c.ConsumeCall? && !c.GrantCall? && !c.ReconcileCall?
  }

  function ActorOf(c: Call): Actor
    requires HasReceipt(c)
  {
    match c
    case CreateCall(identity, _, _, _, _, _) => UserActor(identity.id)
    case LeaveCall(identity, _, _, _, _) => UserActor(identity.id)
    case BeginResetCall(identity, _, _, _, _) => UserActor(identity.id)
    case PublishCall(service, _, _, _, _, _, _) => BackendActor(service)
    case CompleteCall(service, _, _, _, _) => BackendActor(service)
    case AcceptCall(service, _, _, _, _) => BackendActor(service)
    case TransitionCall(service, _, _, _, _, _, _) => ControlActor(service)
    case CleanupFailedCall(service, _, _, _, _, _, _, _, _) => ControlActor(service)
  }

  function KeyOf(c: Call): OpKey
    requires HasReceipt(c)
  {
    OpKey(ActorOf(c), c.key)
  }

  function RequestOf(c: Call): Request
    requires HasReceipt(c)
  {
    match c
    case CreateCall(_, room, _, deadline, _, _) => CreateRequest(room, deadline)
    case LeaveCall(_, ref, _, _, _) => LeaveRequest(ref)
    case BeginResetCall(_, ref, _, _, _) => BeginResetRequest(ref)
    case PublishCall(_, p, ref, expected, _, _, _) => PublishRequest(p, ref, expected)
    case CompleteCall(_, ref, _, _, _) => CompleteRequest(ref)
    case AcceptCall(_, ref, _, _, _) => AcceptRequest(ref)
    case TransitionCall(_, ref, expected, m, _, _, _) => TransitionRequest(ref, expected, m)
    case CleanupFailedCall(_, ref, operation, expected, _, error, retryAt, _, _) =>
      CleanupFailedRequest(ref, operation, expected, error, retryAt)
  }

  /** The call's answer; `Apply` forgets its receipt. */
  function Answer(db: Db, c: Call): (o: Outcome<Receipt>)
    requires HasReceipt(c)
    ensures o.Forget() == Apply(db, c)
  {
    match c
    case CreateCall(identity, room, key, deadline, now, ids) => Create(db, identity, room, key, deadline, now, ids)
    case LeaveCall(identity, ref, key, now, batch) => Leave(db, identity, ref, key, now, batch)
    case BeginResetCall(identity, ref, key, now, ids) => BeginReset(db, identity, ref, key, now, ids)
    case PublishCall(service, p, ref, expected, key, now, batch) => Publish(db, service, p, ref, expected, key, now, batch)
    case CompleteCall(service, ref, key, now, batch) => Complete(db, service, ref, key, now, batch)
    case AcceptCall(service, ref, key, now, batch) => Accept(db, service, ref, key, now, batch)
    case TransitionCall(service, ref, expected, m, key, now, batch) => Transition(db, service, ref, expected, m, key, now, batch)
    case CleanupFailedCall(service, ref, operation, expected, key, error, retryAt, now, batch) =>
      CleanupFailed(db, service, ref, operation, expected, key, error, retryAt, now, batch)
  }

  // ----- denials -----

  /** The only effects of a denied call: an attempt or a resource at its deadline is stopped. */
  ghost predicate OnlyStops(before: Db, after: Db) {
    || after == before
    || (exists id | id in before.attempts && before.attempts[id].state != Destroyed ::
          after == before.(attempts := before.attempts[id := Stopped(before.attempts[id], true)]))
    || (exists s | s in before.resources && before.resources[s].state != Destroyed ::
          after == before.(resources := before.resources[s := TornDown(before.resources[s], true)]))
  }

  /** What a failing call leaves behind. */
  ghost predicate FailsCleanly<T>(db: Db, o: Outcome<T>) {
    o.Denied? ==> o.code == AttemptUnavailable && OnlyStops(db, o.db)
  }

  lemma StopOnly(db: Db, id: AttemptId, now: int)
    requires id in db.attempts && now >= db.attempts[id].expiresAt
    ensures !StopAttempt(db, id, now).Denied?
    ensures StopAttempt(db, id, now).Done? ==> OnlyStops(db, StopAttempt(db, id, now).db)
  {
  }

  lemma DenialStops<T>(db: Db, id: AttemptId, now: int)
    requires id in db.attempts && now >= db.attempts[id].expiresAt
    ensures FailsCleanly<T>(db, DenyExpired<T>(db, id, now)) && !DenyExpired<T>(db, id, now).Done?
  {
    hide StopAttempt, OnlyStops;
    StopOnly(db, id, now);
  }

  lemma LiveStops(db: Db, id: AttemptId, now: int)
    requires id in db.attempts
    ensures FailsCleanly(db, Live(db, id, now))
    ensures Live(db, id, now).Done? ==> Live(db, id, now).db == db
  {
    hide DenyExpired, OnlyStops;
    if now >= db.attempts[id].expiresAt {
      DenialStops<()>(db, id, now);
    }
  }

  lemma RequireLiveStops(db: Db, a: Attempt, sandbox: Option<SandboxId>, now: int)
    requires sandbox.Some? ==> sandbox.value in db.resources
    ensures FailsCleanly(db, RequireLive(db, a, sandbox, now))
    ensures RequireLive(db, a, sandbox, now).Done? ==> RequireLive(db, a, sandbox, now).db == db
    ensures sandbox.None? ==> !RequireLive(db, a, sandbox, now).Denied?
  {
  }

  lemma StopNeverDenies(db: Db, id: AttemptId, now: int)
    requires id in db.attempts
    ensures !StopAttempt(db, id, now).Denied?
  {
  }

  lemma {:induction false} StopAllNeverDenies(db: Db, rows: seq<Row>, now: int)
    requires RowsKnown(db, rows)
    ensures !StopAll(db, rows, now).Denied?
    decreases |rows|
  {
    hide StopAttempt;
    if rows != [] {
      StopNeverDenies(db, rows[0].attempt, now);
      StopAttemptKeys(db, rows[0].attempt, now);
      var o := StopAttempt(db, rows[0].attempt, now);
      if o.Done? {
        StopAllNeverDenies(o.db, rows[1..], now);
      }
    }
  }

  lemma BackendFailsCleanly(db: Db, c: Call)
    requires IsBackendCall(c)
    ensures FailsCleanly(db, Apply(db, c))
  {
    hide OnlyStops, StopAttempt, DenyExpired, Live, StopAll, Select, UpdateAttempt, Finish, AllDestroyed, MayPublish;
    match c
    case LeaveCall(_, ref, _, now, _) =>
      if Binding(db, ref, false).Allow? {
        StopNeverDenies(db, ref.attempt, now);
        FinishNeverDenies();
      }
    case BeginResetCall(_, ref, _, now, _) =>
      if Binding(db, ref, false).Allow? && now >= db.attempts[ref.attempt].expiresAt {
        DenialStops<Receipt>(db, ref.attempt, now);
      }
      FinishNeverDenies();
    case PublishCall(_, _, ref, _, _, now, _) =>
      if Binding(db, ref, false).Allow? {
        LiveStops(db, ref.attempt, now);
        if now >= db.attempts[ref.attempt].expiresAt {
          DenialStops<Receipt>(db, ref.attempt, now);
        }
      }
      FinishNeverDenies();
    case ExpireCall(now, limit) =>
      if LimitOk(limit) {
        StopAllNeverDenies(db, Select(ExpiryRows(db, now), limit), now);
      }
    case CompleteCall(_, ref, _, now, _) =>
      if Binding(db, ref, true).Allow? {
        StopNeverDenies(db, ref.attempt, now);
      }
      FinishNeverDenies();
    case ConsumeCall(claims, now) =>
      if Binding(db, claims.ref, false).Allow? {
        LiveStops(db, claims.ref.attempt, now);
      }
    case _ => FinishNeverDenies();
  }

  lemma FinishNeverDenies()
    ensures forall db, k, id, request, ref, state, version, error ::
      !Finish(db, k, id, request, ref, state, version, error).Denied?
    ensures forall db: Db, id: AttemptId, a: Attempt | id in db.attempts :: !UpdateAttempt(db, id, a).Denied?
  {
  }

  lemma {:induction false} ReconcileRowsNeverDeny(db: Db, rows: seq<Row>, now: int, batch: nat, index: nat)
    requires AllKnown(db, rows)
    ensures !ReconcileRows(db, rows, now, batch, index).Denied?
    decreases |rows|
  {
    hide ReconcileRow, AllKnown;
    if rows != [] {
      KnownParts(db, rows);
      RowNeverDenies(db, rows[0], now, OperationId(batch, index));
      var o := ReconcileRow(db, rows[0], now, OperationId(batch, index));
      if o.Done? {
        StillKnown(db, o.db, rows[1..]);
        ReconcileRowsNeverDeny(o.db, rows[1..], now, batch, index + 1);
      }
    }
  }

  lemma RowNeverDenies(db: Db, row: Row, now: int, id: OperationId)
    requires RowKnown(db, row)
    ensures !ReconcileRow(db, row, now, id).Denied?
  {
  }

  lemma StillKnown(before: Db, after: Db, rows: seq<Row>)
    requires forall i | 0 <= i < |rows| :: RowKnown(before, rows[i])
    requires after.attempts == before.attempts && before.resources.Keys <= after.resources.Keys
    ensures AllKnown(after, rows)
  {
  }

  lemma ReconcileNeverDenies(db: Db, now: int, limit: int, batch: nat)
    ensures !Reconcile(db, now, limit, batch).Denied?
  {
    hide ReconcileRows, Select, RowKnown;
    if LimitOk(limit) {
      ReconcileRowsNeverDeny(db, Select(CleanupRows(db, now), limit), now, batch, 0);
    }
  }

  lemma ControlFailsCleanly(db: Db, c: Call)
    requires !IsBackendCall(c)
    ensures FailsCleanly(db, Apply(db, c))
  {
    hide OnlyStops, RequireLive, Finish, MarkCleaned, Reconcile, MoveOk, MayMove, LeaseWithKey, LeaseWithJti, UpdateResource, InsertResource;
    FinishNeverDenies();
    StatementsNeverDeny();
    match c
    case AcceptCall(_, ref, _, now, _) =>
      if Binding(db, ref, false).Allow? {
        RequireLiveStops(db, db.attempts[ref.attempt], None, now);
      }
    case TransitionCall(_, ref, _, _, _, now, _) =>
      if Binding(db, ref, true).Allow? && Observed(db, ref).Allow? {
        RequireLiveStops(db, db.attempts[ref.attempt], Some(ref.sandbox), now);
      }
    case GrantCall(_, ref, _, _, _, _, now, _) =>
      if Binding(db, ref, false).Allow? && Observed(db, ref).Allow? {
        RequireLiveStops(db, db.attempts[ref.attempt], Some(ref.sandbox), now);
      }
    case ReconcileCall(now, limit, batch) => ReconcileNeverDenies(db, now, limit, batch);
    case _ =>
  }

  lemma StatementsNeverDeny()
    ensures forall db: Db, s: SandboxId, r: Resource :: !InsertResource(db, s, r).Denied?
    ensures forall db: Db, s: SandboxId, r: Resource | s in db.resources :: !UpdateResource(db, s, r).Denied?
    ensures forall db: Db, s: SandboxId, version: nat :: !MarkCleaned(db, s, version).Denied?
  {
  }

  /** A refused call changes nothing, and a denied one only stops an attempt or a resource
      whose deadline has passed. */
  lemma CallFailsCleanly(db: Db, c: Call)
    ensures Apply(db, c).Refused? ==> Step(db, c) == db
    ensures Apply(db, c).Denied? ==> Apply(db, c).code == AttemptUnavailable && OnlyStops(db, Step(db, c))
  {
    hide Apply, OnlyStops;
    if IsBackendCall(c) {
      BackendFailsCleanly(db, c);
    } else {
      ControlFailsCleanly(db, c);
    }
  }

  // ----- replay -----

  /** An answer is the logged receipt of this request, and an entry that was there before
      is answered without any effect. */
  ghost predicate AnswersFromLog(db: Db, k: OpKey, request: Request, o: Outcome<Receipt>) {
    o.Done? ==>
      && k in o.db.operations
      && o.db.operations[k].request == request
      && o.value == ReceiptOf(o.db.operations[k])
      && (k in db.operations ==> o.db == db)
  }

  lemma FinishAnswers(before: Db, k: OpKey, request: Request)
    requires k !in before.operations
    ensures forall db, id, ref, state, version, error ::
      AnswersFromLog(before, k, request, Finish(db, k, id, request, ref, state, version, error))
  {
  }

  lemma ReplayAnswers(db: Db, k: OpKey, request: Request)
    ensures var previous := Replay(db, k, request);
      && (k in db.operations && previous.Allow? ==>
            && previous.value.Some? && db.operations[k].request == request
            && AnswersFromLog(db, k, request, Done(db, previous.value.value)))
      && (k !in db.operations ==> previous == Allow(None))
  {
  }

  lemma PublishAnswers(db: Db, service: ServiceId, p: Publication, ref: Ref, expected: nat, key: Key, now: int, batch: nat)
    ensures AnswersFromLog(db, OpKey(BackendActor(service), key), PublishRequest(p, ref, expected),
                           Publish(db, service, p, ref, expected, key, now, batch))
  {
    var k, request := OpKey(BackendActor(service), key), PublishRequest(p, ref, expected);
    ReplayAnswers(db, k, request);
    if k !in db.operations {
      FinishAnswers(db, k, request);
    }
    hide AnswersFromLog, Replay, Finish, StopAttempt, DenyExpired, Live, UpdateAttempt, MayPublish, Published;
    FailureAnswers(db, k, request);
    DenialNeverDone<Receipt>(db, ref.attempt, now);
  }

  lemma BackendAnswers(db: Db, c: Call)
    requires HasReceipt(c) && IsBackendCall(c)
    ensures AnswersFromLog(db, KeyOf(c), RequestOf(c), Answer(db, c))
  {
    var k, request := KeyOf(c), RequestOf(c);
    ReplayAnswers(db, k, request);
    if k !in db.operations {
      FinishAnswers(db, k, request);
    }
    hide AnswersFromLog, Replay, Finish, StopAttempt, DenyExpired, Live, UpdateAttempt, InsertAttempt, Publish, AllDestroyed,
      CleanlyDestroyed;
    FailureAnswers(db, k, request);
    match c
    case BeginResetCall(_, ref, _, now, _) => DenialNeverDone<Receipt>(db, ref.attempt, now);
    case PublishCall(service, p, ref, expected, key, now, batch) =>
      PublishAnswers(db, service, p, ref, expected, key, now, batch);
    case _ =>
  }

  lemma MoveAnswers(db: Db, k: OpKey, ref: Ref, expected: nat, m: Move, expired: bool, batch: nat)
    requires k !in db.operations && ref.sandbox in db.resources
    ensures AnswersFromLog(db, k, TransitionRequest(ref, expected, m), ApplyMove(db, k, ref, expected, m, expired, batch))
  {
    hide AnswersFromLog, Finish, UpdateResource, MarkCleaned, Moved;
    FinishAnswers(db, k, TransitionRequest(ref, expected, m));
    FailureAnswers(db, k, TransitionRequest(ref, expected, m));
  }

  lemma FailureRecordAnswers(db: Db, k: OpKey, ref: Ref, operation: OperationId, expected: nat, error: ErrorCode, retryAt: int,
                             batch: nat)
    requires k !in db.operations && ref.sandbox in db.resources && CleanupKey(ref.sandbox) in db.operations
    ensures AnswersFromLog(db, k, CleanupFailedRequest(ref, operation, expected, error, retryAt),
                           ApplyFailure(db, k, ref, operation, expected, error, retryAt, batch))
  {
    hide AnswersFromLog, Finish, UpdateResource;
    FinishAnswers(db, k, CleanupFailedRequest(ref, operation, expected, error, retryAt));
    FailureAnswers(db, k, CleanupFailedRequest(ref, operation, expected, error, retryAt));
  }

  lemma TransitionAnswers(db: Db, service: ServiceId, ref: Ref, expected: nat, m: Move, key: Key, now: int, batch: nat)
    ensures AnswersFromLog(db, OpKey(ControlActor(service), key), TransitionRequest(ref, expected, m),
                           Transition(db, service, ref, expected, m, key, now, batch))
  {
    hide AnswersFromLog, Replay, RequireLive, ApplyMove, MayMove, MoveOk, OnlyStops;
    var k, request := OpKey(ControlActor(service), key), TransitionRequest(ref, expected, m);
    ReplayAnswers(db, k, request);
    FailureAnswers(db, k, request);
    if ref.attempt in db.attempts && ref.sandbox in db.resources {
      var a, r := db.attempts[ref.attempt], db.resources[ref.sandbox];
      RequireLiveStops(db, a, Some(ref.sandbox), now);
      if k !in db.operations {
        MoveAnswers(db, k, ref, expected, m, now >= r.expiresAt || a.expiry, batch);
      }
    }
  }

  lemma CleanupFailedAnswers(db: Db, service: ServiceId, ref: Ref, operation: OperationId, expected: nat, key: Key,
                             error: ErrorCode, retryAt: int, now: int, batch: nat)
    ensures AnswersFromLog(db, OpKey(ControlActor(service), key), CleanupFailedRequest(ref, operation, expected, error, retryAt),
                           CleanupFailed(db, service, ref, operation, expected, key, error, retryAt, now, batch))
  {
    hide AnswersFromLog, Replay, ApplyFailure;
    var k, request := OpKey(ControlActor(service), key), CleanupFailedRequest(ref, operation, expected, error, retryAt);
    ReplayAnswers(db, k, request);
    FailureAnswers(db, k, request);
    if k !in db.operations && ref.sandbox in db.resources && CleanupKey(ref.sandbox) in db.operations {
      FailureRecordAnswers(db, k, ref, operation, expected, error, retryAt, batch);
    }
  }

  lemma AcceptAnswers(db: Db, service: ServiceId, ref: Ref, key: Key, now: int, batch: nat)
    ensures AnswersFromLog(db, OpKey(BackendActor(service), key), AcceptRequest(ref), Accept(db, service, ref, key, now, batch))
  {
    hide AnswersFromLog, Replay, RequireLive, InsertResource, Finish, OnlyStops;
    var k, request := OpKey(BackendActor(service), key), AcceptRequest(ref);
    ReplayAnswers(db, k, request);
    FailureAnswers(db, k, request);
    if k !in db.operations {
      FinishAnswers(db, k, request);
    }
    if ref.attempt in db.attempts {
      RequireLiveStops(db, db.attempts[ref.attempt], None, now);
    }
  }

  lemma ControlAnswers(db: Db, c: Call)
    requires HasReceipt(c) && !IsBackendCall(c)
    ensures AnswersFromLog(db, KeyOf(c), RequestOf(c), Answer(db, c))
  {
    hide AnswersFromLog, Transition, CleanupFailed, Accept;
    match c
    case TransitionCall(service, ref, expected, m, key, now, batch) =>
      TransitionAnswers(db, service, ref, expected, m, key, now, batch);
    case CleanupFailedCall(service, ref, operation, expected, key, error, retryAt, now, batch) =>
      CleanupFailedAnswers(db, service, ref, operation, expected, key, error, retryAt, now, batch);
    case AcceptCall(service, ref, key, now, batch) => AcceptAnswers(db, service, ref, key, now, batch);
  }

  /** Every receipt a call returns is the one in the log under its actor, key and request,
      and a request that was logged before is only looked up. */
  lemma ReceiptIsLogged(db: Db, c: Call)
    requires HasReceipt(c)
    ensures AnswersFromLog(db, KeyOf(c), RequestOf(c), Answer(db, c))
  {
    hide Answer, AnswersFromLog;
    if IsBackendCall(c) {
      BackendAnswers(db, c);
    } else {
      ControlAnswers(db, c);
    }
  }

  lemma FailureAnswers(before: Db, k: OpKey, request: Request)
    ensures forall o: Outcome<Receipt> :: !o.Done? ==> AnswersFromLog(before, k, request, o)
  {
  }

  lemma DenialNeverDone<T>(db: Db, id: AttemptId, now: int)
    ensures id in db.attempts ==> !DenyExpired<T>(db, id, now).Done?
  {
  }

  /** A call that was answered once is answered again, after any run and whatever the clock
      and fresh identifiers of the repetition, by the same receipt without any effect, or it
      is refused, or denied after a stop. It never repeats its effect. */
  lemma CallsApplyAtMostOnce(db: Db, c: Call, run: seq<Call>, again: Call)
    requires Inv(db) && HasReceipt(c) && HasReceipt(again) && FreshIds(db, c)
    requires Answer(db, c).Done? && Legal(Step(db, c), run)
    requires KeyOf(again) == KeyOf(c)
    ensures var later := Run(Step(db, c), run);
      var o := Answer(later, again);
      && (o.Done? ==> RequestOf(again) == RequestOf(c) && o == Done(later, Answer(db, c).value))
      && (o.Denied? ==> OnlyStops(later, o.db))
  {
    hide Inv, Answer, OnlyStops, RowsGrow, RecordsKept, Apply;
    var later := Run(Step(db, c), run);
    CallKeepsInvariant(db, c);
    RunKeepsInvariant(Step(db, c), run);
    ReceiptIsLogged(db, c);
    ReceiptIsLogged(later, again);
    CallFailsCleanly(later, again);
  }
}
