/** When each BackendStore call succeeds, what its rows become, and which error every other
    case gives, in terms of the rows before it. */
module BackendOutcomes {
  import opened Records
  import opened Schema
  import opened Common
  import opened Selection
  import opened Backend
  import opened Runs
  import opened Invariant
  import opened Preservation

  ghost predicate OwnedIn(db: Db, identity: UserIdentity, id: AttemptId) {
    id in db.attempts && db.attempts[id].user == identity.id && db.attempts[id].room in identity.rooms
  }

  /** The tuple is the attempt's present one. */
  ghost predicate IsPresent(db: Db, ref: Ref) {
    && ref.attempt in db.attempts
    && db.attempts[ref.attempt].sandbox == ref.sandbox && db.attempts[ref.attempt].generation == ref.generation
  }

  /** Only this attempt's row changed, and from a to b neither its identity nor its pointers. */
  ghost predicate OnlyAttempt(before: Db, after: Db, id: AttemptId) {
    && after.resources == before.resources && after.uses == before.uses && after.leases == before.leases
    && id in before.attempts && id in after.attempts
    && after.attempts == before.attempts[id := after.attempts[id]]
  }

  ghost predicate KeepsIdentity(a: Attempt, b: Attempt) {
    && b.user == a.user && b.room == a.room && b.createdAt == a.createdAt && b.expiresAt == a.expiresAt
  }

  ghost predicate KeepsPointers(a: Attempt, b: Attempt) {
    && b.sandbox == a.sandbox && b.generation == a.generation && b.runtimeId == a.runtimeId
    && b.activeSandbox == a.activeSandbox && b.activeGeneration == a.activeGeneration
    && b.candidateSandbox == a.candidateSandbox && b.candidateGeneration == a.candidateGeneration
  }

  /** The attempt is shut down: a destroyed one is as it was; any other is stopping, its
      epoch moved on if this is its first shutdown, and its expiry is marked from the
      deadline on. */
  ghost predicate ShutDown(a: Attempt, b: Attempt, now: int) {
    && KeepsIdentity(a, b) && KeepsPointers(a, b) && b.reset == a.reset && b.destroy
    && (a.state == Destroyed ==> b == a)
    && (a.state != Destroyed ==>
          && b.state == Stopping && !b.provisioning
          && (b.expiry <==> a.expiry || now >= a.expiresAt)
          && b.epoch == (if a.destroy then a.epoch else a.epoch + 1)
          && b.version == (if a.destroy && b.expiry == a.expiry then a.version else a.version + 1))
  }

  lemma StopShutsDown(db: Db, id: AttemptId, now: int)
    requires Core(db) && id in db.attempts
    ensures var o := StopAttempt(db, id, now);
      && o.Done? && o.db.operations == db.operations && OnlyAttempt(db, o.db, id)
      && ShutDown(db.attempts[id], o.db.attempts[id], now)
  {
    hide Core, RowsGrow;
    StopAttemptKeeps(db, id, now);
    AttemptIsShaped(db, id);
  }

  lemma FinishAnswers(db: Db, k: OpKey, id: OperationId, request: Request, ref: Ref, state: State, version: nat,
                      error: Option<ErrorCode> := None)
    ensures var o := Finish(db, k, id, request, ref, state, version, error);
      || o == Refused(StoreFailure)
      || (&& o.Done? && o.value == Receipt(id, ref, state, version) && o.db.attempts == db.attempts
          && o.db.resources == db.resources && o.db.uses == db.uses && o.db.leases == db.leases)
  {
  }

  // ----- leave -----

  /** The owner of a room leaves it in any state: with an unused key the call succeeds exactly
      for the owner's present tuple, and the attempt is shut down. */
  lemma LeaveOutcome(db: Db, identity: UserIdentity, ref: Ref, key: Key, now: int, batch: nat)
    requires Core(db) && FreshBatch(db, batch) && OpKey(UserActor(identity.id), key) !in db.operations
    ensures var o := Leave(db, identity, ref, key, now, batch);
      if !OwnedIn(db, identity, ref.attempt) then o == Refused(NotAuthorized)
      else if !IsPresent(db, ref) then o == Refused(StaleBinding)
      else
        && o.Done? && OnlyAttempt(db, o.db, ref.attempt)
        && ShutDown(db.attempts[ref.attempt], o.db.attempts[ref.attempt], now)
        && o.value == Receipt(OperationId(batch, 0), ref, o.db.attempts[ref.attempt].state, o.db.attempts[ref.attempt].version)
  {
    hide Core, RowsGrow, StopAttempt, Finish, ShutDown;
    CallIsSound(db, LeaveCall(identity, ref, key, now, batch));
    if OwnedIn(db, identity, ref.attempt) && IsPresent(db, ref) {
      StopShutsDown(db, ref.attempt, now);
      ShutDownStays(db.attempts[ref.attempt], StopAttempt(db, ref.attempt, now).db.attempts[ref.attempt], now);
      var db1 := StopAttempt(db, ref.attempt, now).db;
      var b := db1.attempts[ref.attempt];
      FinishAnswers(db1, OpKey(UserActor(identity.id), key), OperationId(batch, 0), LeaveRequest(ref), ref, b.state, b.version);
    }
  }

  lemma ShutDownStays(a: Attempt, b: Attempt, now: int)
    requires ShutDown(a, b, now)
    ensures b.sandbox == a.sandbox && b.generation == a.generation && b.state.Ending()
  {
  }

  // ----- consumption -----

  /** With unused claims: exactly for their user, the present tuple, the present epoch, a READY or
      RUNNING room whose sandbox is too, and before both the claims' end and the deadline,
      one use is recorded. */
  ghost predicate ClaimsHold(db: Db, claims: Claims, now: int) {
    && IsPresent(db, claims.ref)
    && var a := db.attempts[claims.ref.attempt];
    && a.user == claims.user && now < a.expiresAt && (a.state == Ready || a.state == Running)
    && a.epoch == claims.epoch && now < claims.expiresAt <= a.expiresAt
    && claims.ref.sandbox in db.resources
    && (db.resources[claims.ref.sandbox].state == Ready || db.resources[claims.ref.sandbox].state == Running)
    && claims.jti !in db.uses
  }

  /** The call was denied at the deadline, and the attempt's shutdown was committed. */
  ghost predicate IsDenied<T>(db: Db, o: Outcome<T>, id: AttemptId, now: int) {
    && o.Denied? && o.code == AttemptUnavailable
    && o.db.operations == db.operations && OnlyAttempt(db, o.db, id) && ShutDown(db.attempts[id], o.db.attempts[id], now)
  }

  lemma ConsumeOutcome(db: Db, claims: Claims, now: int)
    requires Core(db)
    ensures var o := Consume(db, claims, now);
      && (o.Done? <==> ClaimsHold(db, claims, now))
      && (o.Done? ==>
            && o.db == db.(uses := db.uses[claims.jti := Use(claims.ref.attempt, now, claims.expiresAt)])
            && o.value == CapabilityUse(claims.jti, claims.ref, claims.epoch, claims.expiresAt))
    ensures var o := Consume(db, claims, now);
      if !IsPresent(db, claims.ref) then o == Refused(StaleBinding) else
      var a := db.attempts[claims.ref.attempt];
      if a.user != claims.user then o == Refused(NotAuthorized)
      else if now >= a.expiresAt then IsDenied(db, o, claims.ref.attempt, now)
      else if a.state.Ending() then o == Refused(AttemptUnavailable)
      else if (a.state != Ready && a.state != Running) || a.epoch != claims.epoch || !(now < claims.expiresAt <= a.expiresAt)
      then o == Refused(CapabilityInvalid)
      else if db.resources[claims.ref.sandbox].state != Ready && db.resources[claims.ref.sandbox].state != Running
      then o == Refused(AttemptUnavailable)
      else claims.jti in db.uses ==> o == Refused(CapabilityReplay)
  {
    hide Core, RowsGrow, StopAttempt, ShutDown;
    CallIsSound(db, ConsumeCall(claims, now));
    if IsPresent(db, claims.ref) {
      AttemptIsShaped(db, claims.ref.attempt);
      StopShutsDown(db, claims.ref.attempt, now);
      if claims.ref.sandbox in db.resources {
        ResourceIsShaped(db, claims.ref.sandbox);
      }
    }
  }

  // ----- create -----

  /** With an unused key, a creation succeeds exactly in an allowed room with a deadline to
      come, and inserts one provisioning attempt of generation 1. */
  lemma CreateOutcome(db: Db, identity: UserIdentity, room: RoomId, key: Key, deadline: int, now: int, ids: Fresh)
    requires Core(db) && FreshIds(db, CreateCall(identity, room, key, deadline, now, ids))
    requires OpKey(UserActor(identity.id), key) !in db.operations
    ensures var o := Create(db, identity, room, key, deadline, now, ids);
      if room !in identity.rooms then o == Refused(NotAuthorized)
      else if deadline <= now then o == Refused(InvalidRequest)
      else
        && o.Done? && o.value == Receipt(OperationId(ids.batch, 0), Ref(ids.attempt, ids.sandbox, 1), Provisioning, 0)
        && o.db.resources == db.resources && o.db.uses == db.uses && o.db.leases == db.leases
        && ids.attempt !in db.attempts && ids.attempt in o.db.attempts
        && o.db.attempts == db.attempts[ids.attempt := o.db.attempts[ids.attempt]]
        && var a := o.db.attempts[ids.attempt];
        && a.user == identity.id && a.room == room && a.createdAt == now && a.expiresAt == deadline
        && a.sandbox == ids.sandbox && a.generation == 1 && a.runtimeId == ids.runtimeId
        && a.activeSandbox == None && a.activeGeneration == None
        && a.candidateSandbox == Some(ids.sandbox) && a.candidateGeneration == Some(1)
        && a.state == Provisioning && a.version == 0 && a.epoch == 0
        && a.provisioning && !a.reset && !a.expiry && !a.destroy
  {
    hide Core, RowsGrow, Finish;
    CallIsSound(db, CreateCall(identity, room, key, deadline, now, ids));
    FinishesAnswer();
  }

  lemma FinishesAnswer()
    ensures forall db, k, id, request, ref, state, version, error ::
      var o := Finish(db, k, id, request, ref, state, version, error);
      || o == Refused(StoreFailure)
      || (&& o.Done? && o.value == Receipt(id, ref, state, version) && o.db.attempts == db.attempts
          && o.db.resources == db.resources && o.db.uses == db.uses && o.db.leases == db.leases)
  {
  }

  // ----- reset -----

  /** With an unused key, a reset begins exactly for the owner's present tuple, before the
      deadline, from READY, RUNNING or RESOLVED: the attempt moves to a new sandbox of the
      next generation and keeps the old one active. */
  lemma BeginResetOutcome(db: Db, identity: UserIdentity, ref: Ref, key: Key, now: int, ids: Fresh)
    requires Core(db) && FreshIds(db, BeginResetCall(identity, ref, key, now, ids))
    requires OpKey(UserActor(identity.id), key) !in db.operations
    ensures var o := BeginReset(db, identity, ref, key, now, ids);
      if !OwnedIn(db, identity, ref.attempt) then o == Refused(NotAuthorized)
      else if !IsPresent(db, ref) then o == Refused(StaleBinding) else
      var a := db.attempts[ref.attempt];
      if now >= a.expiresAt then IsDenied(db, o, ref.attempt, now)
      else if a.state != Ready && a.state != Running && a.state != Resolved then o == Refused(InvalidTransition)
      else
        && o.Done? && OnlyAttempt(db, o.db, ref.attempt)
        && o.value == Receipt(OperationId(ids.batch, 0), Ref(ref.attempt, ids.sandbox, ref.generation + 1), Resetting, a.version + 1)
        && var b := o.db.attempts[ref.attempt];
        && KeepsIdentity(a, b)
        && b.sandbox == ids.sandbox && b.generation == a.generation + 1 && b.runtimeId == ids.runtimeId
        && b.activeSandbox == Some(ref.sandbox) && b.activeGeneration == Some(ref.generation)
        && b.candidateSandbox == Some(ids.sandbox) && b.candidateGeneration == Some(a.generation + 1)
        && b.state == Resetting && b.version == a.version + 1 && b.epoch == a.epoch + 1
        && b.provisioning && b.reset && !b.expiry && !b.destroy
  {
    hide Core, RowsGrow, Finish, StopAttempt, ShutDown;
    CallIsSound(db, BeginResetCall(identity, ref, key, now, ids));
    FinishesAnswer();
    if IsPresent(db, ref) {
      AttemptIsShaped(db, ref.attempt);
      StopShutsDown(db, ref.attempt, now);
    }
  }

  // ----- publications -----

  ghost predicate SandboxIn(db: Db, sandbox: SandboxId, state: State) {
    sandbox in db.resources && db.resources[sandbox].state == state
  }

  /** The states of the attempt and its sandboxes from which each publication is made. */
  ghost predicate PublicationIsDue(db: Db, a: Attempt, p: Publication, ref: Ref) {
    match p
    case PublishReady => a.state == Provisioning && SandboxIn(db, ref.sandbox, Ready)
    case PublishRunning => a.state == Ready && SandboxIn(db, ref.sandbox, Running)
    case PublishResolved => a.state == Running && SandboxIn(db, ref.sandbox, Resolved)
    case PublishResetReady =>
      && a.state == Resetting && SandboxIn(db, ref.sandbox, Ready)
      && a.activeSandbox.Some? && SandboxIn(db, a.activeSandbox.value, Destroyed)
    case FailReset => a.state == Resetting && SandboxIn(db, ref.sandbox, State.Failed)
  }

  lemma DueIsAllowed(db: Db, p: Publication, ref: Ref)
    requires Core(db) && IsPresent(db, ref)
    ensures var a := db.attempts[ref.attempt];
      MayPublish(db, a, p, ref) <==> PublicationIsDue(db, a, p, ref)
  {
    hide Core;
    var a := db.attempts[ref.attempt];
    AttemptIsShaped(db, ref.attempt);
    if ref.sandbox in db.resources {
      ResourceIsShaped(db, ref.sandbox);
    }
    if a.activeSandbox.Some? && a.activeSandbox.value in db.resources {
      ResourceIsShaped(db, a.activeSandbox.value);
    }
  }

  /** What each publication makes of the row: its state, and, for the two of READY, the
      present sandbox as the active one. */
  ghost predicate IsPublished(a: Attempt, b: Attempt, p: Publication, ref: Ref) {
    && KeepsIdentity(a, b) && b.version == a.version + 1 && b.epoch == a.epoch && !b.expiry && !b.destroy
    && b.sandbox == a.sandbox && b.generation == a.generation && b.runtimeId == a.runtimeId
    && match p
       case PublishReady => b.state == Ready && BecomesActive(b, ref)
       case PublishResetReady => b.state == Ready && BecomesActive(b, ref)
       case PublishRunning => b.state == Running && KeepsPointers(a, b) && !b.provisioning && !b.reset
       case PublishResolved => b.state == Resolved && KeepsPointers(a, b) && !b.provisioning && !b.reset
       case FailReset => b.state == State.Failed && KeepsPointers(a, b) && !b.provisioning && b.reset
  }

  ghost predicate BecomesActive(b: Attempt, ref: Ref) {
    && b.activeSandbox == Some(ref.sandbox) && b.activeGeneration == Some(ref.generation)
    && b.candidateSandbox == None && b.candidateGeneration == None && !b.provisioning && !b.reset
  }

  lemma PublishedShows(db: Db, p: Publication, ref: Ref)
    requires Core(db) && IsPresent(db, ref) && PublicationIsDue(db, db.attempts[ref.attempt], p, ref)
    ensures IsPublished(db.attempts[ref.attempt], Published(db.attempts[ref.attempt], p, ref), p, ref)
  {
    hide Core;
    AttemptIsShaped(db, ref.attempt);
  }

  ghost predicate ChecksLiveness(p: Publication) {
    p == PublishReady || p == PublishRunning || p == PublishResolved
  }

  /** With an unused key, a publication succeeds exactly for the present tuple at the expected
      version, before the deadline, from the states that it is due in. */
  lemma PublishOutcome(db: Db, service: ServiceId, p: Publication, ref: Ref, expected: nat, key: Key, now: int, batch: nat)
    requires Core(db) && FreshBatch(db, batch) && OpKey(BackendActor(service), key) !in db.operations
    ensures var o := Publish(db, service, p, ref, expected, key, now, batch);
      if !IsPresent(db, ref) then o == Refused(StaleBinding) else
      var a := db.attempts[ref.attempt];
      if now >= a.expiresAt then IsDenied(db, o, ref.attempt, now)
      else if a.state == Stopping || a.state == Destroyed || (a.state == State.Failed && ChecksLiveness(p))
      then o == Refused(AttemptUnavailable)
      else if a.version != expected then o == Refused(StaleVersion)
      else if !PublicationIsDue(db, a, p, ref) then o == Refused(InvalidTransition)
      else
        && o.Done? && OnlyAttempt(db, o.db, ref.attempt) && IsPublished(a, o.db.attempts[ref.attempt], p, ref)
        && o.value == Receipt(OperationId(batch, 0), ref, o.db.attempts[ref.attempt].state, expected + 1)
  {
    hide Core, RowsGrow, Finish, StopAttempt, ShutDown, MayPublish, Published, PublicationIsDue;
    CallIsSound(db, PublishCall(service, p, ref, expected, key, now, batch));
    FinishesAnswer();
    if IsPresent(db, ref) {
      AttemptIsShaped(db, ref.attempt);
      StopShutsDown(db, ref.attempt, now);
      DueIsAllowed(db, p, ref);
      if PublicationIsDue(db, db.attempts[ref.attempt], p, ref) {
        PublishedShows(db, p, ref);
      }
    }
  }

  // ----- finalization -----

  /** The tuple is the attempt's present one or its active one. */
  ghost predicate IsPresentOrActive(db: Db, ref: Ref) {
    && ref.attempt in db.attempts
    && (IsPresent(db, ref)
        || (db.attempts[ref.attempt].activeSandbox == Some(ref.sandbox)
            && db.attempts[ref.attempt].activeGeneration == Some(ref.generation)))
  }

  /** Finalized: destroyed, with no active sandbox; the shutdown is part of it. */
  ghost predicate IsFinalized(a: Attempt, b: Attempt, now: int) {
    && KeepsIdentity(a, b) && b.state == Destroyed && b.destroy && !b.provisioning
    && b.sandbox == a.sandbox && b.generation == a.generation && b.runtimeId == a.runtimeId
    && b.activeSandbox == None && b.activeGeneration == None
    && b.candidateSandbox == a.candidateSandbox && b.candidateGeneration == a.candidateGeneration && b.reset == a.reset
    && (a.state == Destroyed ==> b == a)
    && (a.state != Destroyed ==>
          && (b.expiry <==> a.expiry || now >= a.expiresAt)
          && b.epoch == (if a.destroy then a.epoch else a.epoch + 1)
          && b.version == (if a.destroy && b.expiry == a.expiry then a.version + 1 else a.version + 2))
  }

  lemma FinalizedShows(a: Attempt, b: Attempt, now: int)
    requires AttemptShape(a) && ShutDown(a, b, now)
    ensures IsFinalized(a, Finalized(b), now)
  {
  }

  ghost predicate AllGone(db: Db, id: AttemptId) {
    forall s | s in db.resources && db.resources[s].attempt == id :: db.resources[s].state == Destroyed
  }

  lemma CompletePresent(db: Db, service: ServiceId, ref: Ref, key: Key, now: int, batch: nat)
    requires Core(db) && OpKey(BackendActor(service), key) !in db.operations
    requires IsPresent(db, ref) && SandboxIn(db, ref.sandbox, Destroyed) && AllGone(db, ref.attempt)
    ensures var o := Complete(db, service, ref, key, now, batch);
      || o == Refused(StoreFailure)
      || (&& o.Done? && OnlyAttempt(db, o.db, ref.attempt) && IsFinalized(db.attempts[ref.attempt], o.db.attempts[ref.attempt], now)
          && o.value == Receipt(OperationId(batch, 0), ref, Destroyed, o.db.attempts[ref.attempt].version))
  {
    hide Core, Finish, StopAttempt, ShutDown, Finalized, IsFinalized, UpdateAttempt;
    var a := db.attempts[ref.attempt];
    AttemptIsShaped(db, ref.attempt);
    ResourceIsShaped(db, ref.sandbox);
    StopShutsDown(db, ref.attempt, now);
    var db1 := StopAttempt(db, ref.attempt, now).db;
    var b := db1.attempts[ref.attempt];
    ShutDownKeeps(a, b, now);
    FinalizedShows(a, b, now);
    UpdateChangesOne(db1, ref.attempt, Finalized(b));
    FinishesAnswer();
  }

  lemma UpdateChangesOne(db: Db, id: AttemptId, b: Attempt)
    requires id in db.attempts
    ensures var o := UpdateAttempt(db, id, b);
      o == Refused(StoreFailure) || (o.Done? && o.db == db.(attempts := db.attempts[id := b]))
  {
  }

  lemma CompleteOld(db: Db, service: ServiceId, ref: Ref, key: Key, now: int, batch: nat)
    requires Core(db) && OpKey(BackendActor(service), key) !in db.operations
    requires !IsPresent(db, ref) || !SandboxIn(db, ref.sandbox, Destroyed) || !AllGone(db, ref.attempt)
    ensures var o := Complete(db, service, ref, key, now, batch);
      if !IsPresentOrActive(db, ref) then o == Refused(StaleBinding)
      else if !SandboxIn(db, ref.sandbox, Destroyed) || IsPresent(db, ref) then o == Refused(CleanupUnverified)
      else if db.attempts[ref.attempt].state != Resetting then o == Refused(InvalidTransition)
      else
        || o == Refused(StoreFailure)
        || (&& o.Done? && o.db.attempts == db.attempts && o.db.resources == db.resources
            && o.db.uses == db.uses && o.db.leases == db.leases
            && o.value == Receipt(OperationId(batch, 0), ref, Destroyed, db.resources[ref.sandbox].version))
  {
    hide Core, Finish, StopAttempt, Finalized, UpdateAttempt;
    FinishesAnswer();
    if IsPresentOrActive(db, ref) {
      AttemptIsShaped(db, ref.attempt);
      if ref.sandbox in db.resources {
        ResourceIsShaped(db, ref.sandbox);
      }
    }
  }

  /** With an unused key: the old sandbox of a reset is acknowledged once it is destroyed, and
      nothing else changes; with the present one destroyed, the attempt is destroyed exactly if
      all its sandboxes are. */
  lemma CompleteOutcome(db: Db, service: ServiceId, ref: Ref, key: Key, now: int, batch: nat)
    requires Core(db) && FreshBatch(db, batch) && OpKey(BackendActor(service), key) !in db.operations
    ensures var o := Complete(db, service, ref, key, now, batch);
      if !IsPresentOrActive(db, ref) then o == Refused(StaleBinding) else
      var a := db.attempts[ref.attempt];
      if !SandboxIn(db, ref.sandbox, Destroyed) then o == Refused(CleanupUnverified)
      else if !IsPresent(db, ref) then
        if a.state != Resetting then o == Refused(InvalidTransition)
        else
          && o.Done? && o.db.attempts == db.attempts && o.db.resources == db.resources
          && o.db.uses == db.uses && o.db.leases == db.leases
          && o.value == Receipt(OperationId(batch, 0), ref, Destroyed, db.resources[ref.sandbox].version)
      else if !AllGone(db, ref.attempt) then o == Refused(CleanupUnverified)
      else
        && o.Done? && OnlyAttempt(db, o.db, ref.attempt) && IsFinalized(a, o.db.attempts[ref.attempt], now)
        && o.value == Receipt(OperationId(batch, 0), ref, Destroyed, o.db.attempts[ref.attempt].version)
  {
    hide Core, RowsGrow, Complete, IsFinalized;
    CallIsSound(db, CompleteCall(service, ref, key, now, batch));
    if IsPresent(db, ref) && SandboxIn(db, ref.sandbox, Destroyed) && AllGone(db, ref.attempt) {
      CompletePresent(db, service, ref, key, now, batch);
    } else {
      CompleteOld(db, service, ref, key, now, batch);
    }
  }

  lemma ShutDownKeeps(a: Attempt, b: Attempt, now: int)
    requires ShutDown(a, b, now)
    ensures b.sandbox == a.sandbox && b.generation == a.generation
  {
  }

  // ----- expiry -----

  /** Past its deadline and not yet marked so. */
  ghost predicate IsOverdue(db: Db, id: AttemptId, now: int) {
    id in db.attempts && db.attempts[id].expiresAt <= now && !db.attempts[id].expiry && db.attempts[id].state != Destroyed
  }

  /** What expiry answers: the present tuples of overdue attempts, each once, earliest deadline
      first, and an overdue one is left out only when the limit is reached. */
  ghost predicate OverdueListed(db: Db, now: int, limit: nat, refs: seq<Ref>) {
    && |refs| <= limit
    && (forall i | 0 <= i < |refs| :: IsOverdue(db, refs[i].attempt, now) && IsPresent(db, refs[i]))
    && (forall i, j | 0 <= i < j < |refs| ::
          refs[i].attempt != refs[j].attempt
          && db.attempts[refs[i].attempt].expiresAt <= db.attempts[refs[j].attempt].expiresAt)
    && (forall id | IsOverdue(db, id, now) && RefOf(id, db.attempts[id]) !in refs ::
          |refs| == limit && forall i | 0 <= i < |refs| :: db.attempts[refs[i].attempt].expiresAt <= db.attempts[id].expiresAt)
  }

  lemma OverdueRow(db: Db, now: int, row: Row)
    requires row in ExpiryRows(db, now)
    ensures IsOverdue(db, row.attempt, now) && row == Plain(db.attempts[row.attempt].expiresAt, row.attempt, 0)
  {
  }

  lemma OverdueHasRow(db: Db, now: int, id: AttemptId)
    requires IsOverdue(db, id, now)
    ensures Plain(db.attempts[id].expiresAt, id, 0) in ExpiryRows(db, now)
  {
  }

  lemma UnlistedOverdue(db: Db, now: int, limit: nat, id: AttemptId)
    requires IsOverdue(db, id, now)
    requires RefOf(id, db.attempts[id]) !in RowRefs(db, Select(ExpiryRows(db, now), limit))
    ensures |Select(ExpiryRows(db, now), limit)| == limit
    ensures forall i | 0 <= i < limit ::
      db.attempts[Select(ExpiryRows(db, now), limit)[i].attempt].expiresAt <= db.attempts[id].expiresAt
  {
    hide ExpiryRows, Select;
    var rows := Select(ExpiryRows(db, now), limit);
    var row := Plain(db.attempts[id].expiresAt, id, 0);
    OverdueHasRow(db, now, id);
    RowListsItsTuple(db, rows, id);
    forall i | 0 <= i < limit
      ensures db.attempts[rows[i].attempt].expiresAt <= db.attempts[id].expiresAt
    {
      OverdueRow(db, now, rows[i]);
      assert Before(rows[i], row);
    }
  }

  lemma RowListsItsTuple(db: Db, rows: seq<Row>, id: AttemptId)
    requires RowsKnown(db, rows) && id in db.attempts
    ensures Plain(db.attempts[id].expiresAt, id, 0) in rows ==> RefOf(id, db.attempts[id]) in RowRefs(db, rows)
  {
    var row := Plain(db.attempts[id].expiresAt, id, 0);
    if row in rows {
      var i :| 0 <= i < |rows| && rows[i] == row;
      assert RowRefs(db, rows)[i] == RefOf(id, db.attempts[id]);
    }
  }

  lemma OverdueAreListed(db: Db, now: int, limit: nat)
    ensures OverdueListed(db, now, limit, RowRefs(db, Select(ExpiryRows(db, now), limit)))
  {
    hide ExpiryRows, Select;
    var rows := Select(ExpiryRows(db, now), limit);
    var refs := RowRefs(db, rows);
    SelectIsOrdered(ExpiryRows(db, now), limit);
    forall i | 0 <= i < |refs|
      ensures IsOverdue(db, refs[i].attempt, now) && IsPresent(db, refs[i]) && rows[i] == Plain(db.attempts[rows[i].attempt].expiresAt, rows[i].attempt, 0)
    {
      OverdueRow(db, now, rows[i]);
    }
    forall i, j | 0 <= i < j < |refs|
      ensures refs[i].attempt != refs[j].attempt
      ensures db.attempts[refs[i].attempt].expiresAt <= db.attempts[refs[j].attempt].expiresAt
    {
      assert rows[i] != rows[j] && Before(rows[i], rows[j]);
    }
    forall id | IsOverdue(db, id, now) && RefOf(id, db.attempts[id]) !in refs
      ensures |refs| == limit && forall i | 0 <= i < |refs| :: db.attempts[refs[i].attempt].expiresAt <= db.attempts[id].expiresAt
    {
      UnlistedOverdue(db, now, limit, id);
    }
  }

  ghost predicate IsNamed(rows: seq<Row>, id: AttemptId) {
    exists i :: 0 <= i < |rows| && rows[i].attempt == id
  }

  ghost predicate DistinctNames(rows: seq<Row>) {
    forall i, j | 0 <= i < j < |rows| :: rows[i].attempt != rows[j].attempt
  }

  /** Exactly the named attempts are shut down; nothing else changes. */
  ghost predicate ShutDownAll(before: Db, rows: seq<Row>, now: int, after: Db) {
    && after.resources == before.resources && after.operations == before.operations
    && after.uses == before.uses && after.leases == before.leases
    && after.attempts.Keys == before.attempts.Keys
    && (forall id | id in before.attempts ::
          if IsNamed(rows, id) then ShutDown(before.attempts[id], after.attempts[id], now)
          else after.attempts[id] == before.attempts[id])
  }

  lemma {:induction false} StopAllShutsDown(db: Db, rows: seq<Row>, now: int)
    requires Core(db) && RowsKnown(db, rows) && DistinctNames(rows)
    ensures StopAll(db, rows, now).Done? && ShutDownAll(db, rows, now, StopAll(db, rows, now).db)
    decreases |rows|
  {
    hide Core, RowsGrow, StopAttempt, ShutDown;
    if rows != [] {
      var id := rows[0].attempt;
      StopShutsDown(db, id, now);
      StopAttemptKeeps(db, id, now);
      var next := StopAttempt(db, id, now).db;
      forall i, j | 0 <= i < j < |rows[1..]|
        ensures rows[1..][i].attempt != rows[1..][j].attempt
      {
        assert rows[1..][i] == rows[i + 1] && rows[1..][j] == rows[j + 1];
      }
      StopAllShutsDown(next, rows[1..], now);
      ShutDownOneMore(db, rows, now, next, StopAll(next, rows[1..], now).db);
    }
  }

  lemma ShutDownOneMore(db: Db, rows: seq<Row>, now: int, next: Db, after: Db)
    requires rows != [] && DistinctNames(rows) && RowsKnown(db, rows)
    requires next.operations == db.operations && OnlyAttempt(db, next, rows[0].attempt)
    requires ShutDown(db.attempts[rows[0].attempt], next.attempts[rows[0].attempt], now)
    requires ShutDownAll(next, rows[1..], now, after)
    ensures ShutDownAll(db, rows, now, after)
  {
    hide ShutDown;
    forall i | 0 <= i < |rows[1..]|
      ensures rows[1..][i].attempt != rows[0].attempt
    {
      assert rows[1..][i] == rows[i + 1];
    }
    forall id | id in db.attempts
      ensures if IsNamed(rows, id) then ShutDown(db.attempts[id], after.attempts[id], now) else after.attempts[id] == db.attempts[id]
    {
      NamedFirstOrLater(rows, id);
    }
  }

  lemma NamedFirstOrLater(rows: seq<Row>, id: AttemptId)
    requires rows != []
    ensures IsNamed(rows, id) <==> rows[0].attempt == id || IsNamed(rows[1..], id)
  {
    if i :| 0 <= i < |rows[1..]| && rows[1..][i].attempt == id {
      assert rows[i + 1].attempt == id;
    }
    if i :| 0 < i < |rows| && rows[i].attempt == id {
      assert rows[1..][i - 1].attempt == id;
    }
  }

  ghost predicate IsAnswered(refs: seq<Ref>, id: AttemptId) {
    exists i :: 0 <= i < |refs| && refs[i].attempt == id
  }

  /** Expiry succeeds for every limit of 1 to 1000 and shuts down exactly the attempts that it
      answers with. */
  lemma ExpireOutcome(db: Db, now: int, limit: int)
    requires Core(db)
    ensures var o := Expire(db, now, limit);
      if !(1 <= limit <= 1000) then o == Refused(InvalidRequest)
      else
        && o.Done? && OverdueListed(db, now, limit, o.value)
        && o.db.resources == db.resources && o.db.operations == db.operations && o.db.uses == db.uses && o.db.leases == db.leases
        && o.db.attempts.Keys == db.attempts.Keys
        && forall id | id in db.attempts ::
             if IsAnswered(o.value, id) then ShutDown(db.attempts[id], o.db.attempts[id], now) && o.db.attempts[id].expiry
             else o.db.attempts[id] == db.attempts[id]
  {
    hide Core, ExpiryRows, Select, StopAll, ShutDown;
    if LimitOk(limit) {
      var rows := Select(ExpiryRows(db, now), limit);
      OverdueAreListed(db, now, limit);
      var refs := RowRefs(db, rows);
      forall i, j | 0 <= i < j < |rows|
        ensures rows[i].attempt != rows[j].attempt
      {
        assert refs[i].attempt != refs[j].attempt;
      }
      StopAllShutsDown(db, rows, now);
      var after := StopAll(db, rows, now).db;
      forall id | id in db.attempts
        ensures IsAnswered(refs, id) <==> IsNamed(rows, id)
        ensures IsAnswered(refs, id) ==> after.attempts[id].expiry
      {
        AnsweredIsNamed(db, rows, id);
        if i :| 0 <= i < |refs| && refs[i].attempt == id {
          assert IsOverdue(db, refs[i].attempt, now);
          OverdueExpires(db.attempts[id], after.attempts[id], now);
        }
      }
    }
  }

  lemma AnsweredIsNamed(db: Db, rows: seq<Row>, id: AttemptId)
    requires RowsKnown(db, rows)
    ensures IsAnswered(RowRefs(db, rows), id) <==> IsNamed(rows, id)
  {
    var refs := RowRefs(db, rows);
    if i :| 0 <= i < |rows| && rows[i].attempt == id {
      assert refs[i].attempt == id;
    }
    if i :| 0 <= i < |refs| && refs[i].attempt == id {
      assert rows[i].attempt == id;
    }
  }

  lemma OverdueExpires(a: Attempt, b: Attempt, now: int)
    requires ShutDown(a, b, now) && a.state != Destroyed && now >= a.expiresAt
    ensures b.expiry
  {
  }
}
