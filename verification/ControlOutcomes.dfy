/** When each ControlPlaneStore call succeeds, what its rows become, and which error every
    other case gives, in terms of the rows before it. */
module ControlOutcomes {
  import opened Records
  import opened Schema
  import opened Common
  import opened ControlPlane
  import opened Runs
  import opened Invariant
  import opened Preservation
  import opened Ledger
  import opened Access
  import opened Reachable
  import opened BackendOutcomes

  /** Only this resource's row changed, and not what it was reserved with. */
  ghost predicate OnlyResource(before: Db, after: Db, s: SandboxId) {
    && after.attempts == before.attempts && after.uses == before.uses && after.leases == before.leases
    && s in after.resources && after.resources == before.resources[s := after.resources[s]]
    && (s in before.resources ==> KeepsReservation(before.resources[s], after.resources[s]))
  }

  ghost predicate KeepsReservation(r: Resource, s: Resource) {
    s.attempt == r.attempt && s.generation == r.generation && s.runtimeId == r.runtimeId && s.expiresAt == r.expiresAt
  }

  /** The tuple is that of a resource row. */
  ghost predicate HasRow(db: Db, ref: Ref) {
    && ref.sandbox in db.resources
    && db.resources[ref.sandbox].attempt == ref.attempt && db.resources[ref.sandbox].generation == ref.generation
  }

  /** The attempt is over: past its deadline, or in an ending state. */
  ghost predicate IsOver(a: Attempt, now: int) {
    now >= a.expiresAt || a.state == Stopping || a.state == State.Failed || a.state == Destroyed
  }

  lemma DeadIsOver(db: Db, id: AttemptId, now: int)
    requires Core(db) && id in db.attempts
    ensures Dead(db.attempts[id], now) <==> IsOver(db.attempts[id], now)
    ensures db.attempts[id].expiry ==> db.attempts[id].state == Stopping || db.attempts[id].state == Destroyed
  {
    hide Core;
    AttemptIsShaped(db, id);
  }

  // ----- acceptance -----

  /** With an unused key, an acceptance succeeds exactly for the present tuple of an attempt
      before its deadline that is PROVISIONING, or RESETTING with its old sandbox destroyed,
      when the new sandbox has no row: it gets a REQUESTED one. */
  lemma AcceptOutcome(db: Db, service: ServiceId, ref: Ref, key: Key, now: int, batch: nat)
    requires Core(db) && FreshBatch(db, batch) && OpKey(BackendActor(service), key) !in db.operations
    ensures var o := Accept(db, service, ref, key, now, batch);
      if !IsPresent(db, ref) then o == Refused(StaleBinding) else
      var a := db.attempts[ref.attempt];
      if IsOver(a, now) then o == Refused(AttemptUnavailable)
      else if !(a.state == Provisioning
                || (a.state == Resetting && a.activeSandbox.Some? && SandboxIn(db, a.activeSandbox.value, Destroyed)))
      then o == Refused(InvalidTransition)
      else if ref.sandbox in db.resources then o == Refused(ResourceExists)
      else
        && o.Done? && o.value == Receipt(OperationId(batch, 0), ref, Requested, 0) && OnlyResource(db, o.db, ref.sandbox)
        && var r := o.db.resources[ref.sandbox];
        && r.attempt == ref.attempt && r.generation == ref.generation && r.state == Requested && r.version == 0
        && r.runtimeId == a.runtimeId && r.expiresAt == a.expiresAt && !r.expiry && !r.destroy
        && r.container == None && r.evidence == None && r.cleanupEvidence == None
  {
    hide Core, RowsGrow, Finish, Dead;
    CallIsSound(db, AcceptCall(service, ref, key, now, batch));
    FinishesAnswer();
    if IsPresent(db, ref) {
      var a := db.attempts[ref.attempt];
      AttemptIsShaped(db, ref.attempt);
      DeadIsOver(db, ref.attempt, now);
      if a.activeSandbox.Some? && a.activeSandbox.value in db.resources {
        ResourceIsShaped(db, a.activeSandbox.value);
      }
    }
  }

  // ----- transitions -----

  /** The steps that a resource may take. */
  const STEPS: set<(State, State)> :=
    {(Requested, Creating), (Requested, Stopping), (Creating, Starting), (Creating, State.Failed), (Creating, Stopping),
     (Starting, Ready), (Starting, State.Failed), (Starting, Stopping), (Ready, Running), (Ready, Stopping),
     (Running, Resolved), (Running, Stopping), (Resolved, Stopping), (Stopping, Destroyed), (Stopping, State.Failed),
     (State.Failed, Stopping)}

  lemma StepsAreTheTable(x: State, y: State)
    ensures MayMove(x, y) <==> (x, y) in STEPS
  {
  }

  /** A step names exactly what belongs to it: an error to FAILED, evidence to READY, RESOLVED
      and DESTROYED, a container to STARTING. */
  ghost predicate IsStepRequest(m: Move) {
    && m.state != Provisioning && m.state != Resetting
    && (m.error.Some? <==> m.state == State.Failed)
    && (m.evidence.Some? <==> m.state == Ready || m.state == Resolved || m.state == Destroyed)
    && (m.container.Some? <==> m.state == Starting)
  }

  /** The row after a step. */
  ghost predicate TookStep(r: Resource, s: Resource, m: Move, expired: bool) {
    && KeepsReservation(r, s) && s.state == m.state && s.version == r.version + 1
    && s.container == (if m.state == Starting then m.container else r.container)
    && s.evidence == (if m.state == Ready || m.state == Resolved then m.evidence else r.evidence)
    && s.cleanupEvidence == (if m.state == Destroyed then m.evidence else r.cleanupEvidence)
    && (s.destroy <==> r.destroy || m.state == Stopping || m.state == State.Failed || m.state == Destroyed)
    && (s.expiry <==> r.expiry || expired)
  }

  lemma MovedTookStep(r: Resource, m: Move, expired: bool)
    requires IsStepRequest(m)
    ensures TookStep(r, Moved(r, m, expired), m, expired)
  {
  }

  /** The denial stopped a resource past its deadline, if it was not already. */
  ghost predicate RowIsStopped(r: Resource, s: Resource) {
    && KeepsReservation(r, s) && s.container == r.container && s.evidence == r.evidence && s.cleanupEvidence == r.cleanupEvidence
    && (r.state == Destroyed ==> s == r)
    && (r.state != Destroyed ==>
          && s.state == Stopping && s.destroy && s.expiry
          && s.version == (if r.state == Stopping && r.expiry then r.version else r.version + 1))
  }

  ghost predicate StopIsCommitted(db: Db, after: Db, s: SandboxId) {
    && after.operations == db.operations
    && s in db.resources && OnlyResource(db, after, s) && RowIsStopped(db.resources[s], after.resources[s])
  }

  ghost predicate IsDeniedStop<T>(db: Db, o: Outcome<T>, s: SandboxId) {
    o.Denied? && o.code == AttemptUnavailable && StopIsCommitted(db, o.db, s)
  }

  lemma StopStops(db: Db, s: SandboxId)
    requires Core(db) && s in db.resources
    ensures var o := StopResource(db, s, true);
      o.Done? && StopIsCommitted(db, o.db, s)
  {
    hide Core, RowsGrow;
    StopResourceKeeps(db, s, true);
    ResourceIsShaped(db, s);
  }

  /** The liveness check of a resource: past the deadline, or once expired, its stop is committed. */
  lemma RequireLiveOutcome(db: Db, ref: Ref, now: int)
    requires Core(db) && IsPresent(db, ref) && HasRow(db, ref)
    ensures var a, r := db.attempts[ref.attempt], db.resources[ref.sandbox];
      var o := RequireLive(db, a, Some(ref.sandbox), now);
      if now >= a.expiresAt || a.expiry then IsDeniedStop(db, o, ref.sandbox)
      else if IsOver(a, now) || r.state.Ending() then o == Refused(AttemptUnavailable)
      else o == Done(db, ())
  {
    hide Core, RowsGrow, StopResource, StopIsCommitted;
    DeadIsOver(db, ref.attempt, now);
    StopStops(db, ref.sandbox);
    ResourceIsShaped(db, ref.sandbox);
  }

  /** A step that tears a sandbox down is taken in the name of cleanup. */
  ghost predicate IsTeardown(r: Resource, m: Move) {
    m.state == Stopping || m.state == Destroyed || (m.state == State.Failed && r.state.Ending())
  }

  /** The cleanup operation of a destroyed sandbox is finished; any other step leaves it alone. */
  ghost predicate CleanupIsMarked(before: Db, after: Db, s: SandboxId, m: Move, version: nat) {
    && (CleanupKey(s) in after.operations <==> CleanupKey(s) in before.operations)
    && (CleanupKey(s) in before.operations ==>
          var o, p := before.operations[CleanupKey(s)], after.operations[CleanupKey(s)];
          if m.state == Destroyed then
            && p.status == Succeeded && p.state == Destroyed && p.version == version && p.error == None
            && p.id == o.id && p.request == o.request && p.ref == o.ref && p.retryCount == o.retryCount && p.retryAt == o.retryAt
          else p == o)
  }

  lemma ApplyMoveOutcome(db: Db, k: OpKey, ref: Ref, expected: nat, m: Move, expired: bool, batch: nat)
    requires HasRow(db, ref) && IsStepRequest(m) && db.resources[ref.sandbox].version == expected && k.actor != CleanupActor
    ensures var o := ApplyMove(db, k, ref, expected, m, expired, batch);
      || o == Refused(StoreFailure)
      || (&& o.Done? && OnlyResource(db, o.db, ref.sandbox)
          && TookStep(db.resources[ref.sandbox], o.db.resources[ref.sandbox], m, expired)
          && CleanupIsMarked(db, o.db, ref.sandbox, m, expected + 1)
          && o.value == Receipt(OperationId(batch, 0), ref, m.state, expected + 1))
  {
    hide Moved, TookStep, IsStepRequest;
    MovedTookStep(db.resources[ref.sandbox], m, expired);
    TookStepKeeps(db.resources[ref.sandbox], Moved(db.resources[ref.sandbox], m, expired), m, expired);
  }

  lemma TookStepKeeps(r: Resource, s: Resource, m: Move, expired: bool)
    requires TookStep(r, s, m, expired)
    ensures KeepsReservation(r, s)
  {
  }

  /** A transition with an unused key reaches its step exactly here. */
  lemma TransitionReaches(db: Db, service: ServiceId, ref: Ref, expected: nat, m: Move, key: Key, now: int, batch: nat)
    requires Core(db) && OpKey(ControlActor(service), key) !in db.operations
    ensures var o := Transition(db, service, ref, expected, m, key, now, batch);
      if !IsStepRequest(m) then o == Refused(InvalidRequest)
      else if !IsPresentOrActive(db, ref) || !HasRow(db, ref) then o == Refused(StaleBinding) else
      var a, r := db.attempts[ref.attempt], db.resources[ref.sandbox];
      if !IsTeardown(r, m) && !IsPresent(db, ref) then o == Refused(InvalidTransition)
      else if !IsTeardown(r, m) && (now >= a.expiresAt || a.expiry) then IsDeniedStop(db, o, ref.sandbox)
      else if !IsTeardown(r, m) && (IsOver(a, now) || r.state.Ending()) then o == Refused(AttemptUnavailable)
      else if r.version != expected then o == Refused(StaleVersion)
      else if (r.state, m.state) !in STEPS then o == Refused(InvalidTransition)
      else o == ApplyMove(db, OpKey(ControlActor(service), key), ref, expected, m, now >= a.expiresAt || a.expiry, batch)
  {
    hide Core, RequireLive, ApplyMove, MayMove, STEPS, StopIsCommitted, IsOver;
    if IsPresentOrActive(db, ref) && HasRow(db, ref) {
      StepsAreTheTable(db.resources[ref.sandbox].state, m.state);
      AttemptIsShaped(db, ref.attempt);
      ResourceIsShaped(db, ref.sandbox);
      if IsPresent(db, ref) {
        RequireLiveOutcome(db, ref, now);
      }
    }
  }

  /** With an unused key, a transition succeeds exactly for a well-formed step of the table at
      the expected version, of the present sandbox of a live attempt, or, for teardown, of
      the present or active one at any time. */
  lemma TransitionOutcome(db: Db, service: ServiceId, ref: Ref, expected: nat, m: Move, key: Key, now: int, batch: nat)
    requires Core(db) && FreshIds(db, TransitionCall(service, ref, expected, m, key, now, batch))
    requires OpKey(ControlActor(service), key) !in db.operations
    ensures var o := Transition(db, service, ref, expected, m, key, now, batch);
      if !IsStepRequest(m) then o == Refused(InvalidRequest)
      else if !IsPresentOrActive(db, ref) || !HasRow(db, ref) then o == Refused(StaleBinding) else
      var a, r := db.attempts[ref.attempt], db.resources[ref.sandbox];
      if !IsTeardown(r, m) && !IsPresent(db, ref) then o == Refused(InvalidTransition)
      else if !IsTeardown(r, m) && (now >= a.expiresAt || a.expiry) then IsDeniedStop(db, o, ref.sandbox)
      else if !IsTeardown(r, m) && (IsOver(a, now) || r.state.Ending()) then o == Refused(AttemptUnavailable)
      else if r.version != expected then o == Refused(StaleVersion)
      else if (r.state, m.state) !in STEPS then o == Refused(InvalidTransition)
      else
        && o.Done? && OnlyResource(db, o.db, ref.sandbox)
        && TookStep(r, o.db.resources[ref.sandbox], m, now >= a.expiresAt || a.expiry)
        && CleanupIsMarked(db, o.db, ref.sandbox, m, expected + 1)
        && o.value == Receipt(OperationId(batch, 0), ref, m.state, expected + 1)
  {
    hide Core, RowsGrow, Transition, ApplyMove, STEPS, StopIsCommitted, IsOver, TookStep, CleanupIsMarked, IsStepRequest;
    CallIsSound(db, TransitionCall(service, ref, expected, m, key, now, batch));
    TransitionReaches(db, service, ref, expected, m, key, now, batch);
    if IsPresentOrActive(db, ref) && HasRow(db, ref) && IsStepRequest(m) && db.resources[ref.sandbox].version == expected {
      var a := db.attempts[ref.attempt];
      ApplyMoveOutcome(db, OpKey(ControlActor(service), key), ref, expected, m, now >= a.expiresAt || a.expiry, batch);
    }
  }

  // ----- failed cleanups -----

  /** With an unused key, a cleanup failure is recorded exactly for a stopping sandbox of the
      present or active tuple, at the expected version, for its own cleanup operation, with
      a retry time to come: the sandbox fails, and its operation is to be retried then. */
  lemma CleanupFailedOutcome(db: Db, service: ServiceId, ref: Ref, operation: OperationId, expected: nat, key: Key,
                             error: ErrorCode, retryAt: int, now: int, batch: nat)
    requires Core(db) && LedgerOk(db) && FreshBatch(db, batch) && OpKey(ControlActor(service), key) !in db.operations
    ensures var o := CleanupFailed(db, service, ref, operation, expected, key, error, retryAt, now, batch);
      var cleanup := CleanupKey(ref.sandbox);
      if error != RuntimeUnavailable && error != CleanupIncomplete then o == Refused(InvalidRequest)
      else if !IsPresentOrActive(db, ref) || !HasRow(db, ref) then o == Refused(StaleBinding)
      else if retryAt <= now then o == Refused(InvalidRequest)
      else if db.resources[ref.sandbox].version != expected then o == Refused(StaleVersion)
      else if db.resources[ref.sandbox].state != Stopping || cleanup !in db.operations || db.operations[cleanup].id != operation
      then o == Refused(InvalidTransition)
      else
        && o.Done? && OnlyResource(db, o.db, ref.sandbox) && FailedCleanup(db.resources[ref.sandbox], o.db.resources[ref.sandbox])
        && cleanup in o.db.operations
        && WillRetry(db.operations[cleanup], o.db.operations[cleanup], error, retryAt, expected + 1)
        && o.value == Receipt(OperationId(batch, 0), ref, State.Failed, expected + 1)
  {
    hide Core, RowsGrow, LedgerOk, ApplyFailure, FailedCleanup, WillRetry, OnlyResource;
    CallIsSound(db, CleanupFailedCall(service, ref, operation, expected, key, error, retryAt, now, batch));
    if && IsPresentOrActive(db, ref) && HasRow(db, ref) && CleanupKey(ref.sandbox) in db.operations
       && db.resources[ref.sandbox].version == expected {
      InternalEntry(db, CleanupKey(ref.sandbox));
      FailureApplies(db, OpKey(ControlActor(service), key), ref, operation, expected, error, retryAt, batch);
    }
  }

  ghost predicate FailedCleanup(r: Resource, s: Resource) {
    && KeepsReservation(r, s) && s.state == State.Failed && s.version == r.version + 1 && s.destroy == r.destroy
    && s.expiry == r.expiry && s.container == r.container && s.evidence == r.evidence && s.cleanupEvidence == r.cleanupEvidence
  }

  /** One more retry, at that time, for that error. */
  ghost predicate WillRetry(o: Operation, p: Operation, error: ErrorCode, retryAt: int, version: nat) {
    && p.status == Retry && p.state == State.Failed && p.version == version && p.error == Some(error)
    && p.retryCount == o.retryCount + 1 && p.retryAt == retryAt
    && p.id == o.id && p.request == o.request && p.ref == o.ref
  }

  lemma FailureApplies(db: Db, k: OpKey, ref: Ref, operation: OperationId, expected: nat, error: ErrorCode, retryAt: int, batch: nat)
    requires HasRow(db, ref) && CleanupKey(ref.sandbox) in db.operations && k.actor != CleanupActor
    requires db.resources[ref.sandbox].version == expected
    ensures var o := ApplyFailure(db, k, ref, operation, expected, error, retryAt, batch);
      var cleanup := CleanupKey(ref.sandbox);
      || o == Refused(StoreFailure)
      || (&& o.Done? && OnlyResource(db, o.db, ref.sandbox) && FailedCleanup(db.resources[ref.sandbox], o.db.resources[ref.sandbox])
          && cleanup in o.db.operations
          && WillRetry(db.operations[cleanup], o.db.operations[cleanup], error, retryAt, expected + 1)
          && o.value == Receipt(OperationId(batch, 0), ref, State.Failed, expected + 1))
  {
  }

  // ----- leases -----

  /** A consumed, unexpired capability of this attempt. */
  ghost predicate IsConsumed(db: Db, ref: Ref, consumed: CapabilityUse, now: int) {
    && consumed.jti in db.uses && db.uses[consumed.jti].attempt == ref.attempt
    && db.uses[consumed.jti].expiresAt == consumed.expiresAt && now < consumed.expiresAt
  }

  ghost predicate IsAttachable(db: Db, ref: Ref, epoch: nat) {
    && ref.attempt in db.attempts && ref.sandbox in db.resources
    && db.attempts[ref.attempt].activeSandbox == Some(ref.sandbox) && db.attempts[ref.attempt].epoch == epoch
    && (db.resources[ref.sandbox].state == Ready || db.resources[ref.sandbox].state == Running)
  }

  ghost predicate KeyHasLease(db: Db, service: ServiceId, key: Key, l: LeaseId) {
    l in db.leases && db.leases[l].actor == GatewayActor(service) && db.leases[l].key == key
  }

  ghost predicate CapabilityHasLease(db: Db, jti: JtiHash, l: LeaseId) {
    l in db.leases && db.leases[l].jti == jti
  }

  /** Up to the lookup of earlier leases. */
  lemma GrantChecks(db: Db, service: ServiceId, ref: Ref, consumed: CapabilityUse, session: SessionHash, duration: int,
                    key: Key, now: int, lease: LeaseId)
    requires Core(db)
    ensures var o := GrantLease(db, service, ref, consumed, session, duration, key, now, lease);
      if consumed.ref != ref then o == Refused(CapabilityInvalid)
      else if !(1 <= duration <= 60_000_000) then o == Refused(InvalidRequest)
      else if !IsPresent(db, ref) || !HasRow(db, ref) then o == Refused(StaleBinding) else
      var a, r := db.attempts[ref.attempt], db.resources[ref.sandbox];
      if now >= a.expiresAt || a.expiry then IsDeniedStop(db, o, ref.sandbox)
      else if IsOver(a, now) || r.state.Ending() || !IsAttachable(db, ref, consumed.epoch) then o == Refused(AttemptUnavailable)
      else !IsConsumed(db, ref, consumed, now) ==> o == Refused(CapabilityInvalid)
  {
    hide Core, RequireLive, StopIsCommitted, IsOver, LeaseWithKey, LeaseWithJti, InsertLease;
    if IsPresent(db, ref) && HasRow(db, ref) {
      RequireLiveOutcome(db, ref, now);
      ResourceIsShaped(db, ref.sandbox);
      AttemptIsShaped(db, ref.attempt);
    }
  }

  ghost predicate MayLease(db: Db, ref: Ref, consumed: CapabilityUse, duration: int, now: int) {
    && consumed.ref == ref && 1 <= duration <= 60_000_000 && IsPresent(db, ref) && HasRow(db, ref)
    && !IsOver(db.attempts[ref.attempt], now) && !db.resources[ref.sandbox].state.Ending()
    && IsAttachable(db, ref, consumed.epoch) && IsConsumed(db, ref, consumed, now)
  }

  ghost function LeaseWords(ref: Ref, consumed: CapabilityUse, session: SessionHash, duration: int): Request {
    LeaseRequest(ref, consumed.jti, consumed.epoch, session, duration)
  }

  lemma LookupOfKey(db: Db, service: ServiceId, key: Key, l: LeaseId)
    requires AccessOk(db)
    ensures KeyHasLease(db, service, key, l) ==> LeaseWithKey(db, GatewayActor(service), key) == Some(l)
    ensures (forall m :: !KeyHasLease(db, service, key, m)) ==> LeaseWithKey(db, GatewayActor(service), key).None?
  {
    hide AccessOk, LeaseWithKey;
    OneLeaseEach(db);
    var found := LeaseWithKey(db, GatewayActor(service), key);
    if found.Some? {
      assert KeyHasLease(db, service, key, found.value);
    }
  }

  lemma LookupOfJti(db: Db, jti: JtiHash, l: LeaseId)
    requires AccessOk(db)
    ensures CapabilityHasLease(db, jti, l) ==> LeaseWithJti(db, jti) == Some(l)
    ensures (forall m :: !CapabilityHasLease(db, jti, m)) ==> LeaseWithJti(db, jti).None?
  {
    hide AccessOk, LeaseWithJti;
    OneLeaseEach(db);
    var found := LeaseWithJti(db, jti);
    if found.Some? {
      assert CapabilityHasLease(db, jti, found.value);
    }
  }

  /** Past these checks, the lease under this key or, failing that, of this capability is given
      again exactly if it was asked for in the same words. */
  lemma GrantAgain(db: Db, service: ServiceId, ref: Ref, consumed: CapabilityUse, session: SessionHash, duration: int,
                   key: Key, now: int, lease: LeaseId, l: LeaseId)
    requires Core(db) && AccessOk(db) && MayLease(db, ref, consumed, duration, now)
    ensures var o := GrantLease(db, service, ref, consumed, session, duration, key, now, lease);
      && (KeyHasLease(db, service, key, l) ==>
            o == if db.leases[l].request == LeaseWords(ref, consumed, session, duration) then Done(db, Grant(l, db.leases[l]))
                 else Refused(IdempotencyConflict))
      && ((forall m :: !KeyHasLease(db, service, key, m)) && CapabilityHasLease(db, consumed.jti, l) ==>
            o == if db.leases[l].request == LeaseWords(ref, consumed, session, duration) then Done(db, Grant(l, db.leases[l]))
                 else Refused(CapabilityReplay))
  {
    hide Core, AccessOk, RequireLive, LeaseWithKey, LeaseWithJti, InsertLease, IsOver;
    RequireLiveOutcome(db, ref, now);
    AttemptIsShaped(db, ref.attempt);
    ResourceIsShaped(db, ref.sandbox);
    LookupOfKey(db, service, key, l);
    LookupOfJti(db, consumed.jti, l);
    LiveIsNotExpired(db, ref.attempt, now);
  }

  /** Without an earlier lease, exactly a session that has none gets a new one, up to the
      earliest of its three ends. */
  lemma GrantOutcome(db: Db, service: ServiceId, ref: Ref, consumed: CapabilityUse, session: SessionHash, duration: int,
                     key: Key, now: int, lease: LeaseId)
    requires Core(db) && AccessOk(db) && lease !in db.leases && MayLease(db, ref, consumed, duration, now)
    requires forall m :: !KeyHasLease(db, service, key, m) && !CapabilityHasLease(db, consumed.jti, m)
    ensures var o := GrantLease(db, service, ref, consumed, session, duration, key, now, lease);
      if exists m :: m in db.leases && db.leases[m].session == session then o == Refused(CapabilityReplay)
      else
        && o.Done? && o.value.lease == lease && o.db == db.(leases := db.leases[lease := o.value.row])
        && IsNewLease(db, o.value.row, service, ref, consumed, session, duration, key, now)
  {
    hide Core, RowsGrow, AccessOk, RequireLive, LeaseWithKey, LeaseWithJti, LeaseUnused, IsOver;
    CallIsSound(db, GrantCall(service, ref, consumed, session, duration, key, now, lease));
    RequireLiveOutcome(db, ref, now);
    AttemptIsShaped(db, ref.attempt);
    ResourceIsShaped(db, ref.sandbox);
    LookupOfKey(db, service, key, lease);
    LookupOfJti(db, consumed.jti, lease);
    LiveIsNotExpired(db, ref.attempt, now);
  }

  ghost predicate IsNewLease(db: Db, row: Lease, service: ServiceId, ref: Ref, consumed: CapabilityUse, session: SessionHash,
                             duration: int, key: Key, now: int)
    requires ref.attempt in db.attempts
  {
    var deadline := db.attempts[ref.attempt].expiresAt;
    && row.jti == consumed.jti && row.actor == GatewayActor(service) && row.key == key
    && row.request == LeaseWords(ref, consumed, session, duration)
    && row.ref == ref && row.epoch == consumed.epoch && row.session == session && row.issuedAt == now && row.consumedAt == now
    && row.expiresAt <= consumed.expiresAt && row.expiresAt <= deadline && row.expiresAt <= now + duration
    && (row.expiresAt == consumed.expiresAt || row.expiresAt == deadline || row.expiresAt == now + duration)
  }

  lemma LiveIsNotExpired(db: Db, id: AttemptId, now: int)
    requires Core(db) && id in db.attempts && !IsOver(db.attempts[id], now)
    ensures now < db.attempts[id].expiresAt && !db.attempts[id].expiry
  {
    hide Core;
    AttemptIsShaped(db, id);
  }

  lemma OneLeaseEach(db: Db)
    requires AccessOk(db)
    ensures forall i, j | i in db.leases && j in db.leases && i != j ::
      db.leases[i].jti != db.leases[j].jti && (db.leases[i].actor, db.leases[i].key) != (db.leases[j].actor, db.leases[j].key)
  {
  }
}
