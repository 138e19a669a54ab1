/** What an undisturbed maintenance pass achieves, for the rows that it found: rooms past
    their deadline are expired, sandboxes that have to go are destroyed, two passes destroy
    their rooms, and interrupted resets become READY. */
module MaintenanceLaws {
  import opened Records
  import opened Selection
  import opened Backend
  import opened ControlPlane
  import opened Invariant
  import opened Preservation
  import opened Log
  import opened Ledger
  import opened Access
  import opened Reachable
  import opened Keys
  import opened Worlds
  import opened Worker
  import opened WorkerSafety
  import opened WorkerProgress
  import opened CleanupTermination
  import opened Guarantees
  import opened BackendOutcomes
  import opened ReconcileOutcomes
  import opened WorkerOutcomes
  import opened PassLocality
  import opened Provisioning
  import opened ProvisioningSuccess
  import opened Maintenance
  import opened MaintenanceOutcomes
  import opened Resumption

  // ----- the parts of a pass -----

  /** The clock when an undisturbed pass expires rooms. */
  ghost function ExpiryTime(w: World, schedule: Schedule): int {
    schedule(w.tick).now
  }

  /** The clock when an undisturbed pass hands out its cleanup tasks. */
  ghost function CleanupTime(w: World, schedule: Schedule): int {
    schedule(w.tick + 2 + |FinalizationRows(w.db)|).now
  }

  /** The limit has room for the rooms to expire, and for pending finalizations and due sandboxes. */
  ghost predicate HasRoomForAll(w: World, schedule: Schedule, limit: int) {
    && 1 <= limit <= 1000
    && |ExpiryRows(w.db, ExpiryTime(w, schedule))| <= limit
    && HasRoom(w.db, Later(ExpiryTime(w, schedule), CleanupTime(w, schedule)), limit)
  }

  /** The pass after its expiry, and then after its cleanup. */
  ghost function Expired(w: World, schedule: Schedule, u: Upkeep): World {
    ExpirePass(w, schedule, u.limit).0
  }

  ghost function Tidied(w: World, schedule: Schedule, u: Upkeep): World {
    RunOnce(Expired(w, schedule, u), schedule, u.crew, u.limit).world
  }

  /** Nobody else calls the store, it is never busy, fresh identifiers are drawn, and the
      runtime removes what the cleanup asks it to. */
  ghost predicate IsUndisturbed(w: World, schedule: Schedule, u: Upkeep) {
    && Untroubled(schedule) && Maintain(w, schedule, u).0.legal
    && VerifiesDuring(schedule, Expired(w, schedule, u).tick, Tidied(w, schedule, u).tick)
  }

  /** A pass that nobody disturbs goes on from its expiry to its cleanup, and from there. */
  lemma TidyFirst(w: World, schedule: Schedule, u: Upkeep)
    requires Untroubled(schedule) && Healthy(w) && 1 <= u.limit <= 1000
    ensures var now := ExpiryTime(w, schedule);
      && Expire(w.db, now, u.limit).Done?
      && Expired(w, schedule, u) == w.(db := Expire(w.db, now, u.limit).db, tick := w.tick + 1)
      && Healthy(Expired(w, schedule, u)) && Leads(Expired(w, schedule, u), Tidied(w, schedule, u))
      && Leads(Tidied(w, schedule, u), Maintain(w, schedule, u).0)
    ensures var p := RunOnce(Expired(w, schedule, u), schedule, u.crew, u.limit);
      Maintain(w, schedule, u) ==
        if p.raised.Some? then (p.world, false)
        else if u.resumes.None? then (p.world, true)
        else
          var (scanned, receipts) := ScanResets(p.world, schedule, u.limit);
          if receipts.Reject? then (scanned, false) else ResumeAll(scanned, schedule, u.resumes.value, receipts.value)
  {
    hide Intact, Leads, Expire, ExpirePass, RunOnce, Serve, PendingResetProvisioning, ResumeAll, Untroubled;
    UntroubledExpiry(w, schedule, u.limit);
    var expired := Expired(w, schedule, u);
    PassKeepsTheStoreSound(expired, schedule, u.crew, u.limit);
    var p := RunOnce(expired, schedule, u.crew, u.limit);
    Stays(p.world);
    ServeLeads(p.world, schedule);
    var (scanned, receipts) := ScanResets(p.world, schedule, u.limit);
    if u.resumes.Some? && receipts.Allow? {
      ResumeAllLeads(scanned, schedule, u.resumes.value, receipts.value);
      LeadsOn(p.world, scanned, ResumeAll(scanned, schedule, u.resumes.value, receipts.value).0);
    }
  }

  lemma ExpiredHasRoom(w: World, schedule: Schedule, u: Upkeep)
    requires Healthy(w) && Untroubled(schedule) && HasRoomForAll(w, schedule, u.limit)
    ensures var expired := Expired(w, schedule, u);
      && FinalizationRows(expired.db) == FinalizationRows(w.db)
      && ReconcileTime(expired, schedule) == CleanupTime(w, schedule)
      && HasRoom(expired.db, CleanupTime(w, schedule), u.limit)
  {
    hide Intact, Leads, Expire, Expired, Tidied, RunOnce, Maintain, ResumeAll, Serve, PendingResetProvisioning, Untroubled, CleanupRows, FinalizationRows, ExpiryRows;
    TidyFirst(w, schedule, u);
    HealthyIsCore(w);
    ExpiredWorkWasThere(w.db, ExpiryTime(w, schedule), u.limit, CleanupTime(w, schedule));
  }

  /** The cleanup of an undisturbed pass with room destroys exactly what is due. */
  lemma TidiedIsSwept(w: World, schedule: Schedule, u: Upkeep)
    requires Healthy(w) && IsUndisturbed(w, schedule, u) && HasRoomForAll(w, schedule, u.limit)
    ensures var expired, p := Expired(w, schedule, u), RunOnce(Expired(w, schedule, u), schedule, u.crew, u.limit);
      && p.raised.None? && Healthy(p.world) && IsSwept(expired.db, CleanupTime(w, schedule), p.world.db)
      && |FinalizationRows(p.world.db)| <= u.limit
  {
    hide Intact, Leads, Expire, Expired, RunOnce, Maintain, Untroubled, IsSwept, CleanupRows, FinalizationRows, HasRoom, ReconcileTime, ExpiryRows;
    TidyFirst(w, schedule, u);
    LeadsBack(Tidied(w, schedule, u), Maintain(w, schedule, u).0);
    ExpiredHasRoom(w, schedule, u);
    PassIsExact(Expired(w, schedule, u), schedule, u.crew, u.limit);
  }

  // ----- teardown -----

  ghost predicate SandboxHasToGo(db: Db, s: SandboxId, first: int, second: int) {
    exists ref :: HasToGo(db, ref, first, second) && ref.sandbox == s
  }

  /** Rooms past their deadline are expired, and sandboxes that have to go are destroyed. */
  ghost predicate TearsDown(before: Db, first: int, second: int, after: Db) {
    && (forall id | id in before.attempts && before.attempts[id].expiresAt <= first :: IsExpired(after, id))
    && (forall s | SandboxHasToGo(before, s, first, second) :: IsRemoved(after, s))
  }

  /** Other sandboxes are as before, and so are rooms before their deadline, unless they are destroyed. */
  ghost predicate SparesTheRest(before: Db, first: int, second: int, after: Db) {
    && (forall s | !SandboxHasToGo(before, s, first, second) ::
          && (s in after.resources <==> s in before.resources)
          && (s in before.resources ==> after.resources[s] == before.resources[s]))
    && after.attempts.Keys == before.attempts.Keys
    && (forall id | id in before.attempts && first < before.attempts[id].expiresAt ::
          || after.attempts[id] == before.attempts[id]
          || (after.attempts[id].state == Destroyed
              && after.attempts[id].sandbox == before.attempts[id].sandbox && after.attempts[id].sandbox in after.resources))
  }

  lemma SandboxDueOnceExpired(db: Db, now: int, limit: int, s: SandboxId, second: int)
    requires Core(db) && 1 <= limit <= 1000 && |ExpiryRows(db, now)| <= limit
    ensures Expire(db, now, limit).Done?
    ensures IsDueSandbox(Expire(db, now, limit).db, s, second) <==> SandboxHasToGo(db, s, now, second)
  {
    hide Core, Expire, ExpiryRows, IsDue, HasToGo;
    ExpiryIsExact(db, now, limit);
    var after := Expire(db, now, limit).db;
    if ref :| IsDue(after, ref, second) && ref.sandbox == s {
      DueOnceExpired(db, now, limit, ref, second);
    }
    if ref :| HasToGo(db, ref, now, second) && ref.sandbox == s {
      DueOnceExpired(db, now, limit, ref, second);
    }
  }

  lemma ExpiredStays(before: Db, after: Db, id: AttemptId)
    requires Grows(before, after) && IsExpired(before, id)
    ensures IsExpired(after, id)
  {
    assert AttemptGrows(before.resources, before.attempts[id], after.attempts[id]);
  }

  lemma RemovedStays(before: Db, after: Db, s: SandboxId)
    requires Grows(before, after) && IsRemoved(before, s)
    ensures IsRemoved(after, s)
  {
    assert ResourceGrows(before.resources[s], after.resources[s]);
  }

  lemma SweptTearsDown(db: Db, first: int, limit: int, second: int, after: Db)
    requires Core(db) && 1 <= limit <= 1000 && |ExpiryRows(db, first)| <= limit
    requires Expire(db, first, limit).Done? && IsSwept(Expire(db, first, limit).db, second, after)
    ensures TearsDown(db, first, second, after) && SparesTheRest(db, first, second, after)
  {
    hide Core, Expire, ExpiryRows, ShutDown, IsDueSandbox, SandboxHasToGo;
    var expired := Expire(db, first, limit).db;
    ExpiryIsExact(db, first, limit);
    forall s
      ensures IsDueSandbox(expired, s, second) <==> SandboxHasToGo(db, s, first, second)
    {
      SandboxDueOnceExpired(db, first, limit, s, second);
    }
    forall id | id in db.attempts && db.attempts[id].expiresAt <= first
      ensures IsExpired(after, id)
    {
      ExpiryIsComplete(db, first, limit, id);
    }
  }

  lemma TornDownStays(before: Db, first: int, second: int, mid: Db, after: Db)
    requires TearsDown(before, first, second, mid) && Grows(mid, after)
    ensures TearsDown(before, first, second, after)
  {
    hide IsExpired, IsRemoved, Grows, SandboxHasToGo;
    forall id | id in before.attempts && before.attempts[id].expiresAt <= first
      ensures IsExpired(after, id)
    {
      ExpiredStays(mid, after, id);
    }
    forall s | SandboxHasToGo(before, s, first, second)
      ensures IsRemoved(after, s)
    {
      RemovedStays(mid, after, s);
    }
  }

  /** An undisturbed maintenance pass with room expires every room past its deadline and
      destroys every sandbox that has to go. Without resumption it is complete, and touches
      no other sandbox and no other room, except for finalizing it. */
  lemma MaintenanceTearsDown(w: World, schedule: Schedule, u: Upkeep)
    requires Healthy(w) && IsUndisturbed(w, schedule, u) && HasRoomForAll(w, schedule, u.limit)
    ensures var (later, complete) := Maintain(w, schedule, u);
      var first, second := ExpiryTime(w, schedule), CleanupTime(w, schedule);
      && Healthy(later) && TearsDown(w.db, first, second, later.db)
      && (u.resumes.None? ==> complete && SparesTheRest(w.db, first, second, later.db))
  {
    hide Intact, Leads, Expire, ExpirePass, RunOnce, Maintain, IsUndisturbed, IsSwept, CleanupRows, FinalizationRows, ExpiryRows, Grows,
      TearsDown, SparesTheRest, ResumeAll, ScanResets;
    UndisturbedParts(w, schedule, u);
    TidyFirst(w, schedule, u);
    TidiedIsSwept(w, schedule, u);
    var tidy := Tidied(w, schedule, u);
    HealthyIsCore(w);
    SweptTearsDown(w.db, ExpiryTime(w, schedule), u.limit, CleanupTime(w, schedule), tidy.db);
    LeadsBack(tidy, Maintain(w, schedule, u).0);
    TornDownStays(w.db, ExpiryTime(w, schedule), CleanupTime(w, schedule), tidy.db, Maintain(w, schedule, u).0.db);
  }

  lemma UndisturbedParts(w: World, schedule: Schedule, u: Upkeep)
    requires IsUndisturbed(w, schedule, u)
    ensures Untroubled(schedule) && Maintain(w, schedule, u).0.legal
    ensures VerifiesDuring(schedule, Expired(w, schedule, u).tick, Tidied(w, schedule, u).tick)
  {
    hide Maintain, Untroubled, VerifiesDuring, Expired, Tidied;
  }

  // ----- two passes -----

  /** No deadline of a reset room falls within the pass: each has passed when it expires
      rooms, or lies after all its clock readings. */
  ghost predicate NoDeadlineFalls(db: Db, first: int, deadline: int) {
    forall id | id in db.attempts && db.attempts[id].state == Resetting ::
      db.attempts[id].expiresAt <= first || deadline <= db.attempts[id].expiresAt
  }

  lemma ListedInTime(w: World, schedule: Schedule, u: Upkeep, deadline: int)
    requires Healthy(w) && IsUndisturbed(w, schedule, u) && HasRoomForAll(w, schedule, u.limit)
    requires NoDeadlineFalls(w.db, ExpiryTime(w, schedule), deadline)
    ensures forall id | AwaitsResetProvisioning(Tidied(w, schedule, u).db, id) ::
      deadline <= Tidied(w, schedule, u).db.attempts[id].expiresAt
  {
    hide Intact, IsUndisturbed, HasRoomForAll, IsRemoved, IsExpired, IsSwept, RunOnce, ExpirePass, CleanlyDestroyed, ResetCandidateUntouched,
      SandboxHasToGo, Tidied, TearsDown, Maintain;
    TidiedSpares(w, schedule, u);
    var tidy := Tidied(w, schedule, u);
    forall id | AwaitsResetProvisioning(tidy.db, id)
      ensures deadline <= tidy.db.attempts[id].expiresAt
    {
      if w.db.attempts[id].expiresAt <= ExpiryTime(w, schedule) {
        ExpiredAwaitsNothing(w, schedule, u, id);
      }
    }
  }

  lemma TidiedSpares(w: World, schedule: Schedule, u: Upkeep)
    requires Healthy(w) && IsUndisturbed(w, schedule, u) && HasRoomForAll(w, schedule, u.limit)
    ensures Healthy(Tidied(w, schedule, u))
    ensures TearsDown(w.db, ExpiryTime(w, schedule), CleanupTime(w, schedule), Tidied(w, schedule, u).db)
    ensures SparesTheRest(w.db, ExpiryTime(w, schedule), CleanupTime(w, schedule), Tidied(w, schedule, u).db)
  {
    hide Intact, Leads, Expire, RunOnce, Maintain, IsUndisturbed, IsSwept, CleanupRows, FinalizationRows, ExpiryRows, TearsDown, SparesTheRest;
    UndisturbedParts(w, schedule, u);
    TidyFirst(w, schedule, u);
    TidiedIsSwept(w, schedule, u);
    HealthyIsCore(w);
    SweptTearsDown(w.db, ExpiryTime(w, schedule), u.limit, CleanupTime(w, schedule), Tidied(w, schedule, u).db);
  }

  lemma ExpiredAwaitsNothing(w: World, schedule: Schedule, u: Upkeep, id: AttemptId)
    requires TearsDown(w.db, ExpiryTime(w, schedule), CleanupTime(w, schedule), Tidied(w, schedule, u).db)
    requires id in w.db.attempts && w.db.attempts[id].expiresAt <= ExpiryTime(w, schedule)
    ensures !AwaitsResetProvisioning(Tidied(w, schedule, u).db, id)
  {
    hide Tidied, ExpiryTime, CleanupTime;
    assert IsExpired(Tidied(w, schedule, u).db, id);
  }

  /** The receipts that the pass lists for resumption. */
  ghost function Listed(w: World, schedule: Schedule, u: Upkeep): seq<Receipt>
    requires u.limit >= 0
  {
    ResetReceipts(Tidied(w, schedule, u).db, Select(ResetRows(Tidied(w, schedule, u).db), u.limit))
  }

  /** An undisturbed pass with resumption ends with resuming what it listed. */
  lemma ResumptionFollows(w: World, schedule: Schedule, u: Upkeep, deadline: int)
    requires Healthy(w) && IsUndisturbed(w, schedule, u) && HasRoomForAll(w, schedule, u.limit) && u.resumes.Some?
    requires Undisturbed(schedule, deadline) && NoDeadlineFalls(w.db, ExpiryTime(w, schedule), deadline)
    ensures var tidy := Tidied(w, schedule, u);
      var scanned := tidy.(tick := tidy.tick + 1);
      && Healthy(scanned) && Maintain(w, schedule, u) == ResumeAll(scanned, schedule, u.resumes.value, Listed(w, schedule, u))
      && AllWait(scanned.db, Listed(w, schedule, u), deadline) && DistinctAttempts(Listed(w, schedule, u))
  {
    hide Intact, Leads, Expired, RunOnce, Expire, Maintain, IsUndisturbed, IsSwept, HasRoomForAll, ResetRows, Select, ResumeAll,
      AllWait, DistinctAttempts, Undisturbed, AwaitsResetProvisioning, NoDeadlineFalls, ScanResets;
    UndisturbedParts(w, schedule, u);
    RoomIsALimit(w, schedule, u.limit);
    TidyFirst(w, schedule, u);
    TidiedEnds(w, schedule, u);
    ListedInTime(w, schedule, u, deadline);
    ListedWait(Tidied(w, schedule, u), schedule, u.limit, deadline);
  }

  lemma ListedWait(w: World, schedule: Schedule, limit: int, deadline: int)
    requires Healthy(w) && Undisturbed(schedule, deadline) && 1 <= limit <= 1000
    requires forall id | AwaitsResetProvisioning(w.db, id) :: deadline <= w.db.attempts[id].expiresAt
    ensures var receipts := ResetReceipts(w.db, Select(ResetRows(w.db), limit));
      && ScanResets(w, schedule, limit) == (w.(tick := w.tick + 1), Allow(receipts))
      && AllWait(w.db, receipts, deadline) && DistinctAttempts(receipts)
  {
    hide Core, LogOk, LedgerOk, AccessOk, ResetsOk, KeysOk, ResetRows, Select, AllWait, DistinctAttempts, AwaitsResetProvisioning;
    QuietServe(w, schedule, deadline);
    ListedResetsWait(w.db, limit, deadline);
  }

  lemma RoomIsALimit(w: World, schedule: Schedule, limit: int)
    requires HasRoomForAll(w, schedule, limit)
    ensures 1 <= limit <= 1000
  {
  }

  lemma TidiedEnds(w: World, schedule: Schedule, u: Upkeep)
    requires Healthy(w) && IsUndisturbed(w, schedule, u) && HasRoomForAll(w, schedule, u.limit)
    ensures RunOnce(Expired(w, schedule, u), schedule, u.crew, u.limit).raised.None? && Healthy(Tidied(w, schedule, u))
    ensures |FinalizationRows(Tidied(w, schedule, u).db)| <= u.limit
  {
    hide Intact, Maintain, IsUndisturbed, IsSwept, HasRoomForAll, RunOnce, ExpirePass, FinalizationRows;
    RoomIsALimit(w, schedule, u.limit);
    TidiedIsSwept(w, schedule, u);
  }

  /** The room is being shut down or past its deadline at one of the clock readings, or its
      current sandbox is being torn down, and its sandboxes may be tried again. */
  ghost predicate RoomHasToGo(db: Db, id: AttemptId, first: int, second: int) {
    (MustFinish(db, id, first) || MustFinish(db, id, second)) && RetriesDue(db, id, second)
  }

  lemma MustFinishOnceExpired(db: Db, now: int, limit: int, id: AttemptId, second: int)
    requires Core(db) && 1 <= limit <= 1000 && |ExpiryRows(db, now)| <= limit && RoomHasToGo(db, id, now, second)
    ensures Expire(db, now, limit).Done?
    ensures MustFinish(Expire(db, now, limit).db, id, second) && RetriesDue(Expire(db, now, limit).db, id, second)
  {
    hide Core, Expire, ExpiryRows;
    ExpiryIsExact(db, now, limit);
    AttemptIsShaped(db, id);
    if db.attempts[id].expiresAt <= now {
      ExpiryIsComplete(db, now, limit, id);
    }
  }

  lemma TidiedIsReady(w: World, schedule: Schedule, u: Upkeep, id: AttemptId)
    requires Healthy(w) && IsUndisturbed(w, schedule, u) && HasRoomForAll(w, schedule, u.limit)
    requires RoomHasToGo(w.db, id, ExpiryTime(w, schedule), CleanupTime(w, schedule))
    ensures Gone(Tidied(w, schedule, u).db, id) || Finishable(Tidied(w, schedule, u).db, id)
  {
    hide Intact, Leads, Expire, Expired, RunOnce, Maintain, Untroubled, IsSwept, CleanupRows, FinalizationRows, HasRoom, ReconcileTime,
      ExpiryRows, MustFinish, RetriesDue, Finishable, Gone, RoomHasToGo, VerifiesDuring;
    TidyFirst(w, schedule, u);
    LeadsBack(Tidied(w, schedule, u), Maintain(w, schedule, u).0);
    ExpiredHasRoom(w, schedule, u);
    HealthyIsCore(w);
    MustFinishOnceExpired(w.db, ExpiryTime(w, schedule), u.limit, id, CleanupTime(w, schedule));
    PassReadies(Expired(w, schedule, u), schedule, u.crew, u.limit, id);
  }

  /** The pass may resume: no deadline of a reset room falls within it. */
  ghost predicate ResumesInTime(w: World, schedule: Schedule, u: Upkeep, deadline: int) {
    u.resumes.Some? ==> Undisturbed(schedule, deadline) && NoDeadlineFalls(w.db, ExpiryTime(w, schedule), deadline)
  }

  lemma ResumedIsReady(w: World, schedule: Schedule, u: Upkeep, deadline: int, id: AttemptId)
    requires Healthy(w) && IsUndisturbed(w, schedule, u) && HasRoomForAll(w, schedule, u.limit) && ResumesInTime(w, schedule, u, deadline)
    requires RoomHasToGo(w.db, id, ExpiryTime(w, schedule), CleanupTime(w, schedule))
    ensures var later := Maintain(w, schedule, u).0;
      && Healthy(later) && (Gone(later.db, id) || Finishable(later.db, id)) && |FinalizationRows(later.db)| <= u.limit
  {
    hide Intact, Leads, Grows, Expired, Expire, RunOnce, Maintain, IsUndisturbed, HasRoomForAll, FinalizationRows, MustFinish, RetriesDue,
      Finishable, Gone, RoomHasToGo, ResumeAll, ScanResets, AllWait, DistinctAttempts, Undisturbed, NoDeadlineFalls;
    UndisturbedParts(w, schedule, u);
    RoomIsALimit(w, schedule, u.limit);
    TidyFirst(w, schedule, u);
    TidiedEnds(w, schedule, u);
    TidiedIsReady(w, schedule, u, id);
    var tidy := Tidied(w, schedule, u);
    LeadsBack(tidy, Maintain(w, schedule, u).0);
    if u.resumes.Some? {
      ResumptionFollows(w, schedule, u, deadline);
      var scanned := tidy.(tick := tidy.tick + 1);
      ResumptionLeavesPending(scanned, schedule, u.resumes.value, Listed(w, schedule, u), deadline);
      SubsetIsSmaller(FinalizationRows(Maintain(w, schedule, u).0.db), FinalizationRows(tidy.db));
    }
    if Gone(tidy.db, id) {
      GoneForGood(tidy.db, Maintain(w, schedule, u).0.db, id);
    }
  }

  lemma ReadyThroughExpiry(db: Db, now: int, limit: int, id: AttemptId)
    requires Core(db) && 1 <= limit <= 1000 && (Gone(db, id) || Finishable(db, id))
    ensures var o := Expire(db, now, limit);
      o.Done? && FinalizationRows(o.db) == FinalizationRows(db) && (Gone(o.db, id) || Finishable(o.db, id))
  {
    hide Core, Expire, FinalizationRows, Finishable;
    ExpiryIsExact(db, now, limit);
    ExpiryAddsNoPending(db, now, Expire(db, now, limit).db);
  }

  lemma ReadyIsFinished(w: World, schedule: Schedule, u: Upkeep, id: AttemptId)
    requires Healthy(w) && IsUndisturbed(w, schedule, u) && 1 <= u.limit <= 1000 && |FinalizationRows(w.db)| <= u.limit
    requires Gone(w.db, id) || Finishable(w.db, id)
    ensures Gone(Maintain(w, schedule, u).0.db, id)
  {
    hide Intact, Leads, Grows, Expired, Expire, RunOnce, Maintain, Untroubled, FinalizationRows, Finishable, Gone, VerifiesDuring;
    TidyFirst(w, schedule, u);
    HealthyIsCore(w);
    ReadyThroughExpiry(w.db, ExpiryTime(w, schedule), u.limit, id);
    var tidy := Tidied(w, schedule, u);
    LeadsBack(tidy, Maintain(w, schedule, u).0);
    PassFinishes(Expired(w, schedule, u), schedule, u.crew, u.limit, id);
    LeadsBack(Expired(w, schedule, u), tidy);
    GoneForGood(tidy.db, Maintain(w, schedule, u).0.db, id);
  }

  /** Two undisturbed maintenance passes destroy every room that has to go when the first one
      starts, with or without resumption in between. */
  lemma TwoMaintenancePassesDestroy(w: World, schedule: Schedule, first: Upkeep, second: Upkeep, deadline: int, id: AttemptId)
    requires Healthy(w) && HasRoomForAll(w, schedule, first.limit) && first.limit <= second.limit <= 1000
    requires IsUndisturbed(w, schedule, first) && IsUndisturbed(Maintain(w, schedule, first).0, schedule, second)
    requires ResumesInTime(w, schedule, first, deadline)
    requires RoomHasToGo(w.db, id, ExpiryTime(w, schedule), CleanupTime(w, schedule))
    ensures Gone(Maintain(Maintain(w, schedule, first).0, schedule, second).0.db, id)
  {
    hide Intact, Maintain, IsUndisturbed, HasRoomForAll, FinalizationRows, Finishable, Gone, RoomHasToGo, ResumesInTime;
    RoomIsALimit(w, schedule, first.limit);
    ResumedIsReady(w, schedule, first, deadline, id);
    ReadyIsFinished(Maintain(w, schedule, first).0, schedule, second, id);
  }

  // ----- interrupted resets -----

  /** A reset that its provisioning has not finished: the old sandbox is destroyed or may be
      tried again, and the new one has no row or a row that is REQUESTED or READY. */
  ghost predicate IsInterruptedReset(db: Db, id: AttemptId, now: int) {
    && id in db.attempts && db.attempts[id].state == Resetting
    && var a := db.attempts[id];
    && a.activeSandbox.Some?
    && (IsRemoved(db, a.activeSandbox.value) || RetryTimePassed(db, a.activeSandbox.value, now))
    && (a.sandbox in db.resources ==> db.resources[a.sandbox].state == Requested || db.resources[a.sandbox].state == Ready)
  }

  /** Expiry and cleanup leave the reset's room and new sandbox, and destroy the old one. */
  lemma ResetIsTidied(db: Db, first: int, second: int, after: Db, id: AttemptId)
    requires Core(db) && Core(after) && TearsDown(db, first, second, after) && SparesTheRest(db, first, second, after)
    requires IsInterruptedReset(db, id, second) && first < db.attempts[id].expiresAt && second < db.attempts[id].expiresAt
    requires Grows(db, after)
    ensures after.attempts[id] == db.attempts[id] && AwaitsResetProvisioning(after, id)
    ensures IsRemoved(after, db.attempts[id].activeSandbox.value)
  {
    hide Core, LogGrows, RecordsKept, AttemptsGrow;
    var a := db.attempts[id];
    AttemptIsShaped(db, id);
    var previous := Ref(id, a.activeSandbox.value, a.activeGeneration.value);
    if IsRemoved(db, previous.sandbox) {
      RemovedStays(db, after, previous.sandbox);
    } else {
      assert HasToGo(db, previous, first, second);
      assert SandboxHasToGo(db, previous.sandbox, first, second);
    }
    CandidateStays(db, first, second, id);
    ResourceIsShaped(after, previous.sandbox);
    if a.sandbox in after.resources {
      ResourceIsShaped(after, a.sandbox);
    }
  }

  lemma CandidateStays(db: Db, first: int, second: int, id: AttemptId)
    requires Core(db) && IsInterruptedReset(db, id, second) && first < db.attempts[id].expiresAt && second < db.attempts[id].expiresAt
    ensures !SandboxHasToGo(db, db.attempts[id].sandbox, first, second)
  {
    hide Core;
    var a := db.attempts[id];
    AttemptIsShaped(db, id);
    if a.sandbox in db.resources {
      ResourceIsShaped(db, a.sandbox);
    }
    if ref :| HasToGo(db, ref, first, second) && ref.sandbox == a.sandbox {
      if ref.attempt != id {
        SandboxesDiffer(db, id, ref.attempt);
      }
      assert false;
    }
  }

  ghost function ResettingRooms(db: Db): set<AttemptId> {
    set id | id in db.attempts && db.attempts[id].state == Resetting
  }

  lemma {:induction false} CountByAttempt(rows: set<Row>, ids: set<AttemptId>)
    requires forall x | x in rows :: x.attempt in ids
    requires forall x, y | x in rows && y in rows && x.attempt == y.attempt :: x == y
    ensures |rows| <= |ids|
    decreases |rows|
  {
    if rows != {} {
      var x :| x in rows;
      CountByAttempt(rows - {x}, ids - {x.attempt});
    }
  }

  lemma RowAwaits(db: Db, row: Row)
    requires row in ResetRows(db)
    ensures AwaitsResetProvisioning(db, row.attempt) && row.attempt in ResettingRooms(db)
  {
  }

  /** With room for all resetting rooms, every reset that awaits its provisioning is listed. */
  lemma AwaitingIsListed(db: Db, limit: nat, id: AttemptId) returns (j: nat)
    requires Inv(db) && AwaitsResetProvisioning(db, id) && |ResettingRooms(db)| <= limit
    ensures var receipts := ResetReceipts(db, Select(ResetRows(db), limit));
      j < |receipts| && receipts[j].ref == RefOf(id, db.attempts[id])
  {
    hide Inv, ResetRows, AwaitsResetProvisioning, ResettingRooms;
    forall x | x in ResetRows(db)
      ensures x.attempt in ResettingRooms(db) && AwaitsResetProvisioning(db, x.attempt)
    {
      RowAwaits(db, x);
    }
    forall x, y | x in ResetRows(db) && y in ResetRows(db) && x.attempt == y.attempt
      ensures x == y
    {
      OneRowEach(db, x, y);
    }
    CountByAttempt(ResetRows(db), ResettingRooms(db));
    var row := ResetIsListedOnce(db, id);
    assert row in RowsOf(db, id);
    var rows := Select(ResetRows(db), limit);
    j :| 0 <= j < |rows| && rows[j] == row;
  }

  lemma NoNewResets(db: Db, first: int, second: int, after: Db)
    requires Core(after) && TearsDown(db, first, second, after) && SparesTheRest(db, first, second, after)
    ensures ResettingRooms(after) <= ResettingRooms(db) && |ResettingRooms(after)| <= |ResettingRooms(db)|
  {
    hide Core, IsRemoved, SandboxHasToGo;
    forall id | id in ResettingRooms(after)
      ensures id in ResettingRooms(db)
    {
      AttemptIsShaped(after, id);
    }
    SubsetIsSmaller(ResettingRooms(after), ResettingRooms(db));
  }

  /** Exactly when an undisturbed pass with resumption is complete, unless the runtime failed
      a sandbox, and which of the listed resets it makes READY: all that no foreign one
      precedes. */
  lemma MaintenanceResumes(w: World, schedule: Schedule, u: Upkeep, deadline: int)
    requires Healthy(w) && IsUndisturbed(w, schedule, u) && HasRoomForAll(w, schedule, u.limit)
    requires u.resumes.Some? && ResumesInTime(w, schedule, u, deadline)
    ensures var (later, complete) := Maintain(w, schedule, u);
      var o, receipts, tidy := u.resumes.value, Listed(w, schedule, u), Tidied(w, schedule, u);
      || LastEnding(tidy.(tick := tidy.tick + 1), schedule, o, receipts).RuntimeFailed?
      || ((complete <==> NoneForeign(tidy.db, o, receipts))
          && forall j | 0 <= j < |receipts| && NoneForeign(tidy.db, o, receipts[..j + 1]) :: Ended(later.db, receipts[j], Ending.Published))
  {
    hide Intact, Maintain, IsUndisturbed, HasRoomForAll, Tidied, Listed, ResumeAll, LastEnding, AllWait, DistinctAttempts, Undisturbed,
      NoDeadlineFalls, IsForeign, Ended, Provision;
    RoomIsALimit(w, schedule, u.limit);
    var tidy := Tidied(w, schedule, u);
    var scanned := tidy.(tick := tidy.tick + 1);
    var o, receipts := u.resumes.value, Listed(w, schedule, u);
    UndisturbedParts(w, schedule, u);
    ResumptionFollows(w, schedule, u, deadline);
    ResumptionCompletesExactly(scanned, schedule, o, receipts, deadline);
    if !LastEnding(scanned, schedule, o, receipts).RuntimeFailed? {
      forall j | 0 <= j < |receipts| && NoneForeign(tidy.db, o, receipts[..j + 1])
        ensures Ended(Maintain(w, schedule, u).0.db, receipts[j], Ending.Published)
      {
        forall i | 0 <= i <= j
          ensures !IsForeign(scanned.db, o, receipts[i])
        {
          assert receipts[..j + 1][i] == receipts[i];
        }
        ResumptionPublishes(scanned, schedule, o, receipts, deadline, j);
      }
    }
  }

  /** The room is READY on the sandbox that its reset reserved, and the old one is destroyed. */
  ghost predicate IsResetDone(before: Db, after: Db, id: AttemptId)
    requires id in before.attempts && before.attempts[id].activeSandbox.Some?
  {
    && id in after.attempts && IsRemoved(after, before.attempts[id].activeSandbox.value)
    && var a, b := before.attempts[id], after.attempts[id];
    && b.state == Ready && b.sandbox == a.sandbox && b.generation == a.generation
    && b.activeSandbox == Some(a.sandbox) && b.activeGeneration == Some(a.generation)
    && a.sandbox in after.resources && after.resources[a.sandbox].state == Ready && !after.resources[a.sandbox].destroy
  }

  lemma TidyLeads(w: World, schedule: Schedule, u: Upkeep)
    requires Healthy(w) && IsUndisturbed(w, schedule, u) && HasRoomForAll(w, schedule, u.limit)
    ensures Grows(w.db, Tidied(w, schedule, u).db)
  {
    hide Intact, Grows, Leads, Expire, ExpirePass, RunOnce, Maintain, IsUndisturbed, HasRoomForAll;
    RoomIsALimit(w, schedule, u.limit);
    UndisturbedParts(w, schedule, u);
    TidyFirst(w, schedule, u);
    ExpirePassLeads(w, schedule, u.limit);
    LeadsOn(w, Expired(w, schedule, u), Tidied(w, schedule, u));
    LeadsBack(Tidied(w, schedule, u), Maintain(w, schedule, u).0);
    LeadsBack(w, Tidied(w, schedule, u));
  }

  lemma BeforeItsDeadline(w: World, schedule: Schedule, u: Upkeep, deadline: int, id: AttemptId)
    requires u.resumes.Some? && ResumesInTime(w, schedule, u, deadline)
    requires id in w.db.attempts && w.db.attempts[id].state == Resetting && ExpiryTime(w, schedule) < w.db.attempts[id].expiresAt
    ensures CleanupTime(w, schedule) < w.db.attempts[id].expiresAt
  {
    hide FinalizationRows;
  }

  lemma InterruptedIsListed(w: World, schedule: Schedule, u: Upkeep, deadline: int, id: AttemptId) returns (j: nat)
    requires Healthy(w) && IsUndisturbed(w, schedule, u) && HasRoomForAll(w, schedule, u.limit)
    requires u.resumes.Some? && ResumesInTime(w, schedule, u, deadline) && |ResettingRooms(w.db)| <= u.limit
    requires IsInterruptedReset(w.db, id, CleanupTime(w, schedule)) && ExpiryTime(w, schedule) < w.db.attempts[id].expiresAt
    ensures u.limit >= 0 && j < |Listed(w, schedule, u)| && Listed(w, schedule, u)[j].ref == RefOf(id, w.db.attempts[id])
    ensures IsRemoved(Tidied(w, schedule, u).db, w.db.attempts[id].activeSandbox.value)
  {
    hide Core, LogOk, LedgerOk, AccessOk, ResetsOk, KeysOk, Maintain, IsUndisturbed, HasRoomForAll, Tidied, ResumesInTime, ResetRows, Select,
      TearsDown, SparesTheRest, ResettingRooms, ExpiryTime, CleanupTime, Grows, CleanlyDestroyed;
    RoomIsALimit(w, schedule, u.limit);
    TidiedSpares(w, schedule, u);
    TidyLeads(w, schedule, u);
    var tidy := Tidied(w, schedule, u);
    BeforeItsDeadline(w, schedule, u, deadline, id);
    ResetIsTidied(w.db, ExpiryTime(w, schedule), CleanupTime(w, schedule), tidy.db, id);
    NoNewResets(w.db, ExpiryTime(w, schedule), CleanupTime(w, schedule), tidy.db);
    j := AwaitingIsListed(tidy.db, u.limit, id);
  }

  lemma OldOneStaysRemoved(w: World, schedule: Schedule, u: Upkeep, s: SandboxId)
    requires Healthy(w) && IsUndisturbed(w, schedule, u) && HasRoomForAll(w, schedule, u.limit)
    requires IsRemoved(Tidied(w, schedule, u).db, s)
    ensures IsRemoved(Maintain(w, schedule, u).0.db, s)
  {
    hide Intact, Grows, Leads, Maintain, Expired, RunOnce, IsUndisturbed, HasRoomForAll, IsRemoved;
    RoomIsALimit(w, schedule, u.limit);
    UndisturbedParts(w, schedule, u);
    TidyFirst(w, schedule, u);
    TidiedSpares(w, schedule, u);
    LeadsBack(Tidied(w, schedule, u), Maintain(w, schedule, u).0);
    RemovedStays(Tidied(w, schedule, u).db, Maintain(w, schedule, u).0.db, s);
  }

  lemma NoneForeignBefore(db: Db, o: Orchestrator, receipts: seq<Receipt>, j: nat)
    requires j <= |receipts| && NoneForeign(db, o, receipts)
    ensures NoneForeign(db, o, receipts[..j])
  {
    hide IsForeign;
  }

  lemma PublishedIsDone(before: Db, after: Db, receipt: Receipt, id: AttemptId)
    requires id in before.attempts && before.attempts[id].activeSandbox.Some? && receipt.ref == RefOf(id, before.attempts[id])
    requires Ended(after, receipt, Ending.Published) && IsRemoved(after, before.attempts[id].activeSandbox.value)
    ensures IsResetDone(before, after, id)
  {
  }

  /** One undisturbed pass with room takes every interrupted reset all the way, from the
      teardown of the old sandbox to READY on the new one, unless the runtime fails a
      sandbox or some listed reset was accepted under another key. */
  lemma MaintenanceFinishesResets(w: World, schedule: Schedule, u: Upkeep, deadline: int, id: AttemptId)
    requires Healthy(w) && IsUndisturbed(w, schedule, u) && HasRoomForAll(w, schedule, u.limit)
    requires u.resumes.Some? && ResumesInTime(w, schedule, u, deadline) && |ResettingRooms(w.db)| <= u.limit
    requires IsInterruptedReset(w.db, id, CleanupTime(w, schedule)) && ExpiryTime(w, schedule) < w.db.attempts[id].expiresAt
    ensures var (later, complete) := Maintain(w, schedule, u);
      var o, receipts, tidy := u.resumes.value, Listed(w, schedule, u), Tidied(w, schedule, u);
      || LastEnding(tidy.(tick := tidy.tick + 1), schedule, o, receipts).RuntimeFailed?
      || !NoneForeign(tidy.db, o, receipts)
      || (complete && IsResetDone(w.db, later.db, id))
  {
    hide Healthy, Maintain, IsUndisturbed, HasRoomForAll, Tidied, Listed, LastEnding, ResumesInTime, NoneForeign, Ended, IsRemoved,
      ResettingRooms, ExpiryTime, CleanupTime, IsResetDone, RetryTimePassed;
    var j := InterruptedIsListed(w, schedule, u, deadline, id);
    RoomIsALimit(w, schedule, u.limit);
    MaintenanceResumes(w, schedule, u, deadline);
    var tidy, later := Tidied(w, schedule, u), Maintain(w, schedule, u).0;
    OldOneStaysRemoved(w, schedule, u, w.db.attempts[id].activeSandbox.value);
    var o, receipts := u.resumes.value, Listed(w, schedule, u);
    if NoneForeign(tidy.db, o, receipts) && !LastEnding(tidy.(tick := tidy.tick + 1), schedule, o, receipts).RuntimeFailed? {
      NoneForeignBefore(tidy.db, o, receipts, j + 1);
      PublishedIsDone(w.db, later.db, receipts[j], id);
    }
  }

  // ----- the flag -----

  lemma {:induction false} ResumedAllExactly(w: World, schedule: Schedule, o: Orchestrator, receipts: seq<Receipt>)
    ensures ResumeAll(w, schedule, o, receipts).1 <==> LastEnding(w, schedule, o, receipts) == Ending.Published
    decreases |receipts|
  {
    hide Provision;
    if receipts != [] {
      ResumedAllExactly(Provision(w, schedule, Resumer(o, receipts[0]), receipts[0]).0, schedule, o, receipts[1..]);
    }
  }

  /** Exactly when a pass reports that it was complete, whatever happens around it: the limit
      was valid, the store took the expiry and the listing of resets, no error ended the
      cleanup, and the last provisioning published its sandbox. */
  lemma CompleteExactly(w: World, schedule: Schedule, u: Upkeep)
    requires Healthy(w) && Maintain(w, schedule, u).0.legal
    ensures var p := RunOnce(Expired(w, schedule, u), schedule, u.crew, u.limit);
      Maintain(w, schedule, u).1 <==>
        && 1 <= u.limit <= 1000 && !schedule(w.tick).busy && p.raised.None?
        && (u.resumes.Some? ==>
              && !schedule(p.world.tick).busy
              && var scanned := Serve(p.world, schedule);
              LastEnding(scanned, schedule, u.resumes.value, ResetReceipts(scanned.db, Select(ResetRows(scanned.db), u.limit))) == Ending.Published)
  {
    hide Intact, Leads, ExpirePass, RunOnce, ResumeAll, LastEnding, Serve, ResetRows, Select;
    var p := RunOnce(Expired(w, schedule, u), schedule, u.crew, u.limit);
    if 1 <= u.limit <= 1000 && !schedule(w.tick).busy {
      AllowedExpiry(w, schedule, u);
      if u.resumes.Some? {
        var scanned := Serve(p.world, schedule);
        ResumedAllExactly(scanned, schedule, u.resumes.value, ResetReceipts(scanned.db, Select(ResetRows(scanned.db), u.limit)));
      }
    } else {
      RefusedExpiry(w, schedule, u.limit);
    }
  }

  lemma AllowedExpiry(w: World, schedule: Schedule, u: Upkeep)
    requires Healthy(w) && Maintain(w, schedule, u).0.legal && 1 <= u.limit <= 1000 && !schedule(w.tick).busy
    ensures ExpirePass(w, schedule, u.limit).1.Allow?
  {
    hide Core, Expire, Maintain, Serve;
    ServedIsCore(w, schedule, u);
    ExpiryIsExact(Serve(w, schedule).db, schedule(w.tick).now, u.limit);
  }

  lemma ServedIsCore(w: World, schedule: Schedule, u: Upkeep)
    requires Healthy(w) && Maintain(w, schedule, u).0.legal
    ensures Core(Serve(w, schedule).db)
  {
    hide Intact, Leads, Expire, Maintain, Serve;
    AfterExpiry(w, schedule, u);
    LeadsBack(Expired(w, schedule, u), Maintain(w, schedule, u).0);
    ServeLeads(w, schedule);
    LeadsBack(w, Serve(w, schedule));
    HealthyIsCore(Serve(w, schedule));
  }

  lemma RefusedExpiry(w: World, schedule: Schedule, limit: int)
    requires !(1 <= limit <= 1000) || schedule(w.tick).busy
    ensures ExpirePass(w, schedule, limit).1.Reject?
  {
    hide Serve, ExpiryRows, StopAll;
  }
}
