/** LifecycleMaintenanceService.run_once: expire, clean up, and resume interrupted resets. */
module Maintenance {
  import opened Records
  import opened Selection
  import opened Backend
  import opened Runs
  import opened Invariant
  import opened Preservation
  import opened Log
  import opened Ledger
  import opened Access
  import opened Reachable
  import opened Keys
  import opened Worlds
  import opened Worker
  import opened WorkerSafety
  import opened Guarantees
  import opened Provisioning
  import opened ProvisioningSafety
  import opened ProvisioningSuccess

  datatype Upkeep = Upkeep(crew: Crew, limit: int, resumes: Option<Orchestrator>)

  function ExpirePass(w: World, schedule: Schedule, limit: int): (World, Verdict<seq<Ref>>) {
    var served, slice := Serve(w, schedule), schedule(w.tick);
    if slice.busy then (served, Reject(StoreBusy))
    else
      var o := Expire(served.db, slice.now, limit);
      var after := served.(db := o.After(served.db));
      (after, if o.Done? then Allow(o.value) else Reject(o.code))
  }

  function ScanResets(w: World, schedule: Schedule, limit: int): (World, Verdict<seq<Receipt>>) {
    var served := Serve(w, schedule);
    (served, if schedule(w.tick).busy then Reject(StoreBusy) else PendingResetProvisioning(served.db, limit))
  }

  /** Provision every listed receipt under a key derived from its reset; the first failure ends it. */
  function ResumeAll(w: World, schedule: Schedule, o: Orchestrator, receipts: seq<Receipt>): (World, bool)
    decreases |receipts|
  {
    if receipts == [] then (w, true)
    else
      var (after, ending) := Provision(w, schedule, o.(root := ResumeRoot(receipts[0].operation)), receipts[0]);
      if ending != Published then (after, false) else ResumeAll(after, schedule, o, receipts[1..])
  }

  /** One pass; the flag tells whether it was complete. */
  function Maintain(w: World, schedule: Schedule, u: Upkeep): (World, bool) {
    var (expired, refs) := ExpirePass(w, schedule, u.limit);
    if refs.Reject? then (expired, false)
    else
      var p := RunOnce(expired, schedule, u.crew, u.limit);
      if p.raised.Some? then (p.world, false)
      else if u.resumes.None? then (p.world, true)
      else
        var (scanned, receipts) := ScanResets(p.world, schedule, u.limit);
        if receipts.Reject? then (scanned, false) else ResumeAll(scanned, schedule, u.resumes.value, receipts.value)
  }

  lemma ExpirePassLeads(w: World, schedule: Schedule, limit: int)
    ensures Leads(w, ExpirePass(w, schedule, limit).0)
  {
    hide Leads, Expire, Honest, Intact, Grows;
    ServeLeads(w, schedule);
    if !schedule(w.tick).busy {
      var served := Serve(w, schedule);
      var c := ExpireCall(schedule(w.tick).now, limit);
      CallLeads(served, c);
      HonestExpiry(c);
      var stepped := served.(db := Step(served.db, c), legal := served.legal && FreshIds(served.db, c) && Honest(c));
      LeadsOn(w, served, stepped);
    }
  }

  lemma HonestExpiry(c: Call)
    requires c.ExpireCall?
    ensures Honest(c)
  {
  }

  lemma {:induction false} ResumeAllLeads(w: World, schedule: Schedule, o: Orchestrator, receipts: seq<Receipt>)
    ensures Leads(w, ResumeAll(w, schedule, o, receipts).0)
    decreases |receipts|
  {
    hide Leads, Provision;
    Stays(w);
    if receipts != [] {
      var next := o.(root := ResumeRoot(receipts[0].operation));
      ProvisioningKeepsTheStoreSound(w, schedule, next, receipts[0]);
      var after := Provision(w, schedule, next, receipts[0]).0;
      ResumeAllLeads(after, schedule, o, receipts[1..]);
      LeadsOn(w, after, ResumeAll(after, schedule, o, receipts[1..]).0);
    }
  }

  lemma AfterExpiry(w: World, schedule: Schedule, u: Upkeep)
    ensures Leads(ExpirePass(w, schedule, u.limit).0, Maintain(w, schedule, u).0)
  {
    hide Leads, ExpirePass, RunOnce, Serve, PendingResetProvisioning, ResumeAll;
    var expired := ExpirePass(w, schedule, u.limit).0;
    Stays(expired);
    PassKeepsTheStoreSound(expired, schedule, u.crew, u.limit);
    var p := RunOnce(expired, schedule, u.crew, u.limit);
    ServeLeads(p.world, schedule);
    var (scanned, receipts) := ScanResets(p.world, schedule, u.limit);
    LeadsOn(expired, p.world, scanned);
    if u.resumes.Some? && receipts.Allow? {
      ResumeAllLeads(scanned, schedule, u.resumes.value, receipts.value);
      LeadsOn(expired, scanned, ResumeAll(scanned, schedule, u.resumes.value, receipts.value).0);
    }
  }

  /** A maintenance pass, crashing anywhere, is a run of legal calls. */
  lemma MaintenanceKeepsTheStoreSound(w: World, schedule: Schedule, u: Upkeep)
    ensures Leads(w, Maintain(w, schedule, u).0)
  {
    hide Leads, ExpirePass, Maintain;
    ExpirePassLeads(w, schedule, u.limit);
    AfterExpiry(w, schedule, u);
    LeadsOn(w, ExpirePass(w, schedule, u.limit).0, Maintain(w, schedule, u).0);
  }

  // ----- expiry -----

  /** Past its deadline, the attempt has both intents or is destroyed. */
  ghost predicate IsExpired(db: Db, id: AttemptId) {
    && id in db.attempts
    && (db.attempts[id].state == Destroyed || (db.attempts[id].expiry && db.attempts[id].destroy))
  }

  lemma StopExpires(db: Db, id: AttemptId, now: int)
    requires Core(db) && id in db.attempts && now >= db.attempts[id].expiresAt
    ensures StopAttempt(db, id, now).Done? && Core(StopAttempt(db, id, now).db) && IsExpired(StopAttempt(db, id, now).db, id)
    ensures StopAttempt(db, id, now).db.attempts.Keys == db.attempts.Keys
    ensures forall other | other in db.attempts && other != id ::
      StopAttempt(db, id, now).db.attempts[other] == db.attempts[other]
    ensures StopAttempt(db, id, now).db.attempts[id].expiresAt == db.attempts[id].expiresAt
  {
    hide Core, RowsGrow;
    StopAttemptKeeps(db, id, now);
    AttemptIsShaped(db, id);
  }

  lemma {:induction false} StopAllExpires(db: Db, rows: seq<Row>, now: int)
    requires Core(db) && RowsKnown(db, rows) && forall i | 0 <= i < |rows| :: now >= db.attempts[rows[i].attempt].expiresAt
    ensures var o := StopAll(db, rows, now);
      && o.Done? && o.db.attempts.Keys == db.attempts.Keys
      && (forall id | IsExpired(db, id) :: IsExpired(o.db, id))
      && (forall i | 0 <= i < |rows| :: IsExpired(o.db, rows[i].attempt))
    decreases |rows|
  {
    hide Core, StopAttempt;
    if rows != [] {
      StopExpires(db, rows[0].attempt, now);
      var next := StopAttempt(db, rows[0].attempt, now).db;
      StopAllExpires(next, rows[1..], now);
      forall i | 0 <= i < |rows|
        ensures IsExpired(StopAll(db, rows, now).db, rows[i].attempt)
      {
        if i > 0 {
          assert rows[i] == rows[1..][i - 1];
        }
      }
    }
  }

  /** With room for all of them, every attempt past its deadline is expired by one call, so
      before the cleanup that follows it. */
  lemma ExpiryIsComplete(db: Db, now: int, limit: int, id: AttemptId)
    requires Core(db) && LimitOk(limit) && |ExpiryRows(db, now)| <= limit
    requires id in db.attempts && db.attempts[id].expiresAt <= now
    ensures Expire(db, now, limit).Done? && IsExpired(Expire(db, now, limit).db, id)
  {
    hide Core, StopAll, ExpiryRows;
    var rows := Select(ExpiryRows(db, now), limit);
    SelectedAreExpired(db, now, limit);
    StopAllExpires(db, rows, now);
    AttemptIsShaped(db, id);
    if !IsExpired(db, id) {
      UnexpiredIsListed(db, now, id);
      var i :| 0 <= i < |rows| && rows[i] == Plain(db.attempts[id].expiresAt, id, 0);
      assert IsExpired(StopAll(db, rows, now).db, rows[i].attempt);
    }
  }

  lemma UnexpiredIsListed(db: Db, now: int, id: AttemptId)
    requires Core(db) && id in db.attempts && db.attempts[id].expiresAt <= now && !IsExpired(db, id)
    ensures Plain(db.attempts[id].expiresAt, id, 0) in ExpiryRows(db, now)
  {
    hide Core;
    AttemptIsShaped(db, id);
  }

  lemma SelectedAreExpired(db: Db, now: int, limit: nat)
    ensures forall i | 0 <= i < |Select(ExpiryRows(db, now), limit)| ::
      db.attempts[Select(ExpiryRows(db, now), limit)[i].attempt].expiresAt <= now
  {
    var rows := Select(ExpiryRows(db, now), limit);
    forall i | 0 <= i < |rows|
      ensures db.attempts[rows[i].attempt].expiresAt <= now
    {
      assert rows[i] in ExpiryRows(db, now);
    }
  }

  lemma StopSpares(db: Db, id: AttemptId, other: AttemptId, now: int)
    requires id in db.attempts && other in db.attempts && other != id
    ensures var o := StopAttempt(db, id, now);
      !o.Denied? && (o.Done? ==> o.db.attempts.Keys == db.attempts.Keys && o.db.attempts[other] == db.attempts[other])
  {
  }

  lemma {:induction false} StopAllSpares(db: Db, rows: seq<Row>, now: int, id: AttemptId)
    requires RowsKnown(db, rows) && id in db.attempts && forall i | 0 <= i < |rows| :: rows[i].attempt != id
    ensures var after := StopAll(db, rows, now).After(db);
      id in after.attempts && after.attempts[id] == db.attempts[id]
    decreases |rows|
  {
    hide StopAttempt;
    if rows != [] {
      StopSpares(db, rows[0].attempt, id, now);
      var o := StopAttempt(db, rows[0].attempt, now);
      if o.Done? {
        StopAllSpares(o.db, rows[1..], now, id);
      }
    }
  }

  /** Expiry never touches an attempt before its deadline. */
  lemma ExpirySparesTheRest(db: Db, now: int, limit: int, id: AttemptId)
    requires id in db.attempts && now < db.attempts[id].expiresAt
    ensures var after := Expire(db, now, limit).After(db);
      id in after.attempts && after.attempts[id] == db.attempts[id]
  {
    hide StopAll, ExpiryRows;
    if LimitOk(limit) {
      var rows := Select(ExpiryRows(db, now), limit);
      SelectedAreExpired(db, now, limit);
      StopAllSpares(db, rows, now, id);
    }
  }

  // ----- resumption -----

  /** Every receipt that is listed for resumption is a live reservation at the attempt's
      current version, exactly what undisturbed provisioning ends from. */
  lemma ListedReceiptIsReserved(db: Db, limit: int, i: nat)
    requires Inv(db) && LimitOk(limit) && i < |Select(ResetRows(db), limit)|
    ensures RowsKnown(db, Select(ResetRows(db), limit))
    ensures Reserved(db, ResetReceipts(db, Select(ResetRows(db), limit))[i])
  {
    hide Core, LogOk, LedgerOk, AccessOk, ResetsOk, ResetRows, CleanlyDestroyed, ResetCandidateUntouched;
    var rows := Select(ResetRows(db), limit);
    ListedResetsAwait(db, limit, i);
    var id := rows[i].attempt;
    var only := ResetIsListedOnce(db, id);
    assert rows[i] in RowsOf(db, id);
    assert rows[i] == only;
    assert ResetReceipts(db, rows)[i] == ResetReceipts(db, [only])[0];
  }
}
