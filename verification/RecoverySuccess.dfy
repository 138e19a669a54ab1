/** A retry recovers from every pair of states that a crash inside verification can leave. */
module RecoverySuccess {
  import opened Records
  import opened Common
  import opened Backend
  import opened ControlPlane
  import opened Runs
  import opened Invariant
  import opened Preservation
  import opened Log
  import opened Ledger
  import opened Access
  import opened Reachable
  import opened Idempotence
  import opened Keys
  import opened Worlds
  import opened CleanupTermination
  import opened Success
  import opened ProvisioningSuccess
  import opened Recovery
  import opened RecoverySafety

  /** The room is open, and its active sandbox is not being torn down. */
  ghost predicate IsOpen(db: Db, ref: Ref, a: Attempt, r: Resource) {
    && ref.attempt in db.attempts && db.attempts[ref.attempt] == a
    && RefOf(ref.attempt, a) == ref && IsActive(a, ref) && a.state.Open()
    && Observed(db, ref) == Allow(r) && !r.destroy
  }

  lemma OpenIsLive(db: Db, ref: Ref, a: Attempt, r: Resource, now: int)
    requires Core(db) && IsOpen(db, ref, a, r) && now < a.expiresAt
    ensures !Dead(a, now) && r.state.Open() && Stage(a.state) <= Stage(r.state) && r.container.Some? && r.evidence.Some?
    ensures Binding(db, ref, false).Allow? && Binding(db, ref, true).Allow? && Inspect(db, ref) == Allow(r)
  {
    hide Core;
    AttemptIsShaped(db, ref.attempt);
    ResourceIsShaped(db, ref.sandbox);
  }

  lemma OpenMoved(before: Db, ref: Ref, a: Attempt, r: Resource, m: Move, after: Db)
    requires IsOpen(before, ref, a, r) && after.attempts == before.attempts && m.state.Open()
    requires after.resources == before.resources[ref.sandbox := Moved(r, m, false)]
    ensures IsOpen(after, ref, a, Moved(r, m, false))
  {
  }

  lemma OpenPublished(before: Db, ref: Ref, a: Attempt, r: Resource, p: Publication, after: Db)
    requires IsOpen(before, ref, a, r) && (p.PublishRunning? || p.PublishResolved?)
    requires after.resources == before.resources && after.attempts == before.attempts[ref.attempt := Published(a, p, ref)]
    ensures IsOpen(after, ref, Published(a, p, ref), r)
    ensures Published(a, p, ref).state == PublicationState(p) && Published(a, p, ref).version == a.version + 1
    ensures Published(a, p, ref).expiresAt == a.expiresAt && Published(a, p, ref).user == a.user && Published(a, p, ref).room == a.room
  {
  }

  lemma QuietAdvance(w: World, schedule: Schedule, v: Verifier, phase: Phase, ref: Ref, a: Attempt, r: Resource, m: Move)
    requires Healthy(w) && IsOpen(w.db, ref, a, r) && MayTake(phase, r, m) && m.state.Open()
    requires Undisturbed(schedule, a.expiresAt) && Advance(w, schedule, v, phase, ref, r.version, m).0.legal
    ensures var (later, row) := Advance(w, schedule, v, phase, ref, r.version, m);
      Healthy(later) && row == Allow(Moved(r, m, false)) && IsOpen(later.db, ref, a, Moved(r, m, false))
  {
    hide Core, LogOk, LedgerOk, AccessOk, ResetsOk, KeysOk, Grows, Transact, Moved, MayMove, MoveOk, Dead, Honest, Answer, FreshIds, Inspect;
    var c := MoveCall(v, phase, ref, r.version, m, schedule(w.tick));
    var moved := Transact(w, schedule, c).0;
    QuietTransact(w, schedule, a.expiresAt, c);
    QuietServe(moved, schedule, a.expiresAt);
    TransactLeads(w, schedule, c);
    AdvanceLegal(w, schedule, v, phase, ref, r.version, m);
    OpenIsLive(w.db, ref, a, r, c.now);
    StepSucceeds(w.db, c);
    OpenMoved(w.db, ref, a, r, m, moved.db);
    MovedVersion(r, m);
    OpenIsLive(moved.db, ref, a, Moved(r, m, false), c.now);
  }

  lemma AdvanceLegal(w: World, schedule: Schedule, v: Verifier, phase: Phase, ref: Ref, version: nat, m: Move)
    ensures Advance(w, schedule, v, phase, ref, version, m).0.legal ==>
      Transact(w, schedule, MoveCall(v, phase, ref, version, m, schedule(w.tick))).0.legal
  {
    hide Transact;
  }

  lemma AnnounceLegal(w: World, schedule: Schedule, v: Verifier, phase: Phase, p: Publication, ref: Ref, version: nat, identity: UserIdentity)
    ensures Announce(w, schedule, v, phase, p, ref, version, identity).0.legal ==>
      Transact(w, schedule, PublicationCall(v, phase, p, ref, version, schedule(w.tick))).0.legal
  {
    hide Transact;
  }

  ghost predicate MayAnnounce(phase: Phase, p: Publication, a: Attempt, r: Resource) {
    || (phase.PublishRunningPhase? && p.PublishRunning? && a.state == Ready && r.state == Running)
    || (phase.PublishResolvedPhase? && p.PublishResolved? && a.state == Running && r.state == Resolved)
  }

  ghost predicate IsOwner(identity: UserIdentity, a: Attempt) {
    a.user == identity.id && a.room in identity.rooms
  }

  lemma QuietAnnounce(w: World, schedule: Schedule, v: Verifier, phase: Phase, p: Publication, ref: Ref, a: Attempt, r: Resource,
                      identity: UserIdentity)
    requires Healthy(w) && IsOpen(w.db, ref, a, r) && MayAnnounce(phase, p, a, r) && IsOwner(identity, a)
    requires Undisturbed(schedule, a.expiresAt) && Announce(w, schedule, v, phase, p, ref, a.version, identity).0.legal
    ensures var (later, b) := Announce(w, schedule, v, phase, p, ref, a.version, identity);
      Healthy(later) && b == Allow(Published(a, p, ref)) && IsOpen(later.db, ref, Published(a, p, ref), r)
  {
    hide Core, LogOk, LedgerOk, AccessOk, ResetsOk, KeysOk, Grows, Transact, Published, Dead, Honest, Answer, FreshIds;
    var c := PublicationCall(v, phase, p, ref, a.version, schedule(w.tick));
    var published := Transact(w, schedule, c).0;
    QuietTransact(w, schedule, a.expiresAt, c);
    QuietServe(published, schedule, a.expiresAt);
    TransactLeads(w, schedule, c);
    AnnounceLegal(w, schedule, v, phase, p, ref, a.version, identity);
    OpenIsLive(w.db, ref, a, r, c.now);
    OpenMayPublish(w.db, ref, a, r, c);
    PublicationSucceeds(w.db, c);
    OpenPublished(w.db, ref, a, r, p, published.db);
  }

  lemma OpenMayPublish(db: Db, ref: Ref, a: Attempt, r: Resource, c: Call)
    requires IsOpen(db, ref, a, r) && c.PublishCall? && c.ref == ref && c.expected == a.version
    requires c.key.PhaseKey? && c.key.ref == ref && c.key.version == a.version && MayAnnounce(c.key.phase, c.publication, a, r)
    requires !Dead(a, c.now) && r.evidence.Some?
    ensures PublicationDue(db, c)
  {
  }

  /** The room and its sandbox are both resolved. */
  ghost predicate IsResolved(db: Db, ref: Ref) {
    && ref.attempt in db.attempts && db.attempts[ref.attempt].state == Resolved
    && ref.sandbox in db.resources && db.resources[ref.sandbox].state == Resolved
  }

  /** Resolved, with this evidence on record. */
  ghost predicate IsResolvedWith(db: Db, ref: Ref, evidence: Option<Digest>) {
    IsResolved(db, ref) && db.resources[ref.sandbox].evidence == evidence
  }

  /** The digest of the evidence of readiness and of what the runtime observes at an access. */
  ghost function Attested(v: Verifier, readiness: Option<Digest>, answer: Response): Option<Digest> {
    if readiness.Some? && answer.Evidence? then Some(v.digest(readiness.value, answer.digest)) else None
  }

  lemma AnnounceTicks(w: World, schedule: Schedule, v: Verifier, phase: Phase, p: Publication, ref: Ref, version: nat, identity: UserIdentity)
    ensures var (later, b) := Announce(w, schedule, v, phase, p, ref, version, identity);
      b.Allow? ==> later.tick == w.tick + 2
  {
    hide Answer, Proper, Honest, FreshIds;
  }

  lemma AdvanceTicks(w: World, schedule: Schedule, v: Verifier, phase: Phase, ref: Ref, version: nat, m: Move)
    ensures var (later, row) := Advance(w, schedule, v, phase, ref, version, m);
      row.Allow? ==> later.tick == w.tick + 2
  {
    hide Answer, Proper, Honest, FreshIds, Inspect;
  }

  lemma MovedEvidence(r: Resource, m: Move)
    ensures Moved(r, m, false).evidence == if m.evidence.Some? && (m.state.Ready? || m.state.Resolved?) then m.evidence else r.evidence
  {
  }

  lemma QuietFromResolved(w: World, schedule: Schedule, v: Verifier, identity: UserIdentity, ref: Ref, a: Attempt, r: Resource)
    requires Healthy(w) && IsOpen(w.db, ref, a, r) && IsOwner(identity, a) && r.state == Resolved
    requires Undisturbed(schedule, a.expiresAt) && FromResolved(w, schedule, v, identity, ref, a, r).0.legal
    ensures var (later, result) := FromResolved(w, schedule, v, identity, ref, a, r);
      if a.state == Ready then result == Withheld(Unavailable)
      else result == Recovered && IsResolvedWith(later.db, ref, r.evidence)
  {
    hide Intact, Announce, Undisturbed;
    if a.state == Running {
      QuietAnnounce(w, schedule, v, PublishResolvedPhase, PublishResolved, ref, a, r, identity);
    }
  }

  /** The runtime answers verifications with evidence. */
  ghost predicate Verifies(schedule: Schedule) {
    forall t: nat :: schedule(t).answer.Evidence?
  }

  lemma QuietCheck(w: World, schedule: Schedule, v: Verifier, identity: UserIdentity, ref: Ref, a: Attempt, r: Resource)
    requires Healthy(w) && IsOpen(w.db, ref, a, r) && IsOwner(identity, a) && r.state == Running && a.state == Running
    requires Undisturbed(schedule, a.expiresAt) && Verifies(schedule) && Check(w, schedule, v, identity, ref, a, r).0.legal
    ensures var (later, result) := Check(w, schedule, v, identity, ref, a, r);
      result == Recovered && IsResolvedWith(later.db, ref, Attested(v, r.evidence, schedule(w.tick).answer))
  {
    hide Core, LogOk, LedgerOk, AccessOk, ResetsOk, KeysOk, Advance, FromResolved, Undisturbed, IsResolvedWith, Moved, IsOpen, Grows;
    OpenIsLive(w.db, ref, a, r, a.expiresAt - 1);
    var question := VerifyQuestion(ref, r.container.value);
    QuietAsk(w, schedule, a.expiresAt, question);
    var (asked, answer) := AskRuntime(w, schedule, question);
    var m := Move(Resolved, None, Some(v.digest(r.evidence.value, answer.digest)), None);
    var (moved, row) := Advance(asked, schedule, v, ResolvedPhase, ref, r.version, m);
    if row.Allow? {
      FromResolvedGoes(moved, schedule, v, identity, ref, a, row.value);
    }
    QuietAdvance(asked, schedule, v, ResolvedPhase, ref, a, r, m);
    MovedVersion(r, m);
    MovedEvidence(r, m);
    QuietFromResolved(moved, schedule, v, identity, ref, a, Moved(r, m, false));
  }

  lemma QuietFromRunning(w: World, schedule: Schedule, v: Verifier, identity: UserIdentity, ref: Ref, a: Attempt, r: Resource)
    requires Healthy(w) && IsOpen(w.db, ref, a, r) && IsOwner(identity, a) && (r.state == Running || r.state == Resolved)
    requires Undisturbed(schedule, a.expiresAt) && Verifies(schedule) && FromRunning(w, schedule, v, identity, ref, a, r).0.legal
    ensures var (later, result) := FromRunning(w, schedule, v, identity, ref, a, r);
      if a.state == Ready && r.state == Resolved then result == Withheld(Unavailable)
      else result == Recovered && IsResolvedWith(later.db, ref,
        if r.state == Resolved then r.evidence
        else Attested(v, r.evidence, schedule(w.tick + (if a.state == Ready then 2 else 0)).answer))
  {
    hide Core, LogOk, LedgerOk, AccessOk, ResetsOk, KeysOk, Announce, Check, FromResolved, Undisturbed, IsResolvedWith, Attested, Published, Grows, Verifies;
    OpenIsLive(w.db, ref, a, r, a.expiresAt - 1);
    if r.state == Resolved {
      QuietFromResolved(w, schedule, v, identity, ref, a, r);
    } else if a.state == Ready {
      var (published, b) := Announce(w, schedule, v, PublishRunningPhase, PublishRunning, ref, a.version, identity);
      if b.Allow? {
        CheckGoes(published, schedule, v, identity, ref, b.value, r);
      }
      QuietAnnounce(w, schedule, v, PublishRunningPhase, PublishRunning, ref, a, r, identity);
      PublishedKeeps(a, PublishRunning, ref);
      AnnounceTicks(w, schedule, v, PublishRunningPhase, PublishRunning, ref, a.version, identity);
      QuietCheck(published, schedule, v, identity, ref, b.value, r);
    } else {
      QuietCheck(w, schedule, v, identity, ref, a, r);
    }
  }

  lemma PublishedKeeps(a: Attempt, p: Publication, ref: Ref)
    requires p.PublishRunning? || p.PublishResolved?
    ensures var b := Published(a, p, ref);
      b.expiresAt == a.expiresAt && b.user == a.user && b.room == a.room && b.state == PublicationState(p)
  {
  }

  /** What is on record in the end: what was, if the sandbox was resolved before, or else what
      the one check attests, after two accesses for each of the steps that are still due. */
  ghost function ResolvedEvidence(tick: nat, schedule: Schedule, v: Verifier, a: Attempt, r: Resource): Option<Digest> {
    if r.state == Resolved then r.evidence
    else Attested(v, r.evidence,
                  schedule(tick + (if r.state == Ready then 2 else 0) + (if a.state == Ready then 2 else 0)).answer)
  }

  /** An undisturbed retry by the owner, with time left and a runtime that verifies, recovers
      exactly from the pairs other than a READY attempt with a RESOLVED sandbox; from that
      pair it is withheld. */
  lemma RetryRecovers(w: World, schedule: Schedule, v: Verifier, identity: UserIdentity, ref: Ref, a: Attempt, r: Resource)
    requires Healthy(w) && IsOpen(w.db, ref, a, r) && IsOwner(identity, a)
    requires Undisturbed(schedule, a.expiresAt) && Verifies(schedule)
    requires Verify(w, schedule, v, identity, ref.attempt).0.legal
    ensures var (later, result) := Verify(w, schedule, v, identity, ref.attempt);
      && (result == Recovered <==> !(a.state == Ready && r.state == Resolved))
      && (result == Recovered ==> IsResolvedWith(later.db, ref, ResolvedEvidence(w.tick + 3, schedule, v, a, r)))
      && (result == Recovered ==> IsResolved(later.db, ref))
  {
    hide Core, LogOk, LedgerOk, AccessOk, ResetsOk, KeysOk, FromReady, Undisturbed, IsResolved, ResolvedEvidence, Verifies, Binding, Inspect, Grows, Serve;
    OpenIsLive(w.db, ref, a, r, a.expiresAt - 1);
    QuietContext(w, schedule, identity, ref, a, r);
    var looked := Serve(w, schedule);
    var roomed := Serve(looked, schedule);
    var ready := Serve(roomed, schedule);
    QuietServe(w, schedule, a.expiresAt);
    QuietServe(looked, schedule, a.expiresAt);
    QuietServe(roomed, schedule, a.expiresAt);
    QuietFromReady(ready, schedule, v, identity, ref, a, r);
  }

  lemma QuietContext(w: World, schedule: Schedule, identity: UserIdentity, ref: Ref, a: Attempt, r: Resource)
    requires Healthy(w) && IsOpen(w.db, ref, a, r) && IsOwner(identity, a) && Undisturbed(schedule, a.expiresAt)
    ensures var (looked, owned) := LookAttempt(w, schedule, identity, ref.attempt);
      && owned == Allow(a) && a.activeSandbox == Some(ref.sandbox) && a.activeGeneration == Some(ref.generation)
      && RoomOf(looked, schedule, ref).1 == Allow(a)
      && Look(RoomOf(looked, schedule, ref).0, schedule, ref).1 == Allow(r)
  {
    hide Core, LogOk, LedgerOk, AccessOk, ResetsOk, KeysOk, Serve, Inspect;
    OpenIsLive(w.db, ref, a, r, a.expiresAt - 1);
    QuietServe(w, schedule, a.expiresAt);
    var looked := Serve(w, schedule);
    QuietServe(looked, schedule, a.expiresAt);
    var roomed := Serve(looked, schedule);
    QuietServe(roomed, schedule, a.expiresAt);
  }

  lemma QuietRun(w: World, schedule: Schedule, v: Verifier, identity: UserIdentity, ref: Ref, a: Attempt, r: Resource)
    requires Healthy(w) && IsOpen(w.db, ref, a, r) && IsOwner(identity, a) && r.state == Ready
    requires Undisturbed(schedule, a.expiresAt) && Verifies(schedule) && FromReady(w, schedule, v, identity, ref, a, r).0.legal
    ensures var (later, result) := FromReady(w, schedule, v, identity, ref, a, r);
      result == Recovered && IsResolvedWith(later.db, ref, ResolvedEvidence(w.tick, schedule, v, a, r))
  {
    hide Core, LogOk, LedgerOk, AccessOk, ResetsOk, KeysOk, Advance, FromRunning, Undisturbed, Verifies, Moved, Grows, Attested, IsResolvedWith;
    OpenIsLive(w.db, ref, a, r, a.expiresAt - 1);
    var m := Move(Running, None, None, None);
    var (moved, row) := Advance(w, schedule, v, RunningPhase, ref, r.version, m);
    if row.Allow? {
      FromRunningGoes(moved, schedule, v, identity, ref, a, row.value);
    }
    QuietAdvance(w, schedule, v, RunningPhase, ref, a, r, m);
    MovedVersion(r, m);
    MovedEvidence(r, m);
    AdvanceTicks(w, schedule, v, RunningPhase, ref, r.version, m);
    QuietFromRunning(moved, schedule, v, identity, ref, a, row.value);
  }

  lemma QuietFromReady(w: World, schedule: Schedule, v: Verifier, identity: UserIdentity, ref: Ref, a: Attempt, r: Resource)
    requires Healthy(w) && IsOpen(w.db, ref, a, r) && IsOwner(identity, a)
    requires Undisturbed(schedule, a.expiresAt) && Verifies(schedule) && FromReady(w, schedule, v, identity, ref, a, r).0.legal
    ensures var (later, result) := FromReady(w, schedule, v, identity, ref, a, r);
      if a.state == Ready && r.state == Resolved then result == Withheld(Unavailable)
      else result == Recovered && IsResolvedWith(later.db, ref, ResolvedEvidence(w.tick, schedule, v, a, r))
  {
    hide Core, LogOk, LedgerOk, AccessOk, ResetsOk, KeysOk, Advance, FromRunning, Undisturbed, Verifies, Moved, Grows, Attested;
    OpenIsLive(w.db, ref, a, r, a.expiresAt - 1);
    if a.state == Resolved && r.state == Resolved {
    } else if r.state == Ready {
      QuietRun(w, schedule, v, identity, ref, a, r);
    } else {
      QuietFromRunning(w, schedule, v, identity, ref, a, r);
    }
  }
}
