/** Undisturbed provisioning, before the deadline: it publishes READY, or the runtime failed
    and the sandbox is left FAILED and to be destroyed. */
module ProvisioningSuccess {
  import opened Records
  import opened Common
  import opened Backend
  import opened ControlPlane
  import opened Runs
  import opened Invariant
  import opened Preservation
  import opened Log
  import opened Ledger
  import opened Access
  import opened Reachable
  import opened Idempotence
  import opened Keys
  import opened Worlds
  import opened WorkerProgress
  import opened CleanupTermination
  import opened Success
  import opened Provisioning
  import opened ProvisioningSafety

  /** Nobody else calls the store, it is never busy, and the deadline is not reached. The
      runtime may answer anything. */
  ghost predicate Undisturbed(schedule: Schedule, deadline: int) {
    forall t: nat :: schedule(t).others == [] && !schedule(t).busy && schedule(t).now < deadline
  }

  lemma QuietServe(w: World, schedule: Schedule, deadline: int)
    requires Undisturbed(schedule, deadline)
    ensures Serve(w, schedule) == w.(tick := w.tick + 1)
  {
  }

  lemma QuietTransact(w: World, schedule: Schedule, deadline: int, c: Call)
    requires Undisturbed(schedule, deadline) && HasReceipt(c)
    ensures var (later, reply) := Transact(w, schedule, c);
      && later.db == Answer(w.db, c).After(w.db)
      && (Answer(w.db, c).Done? ==> reply == Allow(Answer(w.db, c).value))
      && (later.legal ==> w.legal && FreshIds(w.db, c) && Honest(c))
  {
    hide Answer, Honest;
    QuietServe(w, schedule, deadline);
  }

  /** The attempt still waits for the sandbox that the receipt reserved. */
  ghost predicate Reserved(db: Db, receipt: Receipt) {
    && receipt.ref.attempt in db.attempts
    && var a := db.attempts[receipt.ref.attempt];
    && RefOf(receipt.ref.attempt, a) == receipt.ref && a.version == receipt.version && a.state == receipt.state
    && (a.state.Provisioning? || (a.state.Resetting? && OldDestroyed(db, receipt.ref.attempt, a)))
  }

  ghost predicate Underway(db: Db, receipt: Receipt, row: Resource) {
    Reserved(db, receipt) && Observed(db, receipt.ref) == Allow(row) && !row.destroy
  }

  lemma ReservedIsLive(db: Db, receipt: Receipt, now: int)
    requires Core(db) && Reserved(db, receipt) && now < db.attempts[receipt.ref.attempt].expiresAt
    ensures var a := db.attempts[receipt.ref.attempt];
      && !Dead(a, now) && a.provisioning && !a.destroy && !a.expiry
      && (a.state == Resetting ==> AwaitsReset(a, receipt.ref) && a.activeSandbox != Some(a.sandbox))
  {
    AttemptIsShaped(db, receipt.ref.attempt);
  }

  lemma AcceptKeyUnspent(db: Db, c: Call)
    requires Intact(db) && c.AcceptCall? && c.key.PhaseKey? && c.key.phase.AcceptPhase? && c.key.ref == c.ref
    requires c.ref.sandbox !in db.resources
    ensures KeyOf(c) !in db.operations
  {
    hide Core, LedgerOk, AccessOk, ResetsOk;
    EntryIsHonest(db, KeyOf(c));
  }

  lemma AcceptPasses(db: Db, c: Call, receipt: Receipt)
    requires c.AcceptCall? && Reserved(db, receipt) && c.ref == receipt.ref && KeyOf(c) !in db.operations
    requires c.ref.sandbox !in db.resources
    requires var a := db.attempts[c.ref.attempt];
      !Dead(a, c.now) && a.provisioning && (a.state == Resetting ==> AwaitsReset(a, c.ref))
    ensures var o := Answer(db, c);
      || o == Refused(StoreFailure)
      || (o.Done? && o.value.version == 0 && o.db.attempts == db.attempts
          && o.db.resources == db.resources[c.ref.sandbox := NewResource(c.ref, db.attempts[c.ref.attempt])])
  {
    hide OldDestroyed, Dead;
  }

  lemma NewRowIsUnderway(before: Db, receipt: Receipt, after: Db)
    requires Reserved(before, receipt) && receipt.ref.sandbox !in before.resources && after.attempts == before.attempts
    requires after.resources == before.resources[receipt.ref.sandbox := NewResource(receipt.ref, before.attempts[receipt.ref.attempt])]
    ensures Underway(after, receipt, NewResource(receipt.ref, before.attempts[receipt.ref.attempt]))
  {
  }

  lemma AcceptSucceeds(db: Db, c: Call, receipt: Receipt)
    requires Intact(db) && c.AcceptCall? && FreshIds(db, c) && Reserved(db, receipt) && c.ref == receipt.ref
    requires c.key.PhaseKey? && c.key.phase.AcceptPhase? && c.key.ref == c.ref
    requires c.ref.sandbox !in db.resources && c.now < db.attempts[c.ref.attempt].expiresAt
    ensures var o := Answer(db, c);
      && o.Done? && o.value.version == 0 && o.db.attempts == db.attempts
      && Underway(o.db, receipt, NewResource(c.ref, db.attempts[c.ref.attempt]))
  {
    hide Core, LogOk, LedgerOk, AccessOk, ResetsOk, KeysOk, RowsGrow, Accept, OldDestroyed, AwaitsReset, Dead;
    AcceptKeyUnspent(db, c);
    ReservedIsLive(db, receipt, c.now);
    AcceptPasses(db, c, receipt);
    CallIsSound(db, c);
    NewRowIsUnderway(db, receipt, Answer(db, c).db);
  }

  lemma MovedIsUnderway(before: Db, receipt: Receipt, row: Resource, m: Move, after: Db)
    requires Core(before) && Underway(before, receipt, row) && after.attempts == before.attempts
    requires after.resources == before.resources[receipt.ref.sandbox := Moved(row, m, false)]
    ensures Reserved(after, receipt) && Observed(after, receipt.ref) == Allow(Moved(row, m, false))
    ensures !m.state.Ending() ==> Underway(after, receipt, Moved(row, m, false))
  {
    hide Core;
    AttemptIsShaped(before, receipt.ref.attempt);
  }

  ghost predicate MayTake(phase: Phase, row: Resource, m: Move) {
    && IsStep(phase) && MoveOk(m) && !m.state.Stopping? && !m.state.Destroyed? && MayMove(row.state, m.state)
  }

  lemma QuietMove(w: World, schedule: Schedule, o: Orchestrator, receipt: Receipt, phase: Phase, row: Resource, m: Move)
    requires Healthy(w) && Underway(w.db, receipt, row) && MayTake(phase, row, m)
    requires Undisturbed(schedule, w.db.attempts[receipt.ref.attempt].expiresAt)
    requires Transact(w, schedule, MoveCall(o, phase, receipt.ref, row.version, m, schedule(w.tick))).0.legal
    ensures var (moved, reply) := Transact(w, schedule, MoveCall(o, phase, receipt.ref, row.version, m, schedule(w.tick)));
      && Healthy(moved) && reply.Allow? && reply.value.version == row.version + 1
      && moved.db.attempts == w.db.attempts && Reserved(moved.db, receipt)
      && Observed(moved.db, receipt.ref) == Allow(Moved(row, m, false))
      && (!m.state.Ending() ==> Underway(moved.db, receipt, Moved(row, m, false)))
  {
    hide Core, LogOk, LedgerOk, AccessOk, ResetsOk, KeysOk, Grows, Transact, Moved, MayMove, MoveOk, Dead, Honest, OldDestroyed, Answer, FreshIds;
    var deadline := w.db.attempts[receipt.ref.attempt].expiresAt;
    var c := MoveCall(o, phase, receipt.ref, row.version, m, schedule(w.tick));
    QuietTransact(w, schedule, deadline, c);
    TransactLeads(w, schedule, c);
    ReservedIsLive(w.db, receipt, c.now);
    StepSucceeds(w.db, c);
    MovedIsUnderway(w.db, receipt, row, m, Answer(w.db, c).db);
  }

  lemma QuietStep(w: World, schedule: Schedule, o: Orchestrator, receipt: Receipt, phase: Phase, row: Resource, m: Move)
    requires Healthy(w) && Underway(w.db, receipt, row) && MayTake(phase, row, m) && !m.state.Ending()
    requires Undisturbed(schedule, w.db.attempts[receipt.ref.attempt].expiresAt)
    requires StepAndLook(w, schedule, o, phase, receipt.ref, row.version, m).0.legal
    ensures var (later, found) := StepAndLook(w, schedule, o, phase, receipt.ref, row.version, m);
      && Healthy(later) && found == Allow(Moved(row, m, false)) && later.db.attempts == w.db.attempts
      && Underway(later.db, receipt, Moved(row, m, false))
  {
    hide Intact, Grows, Transact, Moved, MayTake, Inspect, OldDestroyed;
    var c := MoveCall(o, phase, receipt.ref, row.version, m, schedule(w.tick));
    var moved := Transact(w, schedule, c).0;
    var deadline := w.db.attempts[receipt.ref.attempt].expiresAt;
    QuietServe(moved, schedule, deadline);
    StepLegal(w, schedule, o, phase, receipt.ref, row.version, m);
    QuietMove(w, schedule, o, receipt, phase, row, m);
    ReservedIsBound(moved.db, receipt, Moved(row, m, false));
    MovedVersion(row, m);
  }

  lemma MovedVersion(row: Resource, m: Move)
    ensures Moved(row, m, false).version == row.version + 1 && Moved(row, m, false).state == m.state
  {
  }

  lemma ReservedIsBound(db: Db, receipt: Receipt, row: Resource)
    requires Underway(db, receipt, row)
    ensures Inspect(db, receipt.ref) == Allow(row) && Binding(db, receipt.ref, false).Allow?
  {
  }

  lemma StepLegal(w: World, schedule: Schedule, o: Orchestrator, phase: Phase, ref: Ref, version: nat, m: Move)
    ensures StepAndLook(w, schedule, o, phase, ref, version, m).0.legal ==>
      Transact(w, schedule, MoveCall(o, phase, ref, version, m, schedule(w.tick))).0.legal
  {
    hide Transact;
  }

  /** What undisturbed provisioning ends with. */
  ghost predicate Ended(db: Db, receipt: Receipt, ending: Ending) {
    && receipt.ref.attempt in db.attempts && receipt.ref.sandbox in db.resources
    && var a, r := db.attempts[receipt.ref.attempt], db.resources[receipt.ref.sandbox];
    match ending
    case Published => a.state == Ready && IsCurrent(a, receipt.ref) && IsActive(a, receipt.ref) && r.state == Ready && !r.destroy
    case RuntimeFailed(_) => r.state == State.Failed && r.destroy && (receipt.state == Resetting ==> a.state == State.Failed)
    case Stopped(_) => false
  }

  function ReadinessCall(w: World, schedule: Schedule, o: Orchestrator, receipt: Receipt): Call {
    PublicationCall(o, PublishPhase, if receipt.state == Provisioning then PublishReady else PublishResetReady, receipt,
                    schedule(w.tick))
  }

  lemma ReadinessIsDue(db: Db, receipt: Receipt, row: Resource, c: Call)
    requires Core(db) && Underway(db, receipt, row) && row.state == Ready
    requires c.PublishCall? && c.ref == receipt.ref && c.expected == receipt.version
    requires c.publication == if receipt.state == Provisioning then PublishReady else PublishResetReady
    requires c.key.PhaseKey? && c.key.phase.PublishPhase? && c.key.ref == c.ref && c.key.version == c.expected
    requires c.now < db.attempts[c.ref.attempt].expiresAt
    ensures PublicationDue(db, c)
  {
    hide Core;
    ReservedIsLive(db, receipt, c.now);
  }

  lemma ReadyIsEnded(before: Db, receipt: Receipt, row: Resource, c: Call, after: Db)
    requires Underway(before, receipt, row) && row.state == Ready && c.PublishCall? && c.ref == receipt.ref
    requires c.publication == if receipt.state == Provisioning then PublishReady else PublishResetReady
    requires PublicationMade(before, c, after)
    ensures Ended(after, receipt, Published)
  {
  }

  lemma QuietPublish(w: World, schedule: Schedule, o: Orchestrator, receipt: Receipt, row: Resource)
    requires Healthy(w) && Underway(w.db, receipt, row) && row.state == Ready
    requires Undisturbed(schedule, w.db.attempts[receipt.ref.attempt].expiresAt)
    requires PublishReadiness(w, schedule, o, receipt).0.legal
    ensures var (later, ending) := PublishReadiness(w, schedule, o, receipt);
      ending == Published && Ended(later.db, receipt, ending)
  {
    hide Core, LogOk, LedgerOk, AccessOk, ResetsOk, KeysOk, Transact, Answer, Honest, OldDestroyed, FreshIds, PublicationDue,
      PublicationMade, Ended;
    var c := ReadinessCall(w, schedule, o, receipt);
    QuietTransact(w, schedule, w.db.attempts[receipt.ref.attempt].expiresAt, c);
    ReadinessIsDue(w.db, receipt, row, c);
    PublicationSucceeds(w.db, c);
    ReadyIsEnded(w.db, receipt, row, c, Answer(w.db, c).db);
  }

  ghost predicate MayFail(row: Resource, phase: Phase) {
    && (row.state.Creating? || row.state.Starting?)
    && (phase.CreateFailedPhase? || phase.StartFailedPhase? || phase.BootstrapFailedPhase?)
  }

  lemma FailureIsDue(db: Db, receipt: Receipt, row: Resource, m: Move, c: Call)
    requires Core(db) && Reserved(db, receipt) && receipt.state == Resetting && m.state == State.Failed
    requires Observed(db, receipt.ref) == Allow(Moved(row, m, false))
    requires c.PublishCall? && c.ref == receipt.ref && c.expected == receipt.version && c.publication == FailReset
    requires c.key.PhaseKey? && c.key.phase.ResetFailedPhase? && c.key.ref == c.ref && c.key.version == c.expected
    requires c.now < db.attempts[c.ref.attempt].expiresAt
    ensures PublicationDue(db, c)
  {
    hide Core;
    ReservedIsLive(db, receipt, c.now);
  }

  lemma QuietFail(w: World, schedule: Schedule, o: Orchestrator, receipt: Receipt, row: Resource, phase: Phase, error: ErrorCode)
    requires Healthy(w) && Underway(w.db, receipt, row) && MayFail(row, phase)
    requires Undisturbed(schedule, w.db.attempts[receipt.ref.attempt].expiresAt)
    requires Fail(w, schedule, o, receipt, row, phase, error).0.legal
    ensures var (later, ending) := Fail(w, schedule, o, receipt, row, phase, error);
      ending == RuntimeFailed(FailureCode(error, phase)) && Ended(later.db, receipt, ending)
  {
    hide Core, LogOk, LedgerOk, AccessOk, ResetsOk, KeysOk, Grows, Transact, Answer, Honest, OldDestroyed, FreshIds, PublicationDue;
    var m := Move(State.Failed, None, None, Some(FailureCode(error, phase)));
    var deadline := w.db.attempts[receipt.ref.attempt].expiresAt;
    var failed := Transact(w, schedule, MoveCall(o, phase, receipt.ref, row.version, m, schedule(w.tick))).0;
    var c := PublicationCall(o, ResetFailedPhase, FailReset, receipt, schedule(failed.tick));
    QuietTransact(failed, schedule, deadline, c);
    QuietMove(w, schedule, o, receipt, phase, row, m);
    if receipt.state == Resetting {
      FailureIsDue(failed.db, receipt, row, m, c);
      PublicationSucceeds(failed.db, c);
    }
  }

  lemma QuietConclude(w: World, schedule: Schedule, o: Orchestrator, receipt: Receipt, row: Resource, evidence: Digest)
    requires Healthy(w) && Underway(w.db, receipt, row) && row.state == Starting
    requires Undisturbed(schedule, w.db.attempts[receipt.ref.attempt].expiresAt)
    requires Conclude(w, schedule, o, receipt, row, evidence).0.legal
    ensures var (later, ending) := Conclude(w, schedule, o, receipt, row, evidence);
      Ended(later.db, receipt, ending)
  {
    hide Intact, Grows, Reserved, Underway, Ended, StepAndLook, Fail, PublishReadiness, Moved, Undisturbed;
    var deadline := DeadlineOf(w.db, receipt, row);
    QuietAsk(w, schedule, deadline, CloseQuestion(receipt.ref));
    var (closed, answer) := AskRuntime(w, schedule, CloseQuestion(receipt.ref));
    if answer.Fault? {
      FailLeads(closed, schedule, o, receipt, row, CreateFailedPhase, answer.error);
      QuietFail(closed, schedule, o, receipt, row, CreateFailedPhase, answer.error);
    } else {
      var m := Move(Ready, None, Some(evidence), None);
      var ready := StepAndLook(closed, schedule, o, ReadyPhase, receipt.ref, row.version, m).0;
      PublishReadinessLeads(ready, schedule, o, receipt);
      QuietStep(closed, schedule, o, receipt, ReadyPhase, row, m);
      MovedVersion(row, m);
      DeadlineStays(closed.db, ready.db, receipt, row, Moved(row, m, false));
      QuietPublish(ready, schedule, o, receipt, Moved(row, m, false));
    }
  }

  ghost function DeadlineOf(db: Db, receipt: Receipt, row: Resource): int
    requires Underway(db, receipt, row)
  {
    db.attempts[receipt.ref.attempt].expiresAt
  }

  lemma DeadlineStays(before: Db, after: Db, receipt: Receipt, row: Resource, next: Resource)
    requires Underway(before, receipt, row) && Underway(after, receipt, next) && after.attempts == before.attempts
    ensures receipt.ref.attempt in before.attempts && receipt.ref.attempt in after.attempts
    ensures DeadlineOf(after, receipt, next) == DeadlineOf(before, receipt, row) == after.attempts[receipt.ref.attempt].expiresAt
  {
  }

  lemma QuietAsk(w: World, schedule: Schedule, deadline: int, question: Question)
    requires Undisturbed(schedule, deadline)
    ensures var (asked, answer) := AskRuntime(w, schedule, question);
      asked.db == w.db && asked.legal == w.legal && answer == schedule(w.tick).answer
  {
    QuietServe(w, schedule, deadline);
  }

  lemma QuietStart(w: World, schedule: Schedule, o: Orchestrator, receipt: Receipt, row: Resource, container: ContainerId)
    requires Healthy(w) && Underway(w.db, receipt, row) && row.state == Starting
    requires Undisturbed(schedule, w.db.attempts[receipt.ref.attempt].expiresAt)
    requires Start(w, schedule, o, receipt, row, container).0.legal
    ensures var (later, ending) := Start(w, schedule, o, receipt, row, container);
      Ended(later.db, receipt, ending)
  {
    hide Intact, Grows, Reserved, Underway, Ended, Fail, Conclude, Undisturbed, AskRuntime;
    var deadline := DeadlineOf(w.db, receipt, row);
    QuietAsk(w, schedule, deadline, StartQuestion(receipt.ref, container));
    var (started, answer) := AskRuntime(w, schedule, StartQuestion(receipt.ref, container));
    if !answer.Evidence? {
      FailLeads(started, schedule, o, receipt, row, StartFailedPhase, ErrorOf(answer));
      QuietFail(started, schedule, o, receipt, row, StartFailedPhase, ErrorOf(answer));
    } else if !o.bootstraps {
      ConcludeLeads(started, schedule, o, receipt, row, answer.digest);
      QuietConclude(started, schedule, o, receipt, row, answer.digest);
    } else {
      QuietAsk(started, schedule, deadline, BootstrapQuestion(receipt.ref, container));
      var (booted, observation) := AskRuntime(started, schedule, BootstrapQuestion(receipt.ref, container));
      if !observation.Evidence? {
        FailLeads(booted, schedule, o, receipt, row, BootstrapFailedPhase, ErrorOf(observation));
        QuietFail(booted, schedule, o, receipt, row, BootstrapFailedPhase, ErrorOf(observation));
      } else {
        ConcludeLeads(booted, schedule, o, receipt, row, observation.digest);
        QuietConclude(booted, schedule, o, receipt, row, observation.digest);
      }
    }
  }

  lemma QuietRun(w: World, schedule: Schedule, o: Orchestrator, receipt: Receipt, row: Resource)
    requires Healthy(w) && Underway(w.db, receipt, row) && row.state == Creating
    requires Undisturbed(schedule, w.db.attempts[receipt.ref.attempt].expiresAt)
    requires RunRuntime(w, schedule, o, receipt, row).0.legal
    ensures var (later, ending) := RunRuntime(w, schedule, o, receipt, row);
      Ended(later.db, receipt, ending)
  {
    hide Intact, Grows, Reserved, Underway, Ended, Fail, StepAndLook, Start, Undisturbed, AskRuntime, Moved;
    var deadline := DeadlineOf(w.db, receipt, row);
    QuietAsk(w, schedule, deadline, OpenQuestion(receipt.ref));
    var (begun, session) := AskRuntime(w, schedule, OpenQuestion(receipt.ref));
    if session.Fault? {
      FailLeads(begun, schedule, o, receipt, row, CreateFailedPhase, session.error);
      QuietFail(begun, schedule, o, receipt, row, CreateFailedPhase, session.error);
    } else {
      QuietAsk(begun, schedule, deadline, CreateQuestion(receipt.ref, row));
      var (created, answer) := AskRuntime(begun, schedule, CreateQuestion(receipt.ref, row));
      if !answer.Created? {
        FailLeads(created, schedule, o, receipt, row, CreateFailedPhase, ErrorOf(answer));
        QuietFail(created, schedule, o, receipt, row, CreateFailedPhase, ErrorOf(answer));
      } else {
        var m := Move(Starting, Some(answer.container), None, None);
        var (starting, next) := StepAndLook(created, schedule, o, StartingPhase, receipt.ref, row.version, m);
        if next.Allow? {
          StartLeads(starting, schedule, o, receipt, next.value, answer.container);
        }
        QuietStep(created, schedule, o, receipt, StartingPhase, row, m);
        MovedVersion(row, m);
        DeadlineStays(created.db, starting.db, receipt, row, Moved(row, m, false));
        QuietStart(starting, schedule, o, receipt, next.value, answer.container);
      }
    }
  }

  lemma ProvisionLegal(w: World, schedule: Schedule, o: Orchestrator, receipt: Receipt)
    requires receipt.state == Provisioning || receipt.state == Resetting
    ensures Provision(w, schedule, o, receipt).0.legal ==> Transact(w, schedule, AcceptingCall(o, receipt, schedule(w.tick))).0.legal
  {
    hide Transact, StepAndLook, RunRuntime, PublishReadiness, Inspect, Binding, Proper, Intact, Grows;
    var (accepted, reply) := Transact(w, schedule, AcceptingCall(o, receipt, schedule(w.tick)));
    var looked := Look(accepted, schedule, receipt.ref).0;
    PublishReadinessLeads(looked, schedule, o, receipt);
    var roomed := RoomForBinding(looked, schedule, receipt.ref).0;
    if reply.Allow? {
      var m := Move(Creating, None, None, None);
      StepAndLookLeads(roomed, schedule, o, CreatingPhase, receipt.ref, reply.value.version, m);
      var (creating, row) := StepAndLook(roomed, schedule, o, CreatingPhase, receipt.ref, reply.value.version, m);
      if row.Allow? {
        RunRuntimeLeads(creating, schedule, o, receipt, row.value);
      }
    }
  }

  lemma QuietLook(w: World, schedule: Schedule, deadline: int, receipt: Receipt, row: Resource)
    requires Undisturbed(schedule, deadline) && Underway(w.db, receipt, row)
    ensures Look(w, schedule, receipt.ref) == (w.(tick := w.tick + 1), Allow(row))
    ensures RoomForBinding(w, schedule, receipt.ref) == (w.(tick := w.tick + 1), Guard.Pass)
  {
    QuietServe(w, schedule, deadline);
    ReservedIsBound(w.db, receipt, row);
  }

  /** The sandbox was accepted under this program's key and nothing more was done, or
      everything but the publication. */
  ghost predicate Resumable(db: Db, o: Orchestrator, receipt: Receipt, slice: Slice) {
    && Reserved(db, receipt)
    && receipt.ref.sandbox in db.resources
    && var row := db.resources[receipt.ref.sandbox];
    && Underway(db, receipt, row) && (row.state == Requested || row.state == Ready)
    && KeyOf(AcceptingCall(o, receipt, slice)) in db.operations
  }

  lemma AcceptReplays(db: Db, c: Call, receipt: Receipt)
    requires Intact(db) && c.AcceptCall? && Reserved(db, receipt) && c.ref == receipt.ref && KeyOf(c) in db.operations
    requires c.key.PhaseKey? && c.key.phase.AcceptPhase? && c.key.ref == c.ref
    requires c.now < db.attempts[c.ref.attempt].expiresAt
    ensures Answer(db, c).Done? && Answer(db, c).db == db && Answer(db, c).value.version == 0
  {
    hide Core, LedgerOk, AccessOk, ResetsOk, OldDestroyed, AwaitsReset, Dead;
    EntryIsHonest(db, KeyOf(c));
    ReservedIsLive(db, receipt, c.now);
  }

  lemma AcceptConflicts(db: Db, c: Call, receipt: Receipt)
    requires Intact(db) && c.AcceptCall? && Reserved(db, receipt) && c.ref == receipt.ref && KeyOf(c) !in db.operations
    requires c.ref.sandbox in db.resources && c.now < db.attempts[c.ref.attempt].expiresAt
    ensures Answer(db, c) == Refused(ResourceExists)
  {
    hide Core, LogOk, LedgerOk, AccessOk, ResetsOk, KeysOk, Dead;
    ReservedIsLive(db, receipt, c.now);
  }

  lemma RequestedIsNew(db: Db, receipt: Receipt, row: Resource)
    requires Core(db) && Underway(db, receipt, row) && row.state == Requested
    ensures row.version == 0
  {
    hide Core;
    ResourceIsShaped(db, receipt.ref.sandbox);
  }

  /** From an accepted sandbox on. */
  lemma AcceptedEnds(w: World, schedule: Schedule, o: Orchestrator, receipt: Receipt, row: Resource)
    requires Healthy(w) && Reserved(w.db, receipt) && Undisturbed(schedule, w.db.attempts[receipt.ref.attempt].expiresAt)
    requires Provision(w, schedule, o, receipt).0.legal
    requires var (accepted, reply) := Transact(w, schedule, AcceptingCall(o, receipt, schedule(w.tick)));
      && reply.Allow? && reply.value.version == 0 && Healthy(accepted)
      && accepted.db.attempts == w.db.attempts && Underway(accepted.db, receipt, row)
      && (row.state == Ready || (row.state == Requested && row.version == 0))
    ensures var (later, ending) := Provision(w, schedule, o, receipt);
      Ended(later.db, receipt, ending)
  {
    hide Intact, Grows, Underway, Ended, StepAndLook, RunRuntime, PublishReadiness, Transact, Moved, Look, RoomForBinding, OldDestroyed,
      Undisturbed;
    var deadline := w.db.attempts[receipt.ref.attempt].expiresAt;
    var accepted := Transact(w, schedule, AcceptingCall(o, receipt, schedule(w.tick))).0;
    QuietLook(accepted, schedule, deadline, receipt, row);
    var looked := Look(accepted, schedule, receipt.ref).0;
    if row.state == Ready {
      QuietPublish(looked, schedule, o, receipt, row);
    } else {
      QuietLook(looked, schedule, deadline, receipt, row);
      var roomed := RoomForBinding(looked, schedule, receipt.ref).0;
      var m := Move(Creating, None, None, None);
      var (creating, next) := StepAndLook(roomed, schedule, o, CreatingPhase, receipt.ref, row.version, m);
      if next.Allow? {
        RunRuntimeLeads(creating, schedule, o, receipt, next.value);
      }
      QuietStep(roomed, schedule, o, receipt, CreatingPhase, row, m);
      MovedVersion(row, m);
      DeadlineStays(roomed.db, creating.db, receipt, row, Moved(row, m, false));
      QuietRun(creating, schedule, o, receipt, next.value);
    }
  }

  lemma FreshAccept(w: World, schedule: Schedule, o: Orchestrator, receipt: Receipt)
    requires Healthy(w) && Reserved(w.db, receipt) && Undisturbed(schedule, w.db.attempts[receipt.ref.attempt].expiresAt)
    requires Provision(w, schedule, o, receipt).0.legal
    requires receipt.ref.sandbox !in w.db.resources || Resumable(w.db, o, receipt, schedule(w.tick))
    ensures var (accepted, reply) := Transact(w, schedule, AcceptingCall(o, receipt, schedule(w.tick)));
      && reply.Allow? && reply.value.version == 0 && Healthy(accepted) && accepted.db.attempts == w.db.attempts
      && receipt.ref.sandbox in accepted.db.resources
      && var row := accepted.db.resources[receipt.ref.sandbox];
      && Underway(accepted.db, receipt, row) && (row.state == Ready || (row.state == Requested && row.version == 0))
  {
    hide Core, LogOk, LedgerOk, AccessOk, ResetsOk, KeysOk, Grows, Transact, Answer, FreshIds, Honest, OldDestroyed, Provision;
    var deadline := w.db.attempts[receipt.ref.attempt].expiresAt;
    var c := AcceptingCall(o, receipt, schedule(w.tick));
    ProvisionLegal(w, schedule, o, receipt);
    assert schedule(w.tick).now < deadline;
    TransactLeads(w, schedule, c);
    QuietTransact(w, schedule, deadline, c);
    if receipt.ref.sandbox !in w.db.resources {
      AcceptSucceeds(w.db, c, receipt);
    } else {
      AcceptReplays(w.db, c, receipt);
      var row := w.db.resources[receipt.ref.sandbox];
      if row.state == Requested {
        RequestedIsNew(w.db, receipt, row);
      }
    }
  }

  /** From a live reservation whose sandbox has no row yet, or that this program accepted
      before it crashed or just before it would have published, provisioning that nobody
      disturbs before the deadline either publishes READY with the new sandbox active, or a
      runtime error leaves the sandbox FAILED with destroy intent, and a reset with it. The
      store never stops it. */
  lemma UndisturbedProvisioningEnds(w: World, schedule: Schedule, o: Orchestrator, receipt: Receipt)
    requires Healthy(w) && Reserved(w.db, receipt) && Undisturbed(schedule, w.db.attempts[receipt.ref.attempt].expiresAt)
    requires receipt.ref.sandbox !in w.db.resources || Resumable(w.db, o, receipt, schedule(w.tick))
    requires Provision(w, schedule, o, receipt).0.legal
    ensures var (later, ending) := Provision(w, schedule, o, receipt);
      Ended(later.db, receipt, ending)
  {
    hide Intact, Grows, Underway, Ended, Transact, Provision, OldDestroyed, Undisturbed, Resumable;
    FreshAccept(w, schedule, o, receipt);
    var accepted := Transact(w, schedule, AcceptingCall(o, receipt, schedule(w.tick))).0;
    AcceptedEnds(w, schedule, o, receipt, accepted.db.resources[receipt.ref.sandbox]);
  }

  /** A sandbox that was accepted under another key is not resumed: the program stops at
      once and changes nothing. */
  lemma ForeignAcceptanceStops(w: World, schedule: Schedule, o: Orchestrator, receipt: Receipt)
    requires Healthy(w) && Reserved(w.db, receipt) && Undisturbed(schedule, w.db.attempts[receipt.ref.attempt].expiresAt)
    requires receipt.ref.sandbox in w.db.resources && KeyOf(AcceptingCall(o, receipt, schedule(w.tick))) !in w.db.operations
    ensures var (later, ending) := Provision(w, schedule, o, receipt);
      ending == Stopped(ResourceExists) && later.db == w.db
  {
    hide Core, LogOk, LedgerOk, AccessOk, ResetsOk, KeysOk, Answer, FreshIds, Honest, OldDestroyed, StepAndLook, RunRuntime,
      PublishReadiness, Look, RoomForBinding, Proper;
    var c := AcceptingCall(o, receipt, schedule(w.tick));
    assert schedule(w.tick).now < w.db.attempts[receipt.ref.attempt].expiresAt;
    QuietServe(w, schedule, w.db.attempts[receipt.ref.attempt].expiresAt);
    AcceptConflicts(w.db, c, receipt);
  }
}
