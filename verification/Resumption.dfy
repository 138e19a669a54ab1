/** Resuming listed resets: which of them a pass completes, and when one of them starves
    all that follow it. */
module Resumption {
  import opened Records
  import opened Common
  import opened Selection
  import opened Backend
  import opened ControlPlane
  import opened Runs
  import opened Invariant
  import opened Preservation
  import opened Log
  import opened Ledger
  import opened Access
  import opened Reachable
  import opened Idempotence
  import opened Keys
  import opened Worlds
  import opened WorkerProgress
  import opened CleanupTermination
  import opened Guarantees
  import opened Provisioning
  import opened ProvisioningSafety
  import opened ProvisioningSuccess
  import opened Maintenance

  // ----- provisioning one sandbox leaves the others alone -----

  /** Only rows and derived keys of one tuple changed: its attempt stays with it, and its
      sandbox was not destroyed. */
  ghost predicate Apart(before: Db, after: Db, ref: Ref) {
    && (forall id | id != ref.attempt ::
          (id in after.attempts <==> id in before.attempts)
          && (id in before.attempts ==> after.attempts[id] == before.attempts[id]))
    && (forall s | s != ref.sandbox ::
          (s in after.resources <==> s in before.resources)
          && (s in before.resources ==> after.resources[s] == before.resources[s]))
    && (forall k: OpKey | k.key.PhaseKey? && k.key.ref != ref :: k in after.operations <==> k in before.operations)
    && (ref.attempt in after.attempts <==> ref.attempt in before.attempts)
    && (ref.attempt in before.attempts ==> SameTuple(before.attempts[ref.attempt], after.attempts[ref.attempt]))
    && (ref.sandbox in after.resources ==>
          after.resources[ref.sandbox].attempt ==
            if ref.sandbox in before.resources then before.resources[ref.sandbox].attempt else ref.attempt)
    && (ref.sandbox in before.resources ==> ref.sandbox in after.resources)
    && (ref.sandbox in after.resources && after.resources[ref.sandbox].state == Destroyed ==>
          ref.sandbox in before.resources && after.resources[ref.sandbox] == before.resources[ref.sandbox])
  }

  ghost predicate SameTuple(a: Attempt, b: Attempt) {
    b.sandbox == a.sandbox && b.generation == a.generation && b.expiresAt == a.expiresAt
  }

  lemma ApartTwice(x: Db, y: Db, z: Db, ref: Ref)
    requires Apart(x, y, ref) && Apart(y, z, ref)
    ensures Apart(x, z, ref)
  {
  }

  lemma SameApart(db: Db, ref: Ref)
    ensures Apart(db, db, ref)
  {
  }

  lemma FinishApart(before: Db, db: Db, ref: Ref, k: OpKey)
    requires Apart(before, db, ref) && k.key.PhaseKey? && k.key.ref == ref
    ensures forall id, request, tuple, state, version, error ::
      Apart(before, Finish(db, k, id, request, tuple, state, version, error).After(before), ref)
  {
    SameApart(before, ref);
  }

  ghost predicate IsOwnCall(c: Call, ref: Ref) {
    && (c.AcceptCall? || c.PublishCall? || (c.TransitionCall? && c.move.state != Destroyed))
    && c.ref == ref && c.key.PhaseKey? && c.key.ref == ref
  }

  lemma AcceptApart(db: Db, c: Call)
    requires c.AcceptCall? && IsOwnCall(c, c.ref)
    ensures Apart(db, Answer(db, c).After(db), c.ref)
  {
    hide RequireLive, Finish, Apart, OldDestroyed;
    SameApart(db, c.ref);
    if Binding(db, c.ref, false).Allow? {
      var a := db.attempts[c.ref.attempt];
      RequireLiveStops(db, a, None, c.now);
      if c.ref.sandbox !in db.resources {
        InsertApart(db, c.ref, NewResource(c.ref, a));
        FinishApart(db, db.(resources := db.resources[c.ref.sandbox := NewResource(c.ref, a)]), c.ref, KeyOf(c));
      }
    }
  }

  lemma InsertApart(db: Db, ref: Ref, r: Resource)
    requires r.attempt == (if ref.sandbox in db.resources then db.resources[ref.sandbox].attempt else ref.attempt)
    requires r.state != Destroyed
    ensures Apart(db, db.(resources := db.resources[ref.sandbox := r]), ref)
  {
  }

  lemma UpdateApart(db: Db, ref: Ref, a: Attempt)
    requires ref.attempt in db.attempts && SameTuple(db.attempts[ref.attempt], a)
    ensures Apart(db, db.(attempts := db.attempts[ref.attempt := a]), ref)
  {
  }

  lemma StopApart(db: Db, ref: Ref, now: int)
    requires ref.attempt in db.attempts
    ensures Apart(db, StopAttempt(db, ref.attempt, now).After(db), ref)
  {
  }

  lemma PublishedStays(a: Attempt, p: Publication, ref: Ref)
    ensures SameTuple(a, Backend.Published(a, p, ref))
  {
  }

  lemma MovedStays(r: Resource, m: Move, expired: bool)
    ensures Moved(r, m, expired).attempt == r.attempt && Moved(r, m, expired).state == m.state
  {
  }

  lemma PublishApart(db: Db, c: Call)
    requires c.PublishCall? && IsOwnCall(c, c.ref)
    ensures Apart(db, Answer(db, c).After(db), c.ref)
  {
    hide StopAttempt, Finish, Apart, MayPublish, Backend.Published;
    SameApart(db, c.ref);
    if Binding(db, c.ref, false).Allow? {
      StopApart(db, c.ref, c.now);
      var b := Backend.Published(db.attempts[c.ref.attempt], c.publication, c.ref);
      PublishedStays(db.attempts[c.ref.attempt], c.publication, c.ref);
      UpdateApart(db, c.ref, b);
      FinishApart(db, db.(attempts := db.attempts[c.ref.attempt := b]), c.ref, KeyOf(c));
    }
  }

  lemma RequireLiveApart(db: Db, ref: Ref, now: int)
    requires ref.attempt in db.attempts && ref.sandbox in db.resources
    ensures Apart(db, RequireLive(db, db.attempts[ref.attempt], Some(ref.sandbox), now).After(db), ref)
    ensures RequireLive(db, db.attempts[ref.attempt], Some(ref.sandbox), now).Done? ==>
      RequireLive(db, db.attempts[ref.attempt], Some(ref.sandbox), now).db == db
  {
  }

  lemma MoveApart(db: Db, c: Call)
    requires c.TransitionCall? && IsOwnCall(c, c.ref)
    ensures Apart(db, Answer(db, c).After(db), c.ref)
  {
    hide RequireLive, Finish, Apart, Moved, MayMove, MoveOk;
    SameApart(db, c.ref);
    if Binding(db, c.ref, true).Allow? && Observed(db, c.ref).Allow? {
      var a, r := db.attempts[c.ref.attempt], db.resources[c.ref.sandbox];
      RequireLiveApart(db, c.ref, c.now);
      var s := Moved(r, c.move, c.now >= r.expiresAt || a.expiry);
      MovedStays(r, c.move, c.now >= r.expiresAt || a.expiry);
      InsertApart(db, c.ref, s);
      FinishApart(db, db.(resources := db.resources[c.ref.sandbox := s]), c.ref, KeyOf(c));
    }
  }

  /** Nobody else calls the store. */
  ghost predicate IsQuiet(schedule: Schedule) {
    forall t: nat :: schedule(t).others == []
  }

  lemma ServeApart(w: World, schedule: Schedule)
    requires IsQuiet(schedule)
    ensures Serve(w, schedule).db == w.db
  {
  }

  lemma TransactApart(w: World, schedule: Schedule, c: Call, ref: Ref)
    requires IsQuiet(schedule) && IsOwnCall(c, ref)
    ensures HasReceipt(c) && Apart(w.db, Transact(w, schedule, c).0.db, ref)
  {
    hide IsQuiet, Answer, Apart, Proper, FreshIds, Honest;
    ServeApart(w, schedule);
    SameApart(w.db, ref);
    match c
    case AcceptCall(_, _, _, _, _) => AcceptApart(w.db, c);
    case PublishCall(_, _, _, _, _, _, _) => PublishApart(w.db, c);
    case TransitionCall(_, _, _, _, _, _, _) => MoveApart(w.db, c);
  }

  lemma StepAndLookApart(w: World, schedule: Schedule, o: Orchestrator, phase: Phase, ref: Ref, version: nat, m: Move)
    requires IsQuiet(schedule) && m.state != Destroyed
    ensures Apart(w.db, StepAndLook(w, schedule, o, phase, ref, version, m).0.db, ref)
  {
    hide IsQuiet, Apart, Transact, Serve, Inspect;
    var c := MoveCall(o, phase, ref, version, m, schedule(w.tick));
    TransactApart(w, schedule, c, ref);
    ServeApart(Transact(w, schedule, c).0, schedule);
  }

  lemma ReadinessApart(w: World, schedule: Schedule, o: Orchestrator, receipt: Receipt)
    requires IsQuiet(schedule)
    ensures Apart(w.db, PublishReadiness(w, schedule, o, receipt).0.db, receipt.ref)
  {
    hide IsQuiet, Apart, Transact;
    TransactApart(w, schedule, ReadinessCall(w, schedule, o, receipt), receipt.ref);
  }

  lemma FailApart(w: World, schedule: Schedule, o: Orchestrator, receipt: Receipt, row: Resource, phase: Phase, error: ErrorCode)
    requires IsQuiet(schedule)
    ensures Apart(w.db, Fail(w, schedule, o, receipt, row, phase, error).0.db, receipt.ref)
  {
    hide IsQuiet, Apart, Transact;
    var m := Move(State.Failed, None, None, Some(FailureCode(error, phase)));
    var c := MoveCall(o, phase, receipt.ref, row.version, m, schedule(w.tick));
    TransactApart(w, schedule, c, receipt.ref);
    var failed := Transact(w, schedule, c).0;
    var d := PublicationCall(o, ResetFailedPhase, FailReset, receipt, schedule(failed.tick));
    TransactApart(failed, schedule, d, receipt.ref);
    ApartTwice(w.db, failed.db, Transact(failed, schedule, d).0.db, receipt.ref);
  }

  lemma AskApart(w: World, schedule: Schedule, question: Question)
    requires IsQuiet(schedule)
    ensures AskRuntime(w, schedule, question).0.db == w.db
  {
    hide IsQuiet, Serve;
    ServeApart(w, schedule);
  }

  lemma ConcludeApart(w: World, schedule: Schedule, o: Orchestrator, receipt: Receipt, row: Resource, evidence: Digest)
    requires IsQuiet(schedule)
    ensures Apart(w.db, Conclude(w, schedule, o, receipt, row, evidence).0.db, receipt.ref)
  {
    hide IsQuiet, Apart, AskRuntime, Fail, StepAndLook, PublishReadiness;
    AskApart(w, schedule, CloseQuestion(receipt.ref));
    var (closed, answer) := AskRuntime(w, schedule, CloseQuestion(receipt.ref));
    if answer.Fault? {
      FailApart(closed, schedule, o, receipt, row, CreateFailedPhase, answer.error);
    } else {
      var m := Move(Ready, None, Some(evidence), None);
      StepAndLookApart(closed, schedule, o, ReadyPhase, receipt.ref, row.version, m);
      var ready := StepAndLook(closed, schedule, o, ReadyPhase, receipt.ref, row.version, m).0;
      ReadinessApart(ready, schedule, o, receipt);
      ApartTwice(w.db, ready.db, PublishReadiness(ready, schedule, o, receipt).0.db, receipt.ref);
    }
  }

  lemma StartApart(w: World, schedule: Schedule, o: Orchestrator, receipt: Receipt, row: Resource, container: ContainerId)
    requires IsQuiet(schedule)
    ensures Apart(w.db, Start(w, schedule, o, receipt, row, container).0.db, receipt.ref)
  {
    hide IsQuiet, Apart, AskRuntime, Fail, Conclude;
    AskApart(w, schedule, StartQuestion(receipt.ref, container));
    var (started, answer) := AskRuntime(w, schedule, StartQuestion(receipt.ref, container));
    if !answer.Evidence? {
      FailApart(started, schedule, o, receipt, row, StartFailedPhase, ErrorOf(answer));
    } else if !o.bootstraps {
      ConcludeApart(started, schedule, o, receipt, row, answer.digest);
    } else {
      AskApart(started, schedule, BootstrapQuestion(receipt.ref, container));
      var (booted, observation) := AskRuntime(started, schedule, BootstrapQuestion(receipt.ref, container));
      if !observation.Evidence? {
        FailApart(booted, schedule, o, receipt, row, BootstrapFailedPhase, ErrorOf(observation));
      } else {
        ConcludeApart(booted, schedule, o, receipt, row, observation.digest);
      }
    }
  }

  lemma RunRuntimeApart(w: World, schedule: Schedule, o: Orchestrator, receipt: Receipt, row: Resource)
    requires IsQuiet(schedule)
    ensures Apart(w.db, RunRuntime(w, schedule, o, receipt, row).0.db, receipt.ref)
  {
    hide IsQuiet, Apart, AskRuntime, Fail, StepAndLook, Start;
    AskApart(w, schedule, OpenQuestion(receipt.ref));
    var (begun, session) := AskRuntime(w, schedule, OpenQuestion(receipt.ref));
    if session.Fault? {
      FailApart(begun, schedule, o, receipt, row, CreateFailedPhase, session.error);
    } else {
      AskApart(begun, schedule, CreateQuestion(receipt.ref, row));
      var (created, answer) := AskRuntime(begun, schedule, CreateQuestion(receipt.ref, row));
      if !answer.Created? {
        FailApart(created, schedule, o, receipt, row, CreateFailedPhase, ErrorOf(answer));
      } else {
        var m := Move(Starting, Some(answer.container), None, None);
        StepAndLookApart(created, schedule, o, StartingPhase, receipt.ref, row.version, m);
        var (starting, next) := StepAndLook(created, schedule, o, StartingPhase, receipt.ref, row.version, m);
        if next.Allow? {
          StartApart(starting, schedule, o, receipt, next.value, answer.container);
          ApartTwice(w.db, starting.db, Start(starting, schedule, o, receipt, next.value, answer.container).0.db, receipt.ref);
        }
      }
    }
  }

  /** Provisioning that nobody disturbs changes nothing but its own tuple's rows. */
  lemma ProvisionApart(w: World, schedule: Schedule, o: Orchestrator, receipt: Receipt)
    requires IsQuiet(schedule)
    ensures Apart(w.db, Provision(w, schedule, o, receipt).0.db, receipt.ref)
  {
    hide IsQuiet, Apart, Transact, Serve, Inspect, Binding, StepAndLook, RunRuntime, PublishReadiness;
    SameApart(w.db, receipt.ref);
    var c := AcceptingCall(o, receipt, schedule(w.tick));
    TransactApart(w, schedule, c, receipt.ref);
    var (accepted, reply) := Transact(w, schedule, c);
    ServeApart(accepted, schedule);
    var looked := Serve(accepted, schedule);
    ReadinessApart(looked, schedule, o, receipt);
    ApartTwice(w.db, looked.db, PublishReadiness(looked, schedule, o, receipt).0.db, receipt.ref);
    ServeApart(looked, schedule);
    var roomed := Serve(looked, schedule);
    if reply.Allow? {
      var m := Move(Creating, None, None, None);
      StepAndLookApart(roomed, schedule, o, CreatingPhase, receipt.ref, reply.value.version, m);
      var (creating, row) := StepAndLook(roomed, schedule, o, CreatingPhase, receipt.ref, reply.value.version, m);
      ApartTwice(w.db, roomed.db, creating.db, receipt.ref);
      if row.Allow? {
        RunRuntimeApart(creating, schedule, o, receipt, row.value);
        ApartTwice(w.db, creating.db, RunRuntime(creating, schedule, o, receipt, row.value).0.db, receipt.ref);
      }
    }
  }

  // ----- which listed resets are resumed -----

  /** The provisioner's identity when it resumes the receipt. */
  function Resumer(o: Orchestrator, receipt: Receipt): Orchestrator {
    o.(root := ResumeRoot(receipt.operation))
  }

  function ResumptionKey(o: Orchestrator, receipt: Receipt): OpKey {
    OpKey(BackendActor(o.backend), PhaseKey(ResumeRoot(receipt.operation), AcceptPhase, receipt.ref, receipt.version))
  }

  /** A reset to resume: its reservation lives, and the new sandbox has no row or a row that
      is REQUESTED or READY. */
  ghost predicate IsWaiting(db: Db, receipt: Receipt) {
    && Reserved(db, receipt) && receipt.state == Resetting
    && (receipt.ref.sandbox in db.resources ==>
          var row := db.resources[receipt.ref.sandbox];
          Observed(db, receipt.ref) == Allow(row) && !row.destroy && (row.state == Requested || row.state == Ready))
  }

  /** The new sandbox was accepted under another key than the one resumption derives. */
  ghost predicate IsForeign(db: Db, o: Orchestrator, receipt: Receipt) {
    receipt.ref.sandbox in db.resources && ResumptionKey(o, receipt) !in db.operations
  }

  lemma EarlierDeadline(schedule: Schedule, deadline: int, later: int)
    requires Undisturbed(schedule, deadline) && deadline <= later
    ensures Undisturbed(schedule, later) && IsQuiet(schedule)
  {
  }

  /** One reset: a foreign one stops the program and changes nothing; any other is
      published, or the runtime failed it. */
  lemma OneResumes(w: World, schedule: Schedule, o: Orchestrator, receipt: Receipt, deadline: int)
    requires Healthy(w) && IsWaiting(w.db, receipt) && Provision(w, schedule, Resumer(o, receipt), receipt).0.legal
    requires Undisturbed(schedule, deadline) && deadline <= w.db.attempts[receipt.ref.attempt].expiresAt
    ensures var (later, ending) := Provision(w, schedule, Resumer(o, receipt), receipt);
      && Healthy(later) && Apart(w.db, later.db, receipt.ref)
      && if IsForeign(w.db, o, receipt) then ending == Stopped(ResourceExists) && later.db == w.db
         else (ending.Published? || ending.RuntimeFailed?) && Ended(later.db, receipt, ending)
  {
    hide Intact, Grows, Provision, OldDestroyed, Undisturbed, IsQuiet, Apart;
    EarlierDeadline(schedule, deadline, w.db.attempts[receipt.ref.attempt].expiresAt);
    ProvisioningKeepsTheStoreSound(w, schedule, Resumer(o, receipt), receipt);
    ProvisionApart(w, schedule, Resumer(o, receipt), receipt);
    if IsForeign(w.db, o, receipt) {
      ForeignAcceptanceStops(w, schedule, Resumer(o, receipt), receipt);
    } else {
      UndisturbedProvisioningEnds(w, schedule, Resumer(o, receipt), receipt);
    }
  }

  /** A reset stays as it is while another attempt's is resumed. */
  lemma OtherWaits(before: Db, after: Db, ref: Ref, receipt: Receipt, o: Orchestrator)
    requires Core(before) && Apart(before, after, ref) && IsWaiting(before, receipt) && ref.attempt != receipt.ref.attempt
    requires ref.attempt in before.attempts && before.attempts[ref.attempt].sandbox == ref.sandbox
    ensures IsWaiting(after, receipt) && (IsForeign(after, o, receipt) <==> IsForeign(before, o, receipt))
    ensures RowsStay(before, after, receipt)
  {
    hide Core;
    SandboxesDiffer(before, ref.attempt, receipt.ref.attempt);
    AttemptIsShaped(before, ref.attempt);
    AttemptIsShaped(before, receipt.ref.attempt);
  }

  lemma SandboxesDiffer(db: Db, id: AttemptId, other: AttemptId)
    requires Core(db) && id in db.attempts && other in db.attempts && id != other
    ensures db.attempts[id].sandbox != db.attempts[other].sandbox
  {
  }

  ghost predicate AllWait(db: Db, receipts: seq<Receipt>, deadline: int) {
    forall i | 0 <= i < |receipts| ::
      IsWaiting(db, receipts[i]) && deadline <= db.attempts[receipts[i].ref.attempt].expiresAt
  }

  ghost predicate DistinctAttempts(receipts: seq<Receipt>) {
    forall i, j | 0 <= i < j < |receipts| :: receipts[i].ref.attempt != receipts[j].ref.attempt
  }

  lemma OthersWait(before: Db, after: Db, o: Orchestrator, receipts: seq<Receipt>, deadline: int)
    requires receipts != [] && AllWait(before, receipts, deadline) && DistinctAttempts(receipts)
    requires Core(before) && Apart(before, after, receipts[0].ref)
    ensures AllWait(after, receipts[1..], deadline) && DistinctAttempts(receipts[1..])
    ensures forall j | 0 < j < |receipts| :: RowsStay(before, after, receipts[j])
    ensures forall j | 0 < j < |receipts| :: IsForeign(after, o, receipts[j]) <==> IsForeign(before, o, receipts[j])
  {
    hide Core, Apart, OldDestroyed, IsForeign;
    WaitingIsCurrent(before, receipts[0]);
    forall j | 0 < j < |receipts|
      ensures IsWaiting(after, receipts[j]) && RowsStay(before, after, receipts[j])
      ensures IsForeign(after, o, receipts[j]) <==> IsForeign(before, o, receipts[j])
    {
      OtherWaits(before, after, receipts[0].ref, receipts[j], o);
      WaitingIsCurrent(before, receipts[j]);
    }
    forall i | 0 <= i < |receipts[1..]|
      ensures IsWaiting(after, receipts[1..][i]) && deadline <= after.attempts[receipts[1..][i].ref.attempt].expiresAt
    {
      assert receipts[1..][i] == receipts[i + 1];
      assert RowsStay(before, after, receipts[i + 1]);
      WaitingIsCurrent(before, receipts[i + 1]);
    }
  }

  lemma WaitingIsCurrent(db: Db, receipt: Receipt)
    requires IsWaiting(db, receipt)
    ensures receipt.ref.attempt in db.attempts && db.attempts[receipt.ref.attempt].sandbox == receipt.ref.sandbox
  {
  }

  /** The reset's attempt and its new sandbox are as before. */
  ghost predicate RowsStay(before: Db, after: Db, receipt: Receipt) {
    && (receipt.ref.attempt in before.attempts <==> receipt.ref.attempt in after.attempts)
    && (receipt.ref.attempt in before.attempts ==> after.attempts[receipt.ref.attempt] == before.attempts[receipt.ref.attempt])
    && (receipt.ref.sandbox in before.resources <==> receipt.ref.sandbox in after.resources)
    && (receipt.ref.sandbox in before.resources ==> after.resources[receipt.ref.sandbox] == before.resources[receipt.ref.sandbox])
  }

  /** How the last provisioning of a resumption ended. */
  ghost function LastEnding(w: World, schedule: Schedule, o: Orchestrator, receipts: seq<Receipt>): Ending
    decreases |receipts|
  {
    if receipts == [] then Ending.Published
    else
      var (after, ending) := Provision(w, schedule, Resumer(o, receipts[0]), receipts[0]);
      if ending != Ending.Published then ending else LastEnding(after, schedule, o, receipts[1..])
  }

  ghost predicate NoneForeign(db: Db, o: Orchestrator, receipts: seq<Receipt>) {
    forall i | 0 <= i < |receipts| :: !IsForeign(db, o, receipts[i])
  }

  lemma NoneForeignRest(before: Db, after: Db, o: Orchestrator, receipts: seq<Receipt>)
    requires receipts != []
    requires forall j | 0 < j < |receipts| :: IsForeign(after, o, receipts[j]) <==> IsForeign(before, o, receipts[j])
    ensures NoneForeign(before, o, receipts) <==> !IsForeign(before, o, receipts[0]) && NoneForeign(after, o, receipts[1..])
  {
    hide IsForeign;
    if !IsForeign(before, o, receipts[0]) && NoneForeign(after, o, receipts[1..]) {
      forall i | 0 <= i < |receipts|
        ensures !IsForeign(before, o, receipts[i])
      {
        if i > 0 {
          assert !IsForeign(after, o, receipts[1..][i - 1]);
        }
      }
    } else if NoneForeign(before, o, receipts) {
      forall i | 0 <= i < |receipts[1..]|
        ensures !IsForeign(after, o, receipts[1..][i])
      {
        assert receipts[1..][i] == receipts[i + 1];
      }
    }
  }

  lemma ResumeAllLegal(w: World, schedule: Schedule, o: Orchestrator, receipts: seq<Receipt>)
    requires receipts != [] && ResumeAll(w, schedule, o, receipts).0.legal
    ensures Provision(w, schedule, Resumer(o, receipts[0]), receipts[0]).0.legal
  {
    hide Provision, Intact, Grows;
    var (after, ending) := Provision(w, schedule, Resumer(o, receipts[0]), receipts[0]);
    if ending == Ending.Published {
      ResumeAllLeads(after, schedule, o, receipts[1..]);
    }
  }

  /** Exactly when an undisturbed resumption is complete, unless the runtime failed a
      sandbox: when no reset in the list was accepted under another key. Nothing else in the
      store ever stops it. */
  lemma {:induction false} ResumptionCompletesExactly(w: World, schedule: Schedule, o: Orchestrator, receipts: seq<Receipt>, deadline: int)
    requires Healthy(w) && Undisturbed(schedule, deadline) && ResumeAll(w, schedule, o, receipts).0.legal
    requires AllWait(w.db, receipts, deadline) && DistinctAttempts(receipts)
    ensures ResumeAll(w, schedule, o, receipts).1 <==> LastEnding(w, schedule, o, receipts) == Ending.Published
    ensures LastEnding(w, schedule, o, receipts).RuntimeFailed?
      || (ResumeAll(w, schedule, o, receipts).1 <==> NoneForeign(w.db, o, receipts))
    ensures LastEnding(w, schedule, o, receipts).Stopped? ==> LastEnding(w, schedule, o, receipts) == Stopped(ResourceExists)
    decreases |receipts|
  {
    hide Intact, Grows, Provision, Undisturbed, Apart, IsForeign, IsWaiting, NoneForeign, Ended;
    if receipts == [] {
      assert NoneForeign(w.db, o, []) by { NoneInNothing(w.db, o); }
    } else {
      var (after, ending) := Provision(w, schedule, Resumer(o, receipts[0]), receipts[0]);
      ResumeAllLegal(w, schedule, o, receipts);
      OneResumes(w, schedule, o, receipts[0], deadline);
      HealthyIsCore(w);
      OthersWait(w.db, after.db, o, receipts, deadline);
      NoneForeignRest(w.db, after.db, o, receipts);
      if ending == Ending.Published {
        ResumptionCompletesExactly(after, schedule, o, receipts[1..], deadline);
      }
    }
  }

  lemma NoneInNothing(db: Db, o: Orchestrator)
    ensures NoneForeign(db, o, [])
  {
  }

  lemma HealthyIsCore(w: World)
    requires Healthy(w)
    ensures Core(w.db)
  {
  }

  /** A foreign reset starves every reset that is listed after it: the pass is not complete,
      and neither the foreign one nor any later one changes. */
  lemma {:induction false} ForeignStarvesTheRest(w: World, schedule: Schedule, o: Orchestrator, receipts: seq<Receipt>, deadline: int,
                                                 i: nat, j: nat)
    requires Healthy(w) && Undisturbed(schedule, deadline) && ResumeAll(w, schedule, o, receipts).0.legal
    requires AllWait(w.db, receipts, deadline) && DistinctAttempts(receipts)
    requires i <= j < |receipts| && IsForeign(w.db, o, receipts[i])
    ensures !ResumeAll(w, schedule, o, receipts).1 && RowsStay(w.db, ResumeAll(w, schedule, o, receipts).0.db, receipts[j])
    decreases |receipts|
  {
    hide Intact, Grows, Provision, Undisturbed, Apart, IsForeign, IsWaiting, Ended;
    var (after, ending) := Provision(w, schedule, Resumer(o, receipts[0]), receipts[0]);
    ResumeAllLegal(w, schedule, o, receipts);
    OneResumes(w, schedule, o, receipts[0], deadline);
    HealthyIsCore(w);
    OthersWait(w.db, after.db, o, receipts, deadline);
    if i > 0 && ending == Ending.Published {
      assert receipts[1..][i - 1] == receipts[i] && receipts[1..][j - 1] == receipts[j];
      ForeignStarvesTheRest(after, schedule, o, receipts[1..], deadline, i - 1, j - 1);
    }
  }

  // ----- what resumption achieves -----

  ghost predicate IsNamedBy(receipts: seq<Receipt>, id: AttemptId) {
    exists i :: 0 <= i < |receipts| && receipts[i].ref.attempt == id
  }

  lemma NamedInRest(receipts: seq<Receipt>, id: AttemptId)
    requires receipts != [] && !IsNamedBy(receipts, id)
    ensures receipts[0].ref.attempt != id && !IsNamedBy(receipts[1..], id)
  {
    forall i | 0 <= i < |receipts[1..]|
      ensures receipts[1..][i].ref.attempt != id
    {
      assert receipts[1..][i] == receipts[i + 1];
    }
  }

  lemma OtherStays(before: Db, after: Db, ref: Ref, other: Receipt)
    requires Core(before) && Apart(before, after, ref) && ref.attempt != other.ref.attempt
    requires ref.attempt in before.attempts && before.attempts[ref.attempt].sandbox == ref.sandbox
    requires other.ref.attempt in before.attempts && before.attempts[other.ref.attempt].sandbox == other.ref.sandbox
    ensures RowsStay(before, after, other)
  {
    hide Core;
    SandboxesDiffer(before, ref.attempt, other.ref.attempt);
  }

  /** A resumption leaves every attempt that it does not name, and its current sandbox. */
  lemma {:induction false} ResumptionSpares(w: World, schedule: Schedule, o: Orchestrator, receipts: seq<Receipt>, deadline: int, other: Receipt)
    requires Healthy(w) && Undisturbed(schedule, deadline) && ResumeAll(w, schedule, o, receipts).0.legal
    requires AllWait(w.db, receipts, deadline) && DistinctAttempts(receipts)
    requires !IsNamedBy(receipts, other.ref.attempt)
    requires other.ref.attempt in w.db.attempts && w.db.attempts[other.ref.attempt].sandbox == other.ref.sandbox
    ensures RowsStay(w.db, ResumeAll(w, schedule, o, receipts).0.db, other)
    decreases |receipts|
  {
    hide Intact, Grows, Provision, Undisturbed, Apart, IsForeign, IsWaiting, IsNamedBy, Ended;
    if receipts != [] {
      var (after, ending) := Provision(w, schedule, Resumer(o, receipts[0]), receipts[0]);
      ResumeAllLegal(w, schedule, o, receipts);
      OneResumes(w, schedule, o, receipts[0], deadline);
      HealthyIsCore(w);
      NamedInRest(receipts, other.ref.attempt);
      WaitingIsCurrent(w.db, receipts[0]);
      OtherStays(w.db, after.db, receipts[0].ref, other);
      OthersWait(w.db, after.db, o, receipts, deadline);
      if ending == Ending.Published {
        ResumptionSpares(after, schedule, o, receipts[1..], deadline, other);
      }
    }
  }

  lemma EndedStays(before: Db, after: Db, receipt: Receipt, ending: Ending)
    requires Ended(before, receipt, ending) && RowsStay(before, after, receipt)
    ensures Ended(after, receipt, ending)
  {
  }

  lemma FirstIsNotNamedLater(receipts: seq<Receipt>)
    requires receipts != [] && DistinctAttempts(receipts)
    ensures !IsNamedBy(receipts[1..], receipts[0].ref.attempt)
  {
    forall i | 0 <= i < |receipts[1..]|
      ensures receipts[1..][i].ref.attempt != receipts[0].ref.attempt
    {
      assert receipts[1..][i] == receipts[i + 1];
    }
  }

  lemma PublishedIsCurrent(db: Db, receipt: Receipt)
    requires Ended(db, receipt, Ending.Published)
    ensures receipt.ref.attempt in db.attempts && db.attempts[receipt.ref.attempt].sandbox == receipt.ref.sandbox
  {
  }

  /** Every reset in the list that no foreign one precedes is published: its room is READY
      on the new sandbox, which is READY and not torn down, unless the runtime failed. */
  lemma {:induction false} ResumptionPublishes(w: World, schedule: Schedule, o: Orchestrator, receipts: seq<Receipt>, deadline: int, j: nat)
    requires Healthy(w) && Undisturbed(schedule, deadline) && ResumeAll(w, schedule, o, receipts).0.legal
    requires AllWait(w.db, receipts, deadline) && DistinctAttempts(receipts)
    requires j < |receipts| && forall i | 0 <= i <= j :: !IsForeign(w.db, o, receipts[i])
    ensures LastEnding(w, schedule, o, receipts).RuntimeFailed?
      || Ended(ResumeAll(w, schedule, o, receipts).0.db, receipts[j], Ending.Published)
    decreases |receipts|
  {
    hide Intact, Grows, Provision, Undisturbed, Apart, IsForeign, IsWaiting, Ended, IsNamedBy;
    var (after, ending) := Provision(w, schedule, Resumer(o, receipts[0]), receipts[0]);
    ResumeAllLegal(w, schedule, o, receipts);
    OneResumes(w, schedule, o, receipts[0], deadline);
    HealthyIsCore(w);
    OthersWait(w.db, after.db, o, receipts, deadline);
    if ending == Ending.Published {
      if j == 0 {
        PublishedIsCurrent(after.db, receipts[0]);
        FirstIsNotNamedLater(receipts);
        ResumptionSpares(after, schedule, o, receipts[1..], deadline, receipts[0]);
        EndedStays(after.db, ResumeAll(after, schedule, o, receipts[1..]).0.db, receipts[0], ending);
      } else {
        assert receipts[1..][j - 1] == receipts[j];
        forall i | 0 <= i <= j - 1
          ensures !IsForeign(after.db, o, receipts[1..][i])
        {
          assert receipts[1..][i] == receipts[i + 1];
        }
        ResumptionPublishes(after, schedule, o, receipts[1..], deadline, j - 1);
      }
    }
  }

  // ----- pending finalizations -----

  lemma ResumedIsNotPending(before: Db, after: Db, receipt: Receipt)
    requires Core(before) && IsWaiting(before, receipt) && Apart(before, after, receipt.ref)
    ensures FinalizationRows(after) <= FinalizationRows(before)
    ensures forall id | Finishable(before, id) :: Finishable(after, id)
  {
    hide Core, Apart, IsWaiting;
    forall id | id in after.attempts && AwaitsFinalization(after, id)
      ensures AwaitsFinalization(before, id) && after.attempts[id] == before.attempts[id]
    {
      PendingWasPending(before, after, receipt, id);
    }
    forall id | Finishable(before, id)
      ensures Finishable(after, id)
    {
      StaysFinishable(before, after, receipt, id);
    }
  }

  lemma PendingWasPending(before: Db, after: Db, receipt: Receipt, id: AttemptId)
    requires Core(before) && IsWaiting(before, receipt) && Apart(before, after, receipt.ref)
    requires AwaitsFinalization(after, id)
    ensures AwaitsFinalization(before, id) && after.attempts[id] == before.attempts[id]
  {
    hide Core;
    WaitingIsCurrent(before, receipt);
    if id != receipt.ref.attempt {
      SandboxesDiffer(before, id, receipt.ref.attempt);
    }
  }

  lemma StaysFinishable(before: Db, after: Db, receipt: Receipt, id: AttemptId)
    requires Core(before) && IsWaiting(before, receipt) && Apart(before, after, receipt.ref) && Finishable(before, id)
    ensures Finishable(after, id)
  {
    hide Core;
    WaitingIsCurrent(before, receipt);
    if id != receipt.ref.attempt {
      SandboxesDiffer(before, id, receipt.ref.attempt);
    }
  }

  /** A resumption makes no attempt wait for its finalization, and every one that is ready to
      be finalized stays ready. */
  lemma {:induction false} ResumptionLeavesPending(w: World, schedule: Schedule, o: Orchestrator, receipts: seq<Receipt>, deadline: int)
    requires Healthy(w) && Undisturbed(schedule, deadline) && ResumeAll(w, schedule, o, receipts).0.legal
    requires AllWait(w.db, receipts, deadline) && DistinctAttempts(receipts)
    ensures var later := ResumeAll(w, schedule, o, receipts).0;
      && FinalizationRows(later.db) <= FinalizationRows(w.db)
      && forall id | Finishable(w.db, id) :: Finishable(later.db, id)
    decreases |receipts|
  {
    hide Intact, Grows, Provision, Undisturbed, Apart, IsForeign, IsWaiting, Finishable, FinalizationRows, Ended;
    if receipts != [] {
      var (after, ending) := Provision(w, schedule, Resumer(o, receipts[0]), receipts[0]);
      ResumeAllLegal(w, schedule, o, receipts);
      OneResumes(w, schedule, o, receipts[0], deadline);
      HealthyIsCore(w);
      ResumedIsNotPending(w.db, after.db, receipts[0]);
      OthersWait(w.db, after.db, o, receipts, deadline);
      if ending == Ending.Published {
        ResumptionLeavesPending(after, schedule, o, receipts[1..], deadline);
      }
    }
  }

  // ----- a foreign reset stays one -----

  lemma NotAcceptedAgain(db: Db, c: Call)
    requires c.AcceptCall? && c.ref.sandbox in db.resources && KeyOf(c) !in db.operations
    ensures !Answer(db, c).Done?
  {
    hide Finish, RequireLive, OldDestroyed;
  }

  lemma ForeignAfterCall(db: Db, c: Call, o: Orchestrator, receipt: Receipt)
    requires Intact(db) && FreshIds(db, c) && Honest(c) && IsForeign(db, o, receipt)
    ensures IsForeign(Step(db, c), o, receipt)
  {
    hide Inv, KeysOk, FreshIds, Step, AttemptsGrow, LogGrows, RecordsKept, LogsAtMost, SameReceipts;
    CallKeepsIntact(db, c);
    ResourcesStay(db, Step(db, c), receipt.ref.sandbox);
    var k := ResumptionKey(o, receipt);
    if HasReceipt(c) {
      if KeyOf(c) == k {
        NotAcceptedAgain(db, c);
        OneKeyStaysOut(db, c);
      } else {
        CallLogsItsOwnRequest(db, c);
        OtherKeyStaysOut(db, k, c);
      }
    } else {
      OtherCallsLogNoReceipt(db, c);
      ReceiptStaysOut(db, Step(db, c), k);
    }
  }

  lemma ResourcesStay(before: Db, after: Db, s: SandboxId)
    requires Grows(before, after) && s in before.resources
    ensures s in after.resources
  {
  }

  lemma OneKeyStaysOut(db: Db, c: Call)
    requires HasReceipt(c) && KeyOf(c) !in db.operations && !Answer(db, c).Done?
    ensures KeyOf(c) !in Step(db, c).operations
  {
    hide Apply, Answer;
    CallFailsCleanly(db, c);
  }

  lemma OtherKeyStaysOut(db: Db, k: OpKey, c: Call)
    requires HasReceipt(c) && LogsAtMost(db, KeyOf(c), RequestOf(c), Step(db, c))
    requires k != KeyOf(c) && k !in db.operations && k.actor != CleanupActor
    ensures k !in Step(db, c).operations
  {
    hide Step;
  }

  lemma ReceiptStaysOut(before: Db, after: Db, k: OpKey)
    requires SameReceipts(before, after) && k.actor != CleanupActor && k !in before.operations
    ensures k !in after.operations
  {
  }

  /** Whatever anybody does later, a foreign reset stays foreign: no later pass resumes it. */
  lemma {:induction false} ForeignForGood(db: Db, run: seq<Call>, o: Orchestrator, receipt: Receipt)
    requires Intact(db) && Proper(db, run) && IsForeign(db, o, receipt)
    ensures IsForeign(Run(db, run), o, receipt)
    decreases |run|
  {
    hide Intact, IsForeign, Step, FreshIds, Honest, Grows;
    if run != [] {
      ForeignAfterCall(db, run[0], o, receipt);
      CallKeepsIntact(db, run[0]);
      ForeignForGood(Step(db, run[0]), run[1..], o, receipt);
    }
  }

  // ----- the listed receipts -----

  /** What the listing returns are waiting resets of distinct attempts. */
  lemma ListedResetsWait(db: Db, limit: int, deadline: int)
    requires Inv(db) && LimitOk(limit)
    requires forall id | AwaitsResetProvisioning(db, id) :: deadline <= db.attempts[id].expiresAt
    ensures var receipts := ResetReceipts(db, Select(ResetRows(db), limit));
      AllWait(db, receipts, deadline) && DistinctAttempts(receipts)
  {
    hide Inv, ResetRows, Select, AwaitsResetProvisioning, Reserved, Observed;
    var rows := Select(ResetRows(db), limit);
    var receipts := ResetReceipts(db, rows);
    forall i | 0 <= i < |receipts|
      ensures IsWaiting(db, receipts[i]) && deadline <= db.attempts[receipts[i].ref.attempt].expiresAt
    {
      ListedReceiptIsReserved(db, limit, i);
      ListedResetsAwait(db, limit, i);
      AwaitingWaits(db, receipts[i]);
    }
    forall i, j | 0 <= i < j < |receipts|
      ensures receipts[i].ref.attempt != receipts[j].ref.attempt
    {
      ListedResetsAwait(db, limit, i);
      OneRowEach(db, rows[i], rows[j]);
    }
  }

  lemma OneRowEach(db: Db, x: Row, y: Row)
    requires Inv(db) && x in ResetRows(db) && y in ResetRows(db) && AwaitsResetProvisioning(db, x.attempt)
    ensures x.attempt == y.attempt ==> x == y
  {
    hide Inv, ResetRows, AwaitsResetProvisioning;
    var only := ResetIsListedOnce(db, x.attempt);
    if x.attempt == y.attempt {
      assert x in RowsOf(db, x.attempt) && y in RowsOf(db, x.attempt);
    }
  }

  lemma AwaitingWaits(db: Db, receipt: Receipt)
    requires Inv(db) && Reserved(db, receipt) && receipt.state == Resetting
    requires AwaitsResetProvisioning(db, receipt.ref.attempt)
    ensures IsWaiting(db, receipt) && receipt.ref.attempt in db.attempts
  {
    hide LogOk, LedgerOk, AccessOk, ResetsOk, Core, CleanlyDestroyed, OldDestroyed;
    var s := receipt.ref.sandbox;
    AttemptIsShaped(db, receipt.ref.attempt);
    if s in db.resources {
      ResourceIsShaped(db, s);
    }
  }
}
