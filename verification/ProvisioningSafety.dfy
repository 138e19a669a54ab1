/** Write-ahead provisioning: what holds at every crash point, whatever happens around. */
module ProvisioningSafety {
  import opened Records
  import opened Common
  import opened ControlPlane
  import opened Runs
  import opened Invariant
  import opened Preservation
  import opened Log
  import opened Reachable
  import opened Idempotence
  import opened Keys
  import opened Worlds
  import opened Provisioning
  import opened Success
  import opened CleanupTermination

  // ----- provisioning only makes store calls -----

  lemma PublishReadinessLeads(w: World, schedule: Schedule, o: Orchestrator, receipt: Receipt)
    ensures Leads(w, PublishReadiness(w, schedule, o, receipt).0)
  {
    hide Leads, Transact;
    var p := if receipt.state == Provisioning then PublishReady else PublishResetReady;
    TransactLeads(w, schedule, PublicationCall(o, PublishPhase, p, receipt, schedule(w.tick)));
  }

  lemma StepAndLookLeads(w: World, schedule: Schedule, o: Orchestrator, phase: Phase, ref: Ref, version: nat, m: Move)
    ensures Leads(w, StepAndLook(w, schedule, o, phase, ref, version, m).0)
  {
    hide Leads, Transact, Serve;
    var c := MoveCall(o, phase, ref, version, m, schedule(w.tick));
    TransactLeads(w, schedule, c);
    var moved := Transact(w, schedule, c).0;
    ServeLeads(moved, schedule);
    LeadsOn(w, moved, Serve(moved, schedule));
  }

  lemma FailLeads(w: World, schedule: Schedule, o: Orchestrator, receipt: Receipt, row: Resource, phase: Phase, error: ErrorCode)
    ensures Leads(w, Fail(w, schedule, o, receipt, row, phase, error).0)
  {
    hide Leads, Transact;
    var m := Move(State.Failed, None, None, Some(FailureCode(error, phase)));
    var c := MoveCall(o, phase, receipt.ref, row.version, m, schedule(w.tick));
    TransactLeads(w, schedule, c);
    var failed := Transact(w, schedule, c).0;
    var d := PublicationCall(o, ResetFailedPhase, FailReset, receipt, schedule(failed.tick));
    TransactLeads(failed, schedule, d);
    LeadsOn(w, failed, Transact(failed, schedule, d).0);
  }

  lemma ConcludeLeads(w: World, schedule: Schedule, o: Orchestrator, receipt: Receipt, row: Resource, evidence: Digest)
    ensures Leads(w, Conclude(w, schedule, o, receipt, row, evidence).0)
  {
    hide Leads, AskRuntime, Fail, StepAndLook, PublishReadiness;
    AskLeads(w, schedule, CloseQuestion(receipt.ref));
    var (closed, answer) := AskRuntime(w, schedule, CloseQuestion(receipt.ref));
    if answer.Fault? {
      FailLeads(closed, schedule, o, receipt, row, CreateFailedPhase, answer.error);
      LeadsOn(w, closed, Fail(closed, schedule, o, receipt, row, CreateFailedPhase, answer.error).0);
    } else {
      var m := Move(Ready, None, Some(evidence), None);
      StepAndLookLeads(closed, schedule, o, ReadyPhase, receipt.ref, row.version, m);
      var ready := StepAndLook(closed, schedule, o, ReadyPhase, receipt.ref, row.version, m).0;
      LeadsOn(w, closed, ready);
      PublishReadinessLeads(ready, schedule, o, receipt);
      LeadsOn(w, ready, PublishReadiness(ready, schedule, o, receipt).0);
    }
  }

  lemma StartLeads(w: World, schedule: Schedule, o: Orchestrator, receipt: Receipt, row: Resource, container: ContainerId)
    ensures Leads(w, Start(w, schedule, o, receipt, row, container).0)
  {
    hide Leads, AskRuntime, Fail, Conclude;
    AskLeads(w, schedule, StartQuestion(receipt.ref, container));
    var (started, answer) := AskRuntime(w, schedule, StartQuestion(receipt.ref, container));
    if !answer.Evidence? {
      FailLeads(started, schedule, o, receipt, row, StartFailedPhase, ErrorOf(answer));
      LeadsOn(w, started, Fail(started, schedule, o, receipt, row, StartFailedPhase, ErrorOf(answer)).0);
    } else if !o.bootstraps {
      ConcludeLeads(started, schedule, o, receipt, row, answer.digest);
      LeadsOn(w, started, Conclude(started, schedule, o, receipt, row, answer.digest).0);
    } else {
      AskLeads(started, schedule, BootstrapQuestion(receipt.ref, container));
      var (booted, observation) := AskRuntime(started, schedule, BootstrapQuestion(receipt.ref, container));
      LeadsOn(w, started, booted);
      if !observation.Evidence? {
        FailLeads(booted, schedule, o, receipt, row, BootstrapFailedPhase, ErrorOf(observation));
        LeadsOn(w, booted, Fail(booted, schedule, o, receipt, row, BootstrapFailedPhase, ErrorOf(observation)).0);
      } else {
        ConcludeLeads(booted, schedule, o, receipt, row, observation.digest);
        LeadsOn(w, booted, Conclude(booted, schedule, o, receipt, row, observation.digest).0);
      }
    }
  }

  lemma RunRuntimeLeads(w: World, schedule: Schedule, o: Orchestrator, receipt: Receipt, row: Resource)
    ensures Leads(w, RunRuntime(w, schedule, o, receipt, row).0)
  {
    hide Leads, AskRuntime, Fail, StepAndLook, Start;
    AskLeads(w, schedule, OpenQuestion(receipt.ref));
    var (begun, session) := AskRuntime(w, schedule, OpenQuestion(receipt.ref));
    if session.Fault? {
      FailLeads(begun, schedule, o, receipt, row, CreateFailedPhase, session.error);
      LeadsOn(w, begun, Fail(begun, schedule, o, receipt, row, CreateFailedPhase, session.error).0);
    } else {
      AskLeads(begun, schedule, CreateQuestion(receipt.ref, row));
      var (created, answer) := AskRuntime(begun, schedule, CreateQuestion(receipt.ref, row));
      LeadsOn(w, begun, created);
      if !answer.Created? {
        FailLeads(created, schedule, o, receipt, row, CreateFailedPhase, ErrorOf(answer));
        LeadsOn(w, created, Fail(created, schedule, o, receipt, row, CreateFailedPhase, ErrorOf(answer)).0);
      } else {
        var m := Move(Starting, Some(answer.container), None, None);
        StepAndLookLeads(created, schedule, o, StartingPhase, receipt.ref, row.version, m);
        var (starting, next) := StepAndLook(created, schedule, o, StartingPhase, receipt.ref, row.version, m);
        LeadsOn(w, created, starting);
        if next.Allow? {
          StartLeads(starting, schedule, o, receipt, next.value, answer.container);
          LeadsOn(w, starting, Start(starting, schedule, o, receipt, next.value, answer.container).0);
        }
      }
    }
  }

  /** Provisioning, crashing anywhere, is a run of legal calls. */
  lemma ProvisioningKeepsTheStoreSound(w: World, schedule: Schedule, o: Orchestrator, receipt: Receipt)
    ensures Leads(w, Provision(w, schedule, o, receipt).0)
  {
    hide Leads, Transact, Serve, StepAndLook, RunRuntime, PublishReadiness, Binding;
    Stays(w);
    var c := AcceptingCall(o, receipt, schedule(w.tick));
    TransactLeads(w, schedule, c);
    var (accepted, reply) := Transact(w, schedule, c);
    var looked := Serve(accepted, schedule);
    ServeLeads(accepted, schedule);
    LeadsOn(w, accepted, looked);
    PublishReadinessLeads(looked, schedule, o, receipt);
    LeadsOn(w, looked, PublishReadiness(looked, schedule, o, receipt).0);
    var roomed := Serve(looked, schedule);
    ServeLeads(looked, schedule);
    LeadsOn(w, looked, roomed);
    if reply.Allow? {
      var m := Move(Creating, None, None, None);
      StepAndLookLeads(roomed, schedule, o, CreatingPhase, receipt.ref, reply.value.version, m);
      var (creating, row) := StepAndLook(roomed, schedule, o, CreatingPhase, receipt.ref, reply.value.version, m);
      LeadsOn(w, roomed, creating);
      if row.Allow? {
        RunRuntimeLeads(creating, schedule, o, receipt, row.value);
        LeadsOn(w, creating, RunRuntime(creating, schedule, o, receipt, row.value).0);
      }
    }
  }

  // ----- write-ahead -----

  ghost predicate StepCommitted(events: seq<Event>, ref: Ref, m: Move) {
    exists i :: 0 <= i < |events| && IsStepCommit(events[i], ref, m)
  }

  ghost predicate IsStepCommit(e: Event, ref: Ref, m: Move) {
    e.Committed? && e.call.TransitionCall? && e.call.ref == ref && e.call.move == m
  }

  ghost predicate WasObserved(events: seq<Event>, ref: Ref, digest: Digest) {
    exists i :: 0 <= i < |events| && IsObservation(events[i], ref, digest)
  }

  ghost predicate IsObservation(e: Event, ref: Ref, digest: Digest) {
    && e.Asked? && e.answer == Evidence(digest)
    && (e.question.StartQuestion? || e.question.BootstrapQuestion?) && e.question.ref == ref
  }

  /** A container is created only after CREATING was committed and read back, started only
      after STARTING was committed with its id, and READY is committed only with the
      evidence of an observation. */
  ghost predicate Ahead(events: seq<Event>, e: Event) {
    match e
    case Asked(CreateQuestion(ref, row), _) => row.state == Creating && StepCommitted(events, ref, Move(Creating, None, None, None))
    case Asked(StartQuestion(ref, container), _) => StepCommitted(events, ref, Move(Starting, Some(container), None, None))
    case Committed(c) =>
      c.TransitionCall? && c.move.state == Ready ==> c.move.evidence.Some? && WasObserved(events, c.ref, c.move.evidence.value)
    case _ => true
  }

  /** Every prefix of the trace, so every crash point, is written ahead. */
  ghost predicate WrittenAhead(events: seq<Event>) {
    forall i | 0 <= i < |events| :: Ahead(events[..i], events[i])
  }

  lemma OneMoreEvent(events: seq<Event>, e: Event)
    requires WrittenAhead(events) && Ahead(events, e)
    ensures WrittenAhead(events + [e])
    ensures forall ref, m | StepCommitted(events, ref, m) || IsStepCommit(e, ref, m) :: StepCommitted(events + [e], ref, m)
    ensures forall ref, digest | WasObserved(events, ref, digest) || IsObservation(e, ref, digest) ::
      WasObserved(events + [e], ref, digest)
  {
    hide Ahead, IsStepCommit, IsObservation;
    var more := events + [e];
    forall i | 0 <= i < |more|
      ensures Ahead(more[..i], more[i])
    {
      if i < |events| {
        assert more[..i] == events[..i];
      } else {
        assert more[..i] == events;
      }
    }
    forall ref, m | StepCommitted(events, ref, m) || IsStepCommit(e, ref, m)
      ensures StepCommitted(more, ref, m)
    {
      if StepCommitted(events, ref, m) {
        var i :| 0 <= i < |events| && IsStepCommit(events[i], ref, m);
        assert IsStepCommit(more[i], ref, m);
      } else {
        assert IsStepCommit(more[|events|], ref, m);
      }
    }
    forall ref, digest | WasObserved(events, ref, digest) || IsObservation(e, ref, digest)
      ensures WasObserved(more, ref, digest)
    {
      if WasObserved(events, ref, digest) {
        var i :| 0 <= i < |events| && IsObservation(events[i], ref, digest);
        assert IsObservation(more[i], ref, digest);
      } else {
        assert IsObservation(more[|events|], ref, digest);
      }
    }
  }

  /** What the program has behind it only grows. */
  ghost predicate Builds(w: World, later: World) {
    && WrittenAhead(later.trace)
    && (forall ref, m | StepCommitted(w.trace, ref, m) :: StepCommitted(later.trace, ref, m))
    && (forall ref, digest | WasObserved(w.trace, ref, digest) :: WasObserved(later.trace, ref, digest))
  }

  lemma TransactAhead(w: World, schedule: Schedule, c: Call)
    requires HasReceipt(c) && WrittenAhead(w.trace) && Ahead(w.trace, Committed(c))
    ensures var (later, reply) := Transact(w, schedule, c);
      Builds(w, later) && (reply.Allow? && c.TransitionCall? ==> StepCommitted(later.trace, c.ref, c.move))
  {
    hide Answer, Proper, Honest, WrittenAhead, StepCommitted, WasObserved;
    OneMoreEvent(w.trace, Committed(c));
    if !schedule(w.tick).busy {
      var o := Answer(Serve(w, schedule).db, c);
      if !o.Done? {
        OneMoreEvent(w.trace, Rejected(c, o.code));
      }
    }
  }

  lemma AskAhead(w: World, schedule: Schedule, question: Question)
    requires WrittenAhead(w.trace) && Ahead(w.trace, Asked(question, schedule(w.tick).answer))
    ensures var (later, answer) := AskRuntime(w, schedule, question);
      && Builds(w, later) && answer == schedule(w.tick).answer
      && (answer.Evidence? && IsObservation(Asked(question, answer), question.ObservedRef(), answer.digest) ==>
            WasObserved(later.trace, question.ObservedRef(), answer.digest))
  {
    hide Proper, WrittenAhead, StepCommitted, WasObserved, IsObservation;
    OneMoreEvent(w.trace, Asked(question, schedule(w.tick).answer));
  }

  lemma StepAndLookAhead(w: World, schedule: Schedule, o: Orchestrator, phase: Phase, ref: Ref, version: nat, m: Move)
    requires WrittenAhead(w.trace)
    requires m.state == Ready ==> m.evidence.Some? && WasObserved(w.trace, ref, m.evidence.value)
    ensures var (later, row) := StepAndLook(w, schedule, o, phase, ref, version, m);
      Builds(w, later) && (row.Allow? ==> StepCommitted(later.trace, ref, m))
  {
    hide WrittenAhead, StepCommitted, WasObserved, Transact, Inspect, Serve;
    var c := MoveCall(o, phase, ref, version, m, schedule(w.tick));
    TransactAhead(w, schedule, c);
    var (moved, reply) := Transact(w, schedule, c);
    ServingIsSilent(moved, schedule);
    assert reply.Allow? ==> StepCommitted(moved.trace, ref, m);
  }

  lemma ServingIsSilent(w: World, schedule: Schedule)
    ensures Serve(w, schedule).trace == w.trace
  {
    hide Proper;
  }

  lemma FailAhead(w: World, schedule: Schedule, o: Orchestrator, receipt: Receipt, row: Resource, phase: Phase, error: ErrorCode)
    requires WrittenAhead(w.trace)
    ensures WrittenAhead(Fail(w, schedule, o, receipt, row, phase, error).0.trace)
  {
    hide WrittenAhead, StepCommitted, WasObserved, Transact;
    var m := Move(State.Failed, None, None, Some(FailureCode(error, phase)));
    var c := MoveCall(o, phase, receipt.ref, row.version, m, schedule(w.tick));
    TransactAhead(w, schedule, c);
    var failed := Transact(w, schedule, c).0;
    TransactAhead(failed, schedule, PublicationCall(o, ResetFailedPhase, FailReset, receipt, schedule(failed.tick)));
  }

  lemma PublishReadinessAhead(w: World, schedule: Schedule, o: Orchestrator, receipt: Receipt)
    requires WrittenAhead(w.trace)
    ensures WrittenAhead(PublishReadiness(w, schedule, o, receipt).0.trace)
  {
    hide WrittenAhead, StepCommitted, WasObserved, Transact;
    var p := if receipt.state == Provisioning then PublishReady else PublishResetReady;
    TransactAhead(w, schedule, PublicationCall(o, PublishPhase, p, receipt, schedule(w.tick)));
  }

  lemma ConcludeAhead(w: World, schedule: Schedule, o: Orchestrator, receipt: Receipt, row: Resource, evidence: Digest)
    requires WrittenAhead(w.trace) && WasObserved(w.trace, receipt.ref, evidence)
    ensures WrittenAhead(Conclude(w, schedule, o, receipt, row, evidence).0.trace)
  {
    hide WrittenAhead, StepCommitted, WasObserved, AskRuntime, Fail, StepAndLook, PublishReadiness, IsObservation;
    AskAhead(w, schedule, CloseQuestion(receipt.ref));
    var (closed, answer) := AskRuntime(w, schedule, CloseQuestion(receipt.ref));
    if answer.Fault? {
      FailAhead(closed, schedule, o, receipt, row, CreateFailedPhase, answer.error);
    } else {
      var m := Move(Ready, None, Some(evidence), None);
      StepAndLookAhead(closed, schedule, o, ReadyPhase, receipt.ref, row.version, m);
      PublishReadinessAhead(StepAndLook(closed, schedule, o, ReadyPhase, receipt.ref, row.version, m).0, schedule, o, receipt);
    }
  }

  lemma StartAhead(w: World, schedule: Schedule, o: Orchestrator, receipt: Receipt, row: Resource, container: ContainerId)
    requires WrittenAhead(w.trace) && StepCommitted(w.trace, receipt.ref, Move(Starting, Some(container), None, None))
    ensures WrittenAhead(Start(w, schedule, o, receipt, row, container).0.trace)
  {
    hide WrittenAhead, StepCommitted, WasObserved, AskRuntime, Fail, Conclude;
    AskAhead(w, schedule, StartQuestion(receipt.ref, container));
    var (started, answer) := AskRuntime(w, schedule, StartQuestion(receipt.ref, container));
    if !answer.Evidence? {
      FailAhead(started, schedule, o, receipt, row, StartFailedPhase, ErrorOf(answer));
    } else if !o.bootstraps {
      ConcludeAhead(started, schedule, o, receipt, row, answer.digest);
    } else {
      AskAhead(started, schedule, BootstrapQuestion(receipt.ref, container));
      var (booted, observation) := AskRuntime(started, schedule, BootstrapQuestion(receipt.ref, container));
      if !observation.Evidence? {
        FailAhead(booted, schedule, o, receipt, row, BootstrapFailedPhase, ErrorOf(observation));
      } else {
        ConcludeAhead(booted, schedule, o, receipt, row, observation.digest);
      }
    }
  }

  lemma RunRuntimeAhead(w: World, schedule: Schedule, o: Orchestrator, receipt: Receipt, row: Resource)
    requires WrittenAhead(w.trace) && StepCommitted(w.trace, receipt.ref, Move(Creating, None, None, None)) && row.state == Creating
    ensures WrittenAhead(RunRuntime(w, schedule, o, receipt, row).0.trace)
  {
    hide WrittenAhead, StepCommitted, WasObserved, AskRuntime, Fail, StepAndLook, Start, IsObservation;
    AskAhead(w, schedule, OpenQuestion(receipt.ref));
    var (begun, session) := AskRuntime(w, schedule, OpenQuestion(receipt.ref));
    if session.Fault? {
      FailAhead(begun, schedule, o, receipt, row, CreateFailedPhase, session.error);
    } else {
      AskAhead(begun, schedule, CreateQuestion(receipt.ref, row));
      var (created, answer) := AskRuntime(begun, schedule, CreateQuestion(receipt.ref, row));
      if !answer.Created? {
        FailAhead(created, schedule, o, receipt, row, CreateFailedPhase, ErrorOf(answer));
      } else {
        var m := Move(Starting, Some(answer.container), None, None);
        StepAndLookAhead(created, schedule, o, StartingPhase, receipt.ref, row.version, m);
        var (starting, next) := StepAndLook(created, schedule, o, StartingPhase, receipt.ref, row.version, m);
        if next.Allow? {
          StartAhead(starting, schedule, o, receipt, next.value, answer.container);
        }
      }
    }
  }

  /** The row read back after a step is the one that the step left. */
  lemma StepAndLookShows(w: World, schedule: Schedule, o: Orchestrator, phase: Phase, ref: Ref, version: nat, m: Move)
    requires Healthy(w) && StepAndLook(w, schedule, o, phase, ref, version, m).0.legal
    requires StepAndLook(w, schedule, o, phase, ref, version, m).1.Allow?
    ensures var (later, row) := StepAndLook(w, schedule, o, phase, ref, version, m);
      && Healthy(later) && Observed(later.db, ref) == row
      && row.value.version == version + 1 && ShowsMove(row.value, m)
  {
    hide Intact, Grows, Answer, Honest, FreshIds, ShowsMove, Binding;
    var c := MoveCall(o, phase, ref, version, m, schedule(w.tick));
    StepAndLookLeads(w, schedule, o, phase, ref, version, m);
    ServeLeads(w, schedule);
    TransactLeads(w, schedule, c);
    var moved := Transact(w, schedule, c).0;
    ServeLeads(moved, schedule);
    AnsweredStepShows(Serve(w, schedule).db, c, Serve(moved, schedule).db);
  }

  /** Where the runtime is reached: the creating step was answered and its row read back. */
  ghost predicate Reaches(w: World, schedule: Schedule, o: Orchestrator, receipt: Receipt) {
    && (receipt.state == Provisioning || receipt.state == Resetting)
    && var (accepted, reply) := Transact(w, schedule, AcceptingCall(o, receipt, schedule(w.tick)));
    && reply.Allow?
    && var (looked, found) := Look(accepted, schedule, receipt.ref);
    && found.Allow? && found.value.state == Requested
    && var (roomed, guard) := RoomForBinding(looked, schedule, receipt.ref);
    && guard == Guard.Pass
    && StepAndLook(roomed, schedule, o, CreatingPhase, receipt.ref, reply.value.version, Move(Creating, None, None, None)).1.Allow?
  }

  /** The world and the row that the runtime part starts from. */
  ghost function Reached(w: World, schedule: Schedule, o: Orchestrator, receipt: Receipt): (World, Verdict<Resource>)
    requires Reaches(w, schedule, o, receipt)
  {
    var (accepted, reply) := Transact(w, schedule, AcceptingCall(o, receipt, schedule(w.tick)));
    var roomed := Serve(Look(accepted, schedule, receipt.ref).0, schedule);
    StepAndLook(roomed, schedule, o, CreatingPhase, receipt.ref, reply.value.version, Move(Creating, None, None, None))
  }

  lemma ReachedIsRun(w: World, schedule: Schedule, o: Orchestrator, receipt: Receipt)
    requires Healthy(w) && Reaches(w, schedule, o, receipt) && Provision(w, schedule, o, receipt).0.legal
    ensures var (start, row) := Reached(w, schedule, o, receipt);
      && row.Allow? && Provision(w, schedule, o, receipt) == RunRuntime(start, schedule, o, receipt, row.value)
      && Leads(start, Provision(w, schedule, o, receipt).0)
      && Healthy(start) && Observed(start.db, receipt.ref) == row
      && row.value.state == Creating && row.value.version >= 1
  {
    hide Intact, Grows, Transact, StepAndLook, RunRuntime, Serve, Inspect, Binding;
    var c := AcceptingCall(o, receipt, schedule(w.tick));
    var (accepted, reply) := Transact(w, schedule, c);
    var looked := Look(accepted, schedule, receipt.ref).0;
    var roomed := Serve(looked, schedule);
    var (start, row) := Reached(w, schedule, o, receipt);
    RunRuntimeLeads(start, schedule, o, receipt, row.value);
    StepAndLookLeads(roomed, schedule, o, CreatingPhase, receipt.ref, reply.value.version, Move(Creating, None, None, None));
    ServeLeads(looked, schedule);
    ServeLeads(accepted, schedule);
    TransactLeads(w, schedule, c);
    StepAndLookShows(roomed, schedule, o, CreatingPhase, receipt.ref, reply.value.version, Move(Creating, None, None, None));
  }

  lemma UnreachedIsSilent(w: World, schedule: Schedule, o: Orchestrator, receipt: Receipt)
    requires !Reaches(w, schedule, o, receipt)
    ensures IsSilent(w.trace, Provision(w, schedule, o, receipt).0.trace)
    ensures WrittenAhead(w.trace) ==> WrittenAhead(Provision(w, schedule, o, receipt).0.trace)
  {
    hide Transact, StepAndLook, Serve, Inspect, Binding, IsSilent, WrittenAhead, WasObserved, StepCommitted, PublishReadiness;
    SilentStays(w.trace);
    var c := AcceptingCall(o, receipt, schedule(w.tick));
    var (accepted, reply) := Transact(w, schedule, c);
    TransactIsSilent(w, schedule, c);
    var looked := Look(accepted, schedule, receipt.ref).0;
    ServingIsSilent(accepted, schedule);
    ServingIsSilent(looked, schedule);
    PublishReadinessIsSilent(looked, schedule, o, receipt);
    SilentOn(w.trace, accepted.trace, PublishReadiness(looked, schedule, o, receipt).0.trace);
    var roomed := Serve(looked, schedule);
    if reply.Allow? {
      var m := Move(Creating, None, None, None);
      var creating := StepAndLook(roomed, schedule, o, CreatingPhase, receipt.ref, reply.value.version, m).0;
      StepAndLookIsSilent(roomed, schedule, o, CreatingPhase, receipt.ref, reply.value.version, m);
      SilentOn(w.trace, accepted.trace, creating.trace);
      if WrittenAhead(w.trace) {
        TransactAhead(w, schedule, c);
        PublishReadinessAhead(looked, schedule, o, receipt);
        StepAndLookAhead(roomed, schedule, o, CreatingPhase, receipt.ref, reply.value.version, m);
      }
    } else if WrittenAhead(w.trace) {
      TransactAhead(w, schedule, c);
    }
  }

  /** The program went on without asking the runtime. */
  ghost predicate IsSilent(events: seq<Event>, more: seq<Event>) {
    events <= more && forall i | |events| <= i < |more| :: !more[i].Asked?
  }

  lemma SilentStays(events: seq<Event>)
    ensures IsSilent(events, events)
  {
  }

  lemma SilentOn(x: seq<Event>, y: seq<Event>, z: seq<Event>)
    requires IsSilent(x, y) && IsSilent(y, z)
    ensures IsSilent(x, z)
  {
  }

  lemma TransactIsSilent(w: World, schedule: Schedule, c: Call)
    requires HasReceipt(c)
    ensures IsSilent(w.trace, Transact(w, schedule, c).0.trace)
  {
    hide Answer, Proper, Honest, FreshIds;
  }

  lemma PublishReadinessIsSilent(w: World, schedule: Schedule, o: Orchestrator, receipt: Receipt)
    ensures IsSilent(w.trace, PublishReadiness(w, schedule, o, receipt).0.trace)
  {
    hide Transact, IsSilent;
    var p := if receipt.state == Provisioning then PublishReady else PublishResetReady;
    TransactIsSilent(w, schedule, PublicationCall(o, PublishPhase, p, receipt, schedule(w.tick)));
  }

  lemma StepAndLookIsSilent(w: World, schedule: Schedule, o: Orchestrator, phase: Phase, ref: Ref, version: nat, m: Move)
    ensures IsSilent(w.trace, StepAndLook(w, schedule, o, phase, ref, version, m).0.trace)
  {
    hide Transact, Serve, Inspect, IsSilent;
    var c := MoveCall(o, phase, ref, version, m, schedule(w.tick));
    TransactIsSilent(w, schedule, c);
    ServingIsSilent(Transact(w, schedule, c).0, schedule);
  }

  lemma ReachedAhead(w: World, schedule: Schedule, o: Orchestrator, receipt: Receipt)
    requires WrittenAhead(w.trace) && Reaches(w, schedule, o, receipt)
    ensures var (start, row) := Reached(w, schedule, o, receipt);
      && IsSilent(w.trace, start.trace) && WrittenAhead(start.trace)
      && StepCommitted(start.trace, receipt.ref, Move(Creating, None, None, None))
  {
    hide Transact, StepAndLook, Serve, Inspect, Binding, IsSilent, WrittenAhead, WasObserved, StepCommitted;
    var c := AcceptingCall(o, receipt, schedule(w.tick));
    var (accepted, reply) := Transact(w, schedule, c);
    TransactIsSilent(w, schedule, c);
    TransactAhead(w, schedule, c);
    var looked := Look(accepted, schedule, receipt.ref).0;
    ServingIsSilent(accepted, schedule);
    ServingIsSilent(looked, schedule);
    var roomed := Serve(looked, schedule);
    var m := Move(Creating, None, None, None);
    StepAndLookIsSilent(roomed, schedule, o, CreatingPhase, receipt.ref, reply.value.version, m);
    StepAndLookAhead(roomed, schedule, o, CreatingPhase, receipt.ref, reply.value.version, m);
    SilentOn(w.trace, accepted.trace, StepAndLook(roomed, schedule, o, CreatingPhase, receipt.ref, reply.value.version, m).0.trace);
  }

  /** At every crash point, what provisioning asked of the runtime was written ahead. */
  lemma ProvisioningIsWrittenAhead(w: World, schedule: Schedule, o: Orchestrator, receipt: Receipt)
    requires Healthy(w) && WrittenAhead(w.trace) && Provision(w, schedule, o, receipt).0.legal
    ensures WrittenAhead(Provision(w, schedule, o, receipt).0.trace)
  {
    hide Intact, Grows, Provision, RunRuntime, Reaches, WrittenAhead, StepCommitted, IsSilent;
    if Reaches(w, schedule, o, receipt) {
      ReachedIsRun(w, schedule, o, receipt);
      ReachedAhead(w, schedule, o, receipt);
      var (start, row) := Reached(w, schedule, o, receipt);
      RunRuntimeAhead(start, schedule, o, receipt, row.value);
    } else {
      UnreachedIsSilent(w, schedule, o, receipt);
    }
  }

  /** The sandbox's row has left REQUESTED. */
  ghost predicate HasBegun(db: Db, ref: Ref) {
    Observed(db, ref).Allow? && db.resources[ref.sandbox].version >= 1
  }

  lemma BegunForGood(before: Db, after: Db, ref: Ref)
    requires Grows(before, after) && HasBegun(before, ref)
    ensures HasBegun(after, ref)
  {
    assert ResourceGrows(before.resources[ref.sandbox], after.resources[ref.sandbox]);
  }

  lemma BegunIsNotReached(w: World, schedule: Schedule, o: Orchestrator, receipt: Receipt)
    requires Healthy(w) && HasBegun(w.db, receipt.ref) && Provision(w, schedule, o, receipt).0.legal
    ensures !Reaches(w, schedule, o, receipt)
  {
    hide Intact, Grows, Transact, StepAndLook, RunRuntime, Serve, Binding, HasBegun, Provision;
    if Reaches(w, schedule, o, receipt) {
      ReachedIsRun(w, schedule, o, receipt);
      var c := AcceptingCall(o, receipt, schedule(w.tick));
      var accepted := Transact(w, schedule, c).0;
      var looked := Serve(accepted, schedule);
      var roomed := Serve(looked, schedule);
      TransactLeads(w, schedule, c);
      ServeLeads(accepted, schedule);
      ServeLeads(looked, schedule);
      StepAndLookLeads(roomed, schedule, o, CreatingPhase, receipt.ref, Transact(w, schedule, c).1.value.version,
                       Move(Creating, None, None, None));
      BegunForGood(w.db, accepted.db, receipt.ref);
      BegunForGood(accepted.db, looked.db, receipt.ref);
      BegunIsNotRequested(looked.db, receipt.ref);
      assert false;
    }
  }

  lemma BegunIsNotRequested(db: Db, ref: Ref)
    requires Intact(db) && HasBegun(db, ref)
    ensures db.resources[ref.sandbox].state != Requested
  {
    hide Core, LogOk, ResetsOk, KeysOk;
    ResourceIsShaped(db, ref.sandbox);
  }

  /** Once one provisioning of a sandbox has asked the runtime for anything, no later one
      does, under whatever key and however the first one ended or crashed. */
  lemma LaterProvisioningIsSilent(w: World, schedule: Schedule, o: Orchestrator, receipt: Receipt,
                                  later: World, around: Schedule, other: Orchestrator, again: Receipt)
    requires Healthy(w) && Provision(w, schedule, o, receipt).0.legal
    requires !IsSilent(w.trace, Provision(w, schedule, o, receipt).0.trace)
    requires Leads(Provision(w, schedule, o, receipt).0, later) && later.legal
    requires again.ref == receipt.ref && Provision(later, around, other, again).0.legal
    ensures IsSilent(later.trace, Provision(later, around, other, again).0.trace)
  {
    hide Intact, Grows, Provision, Reaches, RunRuntime, IsSilent, HasBegun;
    if !Reaches(w, schedule, o, receipt) {
      UnreachedIsSilent(w, schedule, o, receipt);
    } else {
      ReachedIsRun(w, schedule, o, receipt);
      var (start, row) := Reached(w, schedule, o, receipt);
      ReachedHasBegun(start.db, receipt.ref, row);
      BegunForGood(start.db, Provision(w, schedule, o, receipt).0.db, receipt.ref);
      BegunForGood(Provision(w, schedule, o, receipt).0.db, later.db, receipt.ref);
      BegunIsNotReached(later, around, other, again);
      UnreachedIsSilent(later, around, other, again);
    }
  }

  lemma ReachedHasBegun(db: Db, ref: Ref, row: Verdict<Resource>)
    requires row.Allow? && Observed(db, ref) == row && row.value.version >= 1
    ensures HasBegun(db, ref)
  {
  }
}
