/** LifecycleOrchestrator.provision: durable state transitions around every runtime effect,
    as a program of single accesses. A crash is a store that is busy from then on. */
module Provisioning {
  import opened Records
  import opened Common
  import opened Runs
  import opened Worlds

  /** The program's identities, the root of its derived keys, and whether its sessions must
      bootstrap before they are ready. */
  datatype Orchestrator = Orchestrator(control: ServiceId, backend: ServiceId, root: Root, bootstraps: bool)

  datatype Ending = Published | Stopped(code: Code) | RuntimeFailed(error: ErrorCode)

  function MoveCall(o: Orchestrator, phase: Phase, ref: Ref, version: nat, m: Move, slice: Slice): Call {
    TransitionCall(o.control, ref, version, m, PhaseKey(o.root, phase, ref, version), slice.now, slice.ids.batch)
  }

  function PublicationCall(o: Orchestrator, phase: Phase, p: Publication, receipt: Receipt, slice: Slice): Call {
    PublishCall(o.backend, p, receipt.ref, receipt.version, PhaseKey(o.root, phase, receipt.ref, receipt.version),
                slice.now, slice.ids.batch)
  }

  function AcceptingCall(o: Orchestrator, receipt: Receipt, slice: Slice): Call {
    AcceptCall(o.backend, receipt.ref, PhaseKey(o.root, AcceptPhase, receipt.ref, receipt.version), slice.now, slice.ids.batch)
  }

  function PublishReadiness(w: World, schedule: Schedule, o: Orchestrator, receipt: Receipt): (World, Ending) {
    var p := if receipt.state == Provisioning then PublishReady else PublishResetReady;
    var (after, reply) := Transact(w, schedule, PublicationCall(o, PublishPhase, p, receipt, schedule(w.tick)));
    (after, if reply.Allow? then Published else Stopped(reply.code))
  }

  /** Take a step and read the row it left; anything else than its version stops the program. */
  function StepAndLook(w: World, schedule: Schedule, o: Orchestrator, phase: Phase, ref: Ref, version: nat, m: Move): (World, Verdict<Resource>) {
    var (moved, reply) := Transact(w, schedule, MoveCall(o, phase, ref, version, m, schedule(w.tick)));
    if reply.Reject? then (moved, Reject(reply.code))
    else
      var (looked, found) := Look(moved, schedule, ref);
      if found.Allow? && found.value.version != reply.value.version then (looked, Reject(StaleBinding)) else (looked, found)
  }

  /** The room selector is read for the exact current binding. */
  function RoomForBinding(w: World, schedule: Schedule, ref: Ref): (World, Guard) {
    var served := Serve(w, schedule);
    (served, if schedule(w.tick).busy then Stop(StoreBusy)
             else if Binding(served.db, ref, false).Allow? then Guard.Pass else Stop(StaleBinding))
  }

  function FailureCode(error: ErrorCode, phase: Phase): ErrorCode {
    if error == RuntimeUnavailable then error
    else if phase.CreateFailedPhase? then CreateFailed else StartFailed
  }

  /** Fail the resource, and a reset with it. */
  function Fail(w: World, schedule: Schedule, o: Orchestrator, receipt: Receipt, row: Resource, phase: Phase, error: ErrorCode): (World, Ending) {
    var code := FailureCode(error, phase);
    var m := Move(State.Failed, None, None, Some(code));
    var (failed, reply) := Transact(w, schedule, MoveCall(o, phase, receipt.ref, row.version, m, schedule(w.tick)));
    if reply.Reject? then (failed, Stopped(reply.code))
    else if receipt.state != Resetting then (failed, RuntimeFailed(code))
    else
      var (ended, answer) := Transact(failed, schedule, PublicationCall(o, ResetFailedPhase, FailReset, receipt, schedule(failed.tick)));
      (ended, if answer.Reject? then Stopped(answer.code) else RuntimeFailed(code))
  }

  function ErrorOf(answer: Response): ErrorCode {
    if answer.Fault? then answer.error else CleanupIncomplete
  }

  function Provision(w: World, schedule: Schedule, o: Orchestrator, receipt: Receipt): (World, Ending) {
    if receipt.state != Provisioning && receipt.state != Resetting then (w, Stopped(InvalidRequest)) else
    var (accepted, reply) := Transact(w, schedule, AcceptingCall(o, receipt, schedule(w.tick)));
    if reply.Reject? then (accepted, Stopped(reply.code)) else
    var (looked, found) := Look(accepted, schedule, receipt.ref);
    if found.Reject? then (looked, Stopped(found.code))
    else if found.value.state == Ready then PublishReadiness(looked, schedule, o, receipt)
    else if found.value.state != Requested then (looked, Stopped(InvalidTransition))
    else
      var (roomed, guard) := RoomForBinding(looked, schedule, receipt.ref);
      if guard.Stop? then (roomed, Stopped(guard.code)) else
      var (creating, row) := StepAndLook(roomed, schedule, o, CreatingPhase, receipt.ref, reply.value.version, Move(Creating, None, None, None));
      if row.Reject? then (creating, Stopped(row.code)) else RunRuntime(creating, schedule, o, receipt, row.value)
  }

  function RunRuntime(w: World, schedule: Schedule, o: Orchestrator, receipt: Receipt, row: Resource): (World, Ending) {
    var (begun, session) := AskRuntime(w, schedule, OpenQuestion(receipt.ref));
    if session.Fault? then Fail(begun, schedule, o, receipt, row, CreateFailedPhase, session.error) else
    var (created, answer) := AskRuntime(begun, schedule, CreateQuestion(receipt.ref, row));
    if !answer.Created? then Fail(created, schedule, o, receipt, row, CreateFailedPhase, ErrorOf(answer)) else
    var m := Move(Starting, Some(answer.container), None, None);
    var (starting, next) := StepAndLook(created, schedule, o, StartingPhase, receipt.ref, row.version, m);
    if next.Reject? then (starting, Stopped(next.code)) else Start(starting, schedule, o, receipt, next.value, answer.container)
  }

  function Start(w: World, schedule: Schedule, o: Orchestrator, receipt: Receipt, row: Resource, container: ContainerId): (World, Ending) {
    var (started, answer) := AskRuntime(w, schedule, StartQuestion(receipt.ref, container));
    if !answer.Evidence? then Fail(started, schedule, o, receipt, row, StartFailedPhase, ErrorOf(answer))
    else if !o.bootstraps then Conclude(started, schedule, o, receipt, row, answer.digest)
    else
      var (booted, observation) := AskRuntime(started, schedule, BootstrapQuestion(receipt.ref, container));
      if !observation.Evidence? then Fail(booted, schedule, o, receipt, row, BootstrapFailedPhase, ErrorOf(observation))
      else Conclude(booted, schedule, o, receipt, row, observation.digest)
  }

  function Conclude(w: World, schedule: Schedule, o: Orchestrator, receipt: Receipt, row: Resource, evidence: Digest): (World, Ending) {
    var (closed, answer) := AskRuntime(w, schedule, CloseQuestion(receipt.ref));
    if answer.Fault? then Fail(closed, schedule, o, receipt, row, CreateFailedPhase, answer.error) else
    var m := Move(Ready, None, Some(evidence), None);
    var (ready, next) := StepAndLook(closed, schedule, o, ReadyPhase, receipt.ref, row.version, m);
    if next.Reject? then (ready, Stopped(next.code)) else PublishReadiness(ready, schedule, o, receipt)
  }
}
