/** The orchestrator, the recovery service and the maintenance service as objects on the
    shared stores. Each method makes the accesses of the function that specifies it. */
module LifecycleServices {
  import opened Records
  import opened Common
  import opened Site
  import opened CleanupWorker
  import P = Provisioning
  import R = Recovery
  import M = Maintenance
  import Worker

  class LifecycleOrchestrator {
    const stores: Stores
    const settings: P.Orchestrator

    constructor (shared: Stores, o: P.Orchestrator)
      ensures stores == shared && settings == o
    {
      stores, settings := shared, o;
    }

    method PublishReadiness(receipt: Receipt) returns (ending: P.Ending)
      requires stores.Valid()
      modifies stores, stores.database
      ensures stores.Valid()
      ensures (stores.Here(), ending) == P.PublishReadiness(old(stores.Here()), stores.schedule, settings, receipt)
    {
      hide W.Transact;
      var p := if receipt.state == Provisioning then PublishReady else PublishResetReady;
      var reply := stores.Transact(P.PublicationCall(settings, PublishPhase, p, receipt, stores.schedule(stores.tick)));
      ending := if reply.Allow? then P.Published else P.Stopped(reply.code);
    }

    method StepAndLook(phase: Phase, ref: Ref, version: nat, m: Move) returns (row: Verdict<Resource>)
      requires stores.Valid()
      modifies stores, stores.database
      ensures stores.Valid()
      ensures (stores.Here(), row) == P.StepAndLook(old(stores.Here()), stores.schedule, settings, phase, ref, version, m)
    {
      hide W.Transact, W.Look;
      var reply := stores.Transact(P.MoveCall(settings, phase, ref, version, m, stores.schedule(stores.tick)));
      if reply.Reject? {
        return Reject(reply.code);
      }
      row := stores.Look(ref);
      if row.Allow? && row.value.version != reply.value.version {
        row := Reject(StaleBinding);
      }
    }

    method RoomForBinding(ref: Ref) returns (guard: Guard)
      requires stores.Valid()
      modifies stores, stores.database
      ensures stores.Valid() && (stores.Here(), guard) == P.RoomForBinding(old(stores.Here()), stores.schedule, ref)
    {
      hide W.Serve;
      var busy := stores.schedule(stores.tick).busy;
      stores.Serve();
      if busy {
        return Guard.Stop(StoreBusy);
      }
      guard := if Binding(stores.database.View(), ref, false).Allow? then Guard.Pass else Guard.Stop(StaleBinding);
    }

    /** Fail the resource, and a reset with it. */
    method Fail(receipt: Receipt, row: Resource, phase: Phase, error: ErrorCode) returns (ending: P.Ending)
      requires stores.Valid()
      modifies stores, stores.database
      ensures stores.Valid()
      ensures (stores.Here(), ending) == P.Fail(old(stores.Here()), stores.schedule, settings, receipt, row, phase, error)
    {
      hide W.Transact;
      var code := P.FailureCode(error, phase);
      var m := Move(State.Failed, None, None, Some(code));
      var reply := stores.Transact(P.MoveCall(settings, phase, receipt.ref, row.version, m, stores.schedule(stores.tick)));
      if reply.Reject? {
        return P.Stopped(reply.code);
      }
      if receipt.state == Resetting {
        reply := stores.Transact(P.PublicationCall(settings, ResetFailedPhase, FailReset, receipt, stores.schedule(stores.tick)));
        if reply.Reject? {
          return P.Stopped(reply.code);
        }
      }
      ending := P.RuntimeFailed(code);
    }

    method Provision(receipt: Receipt) returns (ending: P.Ending)
      requires stores.Valid()
      modifies stores, stores.database
      ensures stores.Valid()
      ensures (stores.Here(), ending) == P.Provision(old(stores.Here()), stores.schedule, settings, receipt)
    {
      hide W.Transact, W.Look, P.RoomForBinding, P.StepAndLook, P.PublishReadiness, P.RunRuntime;
      if receipt.state != Provisioning && receipt.state != Resetting {
        return P.Stopped(InvalidRequest);
      }
      var accepted := stores.Transact(P.AcceptingCall(settings, receipt, stores.schedule(stores.tick)));
      if accepted.Reject? {
        return P.Stopped(accepted.code);
      }
      var current := stores.Look(receipt.ref);
      if current.Reject? {
        return P.Stopped(current.code);
      }
      if current.value.state == Ready {
        ending := PublishReadiness(receipt);
        return;
      }
      if current.value.state != Requested {
        return P.Stopped(InvalidTransition);
      }
      var room := RoomForBinding(receipt.ref);
      if room.Stop? {
        return P.Stopped(room.code);
      }
      current := StepAndLook(CreatingPhase, receipt.ref, accepted.value.version, Move(Creating, None, None, None));
      if current.Reject? {
        return P.Stopped(current.code);
      }
      ending := RunRuntime(receipt, current.value);
    }

    method RunRuntime(receipt: Receipt, row: Resource) returns (ending: P.Ending)
      requires stores.Valid()
      modifies stores, stores.database
      ensures stores.Valid()
      ensures (stores.Here(), ending) == P.RunRuntime(old(stores.Here()), stores.schedule, settings, receipt, row)
    {
      hide W.AskRuntime, P.StepAndLook, P.Fail, P.Start;
      var session := stores.AskRuntime(W.OpenQuestion(receipt.ref));
      if session.Fault? {
        ending := Fail(receipt, row, CreateFailedPhase, session.error);
        return;
      }
      var created := stores.AskRuntime(W.CreateQuestion(receipt.ref, row));
      if !created.Created? {
        ending := Fail(receipt, row, CreateFailedPhase, P.ErrorOf(created));
        return;
      }
      var current := StepAndLook(StartingPhase, receipt.ref, row.version, Move(Starting, Some(created.container), None, None));
      if current.Reject? {
        return P.Stopped(current.code);
      }
      ending := Start(receipt, current.value, created.container);
    }

    method Start(receipt: Receipt, row: Resource, container: ContainerId) returns (ending: P.Ending)
      requires stores.Valid()
      modifies stores, stores.database
      ensures stores.Valid()
      ensures (stores.Here(), ending) == P.Start(old(stores.Here()), stores.schedule, settings, receipt, row, container)
    {
      hide W.AskRuntime, P.Fail, P.Conclude;
      var observation := stores.AskRuntime(W.StartQuestion(receipt.ref, container));
      if !observation.Evidence? {
        ending := Fail(receipt, row, StartFailedPhase, P.ErrorOf(observation));
        return;
      }
      if settings.bootstraps {
        observation := stores.AskRuntime(W.BootstrapQuestion(receipt.ref, container));
        if !observation.Evidence? {
          ending := Fail(receipt, row, BootstrapFailedPhase, P.ErrorOf(observation));
          return;
        }
      }
      ending := Conclude(receipt, row, observation.digest);
    }

    method Conclude(receipt: Receipt, row: Resource, evidence: Digest) returns (ending: P.Ending)
      requires stores.Valid()
      modifies stores, stores.database
      ensures stores.Valid()
      ensures (stores.Here(), ending) == P.Conclude(old(stores.Here()), stores.schedule, settings, receipt, row, evidence)
    {
      hide W.AskRuntime, P.Fail, P.StepAndLook, P.PublishReadiness;
      var session := stores.AskRuntime(W.CloseQuestion(receipt.ref));
      if session.Fault? {
        ending := Fail(receipt, row, CreateFailedPhase, session.error);
        return;
      }
      var current := StepAndLook(ReadyPhase, receipt.ref, row.version, Move(Ready, None, Some(evidence), None));
      if current.Reject? {
        return P.Stopped(current.code);
      }
      ending := PublishReadiness(receipt);
    }
  }

  class RecoveryVerificationService {
    const stores: Stores
    const settings: R.Verifier

    constructor (shared: Stores, v: R.Verifier)
      ensures stores == shared && settings == v
    {
      stores, settings := shared, v;
    }

    method LookAttempt(identity: UserIdentity, id: AttemptId) returns (a: Verdict<Attempt>)
      requires stores.Valid()
      modifies stores, stores.database
      ensures stores.Valid() && (stores.Here(), a) == R.LookAttempt(old(stores.Here()), stores.schedule, identity, id)
    {
      hide W.Serve;
      var busy := stores.schedule(stores.tick).busy;
      stores.Serve();
      a := if busy then Reject(StoreBusy) else Owned(stores.database.View(), identity, id);
    }

    method RoomOf(ref: Ref) returns (a: Verdict<Attempt>)
      requires stores.Valid()
      modifies stores, stores.database
      ensures stores.Valid() && (stores.Here(), a) == R.RoomOf(old(stores.Here()), stores.schedule, ref)
    {
      hide W.Serve;
      var busy := stores.schedule(stores.tick).busy;
      stores.Serve();
      a := if busy then Reject(StoreBusy) else Binding(stores.database.View(), ref, false);
    }

    method Advance(phase: Phase, ref: Ref, version: nat, m: Move) returns (row: Verdict<Resource>)
      requires stores.Valid()
      modifies stores, stores.database
      ensures stores.Valid()
      ensures (stores.Here(), row) == R.Advance(old(stores.Here()), stores.schedule, settings, phase, ref, version, m)
    {
      hide W.Transact, W.Look;
      var reply := stores.Transact(R.MoveCall(settings, phase, ref, version, m, stores.schedule(stores.tick)));
      if reply.Reject? {
        return Reject(reply.code);
      }
      row := stores.Look(ref);
      if row.Allow? && row.value.version != reply.value.version {
        row := Reject(StaleVersion);
      }
    }

    method Announce(phase: Phase, p: Publication, ref: Ref, version: nat, identity: UserIdentity) returns (a: Verdict<Attempt>)
      requires stores.Valid()
      modifies stores, stores.database
      ensures stores.Valid()
      ensures (stores.Here(), a) == R.Announce(old(stores.Here()), stores.schedule, settings, phase, p, ref, version, identity)
    {
      hide W.Transact, R.LookAttempt;
      var reply := stores.Transact(R.PublicationCall(settings, phase, p, ref, version, stores.schedule(stores.tick)));
      if reply.Reject? {
        return Reject(reply.code);
      }
      a := LookAttempt(identity, ref.attempt);
      if a.Allow? && a.value.version != reply.value.version {
        a := Reject(StaleVersion);
      }
    }

    /** Advance the room as far as its runtime proves recovery. */
    method Verify(identity: UserIdentity, id: AttemptId) returns (result: R.Result)
      requires stores.Valid()
      modifies stores, stores.database
      ensures stores.Valid()
      ensures (stores.Here(), result) == R.Verify(old(stores.Here()), stores.schedule, settings, identity, id)
    {
      hide R.LookAttempt, R.RoomOf, W.Look, R.Advance, R.Announce, W.AskRuntime;
      var owned := LookAttempt(identity, id);
      if owned.Reject? {
        return R.Reported(owned.code);
      }
      var attempt := owned.value;
      if attempt.activeSandbox.None? || attempt.activeGeneration.None? {
        return R.Withheld(R.Unavailable);
      }
      var ref := Ref(id, attempt.activeSandbox.value, attempt.activeGeneration.value);
      var room := RoomOf(ref);
      if room.Reject? {
        return R.Reported(room.code);
      }
      var row := stores.Look(ref);
      if row.Reject? {
        return R.Reported(row.code);
      }
      var resource := row.value;
      if attempt.state == Resolved && resource.state == Resolved {
        return R.Recovered;
      }
      if resource.state == Ready {
        if attempt.state != Ready {
          return R.Withheld(R.Unavailable);
        }
        row := Advance(RunningPhase, ref, resource.version, Move(Running, None, None, None));
        if row.Reject? {
          return R.Reported(row.code);
        }
        resource := row.value;
      }
      if resource.state == Running {
        if attempt.state == Ready {
          var running := Announce(PublishRunningPhase, PublishRunning, ref, attempt.version, identity);
          if running.Reject? {
            return R.Reported(running.code);
          }
          attempt := running.value;
        }
        if attempt.state != Running {
          return R.Withheld(R.Unavailable);
        }
        if resource.container.None? || resource.evidence.None? {
          return R.Withheld(R.NotVerified);
        }
        var answer := stores.AskRuntime(W.VerifyQuestion(ref, resource.container.value));
        match answer
        case Fault(error) =>
          return R.Withheld(if error == RuntimeUnavailable then R.VerificationUnavailable else R.NotVerified);
        case Created(_) =>
          return R.Withheld(R.VerificationUnavailable);
        case Evidence(observation) =>
          var evidence := settings.digest(resource.evidence.value, observation);
          row := Advance(ResolvedPhase, ref, resource.version, Move(Resolved, None, Some(evidence), None));
          if row.Reject? {
            return R.Reported(row.code);
          }
          resource := row.value;
      }
      if resource.state == Resolved {
        if attempt.state == Running {
          var resolved := Announce(PublishResolvedPhase, PublishResolved, ref, attempt.version, identity);
          if resolved.Reject? {
            return R.Reported(resolved.code);
          }
          attempt := resolved.value;
        }
        if attempt.state == Resolved {
          return R.Recovered;
        }
      }
      result := R.Withheld(R.Unavailable);
    }
  }

  class LifecycleMaintenanceService {
    const stores: Stores
    const worker: DockerCleanupWorker
    const limit: int
    const resumes: Option<P.Orchestrator>

    constructor (shared: Stores, cleanup: DockerCleanupWorker, bound: int, provisioner: Option<P.Orchestrator>)
      requires cleanup.stores == shared
      ensures stores == shared && worker == cleanup && limit == bound && resumes == provisioner
    {
      stores, worker, limit, resumes := shared, cleanup, bound, provisioner;
    }

    ghost predicate Valid() {
      worker.stores == stores && stores.Valid()
    }

    method ExpirePass() returns (refs: Verdict<seq<Ref>>)
      requires Valid()
      modifies stores, stores.database
      ensures Valid() && (stores.Here(), refs) == M.ExpirePass(old(stores.Here()), stores.schedule, limit)
    {
      hide W.Serve, Backend.Expire;
      var slice := stores.schedule(stores.tick);
      stores.Serve();
      if slice.busy {
        return Reject(StoreBusy);
      }
      var reply := stores.backend.Expire(slice.now, limit);
      match reply
      case Answered(found) => refs := Allow(found);
      case Error(code) => refs := Reject(code);
    }

    method ScanResets() returns (receipts: Verdict<seq<Receipt>>)
      requires Valid()
      modifies stores, stores.database
      ensures Valid() && (stores.Here(), receipts) == M.ScanResets(old(stores.Here()), stores.schedule, limit)
    {
      hide W.Serve, Backend.PendingResetProvisioning;
      var busy := stores.schedule(stores.tick).busy;
      stores.Serve();
      if busy {
        return Reject(StoreBusy);
      }
      receipts := stores.backend.PendingResetProvisioning(limit);
    }

    /** Persist expiry before one cleanup pass, then resume interrupted resets. */
    method RunOnce() returns (complete: bool)
      requires Valid()
      modifies stores, stores.database, worker
      ensures Valid()
      ensures (stores.Here(), complete) ==
        M.Maintain(old(stores.Here()), stores.schedule, M.Upkeep(worker.crew, limit, resumes))
    {
      hide M.ExpirePass, Worker.RunOnce, M.ScanResets, P.Provision;
      var expired := ExpirePass();
      if expired.Reject? {
        return false;
      }
      worker.RunOnce(limit);
      if worker.raised.Some? {
        return false;
      }
      if resumes.None? {
        return true;
      }
      var listed := ScanResets();
      if listed.Reject? {
        return false;
      }
      var receipts := listed.value;
      ghost var scanned := stores.Here();
      var i := 0;
      assert receipts[0..] == receipts;
      while i < |receipts|
        invariant 0 <= i <= |receipts| && Valid()
        invariant M.ResumeAll(scanned, stores.schedule, resumes.value, receipts)
          == M.ResumeAll(stores.Here(), stores.schedule, resumes.value, receipts[i..])
      {
        assert receipts[i..][0] == receipts[i] && receipts[i..][1..] == receipts[i + 1..];
        var orchestrator := new LifecycleOrchestrator(stores, resumes.value.(root := ResumeRoot(receipts[i].operation)));
        var ending := orchestrator.Provision(receipts[i]);
        if ending != P.Published {
          return false;
        }
        i := i + 1;
      }
      complete := true;
    }
  }
}
