/** RecoveryVerificationService.verify: advance a room step by step to RESOLVED, on the
    runtime's word. Every step is one access, so a crash may leave any of them undone. */
module Recovery {
  import opened Records
  import opened Common
  import opened Runs
  import opened Worlds

  /** The service's identities, the root of its derived keys, and the digest it computes
      from the evidence of readiness and of recovery. */
  datatype Verifier = Verifier(control: ServiceId, backend: ServiceId, root: Root, digest: (Digest, Digest) -> Digest)

  datatype Refusal = Unavailable | Unauthorized | BadRequest | NotVerified | VerificationUnavailable

  datatype Result = Recovered | Withheld(reason: Refusal)

  /** A store error as the service reports it. */
  function Reported(code: Code): Result {
    if code.NotAuthorized? then Withheld(Unauthorized)
    else if code.InvalidRequest? then Withheld(BadRequest)
    else Withheld(Unavailable)
  }

  function LookAttempt(w: World, schedule: Schedule, identity: UserIdentity, id: AttemptId): (World, Verdict<Attempt>) {
    var served := Serve(w, schedule);
    (served, if schedule(w.tick).busy then Reject(StoreBusy) else Owned(served.db, identity, id))
  }

  function RoomOf(w: World, schedule: Schedule, ref: Ref): (World, Verdict<Attempt>) {
    var served := Serve(w, schedule);
    (served, if schedule(w.tick).busy then Reject(StoreBusy) else Binding(served.db, ref, false))
  }

  function MoveCall(v: Verifier, phase: Phase, ref: Ref, version: nat, m: Move, slice: Slice): Call {
    TransitionCall(v.control, ref, version, m, PhaseKey(v.root, phase, ref, version), slice.now, slice.ids.batch)
  }

  function PublicationCall(v: Verifier, phase: Phase, p: Publication, ref: Ref, version: nat, slice: Slice): Call {
    PublishCall(v.backend, p, ref, version, PhaseKey(v.root, phase, ref, version), slice.now, slice.ids.batch)
  }

  /** Take a step of the resource and read its row back. */
  function Advance(w: World, schedule: Schedule, v: Verifier, phase: Phase, ref: Ref, version: nat, m: Move): (World, Verdict<Resource>) {
    var (moved, reply) := Transact(w, schedule, MoveCall(v, phase, ref, version, m, schedule(w.tick)));
    if reply.Reject? then (moved, Reject(reply.code))
    else
      var (looked, found) := Look(moved, schedule, ref);
      if found.Allow? && found.value.version != reply.value.version then (looked, Reject(StaleVersion)) else (looked, found)
  }

  /** Publish a state of the attempt and read its row back. */
  function Announce(w: World, schedule: Schedule, v: Verifier, phase: Phase, p: Publication, ref: Ref, version: nat,
                   identity: UserIdentity): (World, Verdict<Attempt>)
  {
    var (published, reply) := Transact(w, schedule, PublicationCall(v, phase, p, ref, version, schedule(w.tick)));
    if reply.Reject? then (published, Reject(reply.code))
    else
      var (looked, found) := LookAttempt(published, schedule, identity, ref.attempt);
      if found.Allow? && found.value.version != reply.value.version then (looked, Reject(StaleVersion)) else (looked, found)
  }

  function Verify(w: World, schedule: Schedule, v: Verifier, identity: UserIdentity, id: AttemptId): (World, Result) {
    var (looked, owned) := LookAttempt(w, schedule, identity, id);
    if owned.Reject? then (looked, Reported(owned.code))
    else if owned.value.activeSandbox.None? || owned.value.activeGeneration.None? then (looked, Withheld(Unavailable))
    else
      var a := owned.value;
      var ref := Ref(id, a.activeSandbox.value, a.activeGeneration.value);
      var (roomed, room) := RoomOf(looked, schedule, ref);
      if room.Reject? then (roomed, Reported(room.code)) else
      var (ready, row) := Look(roomed, schedule, ref);
      if row.Reject? then (ready, Reported(row.code)) else FromReady(ready, schedule, v, identity, ref, a, row.value)
  }

  function FromReady(w: World, schedule: Schedule, v: Verifier, identity: UserIdentity, ref: Ref, a: Attempt, r: Resource): (World, Result) {
    if a.state == Resolved && r.state == Resolved then (w, Recovered)
    else if r.state == Ready then
      if a.state != Ready then (w, Withheld(Unavailable))
      else
        var (moved, row) := Advance(w, schedule, v, RunningPhase, ref, r.version, Move(Running, None, None, None));
        if row.Reject? then (moved, Reported(row.code)) else FromRunning(moved, schedule, v, identity, ref, a, row.value)
    else FromRunning(w, schedule, v, identity, ref, a, r)
  }

  function FromRunning(w: World, schedule: Schedule, v: Verifier, identity: UserIdentity, ref: Ref, a: Attempt, r: Resource): (World, Result) {
    if r.state != Running then FromResolved(w, schedule, v, identity, ref, a, r)
    else if a.state == Ready then
      var (published, b) := Announce(w, schedule, v, PublishRunningPhase, PublishRunning, ref, a.version, identity);
      if b.Reject? then (published, Reported(b.code)) else Check(published, schedule, v, identity, ref, b.value, r)
    else Check(w, schedule, v, identity, ref, a, r)
  }

  /** Ask the runtime for the state of the running container, and resolve on its evidence. */
  function Check(w: World, schedule: Schedule, v: Verifier, identity: UserIdentity, ref: Ref, a: Attempt, r: Resource): (World, Result) {
    if a.state != Running then (w, Withheld(Unavailable))
    else if r.container.None? || r.evidence.None? then (w, Withheld(NotVerified))
    else
      var (asked, answer) := AskRuntime(w, schedule, VerifyQuestion(ref, r.container.value));
      match answer
      case Fault(error) => (asked, Withheld(if error == RuntimeUnavailable then VerificationUnavailable else NotVerified))
      case Created(_) => (asked, Withheld(VerificationUnavailable))
      case Evidence(observation) =>
        var m := Move(Resolved, None, Some(v.digest(r.evidence.value, observation)), None);
        var (moved, row) := Advance(asked, schedule, v, ResolvedPhase, ref, r.version, m);
        if row.Reject? then (moved, Reported(row.code)) else FromResolved(moved, schedule, v, identity, ref, a, row.value)
  }

  function FromResolved(w: World, schedule: Schedule, v: Verifier, identity: UserIdentity, ref: Ref, a: Attempt, r: Resource): (World, Result) {
    if r.state != Resolved then (w, Withheld(Unavailable))
    else if a.state == Running then
      var (published, b) := Announce(w, schedule, v, PublishResolvedPhase, PublishResolved, ref, a.version, identity);
      if b.Reject? then (published, Reported(b.code))
      else (published, if b.value.state == Resolved then Recovered else Withheld(Unavailable))
    else (w, if a.state == Resolved then Recovered else Withheld(Unavailable))
  }
}
