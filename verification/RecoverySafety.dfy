/** What verification keeps, whatever happens around it, and when a retry recovers. */
module RecoverySafety {
  import opened Records
  import opened Common
  import opened ControlPlane
  import opened Runs
  import opened Idempotence
  import opened Worlds
  import S = ProvisioningSafety
  import opened Recovery

  // ----- verification only makes store calls, and asks the runtime at most once -----

  /** From `events` on, the runtime was asked at most once. */
  ghost predicate AsksOnce(events: seq<Event>, more: seq<Event>) {
    && events <= more
    && forall i, j | |events| <= i < j < |more| :: !(more[i].Asked? && more[j].Asked?)
  }

  lemma SilentAsks(x: seq<Event>, y: seq<Event>, z: seq<Event>)
    requires (S.IsSilent(x, y) && AsksOnce(y, z)) || (AsksOnce(x, y) && S.IsSilent(y, z))
    ensures AsksOnce(x, z)
  {
  }

  lemma SilentIsOnce(x: seq<Event>, y: seq<Event>)
    requires S.IsSilent(x, y)
    ensures AsksOnce(x, y)
  {
  }

  lemma AskingIsOnce(w: World, schedule: Schedule, question: Question)
    ensures AsksOnce(w.trace, AskRuntime(w, schedule, question).0.trace)
  {
    hide Proper;
  }

  ghost predicate Goes(w: World, later: World) {
    Leads(w, later) && AsksOnce(w.trace, later.trace)
  }

  ghost predicate GoesSilently(w: World, later: World) {
    Leads(w, later) && S.IsSilent(w.trace, later.trace)
  }

  lemma GoesOn(x: World, y: World, z: World)
    ensures GoesSilently(x, y) && GoesSilently(y, z) ==> GoesSilently(x, z)
    ensures GoesSilently(x, y) && Goes(y, z) ==> Goes(x, z)
    ensures Goes(x, y) && GoesSilently(y, z) ==> Goes(x, z)
    ensures GoesSilently(x, y) ==> Goes(x, y)
  {
    hide Leads, S.IsSilent, AsksOnce;
    if Leads(x, y) && Leads(y, z) {
      LeadsOn(x, y, z);
    }
    if S.IsSilent(x.trace, y.trace) {
      SilentIsOnce(x.trace, y.trace);
      if S.IsSilent(y.trace, z.trace) {
        S.SilentOn(x.trace, y.trace, z.trace);
      }
    }
    if (S.IsSilent(x.trace, y.trace) && AsksOnce(y.trace, z.trace)) || (AsksOnce(x.trace, y.trace) && S.IsSilent(y.trace, z.trace)) {
      SilentAsks(x.trace, y.trace, z.trace);
    }
  }

  lemma StaysSilently(w: World)
    ensures GoesSilently(w, w)
  {
    hide Leads;
    Stays(w);
  }

  lemma ServeGoes(w: World, schedule: Schedule)
    ensures GoesSilently(w, Serve(w, schedule))
  {
    hide Leads, Serve, S.IsSilent;
    ServeLeads(w, schedule);
    S.ServingIsSilent(w, schedule);
    S.SilentStays(w.trace);
  }

  lemma TransactGoes(w: World, schedule: Schedule, c: Call)
    requires HasReceipt(c)
    ensures GoesSilently(w, Transact(w, schedule, c).0)
  {
    hide Leads, Transact, S.IsSilent;
    TransactLeads(w, schedule, c);
    S.TransactIsSilent(w, schedule, c);
  }

  lemma AdvanceGoes(w: World, schedule: Schedule, v: Verifier, phase: Phase, ref: Ref, version: nat, m: Move)
    ensures GoesSilently(w, Advance(w, schedule, v, phase, ref, version, m).0)
  {
    hide GoesSilently, Goes, Transact, Serve;
    var c := MoveCall(v, phase, ref, version, m, schedule(w.tick));
    TransactGoes(w, schedule, c);
    var moved := Transact(w, schedule, c).0;
    ServeGoes(moved, schedule);
    GoesOn(w, moved, Serve(moved, schedule));
  }

  lemma AnnounceGoes(w: World, schedule: Schedule, v: Verifier, phase: Phase, p: Publication, ref: Ref, version: nat, identity: UserIdentity)
    ensures GoesSilently(w, Announce(w, schedule, v, phase, p, ref, version, identity).0)
  {
    hide GoesSilently, Goes, Transact, Serve;
    var c := PublicationCall(v, phase, p, ref, version, schedule(w.tick));
    TransactGoes(w, schedule, c);
    var published := Transact(w, schedule, c).0;
    ServeGoes(published, schedule);
    GoesOn(w, published, Serve(published, schedule));
  }

  lemma FromResolvedGoes(w: World, schedule: Schedule, v: Verifier, identity: UserIdentity, ref: Ref, a: Attempt, r: Resource)
    ensures GoesSilently(w, FromResolved(w, schedule, v, identity, ref, a, r).0)
  {
    hide GoesSilently, Announce;
    StaysSilently(w);
    AnnounceGoes(w, schedule, v, PublishResolvedPhase, PublishResolved, ref, a.version, identity);
  }

  lemma CheckGoes(w: World, schedule: Schedule, v: Verifier, identity: UserIdentity, ref: Ref, a: Attempt, r: Resource)
    ensures Goes(w, Check(w, schedule, v, identity, ref, a, r).0)
  {
    hide GoesSilently, Goes, Advance, AskRuntime, FromResolved;
    StaysSilently(w);
    GoesOn(w, w, w);
    if a.state == Running && r.container.Some? && r.evidence.Some? {
      var question := VerifyQuestion(ref, r.container.value);
      AskGoes(w, schedule, question);
      var (asked, answer) := AskRuntime(w, schedule, question);
      if answer.Evidence? {
        var m := Move(Resolved, None, Some(v.digest(r.evidence.value, answer.digest)), None);
        AdvanceGoes(asked, schedule, v, ResolvedPhase, ref, r.version, m);
        var (moved, row) := Advance(asked, schedule, v, ResolvedPhase, ref, r.version, m);
        GoesOn(w, asked, moved);
        if row.Allow? {
          FromResolvedGoes(moved, schedule, v, identity, ref, a, row.value);
          GoesOn(w, moved, FromResolved(moved, schedule, v, identity, ref, a, row.value).0);
        }
      }
    }
  }

  lemma AskGoes(w: World, schedule: Schedule, question: Question)
    ensures Goes(w, AskRuntime(w, schedule, question).0)
  {
    hide Leads, AsksOnce, AskRuntime;
    AskLeads(w, schedule, question);
    AskingIsOnce(w, schedule, question);
  }

  lemma FromRunningGoes(w: World, schedule: Schedule, v: Verifier, identity: UserIdentity, ref: Ref, a: Attempt, r: Resource)
    ensures Goes(w, FromRunning(w, schedule, v, identity, ref, a, r).0)
  {
    hide GoesSilently, Goes, Announce, Check, FromResolved;
    if r.state != Running {
      FromResolvedGoes(w, schedule, v, identity, ref, a, r);
      GoesOn(w, FromResolved(w, schedule, v, identity, ref, a, r).0, w);
    } else if a.state == Ready {
      AnnounceGoes(w, schedule, v, PublishRunningPhase, PublishRunning, ref, a.version, identity);
      var (published, b) := Announce(w, schedule, v, PublishRunningPhase, PublishRunning, ref, a.version, identity);
      GoesOn(w, published, published);
      if b.Allow? {
        CheckGoes(published, schedule, v, identity, ref, b.value, r);
        GoesOn(w, published, Check(published, schedule, v, identity, ref, b.value, r).0);
      }
    } else {
      CheckGoes(w, schedule, v, identity, ref, a, r);
    }
  }

  lemma FromReadyGoes(w: World, schedule: Schedule, v: Verifier, identity: UserIdentity, ref: Ref, a: Attempt, r: Resource)
    ensures Goes(w, FromReady(w, schedule, v, identity, ref, a, r).0)
  {
    hide GoesSilently, Goes, Advance, FromRunning;
    StaysSilently(w);
    GoesOn(w, w, w);
    FromRunningGoes(w, schedule, v, identity, ref, a, r);
    var m := Move(Running, None, None, None);
    AdvanceGoes(w, schedule, v, RunningPhase, ref, r.version, m);
    var (moved, row) := Advance(w, schedule, v, RunningPhase, ref, r.version, m);
    GoesOn(w, moved, moved);
    if row.Allow? {
      FromRunningGoes(moved, schedule, v, identity, ref, a, row.value);
      GoesOn(w, moved, FromRunning(moved, schedule, v, identity, ref, a, row.value).0);
    }
  }

  /** Verification, crashing anywhere, is a run of legal calls with at most one runtime check. */
  lemma VerificationKeepsTheStoreSound(w: World, schedule: Schedule, v: Verifier, identity: UserIdentity, id: AttemptId)
    ensures Leads(w, Verify(w, schedule, v, identity, id).0)
    ensures AsksOnce(w.trace, Verify(w, schedule, v, identity, id).0.trace)
  {
    hide GoesSilently, Serve, FromReady, Binding, Inspect, Leads, AsksOnce, S.IsSilent;
    VerificationGoes(w, schedule, v, identity, id);
    GoesParts(w, Verify(w, schedule, v, identity, id).0);
  }

  lemma GoesParts(w: World, later: World)
    requires Goes(w, later)
    ensures Leads(w, later) && AsksOnce(w.trace, later.trace)
  {
  }

  lemma VerificationGoes(w: World, schedule: Schedule, v: Verifier, identity: UserIdentity, id: AttemptId)
    ensures Goes(w, Verify(w, schedule, v, identity, id).0)
  {
    hide GoesSilently, Goes, Serve, FromReady, Binding, Inspect;
    var looked := Serve(w, schedule);
    ServeGoes(w, schedule);
    GoesOn(w, looked, looked);
    var roomed := Serve(looked, schedule);
    ServeGoes(looked, schedule);
    GoesOn(w, looked, roomed);
    var ready := Serve(roomed, schedule);
    ServeGoes(roomed, schedule);
    GoesOn(w, roomed, ready);
    var owned := LookAttempt(w, schedule, identity, id).1;
    if owned.Allow? && owned.value.activeSandbox.Some? && owned.value.activeGeneration.Some? {
      var a := owned.value;
      var ref := Ref(id, a.activeSandbox.value, a.activeGeneration.value);
      var row := Look(roomed, schedule, ref).1;
      if row.Allow? {
        FromReadyGoes(ready, schedule, v, identity, ref, a, row.value);
        GoesOn(w, ready, FromReady(ready, schedule, v, identity, ref, a, row.value).0);
      }
    }
  }
}
