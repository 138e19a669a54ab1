/** Verification never leaves the pair that no retry recovers from, wherever it crashes and
    whatever others do meanwhile; so after a crash a retry recovers. */
module RecoveryCrash {
  import opened Records
  import opened Common
  import opened Backend
  import opened ControlPlane
  import opened Runs
  import opened Effects
  import opened Invariant
  import opened Preservation
  import opened Deadline
  import opened Reachable
  import opened Idempotence
  import opened Keys
  import opened Worlds
  import opened CleanupTermination
  import opened ProvisioningSuccess
  import opened Recovery
  import opened RecoverySafety
  import opened RecoverySuccess
  import opened Turns

  /** A READY attempt whose active sandbox is RESOLVED. */
  ghost predicate IsStuck(db: Db, id: AttemptId) {
    && id in db.attempts && db.attempts[id].state == Ready
    && db.attempts[id].activeSandbox.Some?
    && ResourceIs(db, db.attempts[id].activeSandbox.value, Resolved)
  }

  /** No attempt became stuck. */
  ghost predicate Spares(before: Db, after: Db) {
    forall id | IsStuck(after, id) :: IsStuck(before, id)
  }

  /** No attempt became READY, and no sandbox RESOLVED. */
  ghost predicate MakesNoPair(before: Db, after: Db) {
    && (forall id | id in after.attempts && after.attempts[id].state == Ready ::
          id in before.attempts && after.attempts[id] == before.attempts[id])
    && (forall s | s in after.resources && after.resources[s].state == Resolved ::
          s in before.resources && after.resources[s] == before.resources[s])
  }

  lemma NoPairSpares(before: Db, after: Db)
    requires MakesNoPair(before, after)
    ensures Spares(before, after)
  {
  }

  lemma SameSpares(before: Db, after: Db)
    requires after.attempts == before.attempts && after.resources == before.resources
    ensures Spares(before, after)
  {
  }

  lemma SparesTwice(x: Db, y: Db, z: Db)
    requires Spares(x, y) && Spares(y, z)
    ensures Spares(x, z)
  {
  }

  // ----- which calls can strand an attempt -----

  lemma FinishSpares(before: Db, db: Db)
    requires Spares(before, db)
    ensures forall k, id, request, ref, state, version, error ::
      Spares(before, Finish(db, k, id, request, ref, state, version, error).After(before))
  {
    hide Spares, IsStuck;
    forall k, id, request, ref, state, version, error
      ensures Spares(before, Finish(db, k, id, request, ref, state, version, error).After(before))
    {
      var o := Finish(db, k, id, request, ref, state, version, error);
      SameSpares(before, before);
      if o.Done? {
        SameSpares(db, o.db);
        SparesTwice(before, db, o.db);
      }
    }
  }

  lemma StopSpares(db: Db, id: AttemptId, now: int)
    requires id in db.attempts
    ensures Spares(db, StopAttempt(db, id, now).After(db))
  {
  }

  lemma PublishedSpares(db: Db, p: Publication, ref: Ref)
    requires ref.attempt in db.attempts && IsCurrent(db.attempts[ref.attempt], ref)
    requires MayPublish(db, db.attempts[ref.attempt], p, ref)
    ensures Spares(db, db.(attempts := db.attempts[ref.attempt := Published(db.attempts[ref.attempt], p, ref)]))
  {
    hide CleanlyDestroyed;
  }

  /** A sandbox that is published as READY is READY, so no publication strands. */
  lemma PublicationSpares(db: Db, c: Call)
    requires c.PublishCall?
    ensures Spares(db, Answer(db, c).After(db))
  {
    hide StopAttempt, MayPublish, Published, Spares, Finish;
    SameSpares(db, db);
    if Binding(db, c.ref, false).Allow? {
      StopSpares(db, c.ref.attempt, c.now);
      if MayPublish(db, db.attempts[c.ref.attempt], c.publication, c.ref) {
        var b := Published(db.attempts[c.ref.attempt], c.publication, c.ref);
        PublishedSpares(db, c.publication, c.ref);
        FinishSpares(db, db.(attempts := db.attempts[c.ref.attempt := b]));
      }
    }
  }

  lemma RowsSpare(before: Db, after: Db)
    requires Core(before) && Core(after) && after.resources == before.resources
    requires forall id | id in before.attempts :: RowEnds(before, after, id)
    ensures Spares(before, after)
  {
    hide Core;
    forall id | IsStuck(after, id)
      ensures IsStuck(before, id)
    {
      AttemptIsShaped(after, id);
      ResourceIsShaped(before, after.attempts[id].activeSandbox.value);
    }
  }

  lemma BackendSpares(db: Db, c: Call)
    requires Core(db) && FreshIds(db, c) && IsBackendCall(c) && !c.PublishCall? && !c.BeginResetCall?
    ensures Spares(db, Step(db, c))
  {
    hide Core, RowsGrow, Create, Leave, Complete, Expire, Consume, RowEnds, Spares;
    BackendOwnsItsRows(db, c);
    CallIsSound(db, c);
    forall id | id in db.attempts
      ensures RowEnds(db, Step(db, c), id)
    {
      match c
      case CreateCall(identity, room, key, deadline, now, ids) => CreateRows(db, identity, room, key, deadline, now, ids, id);
      case LeaveCall(identity, ref, key, now, batch) => LeaveRows(db, identity, ref, key, now, batch, id);
      case CompleteCall(service, ref, key, now, batch) => CompleteRows(db, service, ref, key, now, batch, id);
      case ExpireCall(now, limit) => ExpireRows(db, now, limit, id);
      case ConsumeCall(claims, now) => ConsumeRows(db, claims, now, id);
      case _ =>
    }
    RowsSpare(db, Step(db, c));
  }

  lemma ResetSpares(db: Db, c: Call)
    requires c.BeginResetCall?
    ensures Spares(db, Step(db, c))
  {
    hide Spares, Finish, StopAttempt;
    SameSpares(db, db);
    if Binding(db, c.ref, false).Allow? {
      StopSpares(db, c.ref.attempt, c.now);
      var db1 := db.(attempts := db.attempts[c.ref.attempt := Resetted(db.attempts[c.ref.attempt], c.ids)]);
      ResettingSpares(db, c.ref.attempt, Resetted(db.attempts[c.ref.attempt], c.ids));
      FinishSpares(db, db1);
    }
  }

  lemma ResettingSpares(db: Db, id: AttemptId, b: Attempt)
    requires b.state != Ready
    ensures Spares(db, db.(attempts := db.attempts[id := b]))
  {
  }

  lemma EndsSpare(before: Db, after: Db)
    requires after.attempts == before.attempts && OnlyEnds(before, after)
    ensures Spares(before, after)
  {
  }

  lemma AcceptSpares(db: Db, c: Call)
    requires c.AcceptCall?
    ensures Spares(db, Step(db, c))
  {
    hide Spares, Finish, RequireLive;
    SameSpares(db, db);
    if Binding(db, c.ref, false).Allow? {
      var a := db.attempts[c.ref.attempt];
      RequireLiveQuiet(db, a, None, c.now);
      EndsSpare(db, RequireLive(db, a, None, c.now).After(db));
      var db1 := db.(resources := db.resources[c.ref.sandbox := NewResource(c.ref, a)]);
      AcceptedSpares(db, c.ref, a);
      FinishSpares(db, db1);
    }
  }

  lemma AcceptedSpares(db: Db, ref: Ref, a: Attempt)
    ensures Spares(db, db.(resources := db.resources[ref.sandbox := NewResource(ref, a)]))
  {
  }

  lemma StepSpares(db: Db, c: Call)
    requires c.TransitionCall? && c.move.state != Resolved
    ensures Spares(db, Answer(db, c).After(db))
  {
    hide Transition, MayMove, Spares;
    TransitionShape(db, c.service, c.ref, c.expected, c.move, c.key, c.now, c.batch);
    NoPairSpares(db, Answer(db, c).After(db));
  }

  lemma ControlSpares(db: Db, c: Call)
    requires !IsBackendCall(c) && !(c.TransitionCall? && c.move.state == Resolved)
    ensures Spares(db, Step(db, c))
  {
    hide Accept, Transition, GrantLease, Reconcile, CleanupFailed, Spares;
    match c
    case AcceptCall(service, ref, key, now, batch) => AcceptSpares(db, c);
    case TransitionCall(service, ref, expected, m, key, now, batch) => StepSpares(db, c);
    case GrantCall(service, ref, consumed, session, duration, key, now, lease) =>
      GrantShape(db, service, ref, consumed, session, duration, key, now, lease);
      EndsSpare(db, Step(db, c));
    case ReconcileCall(now, limit, batch) =>
      ReconcileEnds(db, now, limit, batch);
      EndsSpare(db, Step(db, c));
    case CleanupFailedCall(service, ref, operation, expected, key, error, retryAt, now, batch) =>
      CleanupFailedShape(db, service, ref, operation, expected, key, error, retryAt, now, batch);
      EndsSpare(db, Step(db, c));
  }

  /** Only a step to RESOLVED can strand an attempt. */
  lemma OnlyResolvingStrands(db: Db, c: Call)
    requires Core(db) && FreshIds(db, c) && !(c.TransitionCall? && c.move.state == Resolved)
    ensures Spares(db, Step(db, c))
  {
    hide Core, Spares, Apply;
    if c.PublishCall? {
      PublicationSpares(db, c);
    } else if c.BeginResetCall? {
      ResetSpares(db, c);
    } else if IsBackendCall(c) {
      BackendSpares(db, c);
    } else {
      ControlSpares(db, c);
    }
  }

  /** The room has been RUNNING in the sandbox's generation, or is past it. */
  ghost predicate WasRunning(db: Db, ref: Ref) {
    && ref.attempt in db.attempts && ref.generation <= db.attempts[ref.attempt].generation
    && (ref.generation == db.attempts[ref.attempt].generation ==> Progress(db.attempts[ref.attempt].state) >= 2)
  }

  /** A step to RESOLVED is only asked for once the room has been RUNNING. */
  ghost predicate IsConsiderate(db: Db, c: Call) {
    c.TransitionCall? && c.move.state == Resolved ==> WasRunning(db, c.ref)
  }

  lemma ResolvingSpares(db: Db, c: Call)
    requires Core(db) && c.TransitionCall? && c.move.state == Resolved && WasRunning(db, c.ref)
    ensures Spares(db, Answer(db, c).After(db))
  {
    hide Core, Transition, MayMove;
    TransitionShape(db, c.service, c.ref, c.expected, c.move, c.key, c.now, c.batch);
    var after := Answer(db, c).After(db);
    forall id | IsStuck(after, id)
      ensures IsStuck(db, id)
    {
      AttemptIsShaped(db, id);
    }
  }

  lemma ConsiderateSpares(db: Db, c: Call)
    requires Core(db) && FreshIds(db, c) && IsConsiderate(db, c)
    ensures Spares(db, Step(db, c))
  {
    hide Core, Spares, Apply, FreshIds;
    if c.TransitionCall? && c.move.state == Resolved {
      ResolvingSpares(db, c);
    } else {
      OnlyResolvingStrands(db, c);
    }
  }

  ghost predicate IsConsiderateRun(db: Db, run: seq<Call>)
    decreases |run|
  {
    run == [] || (IsConsiderate(db, run[0]) && IsConsiderateRun(Step(db, run[0]), run[1..]))
  }

  lemma {:induction false} RunSpares(db: Db, run: seq<Call>)
    requires Intact(db) && Proper(db, run) && IsConsiderateRun(db, run)
    ensures Spares(db, Run(db, run))
    decreases |run|
  {
    hide Spares, Step, Honest, Inv, KeysOk, Grows, IsConsiderate;
    SameSpares(db, db);
    if run != [] {
      CallKeepsIntact(db, run[0]);
      IntactIsCore(db);
      ConsiderateSpares(db, run[0]);
      RunSpares(Step(db, run[0]), run[1..]);
      SparesTwice(db, Step(db, run[0]), Run(db, run));
    }
  }

  ghost predicate Resolves(c: Call) {
    c.TransitionCall? && c.move.state == Resolved
  }

  lemma {:induction false} NotResolvingIsConsiderate(db: Db, run: seq<Call>)
    requires forall i | 0 <= i < |run| :: !Resolves(run[i])
    ensures IsConsiderateRun(db, run)
    decreases |run|
  {
    hide Step, WasRunning;
    if run != [] {
      assert !Resolves(run[0]);
      forall i | 0 <= i < |run[1..]|
        ensures !Resolves(run[1..][i])
      {
        assert run[1..][i] == run[i + 1];
      }
      NotResolvingIsConsiderate(Step(db, run[0]), run[1..]);
    }
  }

  lemma IntactIsCore(db: Db)
    requires Intact(db)
    ensures Core(db)
  {
  }

  // ----- the program's own commits -----

  /** The attempt's row has been as the program read it: it is in a later generation, or as
      far in the same one. */
  ghost predicate HasBeen(db: Db, id: AttemptId, a: Attempt) {
    && id in db.attempts && a.generation <= db.attempts[id].generation
    && (a.generation == db.attempts[id].generation ==> Progress(a.state) <= Progress(db.attempts[id].state))
  }

  lemma HasBeenStays(before: Db, after: Db, id: AttemptId, a: Attempt)
    requires Grows(before, after) && HasBeen(before, id, a)
    ensures HasBeen(after, id, a)
  {
    assert AttemptGrows(before.resources, before.attempts[id], after.attempts[id]);
  }

  lemma SeenRunning(db: Db, ref: Ref, a: Attempt)
    requires HasBeen(db, ref.attempt, a) && ref.generation <= a.generation && Progress(a.state) >= 2
    ensures WasRunning(db, ref)
  {
  }

  /** The program's own commits are considerate, and none of them made an attempt stuck. */
  ghost predicate OwnCommitsSpare(w: World, schedule: Schedule, turns: seq<Turn>)
    requires AllReceipts(turns)
    decreases |turns|
  {
    turns == [] ||
    (&& (turns[0].Calling? ==> IsConsiderate(Serve(w, schedule).db, turns[0].call))
     && Spares(Serve(w, schedule).db, Perform(w, schedule, turns[0]).db)
     && OwnCommitsSpare(Perform(w, schedule, turns[0]), schedule, turns[1..]))
  }

  /** The program is these turns, and its commits are harmless. */
  ghost predicate Harmless(w: World, schedule: Schedule, turns: seq<Turn>, later: World) {
    AllReceipts(turns) && RunTurns(w, schedule, turns) == later && OwnCommitsSpare(w, schedule, turns)
  }

  lemma {:induction false} HarmlessJoins(w: World, schedule: Schedule, xs: seq<Turn>, y: World, ys: seq<Turn>, z: World)
    requires Harmless(w, schedule, xs, y) && Harmless(y, schedule, ys, z)
    ensures Harmless(w, schedule, xs + ys, z)
    decreases |xs|
  {
    hide Perform, Spares, Serve, IsConsiderate;
    if xs == [] {
      assert xs + ys == ys;
    } else {
      assert (xs + ys)[0] == xs[0] && (xs + ys)[1..] == xs[1..] + ys;
      HarmlessJoins(Perform(w, schedule, xs[0]), schedule, xs[1..], y, ys, z);
    }
  }

  lemma NothingIsHarmless(w: World, schedule: Schedule)
    ensures Harmless(w, schedule, [], w)
  {
  }

  lemma TurnIsHarmless(w: World, schedule: Schedule, x: Turn)
    requires x.Calling? ==> HasReceipt(x.call) && IsConsiderate(Serve(w, schedule).db, x.call)
    requires Spares(Serve(w, schedule).db, Perform(w, schedule, x).db)
    ensures Harmless(w, schedule, [x], Perform(w, schedule, x))
  {
    hide Serve, Perform, Spares, IsConsiderate;
    TurnAlone(w, schedule, x);
    assert [x][0] == x && [x][1..] == [];
    assert OwnCommitsSpare(Perform(w, schedule, x), schedule, []);
  }

  lemma ReadingIsHarmless(w: World, schedule: Schedule)
    ensures Harmless(w, schedule, [Reading], Serve(w, schedule))
  {
    hide Serve, Spares, Harmless;
    SameSpares(Serve(w, schedule).db, Serve(w, schedule).db);
    TurnIsHarmless(w, schedule, Reading);
  }

  lemma AskingIsHarmless(w: World, schedule: Schedule, question: Question)
    ensures Harmless(w, schedule, [Asking(question)], AskRuntime(w, schedule, question).0)
  {
    hide Serve, Spares, Harmless;
    SameSpares(Serve(w, schedule).db, AskRuntime(w, schedule, question).0.db);
    TurnIsHarmless(w, schedule, Asking(question));
  }

  lemma CommitIsHarmless(w: World, schedule: Schedule, c: Call)
    requires HasReceipt(c) && IsConsiderate(Serve(w, schedule).db, c)
    requires Spares(Serve(w, schedule).db, Answer(Serve(w, schedule).db, c).After(Serve(w, schedule).db))
    ensures Harmless(w, schedule, [Calling(c)], Transact(w, schedule, c).0)
  {
    hide Serve, Spares, Harmless, Answer, Honest, FreshIds, IsConsiderate;
    SameSpares(Serve(w, schedule).db, Serve(w, schedule).db);
    TurnIsHarmless(w, schedule, Calling(c));
  }

  lemma AdvanceIsHarmless(w: World, schedule: Schedule, v: Verifier, phase: Phase, ref: Ref, version: nat, m: Move, a: Attempt)
      returns (xs: seq<Turn>)
    requires Healthy(w) && Advance(w, schedule, v, phase, ref, version, m).0.legal
    requires m.state == Running
      || (m.state == Resolved && HasBeen(w.db, ref.attempt, a) && ref.generation <= a.generation && Progress(a.state) >= 2)
    ensures Harmless(w, schedule, xs, Advance(w, schedule, v, phase, ref, version, m).0)
  {
    hide Intact, Grows, Answer, Transact, Serve, Harmless, HasBeen, Spares, Inspect, WasRunning;
    var c := MoveCall(v, phase, ref, version, m, schedule(w.tick));
    var served := Serve(w, schedule);
    ServeLeads(w, schedule);
    TransactLeads(w, schedule, c);
    AdvanceLegal(w, schedule, v, phase, ref, version, m);
    ServedLegal(w, schedule, c);
    if m.state == Running {
      StepSpares(served.db, c);
    } else {
      HasBeenStays(w.db, served.db, ref.attempt, a);
      SeenRunning(served.db, ref, a);
      IntactIsCore(served.db);
      ResolvingSpares(served.db, c);
    }
    CommitIsHarmless(w, schedule, c);
    var moved := Transact(w, schedule, c).0;
    ReadingIsHarmless(moved, schedule);
    HarmlessJoins(w, schedule, [Calling(c)], moved, [Reading], Serve(moved, schedule));
    xs := if Transact(w, schedule, c).1.Reject? then [Calling(c)] else [Calling(c)] + [Reading];
  }

  lemma AnnounceIsHarmless(w: World, schedule: Schedule, v: Verifier, phase: Phase, p: Publication, ref: Ref, version: nat,
                           identity: UserIdentity) returns (xs: seq<Turn>)
    ensures Harmless(w, schedule, xs, Announce(w, schedule, v, phase, p, ref, version, identity).0)
  {
    hide Answer, Transact, Serve, Harmless, Spares;
    var c := PublicationCall(v, phase, p, ref, version, schedule(w.tick));
    PublicationSpares(Serve(w, schedule).db, c);
    CommitIsHarmless(w, schedule, c);
    var published := Transact(w, schedule, c).0;
    ReadingIsHarmless(published, schedule);
    HarmlessJoins(w, schedule, [Calling(c)], published, [Reading], Serve(published, schedule));
    xs := if Transact(w, schedule, c).1.Reject? then [Calling(c)] else [Calling(c)] + [Reading];
  }

  /** What is read back after an announcement is the row at that moment, not an earlier one. */
  lemma AnnouncedIsLater(w: World, schedule: Schedule, v: Verifier, phase: Phase, p: Publication, ref: Ref, version: nat,
                         identity: UserIdentity, a: Attempt)
    requires Healthy(w) && HasBeen(w.db, ref.attempt, a) && Announce(w, schedule, v, phase, p, ref, version, identity).0.legal
    ensures var (later, b) := Announce(w, schedule, v, phase, p, ref, version, identity);
      && Healthy(later)
      && (b.Allow? ==> HasBeen(later.db, ref.attempt, b.value) && a.generation <= b.value.generation)
  {
    hide Intact, Grows, Transact, Serve;
    AnnounceGoes(w, schedule, v, phase, p, ref, version, identity);
    HasBeenStays(w.db, Announce(w, schedule, v, phase, p, ref, version, identity).0.db, ref.attempt, a);
  }

  lemma FromResolvedIsHarmless(w: World, schedule: Schedule, v: Verifier, identity: UserIdentity, ref: Ref, a: Attempt, r: Resource)
      returns (xs: seq<Turn>)
    ensures Harmless(w, schedule, xs, FromResolved(w, schedule, v, identity, ref, a, r).0)
  {
    hide Announce, Harmless;
    NothingIsHarmless(w, schedule);
    xs := [];
    if r.state == Resolved && a.state == Running {
      xs := AnnounceIsHarmless(w, schedule, v, PublishResolvedPhase, PublishResolved, ref, a.version, identity);
    }
  }

  lemma CheckIsHarmless(w: World, schedule: Schedule, v: Verifier, identity: UserIdentity, ref: Ref, a: Attempt, r: Resource)
      returns (xs: seq<Turn>)
    requires Healthy(w) && HasBeen(w.db, ref.attempt, a) && ref.generation <= a.generation
    requires Check(w, schedule, v, identity, ref, a, r).0.legal
    ensures Harmless(w, schedule, xs, Check(w, schedule, v, identity, ref, a, r).0)
  {
    hide Intact, Grows, Harmless, HasBeen, Advance, AskRuntime, FromResolved;
    NothingIsHarmless(w, schedule);
    xs := [];
    if a.state == Running && r.container.Some? && r.evidence.Some? {
      var question := VerifyQuestion(ref, r.container.value);
      AskGoes(w, schedule, question);
      AskingIsHarmless(w, schedule, question);
      var (asked, answer) := AskRuntime(w, schedule, question);
      xs := [Asking(question)];
      if answer.Evidence? {
        var m := Move(Resolved, None, Some(v.digest(r.evidence.value, answer.digest)), None);
        var (moved, row) := Advance(asked, schedule, v, ResolvedPhase, ref, r.version, m);
        AdvanceGoes(asked, schedule, v, ResolvedPhase, ref, r.version, m);
        if row.Allow? {
          FromResolvedGoes(moved, schedule, v, identity, ref, a, row.value);
        }
        HasBeenStays(w.db, asked.db, ref.attempt, a);
        var ys := AdvanceIsHarmless(asked, schedule, v, ResolvedPhase, ref, r.version, m, a);
        HarmlessJoins(w, schedule, xs, asked, ys, moved);
        xs := xs + ys;
        if row.Allow? {
          var zs := FromResolvedIsHarmless(moved, schedule, v, identity, ref, a, row.value);
          HarmlessJoins(w, schedule, xs, moved, zs, FromResolved(moved, schedule, v, identity, ref, a, row.value).0);
          xs := xs + zs;
        }
      }
    }
  }

  lemma FromRunningIsHarmless(w: World, schedule: Schedule, v: Verifier, identity: UserIdentity, ref: Ref, a: Attempt, r: Resource)
      returns (xs: seq<Turn>)
    requires Healthy(w) && HasBeen(w.db, ref.attempt, a) && ref.generation <= a.generation
    requires FromRunning(w, schedule, v, identity, ref, a, r).0.legal
    ensures Harmless(w, schedule, xs, FromRunning(w, schedule, v, identity, ref, a, r).0)
  {
    hide Intact, Grows, Harmless, HasBeen, Announce, Check, FromResolved;
    if r.state != Running {
      xs := FromResolvedIsHarmless(w, schedule, v, identity, ref, a, r);
    } else if a.state == Ready {
      xs := AnnounceIsHarmless(w, schedule, v, PublishRunningPhase, PublishRunning, ref, a.version, identity);
      var (published, b) := Announce(w, schedule, v, PublishRunningPhase, PublishRunning, ref, a.version, identity);
      if b.Allow? {
        CheckGoes(published, schedule, v, identity, ref, b.value, r);
        AnnouncedIsLater(w, schedule, v, PublishRunningPhase, PublishRunning, ref, a.version, identity, a);
        var ys := CheckIsHarmless(published, schedule, v, identity, ref, b.value, r);
        HarmlessJoins(w, schedule, xs, published, ys, Check(published, schedule, v, identity, ref, b.value, r).0);
        xs := xs + ys;
      }
    } else {
      xs := CheckIsHarmless(w, schedule, v, identity, ref, a, r);
    }
  }

  lemma FromReadyIsHarmless(w: World, schedule: Schedule, v: Verifier, identity: UserIdentity, ref: Ref, a: Attempt, r: Resource)
      returns (xs: seq<Turn>)
    requires Healthy(w) && HasBeen(w.db, ref.attempt, a) && ref.generation <= a.generation
    requires FromReady(w, schedule, v, identity, ref, a, r).0.legal
    ensures Harmless(w, schedule, xs, FromReady(w, schedule, v, identity, ref, a, r).0)
  {
    hide Intact, Grows, Harmless, HasBeen, Advance, FromRunning;
    NothingIsHarmless(w, schedule);
    xs := [];
    if a.state == Resolved && r.state == Resolved {
    } else if r.state != Ready {
      xs := FromRunningIsHarmless(w, schedule, v, identity, ref, a, r);
    } else if a.state == Ready {
      var m := Move(Running, None, None, None);
      var (moved, row) := Advance(w, schedule, v, RunningPhase, ref, r.version, m);
      AdvanceGoes(w, schedule, v, RunningPhase, ref, r.version, m);
      if row.Allow? {
        FromRunningGoes(moved, schedule, v, identity, ref, a, row.value);
      }
      xs := AdvanceIsHarmless(w, schedule, v, RunningPhase, ref, r.version, m, a);
      if row.Allow? {
        HasBeenStays(w.db, moved.db, ref.attempt, a);
        var ys := FromRunningIsHarmless(moved, schedule, v, identity, ref, a, row.value);
        HarmlessJoins(w, schedule, xs, moved, ys, FromRunning(moved, schedule, v, identity, ref, a, row.value).0);
        xs := xs + ys;
      }
    }
  }

  /** Verification, crashing anywhere and with any calls of others around it, is a sequence of
      turns, none of whose own commits leaves a READY attempt with a RESOLVED sandbox that
      was not there before it. */
  lemma VerificationNeverStrands(w: World, schedule: Schedule, v: Verifier, identity: UserIdentity, id: AttemptId)
      returns (xs: seq<Turn>)
    requires Healthy(w) && Verify(w, schedule, v, identity, id).0.legal
    ensures Harmless(w, schedule, xs, Verify(w, schedule, v, identity, id).0)
  {
    hide Intact, Grows, Harmless, Serve, FromReady, Binding, Inspect;
    var looked := Serve(w, schedule);
    var roomed := Serve(looked, schedule);
    var ready := Serve(roomed, schedule);
    ReadingIsHarmless(w, schedule);
    ReadingIsHarmless(looked, schedule);
    ReadingIsHarmless(roomed, schedule);
    HarmlessJoins(w, schedule, [Reading], looked, [Reading], roomed);
    HarmlessJoins(w, schedule, [Reading] + [Reading], roomed, [Reading], ready);
    ServeLeads(w, schedule);
    ServeLeads(looked, schedule);
    ServeLeads(roomed, schedule);
    var owned := LookAttempt(w, schedule, identity, id).1;
    xs := [Reading];
    if owned.Allow? && owned.value.activeSandbox.Some? && owned.value.activeGeneration.Some? {
      var a := owned.value;
      var ref := Ref(id, a.activeSandbox.value, a.activeGeneration.value);
      xs := xs + [Reading];
      if RoomOf(looked, schedule, ref).1.Allow? {
        xs := xs + [Reading];
        var row := Look(roomed, schedule, ref).1;
        if row.Allow? {
          FromReadyGoes(ready, schedule, v, identity, ref, a, row.value);
          ReadIsSeen(looked.db, id, a);
          HasBeenStays(looked.db, roomed.db, id, a);
          HasBeenStays(roomed.db, ready.db, id, a);
          var ys := FromReadyIsHarmless(ready, schedule, v, identity, ref, a, row.value);
          HarmlessJoins(w, schedule, xs, ready, ys, FromReady(ready, schedule, v, identity, ref, a, row.value).0);
          xs := xs + ys;
        }
      }
    }
  }

  lemma ReadIsSeen(db: Db, id: AttemptId, a: Attempt)
    requires Intact(db) && id in db.attempts && db.attempts[id] == a && a.activeGeneration.Some?
    ensures HasBeen(db, id, a) && a.activeGeneration.value <= a.generation
  {
    hide Inv, KeysOk, Core;
    IntactIsCore(db);
    AttemptIsShaped(db, id);
  }

  // ----- crash and retry -----

  /** What others do around these turns is considerate in the states that they meet. Other
      verifiers are: that is what `OwnCommitsSpare` says of them. */
  ghost predicate OthersAreConsiderate(w: World, schedule: Schedule, turns: seq<Turn>)
    requires AllReceipts(turns)
    decreases |turns|
  {
    turns == [] ||
    (&& IsConsiderateRun(w.db, schedule(w.tick).others)
     && OthersAreConsiderate(Perform(w, schedule, turns[0]), schedule, turns[1..]))
  }

  /** Users, orchestrators, cleanup and expiry, which never ask for RESOLVED, are considerate. */
  lemma {:induction false} NeverResolvingIsConsiderate(w: World, schedule: Schedule, turns: seq<Turn>)
    requires AllReceipts(turns)
    requires forall t: nat, i | 0 <= i < |schedule(t).others| :: !Resolves(schedule(t).others[i])
    ensures OthersAreConsiderate(w, schedule, turns)
    decreases |turns|
  {
    hide Perform, IsConsiderateRun, Resolves;
    if turns != [] {
      NotResolvingIsConsiderate(w.db, schedule(w.tick).others);
      NeverResolvingIsConsiderate(Perform(w, schedule, turns[0]), schedule, turns[1..]);
    }
  }

  lemma ServingSpares(w: World, schedule: Schedule)
    requires Healthy(w) && Serve(w, schedule).legal && IsConsiderateRun(w.db, schedule(w.tick).others)
    ensures Spares(w.db, Serve(w, schedule).db)
  {
    hide Intact, Grows, Spares, Proper, IsConsiderateRun;
    RunSpares(w.db, schedule(w.tick).others);
  }

  lemma {:induction false} HarmlessSpares(w: World, schedule: Schedule, turns: seq<Turn>, later: World)
    requires Healthy(w) && Harmless(w, schedule, turns, later) && later.legal && OthersAreConsiderate(w, schedule, turns)
    ensures Spares(w.db, later.db)
    decreases |turns|
  {
    hide Intact, Grows, Spares, Perform, Serve, IsConsiderateRun, IsConsiderate;
    if turns == [] {
      SameSpares(w.db, later.db);
    } else {
      var next := Perform(w, schedule, turns[0]);
      TurnLeads(w, schedule, turns[0]);
      TurnsLead(next, schedule, turns[1..]);
      ServingSpares(w, schedule);
      SparesTwice(w.db, Serve(w, schedule).db, next.db);
      HarmlessSpares(next, schedule, turns[1..], later);
      SparesTwice(w.db, next.db, later.db);
    }
  }

  /** Wherever verification crashes, and whatever users, services, cleanup and other verifiers
      do around it, no attempt is stuck that was not stuck before. */
  lemma CrashNeverStrands(w: World, schedule: Schedule, v: Verifier, identity: UserIdentity, id: AttemptId) returns (turns: seq<Turn>)
    requires Healthy(w) && Verify(w, schedule, v, identity, id).0.legal
    ensures Harmless(w, schedule, turns, Verify(w, schedule, v, identity, id).0)
    ensures OthersAreConsiderate(w, schedule, turns) ==> Spares(w.db, Verify(w, schedule, v, identity, id).0.db)
  {
    hide Intact, Harmless, Spares, Verify, OthersAreConsiderate;
    turns := VerificationNeverStrands(w, schedule, v, identity, id);
    HarmlessHasReceipts(w, schedule, turns, Verify(w, schedule, v, identity, id).0);
    if OthersAreConsiderate(w, schedule, turns) {
      HarmlessSpares(w, schedule, turns, Verify(w, schedule, v, identity, id).0);
    }
  }

  lemma HarmlessHasReceipts(w: World, schedule: Schedule, turns: seq<Turn>, later: World)
    requires Harmless(w, schedule, turns, later)
    ensures AllReceipts(turns)
  {
  }

  /** After verification crashed anywhere, one undisturbed retry by the owner, through
      whatever verifier, with time left and a runtime that verifies, resolves the room if it
      is still open. */
  lemma RetryAfterCrashRecovers(w: World, schedule: Schedule, v: Verifier, identity: UserIdentity, id: AttemptId, turns: seq<Turn>,
                                again: Schedule, other: Verifier, owner: UserIdentity, ref: Ref, a: Attempt, r: Resource)
    requires Healthy(w) && !IsStuck(w.db, ref.attempt) && Verify(w, schedule, v, identity, id).0.legal
    requires Harmless(w, schedule, turns, Verify(w, schedule, v, identity, id).0) && OthersAreConsiderate(w, schedule, turns)
    requires var crashed := Verify(w, schedule, v, identity, id).0;
      && IsOpen(crashed.db, ref, a, r) && IsOwner(owner, a)
      && Undisturbed(again, a.expiresAt) && Verifies(again) && Verify(crashed, again, other, owner, ref.attempt).0.legal
    ensures var (later, result) := Verify(Verify(w, schedule, v, identity, id).0, again, other, owner, ref.attempt);
      result == Recovered && IsResolved(later.db, ref)
  {
    hide Intact, Verify, OthersAreConsiderate, Undisturbed, Verifies, Grows, Harmless;
    var crashed := Verify(w, schedule, v, identity, id).0;
    HarmlessHasReceipts(w, schedule, turns, crashed);
    HarmlessSpares(w, schedule, turns, crashed);
    VerificationKeepsTheStoreSound(w, schedule, v, identity, id);
    RetryRecovers(crashed, again, other, owner, ref, a, r);
  }
}
