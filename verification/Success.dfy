/** When the steps of provisioning and recovery are bound to succeed, and what they leave. */
module Success {
  import opened Records
  import opened Common
  import opened Backend
  import opened ControlPlane
  import opened Runs
  import opened Invariant
  import opened Preservation
  import opened Log
  import opened Ledger
  import opened Access
  import opened Reachable
  import opened Idempotence
  import opened Keys
  import opened Worlds
  import opened WorkerProgress

  predicate IsStep(phase: Phase) {
    || phase.CreatingPhase? || phase.StartingPhase? || phase.ReadyPhase? || phase.CreateFailedPhase?
    || phase.StartFailedPhase? || phase.BootstrapFailedPhase? || phase.RunningPhase? || phase.ResolvedPhase?
  }

  predicate IsPublication(phase: Phase) {
    phase.PublishPhase? || phase.ResetFailedPhase? || phase.PublishRunningPhase? || phase.PublishResolvedPhase?
  }

  /** A step on the present version of a row has not been taken under its derived key. */
  lemma StepKeyUnspent(db: Db, service: ServiceId, root: Root, phase: Phase, ref: Ref, version: nat)
    requires Intact(db) && IsStep(phase) && ref.sandbox in db.resources && db.resources[ref.sandbox].version == version
    ensures OpKey(ControlActor(service), PhaseKey(root, phase, ref, version)) !in db.operations
  {
    hide Core, LedgerOk, AccessOk, ResetsOk;
    EntryIsHonest(db, OpKey(ControlActor(service), PhaseKey(root, phase, ref, version)));
  }

  /** The same for a publication and the version of its attempt. */
  lemma PublicationKeyUnspent(db: Db, service: ServiceId, root: Root, phase: Phase, ref: Ref, version: nat)
    requires Intact(db) && IsPublication(phase) && ref.attempt in db.attempts && db.attempts[ref.attempt].version == version
    ensures OpKey(BackendActor(service), PhaseKey(root, phase, ref, version)) !in db.operations
  {
    hide Core, LedgerOk, AccessOk, ResetsOk;
    EntryIsHonest(db, OpKey(BackendActor(service), PhaseKey(root, phase, ref, version)));
  }

  /** The step's row is the current, living one at the expected version, and may take it. */
  ghost predicate StepDue(db: Db, c: Call)
    requires c.TransitionCall?
  {
    && c.key.PhaseKey? && IsStep(c.key.phase) && c.key.ref == c.ref && c.key.version == c.expected
    && MoveOk(c.move) && !c.move.state.Stopping? && !c.move.state.Destroyed?
    && Binding(db, c.ref, false).Allow? && Observed(db, c.ref).Allow?
    && !Dead(db.attempts[c.ref.attempt], c.now) && !db.resources[c.ref.sandbox].destroy
    && db.resources[c.ref.sandbox].version == c.expected && MayMove(db.resources[c.ref.sandbox].state, c.move.state)
  }

  lemma StepPasses(db: Db, c: Call)
    requires c.TransitionCall? && StepDue(db, c) && KeyOf(c) !in db.operations
    ensures var expired := c.now >= db.resources[c.ref.sandbox].expiresAt || db.attempts[c.ref.attempt].expiry;
      Answer(db, c) == ApplyMove(db, KeyOf(c), c.ref, c.expected, c.move, expired, c.batch)
  {
    hide MayMove, MoveOk, ApplyMove;
  }

  lemma ApplyMoveErrors(db: Db, k: OpKey, ref: Ref, expected: nat, m: Move, expired: bool, batch: nat)
    requires ref.sandbox in db.resources
    ensures var o := ApplyMove(db, k, ref, expected, m, expired, batch);
      || o == Refused(StoreFailure)
      || (o.Done? && o.value.version == expected + 1 && o.db.attempts == db.attempts
          && o.db.resources == db.resources[ref.sandbox := Moved(db.resources[ref.sandbox], m, expired)])
  {
    hide Moved;
  }

  /** The state after a successful step. */
  ghost predicate Stepped(before: Db, c: Call, after: Db)
    requires c.TransitionCall? && c.ref.sandbox in before.resources
  {
    && after.attempts == before.attempts
    && after.resources == before.resources[c.ref.sandbox := Moved(before.resources[c.ref.sandbox], c.move, false)]
  }

  lemma StepSucceeds(db: Db, c: Call)
    requires Intact(db) && c.TransitionCall? && FreshIds(db, c) && StepDue(db, c)
    ensures Answer(db, c).Done? && Answer(db, c).value.version == c.expected + 1 && Stepped(db, c, Answer(db, c).db)
  {
    hide LogOk, LedgerOk, AccessOk, ResetsOk, KeysOk, AttemptsOk, DistinctSandboxes, DistinctContainers, RowsGrow, Transition,
      MoveOk, MayMove, Moved, ApplyMove, Linked, ResourceShape;
    StepKeyUnspent(db, c.service, c.key.root, c.key.phase, c.ref, c.expected);
    StepPasses(db, c);
    SameDeadline(db, c.ref.sandbox);
    ApplyMoveErrors(db, KeyOf(c), c.ref, c.expected, c.move, false, c.batch);
    CallIsSound(db, c);
  }

  ghost predicate PublicationDue(db: Db, c: Call)
    requires c.PublishCall?
  {
    && c.key.PhaseKey? && IsPublication(c.key.phase) && c.key.ref == c.ref && c.key.version == c.expected
    && Binding(db, c.ref, false).Allow?
    && var a := db.attempts[c.ref.attempt];
    && c.now < a.expiresAt && !a.destroy && a.version == c.expected
    && ((c.publication.PublishReady? || c.publication.PublishRunning? || c.publication.PublishResolved?) ==> !a.state.Ending())
    && MayPublish(db, a, c.publication, c.ref)
  }

  lemma PublicationPasses(db: Db, c: Call)
    requires c.PublishCall? && PublicationDue(db, c) && KeyOf(c) !in db.operations
    ensures Answer(db, c) == ApplyPublication(db, db.attempts[c.ref.attempt], KeyOf(c), c.publication, c.ref, c.expected, c.batch)
  {
    hide MayPublish, ApplyPublication;
  }

  ghost predicate PublicationMade(before: Db, c: Call, after: Db)
    requires c.PublishCall? && c.ref.attempt in before.attempts
  {
    && after.resources == before.resources
    && after.attempts == before.attempts[c.ref.attempt := Published(before.attempts[c.ref.attempt], c.publication, c.ref)]
  }

  lemma ApplyPublicationErrors(db: Db, c: Call)
    requires c.PublishCall? && PublicationDue(db, c)
    ensures var o := ApplyPublication(db, db.attempts[c.ref.attempt], KeyOf(c), c.publication, c.ref, c.expected, c.batch);
      o == Refused(StoreFailure) || (o.Done? && o.value.version == c.expected + 1 && PublicationMade(db, c, o.db))
  {
    hide MayPublish, Published;
  }

  lemma PublicationSucceeds(db: Db, c: Call)
    requires Intact(db) && c.PublishCall? && FreshIds(db, c) && PublicationDue(db, c)
    ensures Answer(db, c).Done? && Answer(db, c).value.version == c.expected + 1 && PublicationMade(db, c, Answer(db, c).db)
  {
    hide Core, LogOk, LedgerOk, AccessOk, ResetsOk, KeysOk, RowsGrow, Publish, MayPublish, Published, ApplyPublication;
    PublicationKeyUnspent(db, c.service, c.key.root, c.key.phase, c.ref, c.expected);
    PublicationPasses(db, c);
    ApplyPublicationErrors(db, c);
    CallIsSound(db, c);
  }

  /** What the row showed when a step was answered with the version that follows: the row at
      that version is the one the step left, even when the answer was a replay. */
  lemma AnsweredStepShows(db: Db, c: Call, later: Db)
    requires Intact(db) && c.TransitionCall? && FreshIds(db, c) && Honest(c) && Answer(db, c).Done?
    requires Intact(later) && Grows(Answer(db, c).db, later)
    ensures Answer(db, c).value.version == c.expected + 1
    ensures c.ref.sandbox in later.resources && c.expected < later.resources[c.ref.sandbox].version
    ensures later.resources[c.ref.sandbox].version == c.expected + 1 ==> ShowsMove(later.resources[c.ref.sandbox], c.move)
  {
    hide Core, LedgerOk, AccessOk, ResetsOk, KeysOk, RowsGrow, RecordsKept, Transition;
    ReceiptIsLogged(db, c);
    var k := KeyOf(c);
    assert k in later.operations && later.operations[k] == Answer(db, c).db.operations[k];
    assert Witnessed(later, later.operations[k]);
  }
}
