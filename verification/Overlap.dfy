/** When two provisionings of one sandbox may both ask the runtime: exactly when they use
    the same services and key. */
module Overlap {
  import opened Records
  import opened Common
  import opened Backend
  import opened ControlPlane
  import opened Runs
  import opened Invariant
  import opened Log
  import opened Ledger
  import opened Access
  import opened Reachable
  import opened Idempotence
  import opened Keys
  import opened Worlds
  import opened CleanupTermination
  import opened Success
  import opened Provisioning
  import opened ProvisioningSafety
  import opened ProvisioningSuccess
  import opened FreshPasses
  import opened OneKey

  // ----- both ask, so they share the key -----

  ghost predicate IsLogged(db: Db, k: OpKey, request: Request) {
    k in db.operations && db.operations[k].request == request
  }

  lemma LoggedForGood(before: Db, after: Db, k: OpKey, request: Request)
    requires Grows(before, after) && IsLogged(before, k, request)
    ensures IsLogged(after, k, request)
  {
  }

  function AcceptanceKey(o: Orchestrator, receipt: Receipt): OpKey {
    OpKey(BackendActor(o.backend), PhaseKey(o.root, AcceptPhase, receipt.ref, receipt.version))
  }

  function CreationKey(o: Orchestrator, receipt: Receipt): OpKey {
    OpKey(ControlActor(o.control), PhaseKey(o.root, CreatingPhase, receipt.ref, 0))
  }

  const CREATING: Move := Move(Creating, None, None, None)

  /** An answered acceptance is logged and its receipt is at version 0. */
  lemma AcceptanceIsLogged(w: World, schedule: Schedule, c: Call)
    requires Healthy(w) && c.AcceptCall? && Transact(w, schedule, c).0.legal && Transact(w, schedule, c).1.Allow?
    ensures var (later, reply) := Transact(w, schedule, c);
      Healthy(later) && IsLogged(later.db, KeyOf(c), AcceptRequest(c.ref)) && reply.value.version == 0
  {
    hide Core, LedgerOk, AccessOk, ResetsOk, KeysOk, Grows, Answer, FreshIds, Honest, Proper;
    TransactLeads(w, schedule, c);
    var served := Serve(w, schedule);
    ReceiptIsLogged(served.db, c);
    var later := Transact(w, schedule, c).0;
    assert Witnessed(later.db, later.db.operations[KeyOf(c)]);
  }

  lemma StepIsLogged(w: World, schedule: Schedule, c: Call)
    requires Healthy(w) && c.TransitionCall? && Transact(w, schedule, c).0.legal && Transact(w, schedule, c).1.Allow?
    ensures var later := Transact(w, schedule, c).0;
      Healthy(later) && IsLogged(later.db, KeyOf(c), TransitionRequest(c.ref, c.expected, c.move))
  {
    hide Intact, Grows, Answer, FreshIds, Honest, Proper;
    TransactLeads(w, schedule, c);
    ReceiptIsLogged(Serve(w, schedule).db, c);
  }

  /** A provisioning that asked has logged its acceptance and its creating step. */
  lemma AskingIsLogged(w: World, schedule: Schedule, o: Orchestrator, receipt: Receipt)
    requires Healthy(w) && Provision(w, schedule, o, receipt).0.legal
    requires !IsSilent(w.trace, Provision(w, schedule, o, receipt).0.trace)
    ensures var later := Provision(w, schedule, o, receipt).0;
      && IsLogged(later.db, AcceptanceKey(o, receipt), AcceptRequest(receipt.ref))
      && IsLogged(later.db, CreationKey(o, receipt), TransitionRequest(receipt.ref, 0, CREATING))
  {
    hide Intact, Grows, Transact, StepAndLook, RunRuntime, Serve, Inspect, Binding, Provision, IsSilent, IsLogged;
    if !Reaches(w, schedule, o, receipt) {
      UnreachedIsSilent(w, schedule, o, receipt);
    } else {
      ReachedIsRun(w, schedule, o, receipt);
      var c := AcceptingCall(o, receipt, schedule(w.tick));
      var (accepted, reply) := Transact(w, schedule, c);
      var looked := Serve(accepted, schedule);
      var roomed := Serve(looked, schedule);
      TransactLeads(w, schedule, c);
      ServeLeads(accepted, schedule);
      ServeLeads(looked, schedule);
      StepAndLookLeads(roomed, schedule, o, CreatingPhase, receipt.ref, reply.value.version, CREATING);
      AcceptanceIsLogged(w, schedule, c);
      CreationIsLogged(roomed, schedule, o, receipt);
      var start := StepAndLook(roomed, schedule, o, CreatingPhase, receipt.ref, 0, CREATING).0;
      LoggedForGood(accepted.db, looked.db, KeyOf(c), AcceptRequest(receipt.ref));
      LoggedForGood(looked.db, roomed.db, KeyOf(c), AcceptRequest(receipt.ref));
      LoggedForGood(roomed.db, start.db, KeyOf(c), AcceptRequest(receipt.ref));
      var later := Provision(w, schedule, o, receipt).0;
      LoggedForGood(start.db, later.db, KeyOf(c), AcceptRequest(receipt.ref));
      LoggedForGood(start.db, later.db, CreationKey(o, receipt), TransitionRequest(receipt.ref, 0, CREATING));
    }
  }

  lemma CreationIsLogged(w: World, schedule: Schedule, o: Orchestrator, receipt: Receipt)
    requires Healthy(w) && StepAndLook(w, schedule, o, CreatingPhase, receipt.ref, 0, CREATING).0.legal
    requires StepAndLook(w, schedule, o, CreatingPhase, receipt.ref, 0, CREATING).1.Allow?
    ensures var later := StepAndLook(w, schedule, o, CreatingPhase, receipt.ref, 0, CREATING).0;
      Healthy(later) && IsLogged(later.db, CreationKey(o, receipt), TransitionRequest(receipt.ref, 0, CREATING))
  {
    hide Intact, Grows, Transact, Serve, Inspect, IsLogged;
    var c := Provisioning.MoveCall(o, CreatingPhase, receipt.ref, 0, CREATING, schedule(w.tick));
    var moved := Transact(w, schedule, c).0;
    ServeLeads(moved, schedule);
    StepLegal(w, schedule, o, CreatingPhase, receipt.ref, 0, CREATING);
    StepIsLogged(w, schedule, c);
    LoggedForGood(moved.db, Serve(moved, schedule).db, KeyOf(c), TransitionRequest(receipt.ref, 0, CREATING));
  }

  /** Two provisionings of one sandbox that both asked the runtime, in whatever order and
      overlap, used the same services, the same key and the same receipt version: `z` is any
      reachable state that comes after both. */
  lemma AskersShareTheirKey(w: World, schedule: Schedule, o: Orchestrator, receipt: Receipt,
                            v: World, around: Schedule, other: Orchestrator, again: Receipt, z: Db)
    requires Healthy(w) && Provision(w, schedule, o, receipt).0.legal
    requires Healthy(v) && Provision(v, around, other, again).0.legal
    requires again.ref == receipt.ref && IsReachable(z)
    requires Grows(Provision(w, schedule, o, receipt).0.db, z) && Grows(Provision(v, around, other, again).0.db, z)
    requires !IsSilent(w.trace, Provision(w, schedule, o, receipt).0.trace)
    requires !IsSilent(v.trace, Provision(v, around, other, again).0.trace)
    ensures other.control == o.control && other.backend == o.backend && other.root == o.root && again.version == receipt.version
  {
    hide Intact, Grows, Provision, IsSilent;
    AskingIsLogged(w, schedule, o, receipt);
    AskingIsLogged(v, around, other, again);
    var x, y := Provision(w, schedule, o, receipt).0.db, Provision(v, around, other, again).0.db;
    LoggedForGood(x, z, AcceptanceKey(o, receipt), AcceptRequest(receipt.ref));
    LoggedForGood(y, z, AcceptanceKey(other, again), AcceptRequest(receipt.ref));
    LoggedForGood(x, z, CreationKey(o, receipt), TransitionRequest(receipt.ref, 0, CREATING));
    LoggedForGood(y, z, CreationKey(other, again), TransitionRequest(receipt.ref, 0, CREATING));
    ReachedStepsHaveOneKey(z);
    assert AcceptanceKey(o, receipt) == AcceptanceKey(other, again);
    assert CreationKey(o, receipt) == CreationKey(other, again);
  }

  // ----- a shared key lets both ask -----

  /** The clock stands, the store is never busy, identifiers are numbered, and the runtime
      fails; `others` is what other clients do at each access. */
  function Faulty(others: nat -> seq<Call>, now: int, base: nat): Schedule {
    (t: nat) => Slice(others(t), false, now, Fresh(0, 0, 0, base + t), Fault(RuntimeUnavailable))
  }

  function Nobody(): nat -> seq<Call> {
    (t: nat) => []
  }

  /** Just before its first and fourth access, one call each. */
  function Twin(start: nat, accepting: Call, creating: Call): nat -> seq<Call> {
    (t: nat) => if t == start then [accepting] else if t == start + 3 then [creating] else []
  }

  lemma AcceptDraws(db: Db, c: Call)
    requires c.AcceptCall? && Earlier(db, c.batch)
    ensures Earlier(Answer(db, c).After(db), c.batch + 1)
  {
    hide RequireLive, OldDestroyed;
    if c.ref.attempt in db.attempts {
      RequireLiveStops(db, db.attempts[c.ref.attempt], None, c.now);
    }
  }

  lemma EarlierStill(db: Db, batch: nat, later: nat)
    requires Earlier(db, batch) && batch <= later
    ensures Earlier(db, later) && FreshBatch(db, later)
  {
  }

  /** A fresh, honest call that is answered at that version and leaves `after`. */
  ghost predicate AnswersWith(db: Db, c: Call, after: Db, version: nat)
    requires HasReceipt(c)
  {
    && FreshIds(db, c) && Honest(c)
    && Answer(db, c).Done? && Answer(db, c).db == after && Answer(db, c).value.version == version
  }

  /** The call is answered with a receipt of that version and leaves `d`. */
  ghost predicate AnsweredAt(w: World, schedule: Schedule, c: Call, d: Db, version: nat)
    requires HasReceipt(c)
  {
    var (later, reply) := Transact(w, schedule, c);
    later == World(d, w.tick + 1, true, w.trace + [Committed(c)]) && reply.Allow? && reply.value.version == version
  }

  /** An answered call, after others' calls that leave `d`. */
  lemma AnswersAt(w: World, schedule: Schedule, d: Db, c: Call, e: Db, version: nat)
    requires HasReceipt(c) && w.legal && !schedule(w.tick).busy
    requires Proper(w.db, schedule(w.tick).others) && Run(w.db, schedule(w.tick).others) == d
    requires AnswersWith(d, c, e, version)
    ensures AnsweredAt(w, schedule, c, e, version)
  {
    hide Proper, FreshIds, Honest, Answer, Run;
  }

  lemma QuietRead(w: World, schedule: Schedule)
    requires schedule(w.tick).others == []
    ensures Serve(w, schedule) == w.(tick := w.tick + 1)
  {
  }

  lemma OneProperCall(db: Db, c: Call, after: Db, version: nat)
    requires HasReceipt(c) && AnswersWith(db, c, after, version)
    ensures Proper(db, [c]) && Run(db, [c]) == after
  {
    hide FreshIds, Honest, Answer, Apply;
    assert Step(db, c) == after;
    assert [c][1..] == [];
    assert Legal(Step(db, c), []);
  }

  lemma NoCall(db: Db)
    ensures Proper(db, []) && Run(db, []) == db
  {
  }

  lemma FailingIsLegal(w: World, schedule: Schedule, o: Orchestrator, receipt: Receipt, row: Resource)
    requires w.legal && Earlier(w.db, schedule(w.tick).ids.batch)
    requires schedule(w.tick).ids.batch < schedule(w.tick + 1).ids.batch
    requires schedule(w.tick).others == [] && schedule(w.tick + 1).others == []
    ensures var later := Fail(w, schedule, o, receipt, row, CreateFailedPhase, RuntimeUnavailable).0;
      later.legal && w.trace <= later.trace
  {
    hide Transition, Publish, Earlier, FailureCode;
    QuietRead(w, schedule);
    var m := Move(State.Failed, None, None, Some(FailureCode(RuntimeUnavailable, CreateFailedPhase)));
    var c := Provisioning.MoveCall(o, CreateFailedPhase, receipt.ref, row.version, m, schedule(w.tick));
    EarlierIsFresh(w.db, c.batch);
    DestructionDraws(w.db, c);
    var failed := Transact(w, schedule, c).0;
    QuietRead(failed, schedule);
    EarlierStill(w.db, c.batch, schedule(w.tick + 1).ids.batch);
    EarlierStill(Answer(w.db, c).After(w.db), c.batch + 1, schedule(w.tick + 1).ids.batch);
  }

  /** From the committed creating step the program asks, and its failure is legal. */
  lemma AsksAndFails(w: World, schedule: Schedule, o: Orchestrator, receipt: Receipt, row: Resource)
    requires w.legal && Earlier(w.db, schedule(w.tick + 1).ids.batch)
    requires schedule(w.tick + 1).ids.batch < schedule(w.tick + 2).ids.batch
    requires schedule(w.tick).others == [] && schedule(w.tick + 1).others == [] && schedule(w.tick + 2).others == []
    requires schedule(w.tick).answer == Fault(RuntimeUnavailable)
    ensures var later := RunRuntime(w, schedule, o, receipt, row).0;
      later.legal && |w.trace| < |later.trace| && w.trace <= later.trace && later.trace[|w.trace|].Asked?
  {
    hide Fail, Earlier;
    QuietRead(w, schedule);
    var question := OpenQuestion(receipt.ref);
    var begun := AskRuntime(w, schedule, question).0;
    FailingIsLegal(begun, schedule, o, receipt, row);
    var later := Fail(begun, schedule, o, receipt, row, CreateFailedPhase, RuntimeUnavailable).0;
    assert begun.trace == w.trace + [Asked(question, Fault(RuntimeUnavailable))];
    assert later.trace[|w.trace|] == begun.trace[|w.trace|];
  }

  /** The acceptance is done and leaves a REQUESTED row. */
  ghost predicate AcceptedAs(db: Db, o: Orchestrator, receipt: Receipt, c: Call, d: Db, row: Resource) {
    && c.AcceptCall? && c.ref == receipt.ref && KeyOf(c) == AcceptanceKey(o, receipt) && AnswersWith(db, c, d, 0)
    && Intact(d) && Earlier(d, c.batch + 1) && d.attempts == db.attempts
    && Underway(d, receipt, row) && row.state == Requested && row.version == 0
  }

  /** The creating step is done. */
  ghost predicate CreatedAs(d: Db, o: Orchestrator, receipt: Receipt, c: Call, e: Db, row: Resource) {
    && c.TransitionCall? && c.ref == receipt.ref && c.expected == 0 && c.move == CREATING && KeyOf(c) == CreationKey(o, receipt)
    && AnswersWith(d, c, e, 1)
    && Intact(e) && Earlier(e, c.batch + 1) && e.attempts == d.attempts && Underway(e, receipt, row) && row.version == 1
  }

  lemma AcceptingWorks(db: Db, o: Orchestrator, receipt: Receipt, slice: Slice) returns (d: Db, row: Resource)
    requires Intact(db) && Reserved(db, receipt) && receipt.ref.sandbox !in db.resources
    requires slice.now < db.attempts[receipt.ref.attempt].expiresAt && Earlier(db, slice.ids.batch)
    ensures AcceptedAs(db, o, receipt, AcceptingCall(o, receipt, slice), d, row)
  {
    hide Intact, Grows, Answer, OldDestroyed, Dead, Earlier, Underway;
    var c := AcceptingCall(o, receipt, slice);
    EarlierIsFresh(db, c.batch);
    AcceptSucceeds(db, c, receipt);
    AcceptDraws(db, c);
    CallKeepsIntact(db, c);
    d, row := Answer(db, c).db, NewResource(receipt.ref, db.attempts[receipt.ref.attempt]);
  }

  lemma CreatingWorks(db: Db, o: Orchestrator, receipt: Receipt, row: Resource, slice: Slice) returns (e: Db, next: Resource)
    requires Intact(db) && Underway(db, receipt, row) && row.state == Requested && row.version == 0
    requires slice.now < db.attempts[receipt.ref.attempt].expiresAt && Earlier(db, slice.ids.batch)
    ensures CreatedAs(db, o, receipt, Provisioning.MoveCall(o, CreatingPhase, receipt.ref, 0, CREATING, slice), e, next)
  {
    hide LogOk, LedgerOk, AccessOk, ResetsOk, KeysOk, Core, Grows, Answer, OldDestroyed, Earlier, Moved;
    var c := Provisioning.MoveCall(o, CreatingPhase, receipt.ref, 0, CREATING, slice);
    EarlierIsFresh(db, c.batch);
    ReservedIsLive(db, receipt, c.now);
    StepSucceeds(db, c);
    MovedIsUnderway(db, receipt, row, CREATING, Answer(db, c).db);
    MovedVersion(row, CREATING);
    DestructionDraws(db, c);
    CallKeepsIntact(db, c);
    e, next := Answer(db, c).db, Moved(row, CREATING, false);
  }

  /** A store that is never busy, a runtime that fails, and new identifiers at every access. */
  ghost predicate IsFaulty(schedule: Schedule) {
    forall t: nat ::
      (!schedule(t).busy && schedule(t).answer == Fault(RuntimeUnavailable) && schedule(t).ids.batch < schedule(t + 1).ids.batch)
  }

  function AcceptingAt(w: World, schedule: Schedule, o: Orchestrator, receipt: Receipt): Call {
    AcceptingCall(o, receipt, schedule(w.tick))
  }

  function CreatingAt(w: World, schedule: Schedule, o: Orchestrator, receipt: Receipt): Call {
    Provisioning.MoveCall(o, CreatingPhase, receipt.ref, 0, CREATING, schedule(w.tick + 3))
  }

  /** The world in which the program takes its creating step. */
  ghost function Roomed(w: World, schedule: Schedule, o: Orchestrator, receipt: Receipt, d: Db): World {
    World(d, w.tick + 3, true, w.trace + [Committed(AcceptingAt(w, schedule, o, receipt))])
  }

  /** A program asks that is answered at its acceptance and its creating step. */
  lemma AnsweredProgramAsks(w: World, schedule: Schedule, o: Orchestrator, receipt: Receipt, d: Db, e: Db, row: Resource, next: Resource)
    requires w.legal && (receipt.state == Provisioning || receipt.state == Resetting) && IsFaulty(schedule)
    requires AnsweredAt(w, schedule, AcceptingAt(w, schedule, o, receipt), d, 0)
    requires AnsweredAt(Roomed(w, schedule, o, receipt, d), schedule, CreatingAt(w, schedule, o, receipt), e, 1)
    requires Underway(d, receipt, row) && row.state == Requested && Underway(e, receipt, next) && next.version == 1
    requires forall t: nat | t != w.tick && t != w.tick + 3 :: schedule(t).others == []
    requires Earlier(e, schedule(w.tick + 6).ids.batch)
    ensures var later := Provision(w, schedule, o, receipt).0;
      && later.legal && !IsSilent(w.trace, later.trace)
      && w.trace + [Committed(AcceptingAt(w, schedule, o, receipt)), Committed(CreatingAt(w, schedule, o, receipt))] <= later.trace
  {
    hide Transact, RunRuntime, Inspect, Binding, Earlier, Underway, PublishReadiness;
    var c, step := AcceptingAt(w, schedule, o, receipt), CreatingAt(w, schedule, o, receipt);
    var accepted := Transact(w, schedule, c).0;
    ReservedIsBound(d, receipt, row);
    ReservedIsBound(e, receipt, next);
    QuietRead(accepted, schedule);
    var looked := Serve(accepted, schedule);
    QuietRead(looked, schedule);
    var roomed := Serve(looked, schedule);
    var moved := Transact(roomed, schedule, step).0;
    QuietRead(moved, schedule);
    var creating := Serve(moved, schedule);
    AsksAndFails(creating, schedule, o, receipt, next);
    var later := RunRuntime(creating, schedule, o, receipt, next).0;
    assert Provision(w, schedule, o, receipt).0 == later;
    assert creating.trace == w.trace + [Committed(c), Committed(step)];
  }

  // the second program repeats the calls of the first, in the states that these left

  lemma AcceptanceRepeats(db: Db, o: Orchestrator, receipt: Receipt, accepting: Call, d: Db, row: Resource, slice: Slice)
    requires AcceptedAs(db, o, receipt, accepting, d, row) && accepting.batch < slice.ids.batch
    requires receipt.ref.attempt in d.attempts && slice.now < d.attempts[receipt.ref.attempt].expiresAt
    ensures AnswersWith(d, AcceptingCall(o, receipt, slice), d, 0)
  {
    hide Intact, Grows, Answer, OldDestroyed, Dead, Earlier, Reserved;
    var c := AcceptingCall(o, receipt, slice);
    ReceiptIsLogged(db, accepting);
    EarlierStill(d, accepting.batch + 1, c.batch);
    AcceptReplays(d, c, receipt);
  }

  lemma CreationRepeats(d: Db, o: Orchestrator, receipt: Receipt, creating: Call, e: Db, row: Resource, slice: Slice)
    requires CreatedAs(d, o, receipt, creating, e, row) && creating.batch < slice.ids.batch
    requires receipt.ref.attempt in e.attempts && slice.now < e.attempts[receipt.ref.attempt].expiresAt
    ensures AnswersWith(e, Provisioning.MoveCall(o, CreatingPhase, receipt.ref, 0, CREATING, slice), e, 1)
  {
    hide LogOk, LedgerOk, AccessOk, ResetsOk, KeysOk, Core, Answer, OldDestroyed, Earlier, Dead;
    var c := Provisioning.MoveCall(o, CreatingPhase, receipt.ref, 0, CREATING, slice);
    ReceiptIsLogged(d, creating);
    EarlierStill(e, creating.batch + 1, c.batch);
    ReservedIsLive(e, receipt, c.now);
    StepReplays(e, c, row);
  }

  lemma StepReplays(db: Db, c: Call, row: Resource)
    requires c.TransitionCall? && c.move == CREATING && Binding(db, c.ref, false).Allow? && Observed(db, c.ref) == Allow(row)
    requires !Dead(db.attempts[c.ref.attempt], c.now) && !row.destroy
    requires IsLogged(db, KeyOf(c), RequestOf(c))
    ensures Answer(db, c) == Done(db, ReceiptOf(db.operations[KeyOf(c)]))
  {
    hide ApplyMove;
  }

  lemma LaterBatches(schedule: Schedule, t: nat)
    requires IsFaulty(schedule)
    ensures schedule(t).ids.batch < schedule(t + 3).ids.batch
  {
    assert schedule(t).ids.batch < schedule(t + 1).ids.batch;
    assert schedule(t + 1).ids.batch < schedule(t + 1 + 1).ids.batch;
    assert schedule(t + 2).ids.batch < schedule(t + 2 + 1).ids.batch;
  }

  /** The first program, undisturbed. */
  lemma FirstAsks(w: World, schedule: Schedule, o: Orchestrator, receipt: Receipt, d: Db, row: Resource, e: Db, next: Resource)
    requires w.legal && (receipt.state == Provisioning || receipt.state == Resetting) && IsFaulty(schedule)
    requires forall t: nat :: schedule(t).others == []
    requires AcceptedAs(w.db, o, receipt, AcceptingAt(w, schedule, o, receipt), d, row)
    requires CreatedAs(d, o, receipt, CreatingAt(w, schedule, o, receipt), e, next)
    ensures var later := Provision(w, schedule, o, receipt).0;
      && later.legal && !IsSilent(w.trace, later.trace)
      && w.trace + [Committed(AcceptingAt(w, schedule, o, receipt)), Committed(CreatingAt(w, schedule, o, receipt))] <= later.trace
  {
    hide Intact, Grows, Provision, Underway, Earlier, AnsweredAt, AnswersWith, IsSilent, Run, Proper;
    var accepting, creating := AcceptingAt(w, schedule, o, receipt), CreatingAt(w, schedule, o, receipt);
    NoCall(w.db);
    AnswersAt(w, schedule, w.db, accepting, d, 0);
    NoCall(d);
    AnswersAt(Roomed(w, schedule, o, receipt, d), schedule, d, creating, e, 1);
    LaterBatches(schedule, w.tick + 3);
    EarlierStill(e, creating.batch + 1, schedule(w.tick + 6).ids.batch);
    AnsweredProgramAsks(w, schedule, o, receipt, d, e, row, next);
  }

  /** The second program, each of whose two calls comes just after the first one's. */
  lemma SecondAsks(w: World, schedule: Schedule, o: Orchestrator, receipt: Receipt, accepting: Call, d: Db, row: Resource,
                   creating: Call, e: Db, next: Resource)
    requires w.legal && (receipt.state == Provisioning || receipt.state == Resetting) && IsFaulty(schedule)
    requires AcceptedAs(w.db, o, receipt, accepting, d, row) && CreatedAs(d, o, receipt, creating, e, next)
    requires forall t: nat :: schedule(t).others == Twin(w.tick, accepting, creating)(t)
    requires receipt.ref.attempt in w.db.attempts && forall t: nat :: schedule(t).now < w.db.attempts[receipt.ref.attempt].expiresAt
    requires accepting.batch < schedule(w.tick).ids.batch && creating.batch < schedule(w.tick + 3).ids.batch
    ensures var later := Provision(w, schedule, o, receipt).0;
      later.legal && !IsSilent(w.trace, later.trace)
  {
    hide Intact, Grows, Provision, Underway, Earlier, AnsweredAt, AnswersWith, IsSilent, Run, Proper;
    AcceptanceRepeats(w.db, o, receipt, accepting, d, row, schedule(w.tick));
    CreationRepeats(d, o, receipt, creating, e, next, schedule(w.tick + 3));
    OneProperCall(w.db, accepting, d, 0);
    OneProperCall(d, creating, e, 1);
    assert schedule(w.tick).others == [accepting] && schedule(w.tick + 3).others == [creating];
    AnswersAt(w, schedule, d, AcceptingAt(w, schedule, o, receipt), d, 0);
    AnswersAt(Roomed(w, schedule, o, receipt, d), schedule, e, CreatingAt(w, schedule, o, receipt), e, 1);
    LaterBatches(schedule, w.tick + 3);
    EarlierStill(e, creating.batch + 1, schedule(w.tick + 6).ids.batch);
    AnsweredProgramAsks(w, schedule, o, receipt, d, e, row, next);
  }

  /** The reservation works. */
  lemma FirstReserves(w: World, schedule: Schedule, o: Orchestrator, receipt: Receipt)
      returns (d: Db, row: Resource, e: Db, next: Resource)
    requires Healthy(w) && Reserved(w.db, receipt) && receipt.ref.sandbox !in w.db.resources && IsFaulty(schedule)
    requires forall t: nat :: schedule(t).now < w.db.attempts[receipt.ref.attempt].expiresAt
    requires Earlier(w.db, schedule(w.tick).ids.batch)
    ensures AcceptedAs(w.db, o, receipt, AcceptingAt(w, schedule, o, receipt), d, row)
    ensures CreatedAs(d, o, receipt, CreatingAt(w, schedule, o, receipt), e, next)
  {
    hide Intact, Grows, AnswersWith, Earlier, OldDestroyed, Reserved, Underway, IsFaulty;
    ReservedHasAttempt(w.db, receipt);
    d, row := AcceptingWorks(w.db, o, receipt, schedule(w.tick));
    LaterBatches(schedule, w.tick);
    EarlierStill(d, schedule(w.tick).ids.batch + 1, schedule(w.tick + 3).ids.batch);
    e, next := CreatingWorks(d, o, receipt, row, schedule(w.tick + 3));
  }

  lemma ReservedHasAttempt(db: Db, receipt: Receipt)
    requires Reserved(db, receipt)
    ensures receipt.ref.attempt in db.attempts && (receipt.state == Provisioning || receipt.state == Resetting)
  {
  }

  /** From any live reservation without a row, two overlapping provisionings with the same
      services and key may both ask the runtime: one whose acceptance and creating step
      commit just before the other asks for the same. */
  lemma SharedKeyLetsBothAsk(w: World, o: Orchestrator, receipt: Receipt, now: int, base: nat) returns (first: Schedule, second: Schedule)
    requires Healthy(w) && Reserved(w.db, receipt) && receipt.ref.sandbox !in w.db.resources
    requires now < w.db.attempts[receipt.ref.attempt].expiresAt && Earlier(w.db, base + w.tick)
    ensures var p, q := Provision(w, first, o, receipt).0, Provision(w, second, o, receipt).0;
      && p.legal && !IsSilent(w.trace, p.trace)
      && q.legal && !IsSilent(w.trace, q.trace)
      && (forall t: nat :: first(t).others == [])
      && (forall t: nat, c | c in second(t).others :: Committed(c) in p.trace)
  {
    hide Intact, Grows, Provision, Earlier, AcceptedAs, CreatedAs, IsSilent, OldDestroyed;
    first := Faulty(Nobody(), now, base);
    ReservedHasAttempt(w.db, receipt);
    var d, row, e, next := FirstReserves(w, first, o, receipt);
    FirstAsks(w, first, o, receipt, d, row, e, next);
    var accepting, creating := AcceptingAt(w, first, o, receipt), CreatingAt(w, first, o, receipt);
    second := Faulty(Twin(w.tick, accepting, creating), now, base + 1);
    SecondAsks(w, second, o, receipt, accepting, d, row, creating, e, next);
    var p := Provision(w, first, o, receipt).0;
    var start := w.trace + [Committed(accepting), Committed(creating)];
    assert start[|w.trace|] == Committed(accepting) && start[|w.trace| + 1] == Committed(creating);
    assert p.trace[|w.trace|] == Committed(accepting) && p.trace[|w.trace| + 1] == Committed(creating);
  }
}
