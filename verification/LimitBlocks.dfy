/** Why cleanup needs a limit with room: exactly when a pass does nothing, and a run that
    leaves an attempt which passes with a limit of one never touch. */
module LimitBlocks {
  import opened Records
  import opened Schema
  import opened Common
  import opened Selection
  import opened Backend
  import opened ControlPlane
  import opened Runs
  import opened Invariant
  import opened Reachable
  import opened Idempotence
  import opened Keys
  import opened Worlds
  import opened Worker
  import opened WorkerSafety
  import opened WorkerProgress
  import opened CleanupTermination

  // ----- passes that do nothing -----

  lemma UnfinishableIsLeft(db: Db, service: ServiceId, id: AttemptId, key: Key, now: int, batch: nat)
    requires id in db.attempts && !AllDestroyed(db, id)
    ensures Complete(db, service, RefOf(id, db.attempts[id]), key, now, batch).After(db) == db
  {
    hide AllDestroyed, StopAttempt, UpdateAttempt;
  }

  lemma {:induction false} UnfinishablesAreLeft(p: Sweep, schedule: Schedule, crew: Crew, refs: seq<Ref>)
    requires Calm(schedule) && p.raised.None?
    requires forall ref | ref in refs ::
      && ref.attempt in p.world.db.attempts && ref == RefOf(ref.attempt, p.world.db.attempts[ref.attempt])
      && !AllDestroyed(p.world.db, ref.attempt)
    ensures FinalizeAll(p, schedule, crew, refs).world.db == p.world.db
    decreases |refs|
  {
    hide Calm, AllDestroyed, Transact, Complete;
    if refs != [] {
      var c := CompletionOf(crew, refs[0], schedule(p.world.tick));
      CalmTransact(p.world, schedule, c);
      UnfinishableIsLeft(p.world.db, crew.backend, refs[0].attempt, c.key, c.now, c.batch);
      FinalizeNeverRaises(p, schedule, crew, refs[0]);
      UnfinishablesAreLeft(Finalize(p, schedule, crew, refs[0]), schedule, crew, refs[1..]);
    }
  }

  /** None of the pending attempts that the limit lets through has only destroyed sandboxes. */
  ghost predicate SelectedUnfinishable(db: Db, limit: nat) {
    forall i | 0 <= i < |Select(FinalizationRows(db), limit)| ::
      !AllDestroyed(db, Select(FinalizationRows(db), limit)[i].attempt)
  }

  lemma SelectedStay(w: World, schedule: Schedule, crew: Crew, limit: nat)
    requires Calm(schedule) && SelectedUnfinishable(w.db, limit)
    ensures Finalizations(w, schedule, crew, limit).world.db == w.db
  {
    hide Calm, AllDestroyed, FinalizeAll, CleanlyDestroyed, Select;
    var rows := Select(FinalizationRows(w.db), limit);
    var refs := RowRefs(w.db, rows);
    forall i | 0 <= i < |refs|
      ensures !AllDestroyed(w.db, refs[i].attempt)
    {
    }
    UnfinishablesAreLeft(Begin(w.(tick := w.tick + 1)), schedule, crew, refs);
  }

  /** Pending attempts that still wait for another sandbox use up the limit: when those that
      it lets through fill it, a pass does nothing at all, and so does every later one. */
  lemma FullLimitBlocks(w: World, schedule: Schedule, crew: Crew, limit: nat)
    requires Calm(schedule) && LimitOk(limit) && limit <= |FinalizationRows(w.db)| && SelectedUnfinishable(w.db, limit)
    ensures RunOnce(w, schedule, crew, limit).world.db == w.db
  {
    hide Calm, SelectedUnfinishable, FinalizeAll, WorkAll, ScanTasks, FinalizationRows, Select;
    ScanIsCalm(w, schedule, limit);
    SelectedStay(w, schedule, crew, limit);
  }

  lemma {:induction false} EveryPassIsBlocked(w: World, schedule: Schedule, crew: Crew, limit: nat, n: nat)
    requires Calm(schedule) && LimitOk(limit) && limit <= |FinalizationRows(w.db)| && SelectedUnfinishable(w.db, limit)
    ensures Passes(w, schedule, crew, limit, n).db == w.db
    decreases n
  {
    hide Calm, SelectedUnfinishable, RunOnce, FinalizationRows;
    if n > 0 {
      FullLimitBlocks(w, schedule, crew, limit);
      EveryPassIsBlocked(RunOnce(w, schedule, crew, limit).world, schedule, crew, limit, n - 1);
    }
  }

  /** So many passes in a row. */
  ghost function Passes(w: World, schedule: Schedule, crew: Crew, limit: int, n: nat): World
    decreases n
  {
    if n == 0 then w else Passes(RunOnce(w, schedule, crew, limit).world, schedule, crew, limit, n - 1)
  }

  lemma IdleWithoutWork(w: World, schedule: Schedule, crew: Crew, limit: nat)
    requires Calm(schedule) && LimitOk(limit) && |FinalizationRows(w.db)| < limit && SelectedUnfinishable(w.db, limit)
    requires CleanupRows(w.db, ReconcileTime(w, schedule)) == {}
    ensures RunOnce(w, schedule, crew, limit).world.db == w.db
  {
    hide SelectedUnfinishable, FinalizeAll, FinalizationRows, Select, CleanupRows, Finalize;
    ScanIsCalm(w, schedule, limit);
    SelectedStay(w, schedule, crew, limit);
    var p := Finalizations(w, schedule, crew, limit);
    var refs := RowRefs(w.db, Select(FinalizationRows(w.db), limit));
    FinalizeAllNeverRaises(Begin(w.(tick := w.tick + 1)), schedule, crew, refs);
    FinalizeAllTicks(Begin(w.(tick := w.tick + 1)), schedule, crew, refs);
    CalmServe(p.world, schedule);
    assert Select(CleanupRows(p.world.db, schedule(p.world.tick).now), limit - |refs|) == [];
  }

  /** A selected attempt whose sandboxes are all destroyed is finished. */
  lemma FinishableMoves(w: World, schedule: Schedule, crew: Crew, limit: nat)
    requires Calm(schedule) && Healthy(w) && LimitOk(limit) && RunOnce(w, schedule, crew, limit).world.legal
    requires !SelectedUnfinishable(w.db, limit)
    ensures RunOnce(w, schedule, crew, limit).world.db != w.db
  {
    hide Intact, Leads, FinalizeAll, RunOnce, Select, FinalizationRows, Finalizes, Calm, AllDestroyed, RowsGrow, LogGrows,
      RecordsKept, CleanlyDestroyed;
    PassIsLegalThroughout(w, schedule, crew, limit);
    var rows := Select(FinalizationRows(w.db), limit);
    var i :| 0 <= i < |rows| && AllDestroyed(w.db, rows[i].attempt);
    var id := rows[i].attempt;
    SelectedAwaits(w.db, limit, i);
    assert RowRefs(w.db, rows)[i] == RefOf(id, w.db.attempts[id]);
    var p := Finalizations(w, schedule, crew, limit);
    FinalizeAllFinishes(Begin(w.(tick := w.tick + 1)), schedule, crew, RowRefs(w.db, rows), id);
    LeadsBack(p.world, RunOnce(w, schedule, crew, limit).world);
    GoneForGood(p.world.db, RunOnce(w, schedule, crew, limit).world.db, id);
  }

  lemma SelectedAwaits(db: Db, limit: nat, i: nat)
    requires i < |Select(FinalizationRows(db), limit)|
    ensures AwaitsFinalization(db, Select(FinalizationRows(db), limit)[i].attempt)
  {
    hide CleanlyDestroyed;
    assert Select(FinalizationRows(db), limit)[i] in FinalizationRows(db);
  }

  /** Due work that the limit leaves room for is done. */
  lemma DueWorkMoves(w: World, schedule: Schedule, crew: Crew, limit: nat)
    requires Calm(schedule) && Healthy(w) && LimitOk(limit) && RunOnce(w, schedule, crew, limit).world.legal
    requires SelectedUnfinishable(w.db, limit) && |FinalizationRows(w.db)| < limit
    requires CleanupRows(w.db, ReconcileTime(w, schedule)) != {}
    ensures RunOnce(w, schedule, crew, limit).world.db != w.db
  {
    hide Intact, Leads, FinalizeAll, WorkAll, ScanTasks, Select, FinalizationRows, Finalizes, Calm, SelectedUnfinishable,
      CleanupRows, Cleaned, RowFits, TaskReady, Grows;
    PassIsLegalThroughout(w, schedule, crew, limit);
    ScanIsCalm(w, schedule, limit);
    SelectedStay(w, schedule, crew, limit);
    var p := Finalizations(w, schedule, crew, limit);
    var n := limit - |FinalizationRows(w.db)|;
    var now := schedule(p.world.tick).now;
    LegalScan(p, schedule, crew, n);
    ScanReadies(p.world, schedule, n);
    var (reconciled, found) := ScanTasks(p.world, schedule, n);
    CalmWorkAll(p.(world := reconciled), schedule, crew, found.value);
    SelectedWasAlive(w.db, now, n);
    var after := WorkAll(p.(world := reconciled), schedule, crew, found.value).world.db;
    TupleIsTask(w.db, RowTuples(w.db, Select(CleanupRows(w.db, now), n)), reconciled.db, found.value, 0);
    CleanedIsDestroyed(reconciled.db, Sandboxes(found.value), after, found.value[0].ref.sandbox);
  }

  lemma CleanedIsDestroyed(before: Db, done: set<SandboxId>, after: Db, s: SandboxId)
    requires Cleaned(before, done, after) && s in done
    ensures s in after.resources && after.resources[s].state == Destroyed
  {
  }

  lemma SelectedWasAlive(db: Db, now: int, limit: nat)
    requires limit > 0 && CleanupRows(db, now) != {} && RowsFit(db, Select(CleanupRows(db, now), limit))
    ensures |Select(CleanupRows(db, now), limit)| > 0
    ensures var s := RowTuples(db, Select(CleanupRows(db, now), limit))[0].sandbox;
      s in db.resources ==> db.resources[s].state != Destroyed
  {
    hide MustClean, RetryDue, Select;
    var rows := Select(CleanupRows(db, now), limit);
    assert rows[0] in CleanupRows(db, now);
  }

  /** Exactly when an undisturbed pass with a succeeding runtime leaves the store as it is:
      no pending attempt that the limit lets through can be finished, and the pending ones
      fill the limit or no cleanup is due. */
  lemma PassIsIdleExactly(w: World, schedule: Schedule, crew: Crew, limit: nat)
    requires Calm(schedule) && Healthy(w) && LimitOk(limit) && RunOnce(w, schedule, crew, limit).world.legal
    ensures RunOnce(w, schedule, crew, limit).world.db == w.db <==>
      && SelectedUnfinishable(w.db, limit)
      && (limit <= |FinalizationRows(w.db)| || CleanupRows(w.db, ReconcileTime(w, schedule)) == {})
  {
    hide Calm, Healthy, RunOnce, SelectedUnfinishable, FinalizationRows, CleanupRows;
    if !SelectedUnfinishable(w.db, limit) {
      FinishableMoves(w, schedule, crew, limit);
    } else if limit <= |FinalizationRows(w.db)| {
      FullLimitBlocks(w, schedule, crew, limit);
    } else if CleanupRows(w.db, ReconcileTime(w, schedule)) == {} {
      IdleWithoutWork(w, schedule, crew, limit);
    } else {
      DueWorkMoves(w, schedule, crew, limit);
    }
  }

  // ----- a run that leaves such an attempt -----

  const LEARNER: UserIdentity := UserIdentity(0, {0})
  const OLD: Ref := Ref(0, 0, 1)
  const NEW: Ref := Ref(0, 1, 2)

  function StepCall(version: nat, m: Move, batch: nat): Call {
    TransitionCall(0, OLD, version, m, CallerKey(batch), 1, batch)
  }

  const CREATING: Move := Move(Creating, None, None, None)
  const STARTING: Move := Move(Starting, Some(0), None, None)
  const READY: Move := Move(Ready, None, Some(0), None)
  const GONE: Move := Move(Destroyed, None, Some(1), None)

  const CREATE: Call := CreateCall(LEARNER, 0, CallerKey(0), 100, 0, Fresh(0, 0, 0, 0))
  const ACCEPT: Call := AcceptCall(0, OLD, CallerKey(1), 1, 1)
  const PUBLISH: Call := PublishCall(0, PublishReady, OLD, 0, CallerKey(5), 1, 5)
  const RESET: Call := BeginResetCall(LEARNER, OLD, CallerKey(6), 1, Fresh(0, 1, 1, 6))
  const LEAVE: Call := LeaveCall(LEARNER, NEW, CallerKey(7), 1, 7)
  const RECONCILE: Call := ReconcileCall(1, 1, 8)
  const DESTROY: Call := TransitionCall(0, NEW, 0, GONE, DestroyKey(NEW, OperationId(8, 0), 0), 1, 9)
  const FINALIZE: Call := CompleteCall(0, NEW, FinalizeKey(NEW), 1, 10)

  /** A room is created and becomes ready; its learner resets it and leaves before the new
      sandbox has a row. A pass with a limit of one then takes the new sandbox first, for
      the NULL in its row sorts first: it reserves, stops and destroys it. */
  const LEFT_RUN: seq<Call> :=
    [CREATE, ACCEPT, StepCall(0, CREATING, 2), StepCall(1, STARTING, 3), StepCall(2, READY, 4), PUBLISH, RESET, LEAVE,
     RECONCILE, DESTROY, FINALIZE]

  /** After n calls: the one attempt, the resources, and a log of earlier batches and keys. */
  ghost predicate At(db: Db, a: Attempt, resources: map<SandboxId, Resource>, n: nat) {
    db.attempts == map[0 := a] && db.resources == resources && LoggedBy(db.operations, n)
  }

  ghost predicate LoggedBy(operations: map<OpKey, Operation>, n: nat) {
    forall k | k in operations :: IsEarlierEntry(k, operations[k], n)
  }

  ghost predicate IsEarlierEntry(k: OpKey, op: Operation, n: nat) {
    && op.id.batch < n
    && match k.key
       case CallerKey(text) => k.actor != CleanupActor && text < n
       case DestroyKey(_, _, _) => k.actor != CleanupActor && n > 9
       case SandboxKey(s) => n > 8 && k == CleanupKey(1) && op.retryAt <= 1
       case _ => false
  }

  lemma LogIsEarlier(operations: map<OpKey, Operation>, n: nat)
    requires LoggedBy(operations, n)
    ensures forall k | k in operations :: operations[k].id.batch < n
    ensures forall actor, m: nat | m >= n && actor != CleanupActor :: OpKey(actor, CallerKey(m)) !in operations
    ensures forall actor, ref | actor != CleanupActor :: OpKey(actor, FinalizeKey(ref)) !in operations
    ensures n <= 9 ==> forall actor, ref, id, version :: OpKey(actor, DestroyKey(ref, id, version)) !in operations
    ensures n <= 8 ==> forall s :: CleanupKey(s) !in operations
    ensures forall s | CleanupKey(s) in operations :: s == 1 && operations[CleanupKey(s)].retryAt <= 1
  {
  }

  lemma EntriesStayEarlier(operations: map<OpKey, Operation>, n: nat, k: OpKey, op: Operation)
    requires LoggedBy(operations, n) && IsEarlierEntry(k, op, n + 1)
    ensures LoggedBy(operations[k := op], n + 1)
  {
    var later := operations[k := op];
    forall j | j in later
      ensures IsEarlierEntry(j, later[j], n + 1)
    {
    }
  }

  /** The n-th call appends its receipt under the n-th key. */
  lemma Appended(db: Db, a: Attempt, resources: map<SandboxId, Resource>, n: nat, k: OpKey, request: Request, ref: Ref,
                 state: State, version: nat, error: Option<ErrorCode>)
    requires At(db, a, resources, n) && ref.attempt == 0 && k.actor != CleanupActor
    requires k.key == CallerKey(n) || (k.key.DestroyKey? && n == 9 && k !in db.operations)
    ensures var o := Finish(db, k, OperationId(n, 0), request, ref, state, version, error);
      o.Done? && At(o.db, a, resources, n + 1)
  {
    LogIsEarlier(db.operations, n);
    var op := Logged(OperationId(n, 0), request, ref, state, version, error);
    EntriesStayEarlier(db.operations, n, k, op);
  }

  function Creation(): Attempt {
    Attempt(0, 0, 0, 1, None, None, Some(0), Some(1), Provisioning, 0, 0, 0, 100, true, false, false, false, 0)
  }

  function Opened(): Attempt {
    Attempt(0, 0, 0, 1, Some(0), Some(1), None, None, Ready, 0, 1, 0, 100, false, false, false, false, 0)
  }

  function InReset(): Attempt {
    Attempt(0, 0, 1, 2, Some(0), Some(1), Some(1), Some(2), Resetting, 1, 2, 0, 100, true, true, false, false, 1)
  }

  function Left(): Attempt {
    Attempt(0, 0, 1, 2, Some(0), Some(1), Some(1), Some(2), Stopping, 2, 3, 0, 100, false, true, false, true, 1)
  }

  function OldRow(state: State, version: nat, container: Option<ContainerId>, evidence: Option<Digest>): Resource {
    Resource(0, 1, state, version, container, 0, 100, false, false, evidence, None)
  }

  function NewRow(state: State, version: nat, cleanup: Option<Digest>): Resource {
    Resource(0, 2, state, version, None, 1, 100, false, true, None, cleanup)
  }

  function OldReady(): Resource {
    OldRow(Ready, 3, Some(0), Some(0))
  }

  lemma RoomIsCreated()
    ensures FreshIds(EMPTY, CREATE) && Honest(CREATE) && At(Step(EMPTY, CREATE), Creation(), map[], 1)
  {
  }

  lemma SandboxIsAccepted(db: Db)
    requires At(db, Creation(), map[], 1)
    ensures FreshIds(db, ACCEPT) && Honest(ACCEPT)
    ensures At(Step(db, ACCEPT), Creation(), map[0 := OldRow(Requested, 0, None, None)], 2)
  {
    hide LoggedBy, Finish;
    LogIsEarlier(db.operations, 1);
    var rows := map[0 := OldRow(Requested, 0, None, None)];
    var db1 := db.(resources := db.resources[0 := OldRow(Requested, 0, None, None)]);
    assert db1.resources == rows;
    Appended(db1, Creation(), rows, 1, OpKey(BackendActor(0), CallerKey(1)), AcceptRequest(OLD), OLD, Requested, 0, None);
  }

  lemma MoveApplies(db: Db, r: Resource, m: Move, n: nat)
    requires At(db, Creation(), map[0 := r], n) && 2 <= n <= 8
    requires MoveOk(m) && !m.state.Ending() && MayMove(r.state, m.state)
    requires r.attempt == 0 && r.generation == 1 && r.expiresAt == 100 && !r.destroy
    ensures var c := StepCall(r.version, m, n);
      Answer(db, c) == ApplyMove(db, KeyOf(c), OLD, r.version, m, false, n)
  {
    hide LoggedBy, ApplyMove, MayMove, MoveOk;
    LogIsEarlier(db.operations, n);
  }

  lemma SandboxMoves(db: Db, r: Resource, version: nat, m: Move, n: nat)
    requires At(db, Creation(), map[0 := r], n) && 2 <= n <= 8
    requires MoveOk(m) && !m.state.Ending() && MayMove(r.state, m.state) && r.version == version
    requires r.attempt == 0 && r.generation == 1 && r.expiresAt == 100 && !r.destroy && ResourceCheck(Moved(r, m, false))
    ensures FreshIds(db, StepCall(version, m, n)) && Honest(StepCall(version, m, n))
    ensures At(Step(db, StepCall(version, m, n)), Creation(), map[0 := Moved(r, m, false)], n + 1)
  {
    hide LoggedBy, Finish, MoveOk, Moved, Transition;
    LogIsEarlier(db.operations, n);
    MoveApplies(db, r, m, n);
    var c := StepCall(version, m, n);
    var rows := map[0 := Moved(r, m, false)];
    var db1 := db.(resources := db.resources[0 := Moved(r, m, false)]);
    assert db1.resources == rows;
    MovedKeeps(r, m);
    assert UpdateResource(db, 0, Moved(r, m, false)) == Done(db1, ());
    Appended(db1, Creation(), rows, n, KeyOf(c), TransitionRequest(OLD, version, m), OLD, m.state, version + 1, m.error);
  }

  lemma MovedKeeps(r: Resource, m: Move)
    ensures !m.state.Ending() ==> !ResourceTrigger(r, Moved(r, m, false)) || r.state == Destroyed
    ensures r.state == Stopping ==> !ResourceTrigger(r, Moved(r, m, false))
  {
  }

  lemma OpeningApplies(db: Db)
    requires At(db, Creation(), map[0 := OldReady()], 5)
    ensures Answer(db, PUBLISH) == ApplyPublication(db, Creation(), KeyOf(PUBLISH), PublishReady, OLD, 0, 5)
  {
    hide LoggedBy, ApplyPublication;
    LogIsEarlier(db.operations, 5);
  }

  lemma RoomIsOpened(db: Db)
    requires At(db, Creation(), map[0 := OldReady()], 5)
    ensures FreshIds(db, PUBLISH) && Honest(PUBLISH) && At(Step(db, PUBLISH), Opened(), map[0 := OldReady()], 6)
  {
    hide LoggedBy, Finish, Publish;
    LogIsEarlier(db.operations, 5);
    OpeningApplies(db);
    var db1 := db.(attempts := db.attempts[0 := Opened()]);
    assert db1.attempts == map[0 := Opened()];
    assert UpdateAttempt(db, 0, Opened()) == Done(db1, ());
    Appended(db1, Opened(), db.resources, 5, KeyOf(PUBLISH), PublishRequest(PublishReady, OLD, 0), OLD, Ready, 1, None);
  }

  lemma RoomIsReset(db: Db)
    requires At(db, Opened(), map[0 := OldReady()], 6)
    ensures FreshIds(db, RESET) && Honest(RESET) && At(Step(db, RESET), InReset(), map[0 := OldReady()], 7)
  {
    hide LoggedBy, Finish;
    LogIsEarlier(db.operations, 6);
    var db1 := db.(attempts := db.attempts[0 := InReset()]);
    assert db1.attempts == map[0 := InReset()];
    assert UpdateAttempt(db, 0, InReset()) == Done(db1, ());
    Appended(db1, InReset(), db.resources, 6, OpKey(UserActor(0), CallerKey(6)), BeginResetRequest(OLD), NEW, Resetting, 2, None);
  }

  lemma LearnerLeaves(db: Db)
    requires At(db, InReset(), map[0 := OldReady()], 7)
    ensures FreshIds(db, LEAVE) && Honest(LEAVE) && At(Step(db, LEAVE), Left(), map[0 := OldReady()], 8)
  {
    hide LoggedBy, Finish;
    LogIsEarlier(db.operations, 7);
    var db1 := db.(attempts := db.attempts[0 := Left()]);
    assert db1.attempts == map[0 := Left()];
    assert StopAttempt(db, 0, 1) == Done(db1, ());
    Appended(db1, Left(), db.resources, 7, OpKey(UserActor(0), CallerKey(7)), LeaveRequest(NEW), NEW, Stopping, 3, None);
  }

  /** The reservation, with its NULL, comes before the old sandbox. */
  lemma WorkOfTheLeft(db: Db)
    requires At(db, Left(), map[0 := OldReady()], 8)
    ensures CleanupRows(db, 1) == {Plain(100, 0, 0), Plain(100, 0, 1)}
  {
    hide LoggedBy;
    LogIsEarlier(db.operations, 8);
    assert DueReservation(db, 0, 1);
    assert DueResource(db, 0, 1);
    forall row: Row
      ensures row in CleanupRows(db, 1) <==> row in {Plain(100, 0, 0), Plain(100, 0, 1)}
    {
    }
  }

  lemma FirstOfTwo(x: Row, y: Row)
    requires x != y && !Before(y, x)
    ensures Select({x, y}, 1) == [x]
  {
    var rows := Select({x, y}, 1);
    assert rows == [rows[0]];
    assert rows[0] == y ==> x !in rows;
  }

  lemma ReservationIsTaken(db: Db)
    requires At(db, Left(), map[0 := OldReady()], 8)
    ensures FreshIds(db, RECONCILE) && Honest(RECONCILE)
    ensures At(Step(db, RECONCILE), Left(), map[0 := OldReady(), 1 := NewRow(Stopping, 0, None)], 9)
    ensures forall k | k in Step(db, RECONCILE).operations :: !k.key.DestroyKey?
  {
    hide Select, CleanupRows, ReconcileRow, LoggedBy;
    LogIsEarlier(db.operations, 8);
    var row := Plain(100, 0, 0);
    WorkOfTheLeft(db);
    FirstOfTwo(row, Plain(100, 0, 1));
    ReservationIsReconciled(db);
    var o := ReconcileRow(db, row, 1, OperationId(8, 0));
    assert [row][1..] == [];
    assert ReconcileRows(o.db, [], 1, 8, 1) == Done(o.db, []);
  }

  lemma ReservationIsReconciled(db: Db)
    requires At(db, Left(), map[0 := OldReady()], 8)
    ensures var o := ReconcileRow(db, Plain(100, 0, 0), 1, OperationId(8, 0));
      && o.Done? && At(o.db, Left(), map[0 := OldReady(), 1 := NewRow(Stopping, 0, None)], 9)
      && forall k | k in o.db.operations :: !k.key.DestroyKey?
  {
  }

  lemma DestructionApplies(db: Db)
    requires At(db, Left(), map[0 := OldReady(), 1 := NewRow(Stopping, 0, None)], 9)
    ensures Answer(db, DESTROY) == ApplyMove(db, KeyOf(DESTROY), NEW, 0, GONE, false, 9) && KeyOf(DESTROY) !in db.operations
  {
    hide LoggedBy, ApplyMove;
    LogIsEarlier(db.operations, 9);
  }

  lemma ReservationIsDestroyed(db: Db)
    requires At(db, Left(), map[0 := OldReady(), 1 := NewRow(Stopping, 0, None)], 9)
    ensures FreshIds(db, DESTROY) && Honest(DESTROY)
    ensures At(Step(db, DESTROY), Left(), map[0 := OldReady(), 1 := NewRow(Destroyed, 1, Some(1))], 10)
  {
    hide LoggedBy, Finish, Transition, MarkCleaned;
    LogIsEarlier(db.operations, 9);
    DestructionApplies(db);
    var rows := map[0 := OldReady(), 1 := NewRow(Destroyed, 1, Some(1))];
    var db1 := db.(resources := db.resources[1 := NewRow(Destroyed, 1, Some(1))]);
    assert db1.resources == rows;
    assert UpdateResource(db, 1, Moved(db.resources[1], GONE, false)) == Done(db1, ());
    var o := MarkCleaned(db1, 1, 1);
    MarkingKeepsLog(db1, 9);
    Appended(o.db, Left(), rows, 9, KeyOf(DESTROY), TransitionRequest(NEW, 0, GONE), NEW, Destroyed, 1, None);
  }

  lemma MarkingKeepsLog(db: Db, n: nat)
    requires LoggedBy(db.operations, n)
    ensures var o := MarkCleaned(db, 1, 1);
      && o.Done? && LoggedBy(o.db.operations, n) && o.db.attempts == db.attempts && o.db.resources == db.resources
      && o.db.operations.Keys == db.operations.Keys
  {
  }

  lemma NothingIsFinished(db: Db)
    requires At(db, Left(), map[0 := OldReady(), 1 := NewRow(Destroyed, 1, Some(1))], 10)
    ensures FreshIds(db, FINALIZE) && Honest(FINALIZE) && Step(db, FINALIZE) == db
  {
    hide LoggedBy;
    LogIsEarlier(db.operations, 10);
    assert db.resources[0].state == Ready && !AllDestroyed(db, 0);
  }

  lemma RunOn(db: Db, c: Call, rest: seq<Call>)
    requires FreshIds(db, c) && Honest(c) && Proper(Step(db, c), rest)
    ensures Proper(db, [c] + rest) && Run(db, [c] + rest) == Run(Step(db, c), rest)
  {
    hide Step, FreshIds, Honest;
    var run := [c] + rest;
    assert run[0] == c && run[1..] == rest;
    forall i | 0 <= i < |run|
      ensures Honest(run[i])
    {
      if i > 0 {
        assert run[i] == rest[i - 1];
      }
    }
  }

  lemma EndOfRun(db: Db)
    ensures Proper(db, []) && Run(db, []) == db
  {
  }

  /** From the room in a reset, its learner leaves and the pass does its work. */
  lemma LeavingIsProper(db: Db)
    requires At(db, InReset(), map[0 := OldReady()], 7)
    ensures Proper(db, LEFT_RUN[7..])
    ensures At(Run(db, LEFT_RUN[7..]), Left(), map[0 := OldReady(), 1 := NewRow(Destroyed, 1, Some(1))], 10)
  {
    hide At, Step, Proper, Run, FreshIds, Honest;
    LearnerLeaves(db);
    var stopping := Step(db, LEAVE);
    ReservationIsTaken(stopping);
    var reserved := Step(stopping, RECONCILE);
    ReservationIsDestroyed(reserved);
    var gone := Step(reserved, DESTROY);
    NothingIsFinished(gone);
    EndOfRun(gone);
    RunOn(gone, FINALIZE, []);
    RunOn(reserved, DESTROY, [FINALIZE] + []);
    RunOn(stopping, RECONCILE, [DESTROY] + ([FINALIZE] + []));
    RunOn(db, LEAVE, [RECONCILE] + ([DESTROY] + ([FINALIZE] + [])));
    assert LEFT_RUN[7..] == [LEAVE] + ([RECONCILE] + ([DESTROY] + ([FINALIZE] + [])));
  }

  /** From the accepted sandbox, the room becomes ready and is reset. */
  lemma ResettingIsProper(db: Db)
    requires At(db, Creation(), map[0 := OldRow(Requested, 0, None, None)], 2)
    ensures Proper(db, LEFT_RUN[2..])
    ensures At(Run(db, LEFT_RUN[2..]), Left(), map[0 := OldReady(), 1 := NewRow(Destroyed, 1, Some(1))], 10)
  {
    hide At, Step, Proper, Run, FreshIds, Honest;
    var creating, starting, ready := StepCall(0, CREATING, 2), StepCall(1, STARTING, 3), StepCall(2, READY, 4);
    SandboxMoves(db, OldRow(Requested, 0, None, None), 0, CREATING, 2);
    var db3 := Step(db, creating);
    SandboxMoves(db3, OldRow(Creating, 1, None, None), 1, STARTING, 3);
    var db4 := Step(db3, starting);
    SandboxMoves(db4, OldRow(Starting, 2, Some(0), None), 2, READY, 4);
    var db5 := Step(db4, ready);
    RoomIsOpened(db5);
    var db6 := Step(db5, PUBLISH);
    RoomIsReset(db6);
    var db7 := Step(db6, RESET);
    LeavingIsProper(db7);
    var rest := LEFT_RUN[7..];
    RunOn(db6, RESET, rest);
    RunOn(db5, PUBLISH, [RESET] + rest);
    RunOn(db4, ready, [PUBLISH] + ([RESET] + rest));
    RunOn(db3, starting, [ready] + ([PUBLISH] + ([RESET] + rest)));
    RunOn(db, creating, [starting] + ([ready] + ([PUBLISH] + ([RESET] + rest))));
    assert LEFT_RUN[2..] == [creating] + ([starting] + ([ready] + ([PUBLISH] + ([RESET] + rest))));
  }

  lemma LeftRunIsProper()
    ensures Proper(EMPTY, LEFT_RUN)
    ensures At(Run(EMPTY, LEFT_RUN), Left(), map[0 := OldReady(), 1 := NewRow(Destroyed, 1, Some(1))], 10)
  {
    hide At, Step, Proper, Run, FreshIds, Honest;
    RoomIsCreated();
    var created := Step(EMPTY, CREATE);
    SandboxIsAccepted(created);
    var accepted := Step(created, ACCEPT);
    ResettingIsProper(accepted);
    RunOn(created, ACCEPT, LEFT_RUN[2..]);
    RunOn(EMPTY, CREATE, [ACCEPT] + LEFT_RUN[2..]);
    assert LEFT_RUN == [CREATE] + ([ACCEPT] + LEFT_RUN[2..]);
  }

  lemma LeftIsBlocked(db: Db)
    requires At(db, Left(), map[0 := OldReady(), 1 := NewRow(Destroyed, 1, Some(1))], 10)
    ensures |FinalizationRows(db)| >= 1 && SelectedUnfinishable(db, 1)
  {
    hide LoggedBy, Select;
    var x := Plain(100, 0, 0);
    assert AwaitsFinalization(db, 0);
    assert x in FinalizationRows(db);
    SubsetIsSmaller({x}, FinalizationRows(db));
    assert db.resources[0].state != Destroyed && !AllDestroyed(db, 0);
  }

  lemma LeftMustFinish(db: Db, now: int)
    requires At(db, Left(), map[0 := OldReady(), 1 := NewRow(Destroyed, 1, Some(1))], 10) && now >= 1
    ensures MustFinish(db, 0, now) && RetriesDue(db, 0, now) && !Gone(db, 0)
  {
    hide LoggedBy;
    LogIsEarlier(db.operations, 10);
  }

  /** Progress does not hold for every limit: after this run the room has to go and all its
      retry times have passed, but no number of passes with a limit of one, undisturbed and
      with a succeeding runtime, ever changes anything. */
  lemma LimitOfOneBlocks(w: World, schedule: Schedule, crew: Crew, n: nat, now: int)
    requires Calm(schedule) && w.db == Run(EMPTY, LEFT_RUN) && now >= 1
    ensures Proper(EMPTY, LEFT_RUN) && IsReachable(w.db)
    ensures MustFinish(w.db, 0, now) && RetriesDue(w.db, 0, now) && !Gone(w.db, 0)
    ensures Passes(w, schedule, crew, 1, n).db == w.db
  {
    hide Calm, At, SelectedUnfinishable, FinalizationRows, MustFinish, RetriesDue, Run, Legal, Honest;
    LeftRunIsProper();
    LeftMustFinish(w.db, now);
    LeftIsBlocked(w.db);
    EveryPassIsBlocked(w, schedule, crew, 1, n);
  }
}
