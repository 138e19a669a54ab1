/** Every store call keeps the invariant, lets rows only grow, and never trips the schema. */
module Preservation {
  import opened Records
  import opened Schema
  import opened Common
  import opened Selection
  import opened Backend
  import opened ControlPlane
  import opened Runs
  import opened Invariant

  /** The call was not aborted by the schema, and what it committed is sound. */
  ghost predicate Sound<T>(db: Db, o: Outcome<T>) {
    && o != Refused(StoreFailure)
    && Core(o.After(db))
    && RowsGrow(db, o.After(db))
  }

  ghost predicate RowMayBecome(db: Db, id: AttemptId, b: Attempt)
    requires id in db.attempts
  {
    && AttemptGrows(db.resources, db.attempts[id], b)
    && (db.attempts[id].generation == b.generation || ResetExemption(db.attempts[id], b))
    && AttemptShape(b)
    && Bound(db.resources, id, b)
    && Lineage(db.resources, id, b)
    && SandboxUnused(db.attempts, id, b.sandbox)
    && (forall s | s in db.resources && db.resources[s].attempt == id :: Linked(b, s, db.resources[s]))
  }

  lemma AttemptStatement(db: Db, id: AttemptId, b: Attempt)
    requires id in db.attempts && RowMayBecome(db, id, b) && AttemptShape(db.attempts[id])
    ensures UpdateAttempt(db, id, b) == Done(db.(attempts := db.attempts[id := b]), ())
  {
    assert AttemptCheck(b);
  }

  lemma AttemptRowsGrow(db: Db, id: AttemptId, b: Attempt)
    requires id in db.attempts && AttemptGrows(db.resources, db.attempts[id], b)
    ensures RowsGrow(db, db.(attempts := db.attempts[id := b]))
  {
  }

  lemma AttemptUpdated(db: Db, id: AttemptId, b: Attempt)
    requires Core(db) && id in db.attempts && RowMayBecome(db, id, b)
    ensures UpdateAttempt(db, id, b) == Done(db.(attempts := db.attempts[id := b]), ())
    ensures Core(db.(attempts := db.attempts[id := b]))
    ensures RowsGrow(db, db.(attempts := db.attempts[id := b]))
  {
    AttemptStatement(db, id, b);
    AttemptRowsGrow(db, id, b);
    PutAttempt(db, id, b);
  }

  lemma ResourceUpdated(db: Db, s: SandboxId, r: Resource)
    requires Core(db) && s in db.resources && ResourceGrows(db.resources[s], r) && ResourceShape(r)
    requires ContainerUnused(db.resources, s, r.container)
    ensures UpdateResource(db, s, r) == Done(db.(resources := db.resources[s := r]), ())
    ensures Core(db.(resources := db.resources[s := r]))
    ensures RowsGrow(db, db.(resources := db.resources[s := r]))
  {
    PutResource(db, s, r);
  }

  lemma SameLineage(resources: map<SandboxId, Resource>, id: AttemptId, a: Attempt, b: Attempt)
    requires Lineage(resources, id, a) && b.generation == a.generation
    ensures Lineage(resources, id, b)
  {
  }

  /** A stop changes nothing that links an attempt to its resources. */
  lemma StoppedRow(resources: map<SandboxId, Resource>, id: AttemptId, a: Attempt, expired: bool)
    requires AttemptShape(a) && Bound(resources, id, a)
    requires a.state != Destroyed && (!a.destroy || (expired && !a.expiry))
    ensures AttemptShape(Stopped(a, expired)) && Bound(resources, id, Stopped(a, expired))
    ensures AttemptGrows(resources, a, Stopped(a, expired))
    ensures forall s, r | Linked(a, s, r) :: Linked(Stopped(a, expired), s, r)
  {
  }

  ghost predicate StopMayChange(before: Db, id: AttemptId, now: int, after: Db)
    requires id in before.attempts
  {
    var a := before.attempts[id];
    || (after == before && a.destroy)
    || (after == before.(attempts := before.attempts[id := Stopped(a, now >= a.expiresAt)]) && a.state != Destroyed)
  }

  lemma StopUpdated(db: Db, id: AttemptId, expired: bool)
    requires Core(db) && id in db.attempts
    ensures db.attempts[id].state == Destroyed ==> db.attempts[id].destroy
    ensures db.attempts[id].state != Destroyed && (!db.attempts[id].destroy || (expired && !db.attempts[id].expiry)) ==>
      RowMayBecome(db, id, Stopped(db.attempts[id], expired))
  {
    var a := db.attempts[id];
    assert AttemptShape(a);
    if a.state != Destroyed && (!a.destroy || (expired && !a.expiry)) {
      SameLineage(db.resources, id, a, Stopped(a, expired));
      StoppedRow(db.resources, id, a, expired);
    }
  }

  lemma StopAttemptKeeps(db: Db, id: AttemptId, now: int)
    requires Core(db) && id in db.attempts
    ensures StopAttempt(db, id, now).Done? && Sound(db, StopAttempt(db, id, now))
    ensures StopMayChange(db, id, now, StopAttempt(db, id, now).db)
  {
    hide Core, RowsGrow, UpdateAttempt, RowMayBecome;
    NothingChanged(db);
    var a := db.attempts[id];
    StopUpdated(db, id, now >= a.expiresAt);
    if a.state != Destroyed && (!a.destroy || (now >= a.expiresAt && !a.expiry)) {
      AttemptUpdated(db, id, Stopped(a, now >= a.expiresAt));
    }
  }

  lemma NothingChanged(db: Db)
    ensures RowsGrow(db, db)
  {
  }

  /** Logging a receipt after sound row changes completes a sound call. */
  lemma FinishSound(before: Db, db: Db, k: OpKey, id: OperationId, request: Request, ref: Ref, state: State, version: nat,
                    error: Option<ErrorCode> := None)
    requires Core(db) && RowsGrow(before, db)
    requires k !in db.operations && OperationUnused(db.operations, id) && ref.attempt in db.attempts
    ensures Sound(before, Finish(db, k, id, request, ref, state, version, error))
    ensures Finish(db, k, id, request, ref, state, version, error).Done?
  {
  }

  lemma NewAttemptIsBound(resources: map<SandboxId, Resource>, id: AttemptId, a: Attempt)
    requires NoActive(a) && a.generation == 1 && a.sandbox !in resources
    ensures Bound(resources, id, a) && Lineage(resources, id, a)
  {
  }

  lemma InsertAttemptKeeps(db: Db, id: AttemptId, a: Attempt)
    requires Core(db) && id !in db.attempts && AttemptShape(a) && NoActive(a) && a.generation == 1 && a.sandbox !in db.resources
    requires SandboxUnused(db.attempts, id, a.sandbox) && AttemptCheck(a)
    ensures InsertAttempt(db, id, a) == Done(db.(attempts := db.attempts[id := a]), ())
    ensures Core(db.(attempts := db.attempts[id := a]))
    ensures RowsGrow(db, db.(attempts := db.attempts[id := a]))
  {
    hide AttemptShape, Bound, Lineage, Linked, ResourceShape, AttemptCheck, DistinctContainers;
    NewAttemptIsBound(db.resources, id, a);
    NothingChanged(db);
  }

  lemma CreateKeeps(db: Db, identity: UserIdentity, room: RoomId, key: Key, deadline: int, now: int, ids: Fresh)
    requires Core(db) && FreshIds(db, CreateCall(identity, room, key, deadline, now, ids))
    ensures Sound(db, Create(db, identity, room, key, deadline, now, ids))
  {
    hide Core, RowsGrow, InsertAttempt, Finish;
    NothingChanged(db);
    var k := OpKey(UserActor(identity.id), key);
    if room in identity.rooms && k !in db.operations && deadline > now {
      var a := NewAttempt(identity.id, room, now, deadline, ids);
      InsertAttemptKeeps(db, ids.attempt, a);
      FinishSound(db, db.(attempts := db.attempts[ids.attempt := a]), k, OperationId(ids.batch, 0),
                  CreateRequest(room, deadline), Ref(ids.attempt, ids.sandbox, 1), Provisioning, 0);
    }
  }

  lemma LeaveKeeps(db: Db, identity: UserIdentity, ref: Ref, key: Key, now: int, batch: nat)
    requires Core(db) && FreshBatch(db, batch)
    ensures Sound(db, Leave(db, identity, ref, key, now, batch))
  {
    hide Core, RowsGrow, StopAttempt, Finish;
    NothingChanged(db);
    var k := OpKey(UserActor(identity.id), key);
    if Owned(db, identity, ref.attempt).Allow? && Binding(db, ref, false).Allow? && k !in db.operations {
      StopAttemptKeeps(db, ref.attempt, now);
      var db1 := StopAttempt(db, ref.attempt, now).db;
      var a := db1.attempts[ref.attempt];
      FinishSound(db, db1, k, OperationId(batch, 0), LeaveRequest(ref), ref, a.state, a.version);
    }
  }

  lemma ResettedRow(resources: map<SandboxId, Resource>, id: AttemptId, a: Attempt, ids: Fresh)
    requires AttemptShape(a) && Bound(resources, id, a) && a.state.Open() && ids.sandbox !in resources
    requires ids.sandbox != a.sandbox
    ensures AttemptShape(Resetted(a, ids)) && Bound(resources, id, Resetted(a, ids))
    ensures AttemptGrows(resources, a, Resetted(a, ids)) && ResetExemption(a, Resetted(a, ids))
    ensures forall s, r | Linked(a, s, r) && s in resources :: Linked(Resetted(a, ids), s, r)
  {
  }

  lemma ResetUpdated(db: Db, id: AttemptId, ids: Fresh)
    requires Core(db) && id in db.attempts && db.attempts[id].state.Open() && FreshSandbox(db, ids.sandbox)
    ensures RowMayBecome(db, id, Resetted(db.attempts[id], ids))
  {
    ResettedRow(db.resources, id, db.attempts[id], ids);
    ResetLineage(db.resources, id, db.attempts[id], Resetted(db.attempts[id], ids));
  }

  lemma ResetLineage(resources: map<SandboxId, Resource>, id: AttemptId, a: Attempt, b: Attempt)
    requires AttemptShape(a) && a.state.Open() && Bound(resources, id, a)
    requires Lineage(resources, id, a) && b.generation == a.generation + 1
    ensures Lineage(resources, id, b)
  {
    assert HasGeneration(resources, id, a.generation);
  }

  lemma BeginResetKeeps(db: Db, identity: UserIdentity, ref: Ref, key: Key, now: int, ids: Fresh)
    requires Core(db) && FreshIds(db, BeginResetCall(identity, ref, key, now, ids))
    ensures Sound(db, BeginReset(db, identity, ref, key, now, ids))
  {
    hide Core, RowsGrow, StopAttempt, UpdateAttempt, RowMayBecome, Finish;
    NothingChanged(db);
    var k := OpKey(UserActor(identity.id), key);
    if Owned(db, identity, ref.attempt).Allow? && Binding(db, ref, false).Allow? && k !in db.operations {
      var a := db.attempts[ref.attempt];
      if now >= a.expiresAt {
        StopAttemptKeeps(db, ref.attempt, now);
      } else if a.state.Open() && !a.destroy && IsActive(a, ref) {
        ResetUpdated(db, ref.attempt, ids);
        AttemptUpdated(db, ref.attempt, Resetted(a, ids));
        FinishSound(db, db.(attempts := db.attempts[ref.attempt := Resetted(a, ids)]), k, OperationId(ids.batch, 0),
                    BeginResetRequest(ref), Ref(ref.attempt, ids.sandbox, ref.generation + 1), Resetting, a.version + 1);
      }
    }
  }

  lemma PublishedShape(db: Db, id: AttemptId, a: Attempt, p: Publication, ref: Ref)
    requires AttemptShape(a) && Bound(db.resources, id, a) && IsCurrent(a, ref) && MayPublish(db, a, p, ref)
    requires ref.sandbox in db.resources && ResourceShape(db.resources[ref.sandbox]) && Linked(a, ref.sandbox, db.resources[ref.sandbox])
    ensures AttemptShape(Published(a, p, ref)) && AttemptGrows(db.resources, a, Published(a, p, ref))
    ensures Bound(db.resources, id, Published(a, p, ref))
  {
  }

  lemma PublishedLinks(db: Db, a: Attempt, p: Publication, ref: Ref, s: SandboxId)
    requires AttemptShape(a) && IsCurrent(a, ref) && MayPublish(db, a, p, ref)
    requires s in db.resources && ResourceShape(db.resources[s]) && Linked(a, s, db.resources[s])
    ensures Linked(Published(a, p, ref), s, db.resources[s])
  {
  }

  lemma PublishedRow(db: Db, id: AttemptId, p: Publication, ref: Ref)
    requires Core(db) && id in db.attempts && ref.attempt == id && IsCurrent(db.attempts[id], ref)
    requires MayPublish(db, db.attempts[id], p, ref)
    ensures RowMayBecome(db, id, Published(db.attempts[id], p, ref))
  {
    var a := db.attempts[id];
    PublishedShape(db, id, a, p, ref);
    SameLineage(db.resources, id, a, Published(a, p, ref));
    hide MayPublish, Published, AttemptGrows, AttemptShape, Bound, Linked, ResourceShape;
    forall s | s in db.resources && db.resources[s].attempt == id
      ensures Linked(Published(a, p, ref), s, db.resources[s])
    {
      PublishedLinks(db, a, p, ref, s);
    }
  }

  lemma PublishKeeps(db: Db, service: ServiceId, p: Publication, ref: Ref, expected: nat, key: Key, now: int, batch: nat)
    requires Core(db) && FreshBatch(db, batch)
    ensures Sound(db, Publish(db, service, p, ref, expected, key, now, batch))
  {
    hide Core, RowsGrow, StopAttempt, UpdateAttempt, RowMayBecome, MayPublish, Published, Finish;
    NothingChanged(db);
    var k := OpKey(BackendActor(service), key);
    if Binding(db, ref, false).Allow? {
      var a := db.attempts[ref.attempt];
      StopAttemptKeeps(db, ref.attempt, now);
      if k !in db.operations && MayPublish(db, a, p, ref) {
        PublishedRow(db, ref.attempt, p, ref);
        var b := Published(a, p, ref);
        AttemptUpdated(db, ref.attempt, b);
        FinishSound(db, db.(attempts := db.attempts[ref.attempt := b]), k, OperationId(batch, 0),
                    PublishRequest(p, ref, expected), ref, PublicationState(p), expected + 1);
      }
    }
  }

  lemma FinalizedLinks(a: Attempt, s: SandboxId, r: Resource)
    requires AttemptShape(a) && Linked(a, s, r) && r.state == Destroyed
    ensures Linked(Finalized(a), s, r)
  {
  }

  lemma FinalizedShape(resources: map<SandboxId, Resource>, id: AttemptId, a: Attempt)
    requires AttemptShape(a) && Bound(resources, id, a) && a.destroy
    ensures AttemptShape(Finalized(a)) && Bound(resources, id, Finalized(a)) && AttemptGrows(resources, a, Finalized(a))
  {
  }

  lemma FinalizedRow(db: Db, id: AttemptId)
    requires Core(db) && id in db.attempts && db.attempts[id].destroy && AllDestroyed(db, id)
    ensures RowMayBecome(db, id, Finalized(db.attempts[id]))
  {
    hide Bound, AttemptShape, AttemptGrows, Linked, ResourceShape, Lineage, DistinctContainers;
    var a := db.attempts[id];
    AttemptIsShaped(db, id);
    FinalizedShape(db.resources, id, a);
    SameLineage(db.resources, id, a, Finalized(a));
    forall s | s in db.resources && db.resources[s].attempt == id
      ensures Linked(Finalized(a), s, db.resources[s])
    {
      FinalizedLinks(a, s, db.resources[s]);
    }
  }

  lemma CompleteKeeps(db: Db, service: ServiceId, ref: Ref, key: Key, now: int, batch: nat)
    requires Core(db) && FreshBatch(db, batch)
    ensures Sound(db, Complete(db, service, ref, key, now, batch))
  {
    hide Core, RowsGrow, StopAttempt, UpdateAttempt, RowMayBecome, Finish;
    NothingChanged(db);
    var k := OpKey(BackendActor(service), key);
    if Binding(db, ref, true).Allow? && k !in db.operations && CleanlyDestroyed(db, Some(ref.sandbox)) {
      var a := db.attempts[ref.attempt];
      if !IsCurrent(a, ref) {
        FinishSound(db, db, k, OperationId(batch, 0), CompleteRequest(ref), ref, Destroyed, db.resources[ref.sandbox].version);
      } else if AllDestroyed(db, ref.attempt) {
        StopAttemptKeeps(db, ref.attempt, now);
        var db1 := StopAttempt(db, ref.attempt, now).db;
        var b := Finalized(db1.attempts[ref.attempt]);
        FinalizedRow(db1, ref.attempt);
        AttemptUpdated(db1, ref.attempt, b);
        var db2 := db1.(attempts := db1.attempts[ref.attempt := b]);
        RowsGrowTransitive(db, db1, db2);
        FinishSound(db, db2, k, OperationId(batch, 0), CompleteRequest(ref), ref, Destroyed, b.version);
      }
    }
  }

  lemma ExpireKeeps(db: Db, rows: seq<Row>, now: int)
    requires Core(db) && RowsKnown(db, rows)
    ensures Sound(db, StopAll(db, rows, now)) && StopAll(db, rows, now).Done?
    decreases |rows|
  {
    hide Core, RowsGrow, StopAttempt;
    NothingChanged(db);
    if rows != [] {
      StopAttemptKeeps(db, rows[0].attempt, now);
      var db1 := StopAttempt(db, rows[0].attempt, now).db;
      ExpireKeeps(db1, rows[1..], now);
      RowsGrowTransitive(db, db1, StopAll(db1, rows[1..], now).db);
    }
  }

  lemma InsertResourceKeeps(db: Db, ref: Ref, r: Resource)
    requires Core(db) && ref.attempt in db.attempts && ref.sandbox !in db.resources
    requires IsCurrent(db.attempts[ref.attempt], ref)
    requires ResourceShape(r) && r.container.None? && r.state != Destroyed && db.attempts[ref.attempt].state != Destroyed
    requires r.attempt == ref.attempt && r.generation == ref.generation
    requires r.expiresAt == db.attempts[ref.attempt].expiresAt && r.runtimeId == db.attempts[ref.attempt].runtimeId
    requires ActiveIsPrevious(db.attempts[ref.attempt]) && !r.destroy ==>
      ResourceIs(db, db.attempts[ref.attempt].activeSandbox.value, Destroyed)
    ensures InsertResource(db, ref.sandbox, r) == Done(db.(resources := db.resources[ref.sandbox := r]), ())
    ensures Core(db.(resources := db.resources[ref.sandbox := r]))
    ensures RowsGrow(db, db.(resources := db.resources[ref.sandbox := r]))
  {
    hide DistinctContainers, RowsGrow, Bound, Lineage;
    PutContainer(db.resources, ref.sandbox, r);
    NewResourceGrows(db, ref.sandbox, r);
    forall id | id in db.attempts
      ensures AttemptShape(db.attempts[id]) && Bound(db.resources[ref.sandbox := r], id, db.attempts[id])
      ensures Lineage(db.resources[ref.sandbox := r], id, db.attempts[id])
    {
      LineageKept(db.resources, ref.sandbox, r, id, db.attempts[id]);
      assert db.attempts[id].sandbox == ref.sandbox ==> id == ref.attempt;
      BoundWithNew(db.resources, id, db.attempts[id], ref.sandbox, r);
    }
    assert AttemptShape(db.attempts[ref.attempt]);
    assert Linked(db.attempts[ref.attempt], ref.sandbox, r);
  }

  lemma NewResourceGrows(db: Db, s: SandboxId, r: Resource)
    requires s !in db.resources
    ensures RowsGrow(db, db.(resources := db.resources[s := r]))
  {
  }

  lemma BoundWithNew(resources: map<SandboxId, Resource>, id: AttemptId, a: Attempt, s: SandboxId, r: Resource)
    requires Bound(resources, id, a) && s !in resources
    requires a.sandbox == s ==> r.attempt == id
    requires a.sandbox == s && ActiveIsPrevious(a) && !r.destroy && a.activeSandbox.value in resources ==>
      resources[a.activeSandbox.value].state == Destroyed
    ensures Bound(resources[s := r], id, a)
  {
  }

  lemma AttemptIsShaped(db: Db, id: AttemptId)
    requires Core(db) && id in db.attempts
    ensures AttemptShape(db.attempts[id]) && Bound(db.resources, id, db.attempts[id])
  {
  }

  lemma ResourceIsShaped(db: Db, s: SandboxId)
    requires Core(db) && s in db.resources
    ensures ResourceShape(db.resources[s]) && db.resources[s].attempt in db.attempts
    ensures Linked(db.attempts[db.resources[s].attempt], s, db.resources[s])
  {
  }

  lemma AcceptKeeps(db: Db, service: ServiceId, ref: Ref, key: Key, now: int, batch: nat)
    requires Core(db) && FreshBatch(db, batch)
    ensures Sound(db, Accept(db, service, ref, key, now, batch))
  {
    hide Core, RowsGrow, InsertResource, Finish, Bound;
    NothingChanged(db);
    var k := OpKey(BackendActor(service), key);
    if Binding(db, ref, false).Allow? && k !in db.operations && ref.sandbox !in db.resources {
      var a := db.attempts[ref.attempt];
      AttemptIsShaped(db, ref.attempt);
      if !Dead(a, now) && ((a.state == Provisioning && a.provisioning) || (AwaitsReset(a, ref) && OldDestroyed(db, ref.attempt, a))) {
        InsertResourceKeeps(db, ref, NewResource(ref, a));
        FinishSound(db, db.(resources := db.resources[ref.sandbox := NewResource(ref, a)]), k, OperationId(batch, 0),
                    AcceptRequest(ref), ref, Requested, 0);
      }
    }
  }

  lemma TornDownRow(r: Resource, expired: bool)
    requires ResourceShape(r) && r.state != Destroyed
    ensures ResourceShape(TornDown(r, expired)) && ResourceGrows(r, TornDown(r, expired))
  {
  }

  lemma ContainersDistinct(db: Db, s: SandboxId)
    requires Core(db) && s in db.resources
    ensures ContainerUnused(db.resources, s, db.resources[s].container)
  {
  }

  lemma StopResourceKeeps(db: Db, s: SandboxId, expired: bool)
    requires Core(db) && s in db.resources
    ensures StopResource(db, s, expired).Done? && Sound(db, StopResource(db, s, expired))
    ensures var after := StopResource(db, s, expired).db;
      || (after == db && (db.resources[s].state.Stopping? || db.resources[s].state.Destroyed?))
      || (after == db.(resources := db.resources[s := TornDown(db.resources[s], expired)]) && db.resources[s].state != Destroyed)
  {
    hide Core, RowsGrow, UpdateResource, ResourceShape, ResourceGrows;
    NothingChanged(db);
    ResourceIsShaped(db, s);
    if db.resources[s].state != Destroyed {
      TornDownRow(db.resources[s], expired);
      ContainersDistinct(db, s);
      ResourceUpdated(db, s, TornDown(db.resources[s], expired));
    }
  }

  lemma RequireLiveKeeps(db: Db, a: Attempt, sandbox: Option<SandboxId>, now: int)
    requires Core(db) && (sandbox.Some? ==> sandbox.value in db.resources)
    ensures Sound(db, RequireLive(db, a, sandbox, now))
    ensures RequireLive(db, a, sandbox, now).Done? ==> RequireLive(db, a, sandbox, now).db == db && !Dead(a, now)
  {
    hide Core, RowsGrow, StopResource;
    NothingChanged(db);
    if sandbox.Some? {
      StopResourceKeeps(db, sandbox.value, now >= a.expiresAt || a.expiry);
    }
  }

  lemma MovedRow(r: Resource, m: Move, expired: bool)
    requires ResourceShape(r) && MoveOk(m) && MayMove(r.state, m.state) && (expired ==> m.state.Ending())
    ensures ResourceShape(Moved(r, m, expired)) && ResourceGrows(r, Moved(r, m, expired))
  {
  }

  lemma ApplyMoveKeeps(db: Db, k: OpKey, ref: Ref, expected: nat, m: Move, expired: bool, batch: nat)
    requires Core(db) && FreshBatch(db, batch) && ContainerUnused(db.resources, ref.sandbox, m.container)
    requires ref.attempt in db.attempts && ref.sandbox in db.resources && k !in db.operations
    requires MoveOk(m) && MayMove(db.resources[ref.sandbox].state, m.state) && (expired ==> m.state.Ending())
    ensures Sound(db, ApplyMove(db, k, ref, expected, m, expired, batch))
  {
    hide Core, RowsGrow, UpdateResource, ResourceShape, ResourceGrows, Linked, Finish, Moved, MarkCleaned, MoveOk, MayMove;
    var r := db.resources[ref.sandbox];
    ResourceIsShaped(db, ref.sandbox);
    MovedRow(r, m, expired);
    MovedContainer(db, ref.sandbox, m, expired);
    ResourceUpdated(db, ref.sandbox, Moved(r, m, expired));
    var db1 := db.(resources := db.resources[ref.sandbox := Moved(r, m, expired)]);
    MarkCleanedKeeps(db, db1, ref.sandbox, expected + 1, OperationId(batch, 0), k);
    var db2 := if m.state == Destroyed then MarkCleaned(db1, ref.sandbox, expected + 1).db else db1;
    FinishSound(db, db2, k, OperationId(batch, 0), TransitionRequest(ref, expected, m), ref, m.state, expected + 1, m.error);
  }

  lemma TransitionKeeps(db: Db, service: ServiceId, ref: Ref, expected: nat, m: Move, key: Key, now: int, batch: nat)
    requires Core(db) && FreshIds(db, TransitionCall(service, ref, expected, m, key, now, batch))
    ensures Sound(db, Transition(db, service, ref, expected, m, key, now, batch))
  {
    hide Core, RowsGrow, RequireLive, ApplyMove, MoveOk, MayMove;
    NothingChanged(db);
    var k := OpKey(ControlActor(service), key);
    if MoveOk(m) && Binding(db, ref, true).Allow? && Observed(db, ref).Allow? {
      var a, r := db.attempts[ref.attempt], db.resources[ref.sandbox];
      RequireLiveKeeps(db, a, Some(ref.sandbox), now);
      SameDeadline(db, ref.sandbox);
      var expired := now >= r.expiresAt || a.expiry;
      if k !in db.operations && MayMove(r.state, m.state) && (expired ==> m.state.Ending()) {
        ApplyMoveKeeps(db, k, ref, expected, m, expired, batch);
      }
    }
  }

  lemma SameDeadline(db: Db, s: SandboxId)
    requires Core(db) && s in db.resources
    ensures db.resources[s].attempt in db.attempts
    ensures db.resources[s].expiresAt == db.attempts[db.resources[s].attempt].expiresAt
  {
  }

  lemma MovedContainer(db: Db, s: SandboxId, m: Move, expired: bool)
    requires Core(db) && s in db.resources && ContainerUnused(db.resources, s, m.container)
    ensures ContainerUnused(db.resources, s, Moved(db.resources[s], m, expired).container)
  {
  }

  lemma MarkCleanedKeeps(before: Db, db: Db, s: SandboxId, version: nat, id: OperationId, k: OpKey)
    requires Core(db) && RowsGrow(before, db) && OperationUnused(db.operations, id) && k !in db.operations
    ensures var o := MarkCleaned(db, s, version);
      && o.Done? && Core(o.db) && RowsGrow(before, o.db) && o.db.attempts == db.attempts
      && OperationUnused(o.db.operations, id) && k !in o.db.operations
  {
  }

  lemma FailedRow(r: Resource)
    requires ResourceShape(r) && r.state == Stopping
    ensures var failed := r.(state := Failed, version := r.version + 1);
      ResourceShape(failed) && ResourceGrows(r, failed)
  {
  }

  lemma ApplyFailureKeeps(db: Db, k: OpKey, ref: Ref, operation: OperationId, expected: nat, error: ErrorCode, retryAt: int,
                          batch: nat)
    requires Core(db) && FreshBatch(db, batch) && ref.attempt in db.attempts && ref.sandbox in db.resources
    requires CleanupKey(ref.sandbox) in db.operations && k !in db.operations && db.resources[ref.sandbox].state == Stopping
    ensures Sound(db, ApplyFailure(db, k, ref, operation, expected, error, retryAt, batch))
  {
    hide Core, RowsGrow, UpdateResource, Linked, Finish, ResourceShape, ResourceGrows;
    var r, cleanup := db.resources[ref.sandbox], CleanupKey(ref.sandbox);
    var failed := r.(state := Failed, version := r.version + 1);
    ResourceIsShaped(db, ref.sandbox);
    FailedRow(r);
    ContainersDistinct(db, ref.sandbox);
    ResourceUpdated(db, ref.sandbox, failed);
    var db1 := db.(resources := db.resources[ref.sandbox := failed]);
    var op := RetryLater(db.operations[cleanup], expected + 1, error, retryAt);
    OperationsOnly(db, db1, db1.operations[cleanup := op]);
    FinishSound(db, db1.(operations := db1.operations[cleanup := op]), k, OperationId(batch, 0),
                CleanupFailedRequest(ref, operation, expected, error, retryAt), ref, Failed, expected + 1, Some(error));
  }

  lemma CleanupFailedKeeps(db: Db, service: ServiceId, ref: Ref, operation: OperationId, expected: nat, key: Key,
                           error: ErrorCode, retryAt: int, now: int, batch: nat)
    requires Core(db) && FreshBatch(db, batch)
    ensures Sound(db, CleanupFailed(db, service, ref, operation, expected, key, error, retryAt, now, batch))
  {
    hide Core, RowsGrow, ApplyFailure;
    NothingChanged(db);
    var k := OpKey(ControlActor(service), key);
    var cleanup := CleanupKey(ref.sandbox);
    if Binding(db, ref, true).Allow? && Observed(db, ref).Allow? && k !in db.operations && cleanup in db.operations {
      if db.resources[ref.sandbox].state == Stopping {
        ApplyFailureKeeps(db, k, ref, operation, expected, error, retryAt, batch);
      }
    }
  }

  lemma OperationsOnly(before: Db, db: Db, operations: map<OpKey, Operation>)
    requires Core(db) && RowsGrow(before, db)
    ensures Core(db.(operations := operations)) && RowsGrow(before, db.(operations := operations))
  {
  }

  ghost predicate RowLive(db: Db, row: Row) {
    RowKnown(db, row) && db.attempts[row.attempt].state != Destroyed
  }

  lemma ReserveKeeps(db: Db, ref: Ref, expired: bool)
    requires Core(db) && ref.attempt in db.attempts && db.attempts[ref.attempt].state != Destroyed
    requires ref == RefOf(ref.attempt, db.attempts[ref.attempt])
    ensures Sound(db, ReserveStopping(db, ref, expired)) && ReserveStopping(db, ref, expired).Done?
    ensures var after := ReserveStopping(db, ref, expired).db;
      after.attempts == db.attempts && after.operations == db.operations && ref.sandbox in after.resources
  {
    hide Core, RowsGrow, InsertResource;
    NothingChanged(db);
    AttemptIsShaped(db, ref.attempt);
    if ref.sandbox !in db.resources {
      var r := NewResource(ref, db.attempts[ref.attempt]).(state := Stopping, destroy := true, expiry := expired);
      InsertResourceKeeps(db, ref, r);
    }
  }

  lemma EnsureCleanupKeeps(before: Db, db: Db, ref: Ref, version: nat, id: OperationId)
    requires Core(db) && RowsGrow(before, db) && OperationUnused(db.operations, id) && ref.attempt in db.attempts
    ensures var o := EnsureCleanup(db, ref, version, id);
      && o.Done? && Core(o.db) && RowsGrow(before, o.db)
      && o.db.attempts == db.attempts && o.db.resources == db.resources && CleanupKey(ref.sandbox) in o.db.operations
      && (o.db.operations == db.operations
          || o.db.operations == db.operations[CleanupKey(ref.sandbox) := NewCleanup(id, ref, version)])
  {
  }

  lemma StopForCleanupKeeps(db: Db, row: Row, ref: Ref, expired: bool)
    requires Core(db) && RowLive(db, row) && ref == CleanupRef(db, row)
    ensures var o := StopForCleanup(db, row, ref, expired);
      Sound(db, o) && !o.Denied? && (o.Done? ==> o.db.operations == db.operations)
  {
    hide Core, RowsGrow, StopResource, ReserveStopping;
    NothingChanged(db);
    if row.sandbox == 0 {
      ReserveKeeps(db, ref, expired);
    }
    var db1 := if row.sandbox == 0 then ReserveStopping(db, ref, expired).db else db;
    if Observed(db1, ref).Allow? {
      StopResourceKeeps(db1, ref.sandbox, expired);
      RowsGrowTransitive(db, db1, StopResource(db1, ref.sandbox, expired).db);
    }
  }

  lemma ReconcileRowKeeps(db: Db, row: Row, now: int, id: OperationId)
    requires Core(db) && RowLive(db, row) && OperationUnused(db.operations, id)
    ensures Sound(db, ReconcileRow(db, row, now, id))
    ensures var o := ReconcileRow(db, row, now, id);
      o.Done? ==>
        && o.db.attempts == db.attempts
        && (forall k | k in o.db.operations ::
              (k in db.operations && o.db.operations[k] == db.operations[k]) || o.db.operations[k].id == id)
  {
    hide Core, RowsGrow, StopForCleanup, EnsureCleanup;
    NothingChanged(db);
    var ref := CleanupRef(db, row);
    var a := db.attempts[row.attempt];
    var expired := now >= a.expiresAt || a.expiry;
    StopForCleanupKeeps(db, row, ref, expired);
    var o := StopForCleanup(db, row, ref, expired);
    if o.Done? {
      EnsureCleanupKeeps(db, o.db, ref, o.value.version, id);
    }
  }

  ghost predicate AllLive(db: Db, rows: seq<Row>) {
    forall i | 0 <= i < |rows| :: RowLive(db, rows[i])
  }

  /** No operation has an id of the batch from the given index on. */
  ghost predicate BatchUnused(operations: map<OpKey, Operation>, batch: nat, index: nat) {
    forall k | k in operations :: operations[k].id.batch != batch || operations[k].id.index < index
  }

  lemma ReconcileRowsKeep(db: Db, rows: seq<Row>, now: int, batch: nat, index: nat)
    requires Core(db) && AllLive(db, rows) && BatchUnused(db.operations, batch, index)
    ensures AllKnown(db, rows) && Sound(db, ReconcileRows(db, rows, now, batch, index))
    decreases |rows|
  {
    hide Core, RowsGrow, ReconcileRow;
    NothingChanged(db);
    if rows != [] {
      var id := OperationId(batch, index);
      assert forall i | 0 <= i < |rows[1..]| :: RowKnown(db, rows[1..][i]);
      ReconcileRowKeeps(db, rows[0], now, id);
      var o := ReconcileRow(db, rows[0], now, id);
      if o.Done? {
        assert forall i | 0 <= i < |rows[1..]| :: RowLive(o.db, rows[1..][i]);
        ReconcileRowsKeep(o.db, rows[1..], now, batch, index + 1);
        var p := ReconcileRows(o.db, rows[1..], now, batch, index + 1);
        RowsGrowTransitive(db, o.db, p.After(o.db));
      }
    }
  }

  lemma RecordsOnly(db: Db, uses: map<JtiHash, Use>, leases: map<LeaseId, Lease>)
    requires Core(db)
    ensures Core(db.(uses := uses, leases := leases)) && RowsGrow(db, db.(uses := uses, leases := leases))
  {
  }

  lemma ConsumeKeeps(db: Db, claims: Claims, now: int)
    requires Core(db)
    ensures Sound(db, Consume(db, claims, now))
  {
    hide Core, RowsGrow, StopAttempt;
    NothingChanged(db);
    if Binding(db, claims.ref, false).Allow? {
      StopAttemptKeeps(db, claims.ref.attempt, now);
      RecordsOnly(db, db.uses[claims.jti := Use(claims.ref.attempt, now, claims.expiresAt)], db.leases);
    }
  }

  lemma GrantKeeps(db: Db, service: ServiceId, ref: Ref, consumed: CapabilityUse, session: SessionHash, duration: int,
                   key: Key, now: int, lease: LeaseId)
    requires Core(db) && lease !in db.leases
    ensures Sound(db, GrantLease(db, service, ref, consumed, session, duration, key, now, lease))
  {
    hide Core, RowsGrow, RequireLive;
    NothingChanged(db);
    if consumed.ref == ref && Binding(db, ref, false).Allow? && Observed(db, ref).Allow? {
      var a := db.attempts[ref.attempt];
      RequireLiveKeeps(db, a, Some(ref.sandbox), now);
      ResourceIsShaped(db, ref.sandbox);
      if consumed.jti in db.uses {
        var expires := Min(db.uses[consumed.jti].expiresAt, Min(a.expiresAt, now + duration));
        var row := Lease(consumed.jti, GatewayActor(service), key, LeaseRequest(ref, consumed.jti, consumed.epoch, session, duration),
                         ref, consumed.epoch, session, now, expires, now);
        RecordsOnly(db, db.uses, db.leases[lease := row]);
      }
    }
  }

  lemma CleanupRowsAreLive(db: Db, now: int, limit: nat)
    ensures AllLive(db, Select(CleanupRows(db, now), limit))
  {
    var rows := Select(CleanupRows(db, now), limit);
    forall i | 0 <= i < |rows|
      ensures RowLive(db, rows[i])
    {
      assert rows[i] in CleanupRows(db, now);
    }
  }

  lemma ReconcileKeeps(db: Db, now: int, limit: int, batch: nat)
    requires Core(db) && FreshBatch(db, batch)
    ensures Sound(db, Reconcile(db, now, limit, batch))
  {
    hide Core, RowsGrow, ReconcileRows, AllLive, Select, CleanupRows;
    NothingChanged(db);
    if 1 <= limit <= 1000 {
      CleanupRowsAreLive(db, now, limit);
      ReconcileRowsKeep(db, Select(CleanupRows(db, now), limit), now, batch, 0);
    }
  }

  lemma ExpireCallKeeps(db: Db, now: int, limit: int)
    requires Core(db)
    ensures Sound(db, Expire(db, now, limit))
  {
    hide Core, RowsGrow, StopAll, ExpiryRows;
    NothingChanged(db);
    if 1 <= limit <= 1000 {
      ExpireKeeps(db, Select(ExpiryRows(db, now), limit), now);
    }
  }

  /** Whatever the call, from a state that satisfies the invariant and with fresh
      identifiers, no CHECK, UNIQUE, foreign-key or trigger violation aborts it, and the
      state it commits satisfies the invariant with every row at the same or a later version. */
  lemma CallIsSound(db: Db, c: Call)
    requires Core(db) && FreshIds(db, c)
    ensures Apply(db, c) != Refused(StoreFailure)
    ensures Core(Step(db, c)) && RowsGrow(db, Step(db, c))
  {
    hide Core, RowsGrow, Create, Leave, BeginReset, Publish, Expire, Complete, Consume, Accept, Transition, GrantLease,
      Reconcile, CleanupFailed;
    match c
    case CreateCall(identity, room, key, deadline, now, ids) => CreateKeeps(db, identity, room, key, deadline, now, ids);
    case LeaveCall(identity, ref, key, now, batch) => LeaveKeeps(db, identity, ref, key, now, batch);
    case BeginResetCall(identity, ref, key, now, ids) => BeginResetKeeps(db, identity, ref, key, now, ids);
    case PublishCall(service, p, ref, expected, key, now, batch) => PublishKeeps(db, service, p, ref, expected, key, now, batch);
    case ExpireCall(now, limit) => ExpireCallKeeps(db, now, limit);
    case CompleteCall(service, ref, key, now, batch) => CompleteKeeps(db, service, ref, key, now, batch);
    case ConsumeCall(claims, now) => ConsumeKeeps(db, claims, now);
    case AcceptCall(service, ref, key, now, batch) => AcceptKeeps(db, service, ref, key, now, batch);
    case TransitionCall(service, ref, expected, m, key, now, batch) => TransitionKeeps(db, service, ref, expected, m, key, now, batch);
    case GrantCall(service, ref, consumed, session, duration, key, now, lease) =>
      GrantKeeps(db, service, ref, consumed, session, duration, key, now, lease);
    case ReconcileCall(now, limit, batch) => ReconcileKeeps(db, now, limit, batch);
    case CleanupFailedCall(service, ref, operation, expected, key, error, retryAt, now, batch) =>
      CleanupFailedKeeps(db, service, ref, operation, expected, key, error, retryAt, now, batch);
  }
}
