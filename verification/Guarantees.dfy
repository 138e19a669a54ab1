/** Further guarantees over reachable states and runs: cleanup bookkeeping, publication,
    reset resumption, version checks, capabilities and leases. */
module Guarantees {
  import opened Records
  import opened Schema
  import opened Common
  import opened Selection
  import opened Backend
  import opened ControlPlane
  import opened Runs
  import opened Effects
  import opened Invariant
  import opened Preservation
  import opened Log
  import opened Ledger
  import opened Access
  import opened Reachable
  import opened Idempotence

  // ----- cleanup bookkeeping -----

  /** A cleanup operation is finished exactly when its resource is destroyed, and counts
      exactly the failures logged for it. */
  lemma CleanupIsCountedExactly(db: Db, s: SandboxId)
    requires IsReachable(db) && CleanupKey(s) in db.operations
    ensures var op := db.operations[CleanupKey(s)];
      && s in db.resources && op.ref == ResourceRef(s, db.resources[s])
      && (op.status == Succeeded <==> db.resources[s].state == Destroyed)
      && op.retryCount == |FailedCleanups(db.operations, s)|
  {
    ReachableIsGood(db);
    InternalEntry(db, CleanupKey(s));
  }

  // ----- ownership -----

  /** A created attempt belongs to its creator, for the requested room and deadline, and its
      reservation is the one in the receipt; ownership never changes over any run. */
  lemma CreatorOwnsTheAttempt(db: Db, identity: UserIdentity, room: RoomId, key: Key, deadline: int, now: int, ids: Fresh, run: seq<Call>)
    requires Inv(db) && FreshIds(db, CreateCall(identity, room, key, deadline, now, ids))
    requires OpKey(UserActor(identity.id), key) !in db.operations
    requires Create(db, identity, room, key, deadline, now, ids).Done?
    requires Legal(Create(db, identity, room, key, deadline, now, ids).db, run)
    ensures var o := Create(db, identity, room, key, deadline, now, ids);
      && o.value.ref.attempt in o.db.attempts && o.value.ref == RefOf(o.value.ref.attempt, o.db.attempts[o.value.ref.attempt])
      && Owned(Run(o.db, run), identity, o.value.ref.attempt).Allow?
      && var a := Run(o.db, run).attempts[o.value.ref.attempt];
      a.user == identity.id && a.room == room && a.expiresAt == deadline
  {
    hide Inv, LogGrows, RecordsKept, ResourcesGrow;
    var c := CreateCall(identity, room, key, deadline, now, ids);
    CallKeepsInvariant(db, c);
    RunKeepsInvariant(Step(db, c), run);
    var id := ids.attempt;
    assert AttemptGrows(Step(db, c).resources, Step(db, c).attempts[id], Run(Step(db, c), run).attempts[id]);
  }

  // ----- publication -----

  /** An open room has an active sandbox of its own at the published stage or a later one,
      with its container and the evidence of an observation. */
  lemma PublicationNeverRunsAhead(db: Db, id: AttemptId)
    requires IsReachable(db) && id in db.attempts && db.attempts[id].state.Open()
    ensures var a := db.attempts[id];
      && a.activeSandbox == Some(a.sandbox) && a.activeGeneration == Some(a.generation)
      && a.sandbox in db.resources
      && var r := db.resources[a.sandbox];
      && ResourceRef(a.sandbox, r) == RefOf(id, a)
      && Stage(a.state) <= Stage(r.state)
      && r.container.Some? && r.evidence.Some?
  {
    ReachableIsGood(db);
    AttemptIsShaped(db, id);
  }

  // ----- version checks -----

  /** A logged step on a resource version is the last on that version: under any other key
      it can never be applied again. */
  lemma LoggedTransitionIsTheOnlyOne(db: Db, k: OpKey, service: ServiceId, m: Move, key: Key, now: int, batch: nat)
    requires Inv(db) && k in db.operations && k.actor != CleanupActor && db.operations[k].request.TransitionRequest?
    requires OpKey(ControlActor(service), key) !in db.operations
    ensures var request := db.operations[k].request;
      !Transition(db, service, request.ref, request.version, m, key, now, batch).Done?
  {
    hide RequireLive, MoveOk, MayMove, Finish, UpdateResource, Core, LedgerOk, AccessOk, ResetsOk;
    var op := db.operations[k];
    assert Witnessed(db, op);
    var ref := op.request.ref;
    if ref.attempt in db.attempts && ref.sandbox in db.resources {
      RequireLiveStops(db, db.attempts[ref.attempt], Some(ref.sandbox), now);
    }
  }

  /** The same for publications and the version of their attempt. */
  lemma LoggedPublicationIsTheOnlyOne(db: Db, k: OpKey, service: ServiceId, p: Publication, key: Key, now: int, batch: nat)
    requires Inv(db) && k in db.operations && k.actor != CleanupActor && db.operations[k].request.PublishRequest?
    requires OpKey(BackendActor(service), key) !in db.operations
    ensures var request := db.operations[k].request;
      !Publish(db, service, p, request.ref, request.version, key, now, batch).Done?
  {
    hide Live, DenyExpired, MayPublish, Finish, UpdateAttempt, Core, LedgerOk, AccessOk, ResetsOk;
    var op := db.operations[k];
    assert Witnessed(db, op);
    var ref := op.request.ref;
    LiveStops(db, ref.attempt, now);
    DenialNeverDone<Receipt>(db, ref.attempt, now);
  }

  // ----- reset resumption -----

  /** The rows of one attempt in the query of pending resets. */
  ghost function RowsOf(db: Db, id: AttemptId): set<Row> {
    set x | x in ResetRows(db) && x.attempt == id
  }

  ghost predicate ResetOf(db: Db, k: OpKey, id: AttemptId) {
    && id in db.attempts && k in db.operations
    && IsResetOperation(db.operations[k]) && db.operations[k].ref == RefOf(id, db.attempts[id])
  }

  lemma OneResetLogged(db: Db, id: AttemptId) returns (k: OpKey)
    requires Inv(db) && id in db.attempts && db.attempts[id].state == Resetting
    ensures ResetOf(db, k, id) && db.operations[k].version == db.attempts[id].version
    ensures forall j | ResetOf(db, j, id) :: j == k
  {
    hide Core, AccessOk;
    assert ResetLogged(db.operations, RefOf(id, db.attempts[id]));
    k :| k in db.operations && IsResetOperation(db.operations[k]) && db.operations[k].ref == RefOf(id, db.attempts[id]);
    if k.actor == CleanupActor {
      InternalEntry(db, k);
      assert false;
    }
    assert Witnessed(db, db.operations[k]);
  }

  /** Every attempt whose reset awaits its provisioning is listed exactly once, and the
      receipt has the attempt's current tuple and version. */
  lemma ResetIsListedOnce(db: Db, id: AttemptId) returns (row: Row)
    requires Inv(db) && AwaitsResetProvisioning(db, id)
    ensures RowsOf(db, id) == {row} && RowsKnown(db, [row])
    ensures var r := ResetReceipts(db, [row])[0];
      r.ref == RefOf(id, db.attempts[id]) && r.version == db.attempts[id].version && r.state == Resetting
  {
    hide Inv, CleanlyDestroyed, ResetCandidateUntouched;
    var k := OneResetLogged(db, id);
    row := Row(db.attempts[id].expiresAt, id, 0, db.operations[k].id, db.operations[k].version);
    forall x: Row
      ensures x in RowsOf(db, id) <==> x == row
    {
      if x in RowsOf(db, id) {
        var i, j :| i in db.attempts && j in db.operations && AwaitsResetProvisioning(db, i)
          && IsResetOperation(db.operations[j]) && db.operations[j].ref == RefOf(i, db.attempts[i])
          && x == Row(db.attempts[i].expiresAt, i, 0, db.operations[j].id, db.operations[j].version);
        assert ResetOf(db, j, id);
      }
    }
  }

  /** No receipt that the query lists belongs to an attempt that does not await it. */
  lemma ListedResetsAwait(db: Db, limit: int, i: nat)
    requires LimitOk(limit) && i < |Select(ResetRows(db), limit)|
    ensures var row := Select(ResetRows(db), limit)[i];
      AwaitsResetProvisioning(db, row.attempt)
  {
    hide AwaitsResetProvisioning;
    assert Select(ResetRows(db), limit)[i] in ResetRows(db);
  }

  ghost predicate IsReservation(op: Operation) {
    op.request.CreateRequest? || op.request.BeginResetRequest?
  }

  /** From the moment a creation or reset is logged until its attempt leaves the generation
      or the provisioning state, publishing with the receipt's version is never stale. */
  lemma ReservationIsNeverStale(db: Db, k: OpKey, run: seq<Call>, p: Publication, service: ServiceId, key: Key, now: int, batch: nat)
    requires Inv(db) && Legal(db, run) && k in db.operations && k.actor != CleanupActor && IsReservation(db.operations[k])
    requires var op, later := db.operations[k], Run(db, run);
      && op.ref.attempt in later.attempts
      && var a := later.attempts[op.ref.attempt];
      && a.generation == op.ref.generation && (a.state.Provisioning? || a.state.Resetting?)
    ensures var op, later := db.operations[k], Run(db, run);
      && later.attempts[op.ref.attempt].version == op.version
      && Publish(later, service, p, op.ref, op.version, key, now, batch) != Refused(StaleVersion)
  {
    hide Inv, Publish, RowsGrow, RecordsKept;
    RunKeepsInvariant(db, run);
    var op, later := db.operations[k], Run(db, run);
    assert later.operations[k] == op;
    ReservationHasVersion(later, k);
    PublishAtVersion(later, service, p, op.ref, op.version, key, now, batch);
  }

  lemma ReservationHasVersion(db: Db, k: OpKey)
    requires Inv(db) && k in db.operations && k.actor != CleanupActor && IsReservation(db.operations[k])
    requires var op := db.operations[k];
      && op.ref.attempt in db.attempts
      && var a := db.attempts[op.ref.attempt];
      && a.generation == op.ref.generation && (a.state.Provisioning? || a.state.Resetting?)
    ensures db.attempts[db.operations[k].ref.attempt].version == db.operations[k].version
  {
    hide Core, LedgerOk, AccessOk, ResetsOk;
    assert Witnessed(db, db.operations[k]);
    AttemptIsShaped(db, db.operations[k].ref.attempt);
  }

  lemma PublishAtVersion(db: Db, service: ServiceId, p: Publication, ref: Ref, version: nat, key: Key, now: int, batch: nat)
    requires ref.attempt in db.attempts && db.attempts[ref.attempt].version == version
    ensures Publish(db, service, p, ref, version, key, now, batch) != Refused(StaleVersion)
  {
    hide MayPublish, Finish, Published, UpdateAttempt, StopAttempt;
    FinishNeverStale();
    StopNeverStale(db, ref.attempt, now);
  }

  lemma FinishNeverStale()
    ensures forall db, k, id, request, ref, state, version, error ::
      Finish(db, k, id, request, ref, state, version, error) != Refused(StaleVersion)
    ensures forall db: Db, id: AttemptId, a: Attempt | id in db.attempts :: UpdateAttempt(db, id, a) != Refused(StaleVersion)
  {
  }

  lemma StopNeverStale(db: Db, id: AttemptId, now: int)
    requires id in db.attempts
    ensures StopAttempt(db, id, now) != Refused(StaleVersion)
  {
  }

  // ----- capabilities and leases -----

  /** A capability is consumed at most once over any run. */
  lemma CapabilityIsConsumedOnce(db: Db, claims: Claims, now: int, run: seq<Call>, again: Claims, later: int)
    requires Inv(db) && Consume(db, claims, now).Done? && Legal(Step(db, ConsumeCall(claims, now)), run)
    requires again.jti == claims.jti
    ensures !Consume(Run(Step(db, ConsumeCall(claims, now)), run), again, later).Done?
  {
    hide Inv, RowsGrow, LogGrows, Consume, MayConsume;
    var c := ConsumeCall(claims, now);
    var after := Step(db, c);
    CallKeepsInvariant(db, c);
    RunKeepsInvariant(after, run);
    ConsumeRecords(db, claims, now);
    ConsumeNeedsUnused(Run(after, run), again, later);
  }

  lemma ConsumeRecords(db: Db, claims: Claims, now: int)
    requires Consume(db, claims, now).Done?
    ensures claims.jti in Consume(db, claims, now).db.uses
  {
    hide StopAttempt, Attachable;
  }

  lemma ConsumeNeedsUnused(db: Db, claims: Claims, now: int)
    ensures Consume(db, claims, now).Done? ==> claims.jti !in db.uses
  {
    hide StopAttempt, Attachable;
    if Binding(db, claims.ref, false).Allow? {
      LiveStops(db, claims.ref.attempt, now);
    }
  }

  /** Over any run, two grants for one capability, or for one gateway session, return the
      same lease. */
  lemma LeaseIsGrantedOnce(db: Db, c: Call, run: seq<Call>, again: Call)
    requires Inv(db) && c.GrantCall? && again.GrantCall? && FreshIds(db, c) && Legal(Step(db, c), run)
    requires FreshIds(Run(Step(db, c), run), again)
    requires again.consumed.jti == c.consumed.jti || again.session == c.session
    requires Granting(db, c).Done? && Granting(Run(Step(db, c), run), again).Done?
    ensures Granting(db, c).value == Granting(Run(Step(db, c), run), again).value
  {
    hide Core, LogOk, LedgerOk, AccessOk, ResetsOk, RowsGrow, LogGrows, Granting, Step;
    var after := Step(db, c);
    var later := Run(after, run);
    CallKeepsInvariant(db, c);
    RunKeepsInvariant(after, run);
    GrantIsRecorded(db, c);
    CallKeepsInvariant(later, again);
    GrantIsRecorded(later, again);
    LeasesAreDistinct(Step(later, again), Granting(db, c).value.lease, Granting(later, again).value.lease);
  }

  lemma LeasesAreDistinct(db: Db, l: LeaseId, m: LeaseId)
    requires AccessOk(db) && l in db.leases && m in db.leases
    ensures db.leases[l].request.LeaseRequest? && db.leases[m].request.LeaseRequest?
    ensures db.leases[l].request.jti == db.leases[m].request.jti || db.leases[l].request.session == db.leases[m].request.session ==> l == m
  {
    assert LeaseOk(db, db.leases[l]) && LeaseOk(db, db.leases[m]);
  }

  ghost function Granting(db: Db, c: Call): Outcome<Grant>
    requires c.GrantCall?
  {
    GrantLease(db, c.service, c.ref, c.consumed, c.session, c.duration, c.key, c.now, c.lease)
  }

  lemma GrantIsRecorded(db: Db, c: Call)
    requires c.GrantCall? && Granting(db, c).Done?
    ensures Step(db, c).attempts == db.attempts && Step(db, c) == Granting(db, c).db
    ensures var g := Granting(db, c).value;
      && g.lease in Step(db, c).leases && Step(db, c).leases[g.lease] == g.row
      && g.row.request == LeaseRequest(c.ref, c.consumed.jti, c.consumed.epoch, c.session, c.duration)
  {
    hide RequireLive, LeaseUnused;
    if c.ref.attempt in db.attempts && c.ref.sandbox in db.resources {
      RequireLiveStops(db, db.attempts[c.ref.attempt], Some(c.ref.sandbox), c.now);
    }
  }
}
