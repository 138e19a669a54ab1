/** What the store guarantees in every reachable state and along every run. */
module Theorems {
  import opened Records
  import opened Common
  import opened Selection
  import opened Backend
  import opened ControlPlane
  import opened Runs
  import opened Effects
  import opened Invariant
  import opened Preservation
  import opened Log
  import opened Ledger
  import opened Access
  import opened Reachable

  // ----- generations -----

  ghost predicate OwnedBy(db: Db, id: AttemptId, s: SandboxId) {
    s in db.resources && db.resources[s].attempt == id
  }

  /** In every reachable state at most one sandbox of an attempt is not being torn down. */
  lemma OneLiveSandbox(db: Db, id: AttemptId, s: SandboxId, t: SandboxId)
    requires IsReachable(db) && OwnedBy(db, id, s) && OwnedBy(db, id, t)
    requires !db.resources[s].destroy && !db.resources[t].destroy
    ensures s == t
  {
    ReachableIsGood(db);
    ResourceIsShaped(db, s);
    ResourceIsShaped(db, t);
    AttemptIsShaped(db, id);
  }

  /** While an attempt has an active sandbox, it is the current generation or the one before. */
  lemma ActiveIsCurrentOrPrevious(db: Db, id: AttemptId)
    requires IsReachable(db) && id in db.attempts && db.attempts[id].activeGeneration.Some?
    ensures 1 <= db.attempts[id].activeGeneration.value
    ensures db.attempts[id].generation - 1 <= db.attempts[id].activeGeneration.value <= db.attempts[id].generation
  {
    hide LogOk, LedgerOk, AccessOk, ResetsOk, ResourcesOk, Bound, Lineage;
    ReachableIsGood(db);
    AttemptIsShaped(db, id);
  }

  /** Every generation below the active one left a row, and all of them are destroyed with
      cleanup evidence. */
  lemma OlderGenerationsAreGone(db: Db, id: AttemptId, g: nat) returns (s: SandboxId)
    requires IsReachable(db) && id in db.attempts && db.attempts[id].activeGeneration.Some?
    requires 1 <= g < db.attempts[id].activeGeneration.value
    ensures db.attempts[id].generation - 1 <= db.attempts[id].activeGeneration.value <= db.attempts[id].generation
    ensures OwnedBy(db, id, s) && db.resources[s].generation == g
    ensures forall t | OwnedBy(db, id, t) && db.resources[t].generation == g ::
      db.resources[t].state == Destroyed && db.resources[t].cleanupEvidence.Some?
  {
    hide LogOk, LedgerOk, AccessOk, ResetsOk, Core, AttemptShape, ResourceShape, HasGeneration, Bound;
    ReachableIsGood(db);
    ActiveIsCurrentOrPrevious(db, id);
    s := OlderGenerationHasRow(db, id, g);
    forall t | OwnedBy(db, id, t) && db.resources[t].generation == g
      ensures db.resources[t].state == Destroyed && db.resources[t].cleanupEvidence.Some?
    {
      OlderIsDestroyed(db, id, t);
    }
  }

  lemma OlderGenerationHasRow(db: Db, id: AttemptId, g: nat) returns (s: SandboxId)
    requires Core(db) && id in db.attempts && 1 <= g < db.attempts[id].generation
    ensures OwnedBy(db, id, s) && db.resources[s].generation == g
  {
    hide AttemptShape, Bound, ResourcesOk, DistinctSandboxes, DistinctContainers;
    assert Lineage(db.resources, id, db.attempts[id]);
    assert HasGeneration(db.resources, id, g);
    s :| OwnedBy(db, id, s) && db.resources[s].generation == g;
  }

  lemma OlderIsDestroyed(db: Db, id: AttemptId, t: SandboxId)
    requires Core(db) && OwnedBy(db, id, t) && id in db.attempts && db.attempts[id].activeGeneration.Some?
    requires db.resources[t].generation < db.attempts[id].activeGeneration.value
    ensures db.resources[t].state == Destroyed && db.resources[t].cleanupEvidence.Some?
  {
    hide Core;
    ResourceIsShaped(db, t);
  }

  /** The session epoch counts resets and the one shutdown. */
  lemma EpochIsConserved(db: Db, id: AttemptId)
    requires IsReachable(db) && id in db.attempts
    ensures db.attempts[id].epoch == db.attempts[id].generation - 1 + (if db.attempts[id].destroy then 1 else 0)
  {
    ReachableIsGood(db);
    AttemptIsShaped(db, id);
  }

  lemma {:induction false} RunSplits(db: Db, run: seq<Call>, i: nat)
    requires Legal(db, run) && i <= |run|
    ensures Legal(db, run[..i]) && Legal(Run(db, run[..i]), run[i..])
    ensures Run(db, run) == Run(Run(db, run[..i]), run[i..])
    decreases i
  {
    hide Step;
    if i == 0 {
      assert run[..0] == [] && run[0..] == run;
    } else {
      RunSplits(Step(db, run[0]), run[1..], i - 1);
      assert run[..i][0] == run[0] && run[..i][1..] == run[1..][..i - 1] && run[i..] == run[1..][i - 1..];
    }
  }

  /** Claims read in one state can be consumed in a later one only if the attempt was
      neither reset nor shut down in any state between. */
  lemma ConsumedClaimsWereNeverRevoked(db: Db, run: seq<Call>, claims: Claims, now: int, i: nat)
    requires Inv(db) && Legal(db, run) && i <= |run|
    requires claims.ref.attempt in db.attempts && claims.epoch == db.attempts[claims.ref.attempt].epoch
    requires Consume(Run(db, run), claims, now).Done?
    ensures claims.ref.attempt in Run(db, run[..i]).attempts
    ensures var a := Run(db, run[..i]).attempts[claims.ref.attempt];
      a.generation == claims.ref.generation && a.sandbox == claims.ref.sandbox && !a.destroy && !a.expiry
  {
    ConsumeShape(Run(db, run), claims, now);
    UnchangedEpoch(db, run, claims.ref.attempt, i);
  }

  /** The same for a lease granted on a consumed capability. */
  lemma LeasedClaimsWereNeverRevoked(db: Db, run: seq<Call>, service: ServiceId, ref: Ref, consumed: CapabilityUse,
                                     session: SessionHash, duration: int, key: Key, now: int, lease: LeaseId, i: nat)
    requires Inv(db) && Legal(db, run) && i <= |run|
    requires ref.attempt in db.attempts && consumed.epoch == db.attempts[ref.attempt].epoch
    requires GrantLease(Run(db, run), service, ref, consumed, session, duration, key, now, lease).Done?
    ensures ref.attempt in Run(db, run[..i]).attempts
    ensures var a := Run(db, run[..i]).attempts[ref.attempt];
      a.generation == ref.generation && a.sandbox == ref.sandbox && !a.destroy && !a.expiry
  {
    GrantNeedsEpoch(Run(db, run), service, ref, consumed, session, duration, key, now, lease);
    UnchangedEpoch(db, run, ref.attempt, i);
  }

  lemma GrantNeedsEpoch(db: Db, service: ServiceId, ref: Ref, consumed: CapabilityUse, session: SessionHash, duration: int,
                        key: Key, now: int, lease: LeaseId)
    requires GrantLease(db, service, ref, consumed, session, duration, key, now, lease).Done?
    ensures Binding(db, ref, false).Allow? && db.attempts[ref.attempt].epoch == consumed.epoch
    ensures !db.attempts[ref.attempt].destroy
  {
  }

  lemma UnchangedEpoch(db: Db, run: seq<Call>, id: AttemptId, i: nat)
    requires Inv(db) && Legal(db, run) && i <= |run| && id in db.attempts
    requires id in Run(db, run).attempts && !Run(db, run).attempts[id].destroy
    requires Run(db, run).attempts[id].epoch == db.attempts[id].epoch
    ensures id in Run(db, run[..i]).attempts
    ensures var a, z := Run(db, run[..i]).attempts[id], Run(db, run).attempts[id];
      a.generation == z.generation && a.sandbox == z.sandbox && !a.destroy && !a.expiry
  {
    hide Core, LogOk, LedgerOk, AccessOk, ResetsOk, Step, Lineage, Bound;
    RunSplits(db, run, i);
    var mid := Run(db, run[..i]);
    RunKeepsInvariant(db, run[..i]);
    RunKeepsInvariant(mid, run[i..]);
    assert AttemptGrows(db.resources, db.attempts[id], mid.attempts[id]);
    assert AttemptGrows(mid.resources, mid.attempts[id], Run(db, run).attempts[id]);
    AttemptIsShaped(db, id);
    AttemptIsShaped(mid, id);
    AttemptIsShaped(Run(mid, run[i..]), id);
  }

  // ----- shutdown -----

  /** Teardown is exactly the three ending states, for resources; an attempt that is
      being shut down is stopping or destroyed. */
  lemma IntentsMatchStates(db: Db, id: AttemptId, s: SandboxId)
    requires IsReachable(db)
    ensures id in db.attempts ==> (db.attempts[id].destroy <==> db.attempts[id].state.Stopping? || db.attempts[id].state.Destroyed?)
    ensures s in db.resources ==> (db.resources[s].destroy <==> db.resources[s].state.Ending())
    ensures s in db.resources && db.resources[s].state == Destroyed ==> db.resources[s].cleanupEvidence.Some?
  {
    ReachableIsGood(db);
    if id in db.attempts {
      AttemptIsShaped(db, id);
    }
    if s in db.resources {
      ResourceIsShaped(db, s);
    }
  }

  /** Intents never clear and a destroyed row never changes, over any run. */
  lemma ShutdownIsOneWay(db: Db, run: seq<Call>, id: AttemptId, s: SandboxId)
    requires Inv(db) && Legal(db, run)
    ensures id in db.attempts ==>
      && id in Run(db, run).attempts
      && var a, b := db.attempts[id], Run(db, run).attempts[id];
      (a.destroy ==> b.destroy) && (a.expiry ==> b.expiry) && (a.state == Destroyed ==> b == a) && b.expiresAt == a.expiresAt
    ensures s in db.resources ==>
      && s in Run(db, run).resources
      && var r, q := db.resources[s], Run(db, run).resources[s];
      (r.destroy ==> q.destroy) && (r.expiry ==> q.expiry) && (r.state == Destroyed ==> q == r) && q.expiresAt == r.expiresAt
  {
    hide Inv, AttemptGrows, ResourceGrows, LogGrows, RecordsKept;
    RunKeepsInvariant(db, run);
    if id in db.attempts {
      GrownAttempt(db.resources, db.attempts[id], Run(db, run).attempts[id]);
    }
    if s in db.resources {
      GrownResource(db.resources[s], Run(db, run).resources[s]);
    }
  }

  lemma GrownAttempt(resources: map<SandboxId, Resource>, a: Attempt, b: Attempt)
    requires AttemptGrows(resources, a, b)
    ensures (a.destroy ==> b.destroy) && (a.expiry ==> b.expiry) && (a.state == Destroyed ==> b == a) && b.expiresAt == a.expiresAt
  {
  }

  lemma GrownResource(r: Resource, q: Resource)
    requires ResourceGrows(r, q)
    ensures (r.destroy ==> q.destroy) && (r.expiry ==> q.expiry) && (r.state == Destroyed ==> q == r) && q.expiresAt == r.expiresAt
  {
  }

  /** A row inserted by one call is not yet destroyed. */
  ghost predicate NewRowsAlive(before: Db, after: Db) {
    forall s | s in after.resources && s !in before.resources :: after.resources[s].state != Destroyed
  }

  lemma {:induction false} ReconcileRowsAlive(db: Db, rows: seq<Row>, now: int, batch: nat, index: nat)
    requires AllCleanable(db, rows)
    ensures AllKnown(db, rows) && NoNewRuins(db, ReconcileRows(db, rows, now, batch, index).After(db))
    decreases |rows|
  {
    hide ReconcileRow, Cleanable, AllKnown;
    CleanableIsKnown(db, rows);
    if rows != [] {
      var id := OperationId(batch, index);
      KnownParts(db, rows);
      ReconcileRowShape(db, rows[0], now, id);
      var o := ReconcileRow(db, rows[0], now, id);
      if o.Done? {
        forall i | 0 <= i < |rows[1..]|
          ensures Cleanable(o.db, rows[1..][i])
        {
          StaysCleanable(db, rows[i + 1], CleanupRef(db, rows[0]), id, o.db);
        }
        ReconcileRowsAlive(o.db, rows[1..], now, batch, index + 1);
      }
    }
  }

  lemma CallInsertsAlive(db: Db, c: Call)
    ensures NewRowsAlive(db, Step(db, c))
  {
    hide Create, Leave, BeginReset, Publish, Expire, Complete, Consume, Transition, GrantLease, Reconcile, CleanupFailed, MayGrant;
    if IsBackendCall(c) {
      BackendOwnsItsRows(db, c);
    } else {
      match c
      case TransitionCall(service, ref, expected, m, key, now, batch) => TransitionShape(db, service, ref, expected, m, key, now, batch);
      case GrantCall(service, ref, consumed, session, duration, key, now, lease) =>
        GrantShape(db, service, ref, consumed, session, duration, key, now, lease);
      case CleanupFailedCall(service, ref, operation, expected, key, error, retryAt, now, batch) =>
        CleanupFailedShape(db, service, ref, operation, expected, key, error, retryAt, now, batch);
      case ReconcileCall(now, limit, batch) =>
        ReconcileAlive(db, now, limit, batch);
      case _ =>
    }
  }

  lemma ReconcileAlive(db: Db, now: int, limit: int, batch: nat)
    ensures NoNewRuins(db, Reconcile(db, now, limit, batch).After(db))
  {
    hide ReconcileRows, Select, AllCleanable;
    if 1 <= limit <= 1000 {
      SelectedAreCleanable(db, now, limit);
      ReconcileRowsAlive(db, Select(CleanupRows(db, now), limit), now, batch, 0);
    }
  }

  /** A destroyed attempt has only destroyed resources with evidence, and over any run it
      never gains or changes one. */
  lemma {:induction false} DestroyedIsFinal(db: Db, run: seq<Call>, id: AttemptId, s: SandboxId)
    requires Inv(db) && Legal(db, run) && id in db.attempts && db.attempts[id].state == Destroyed
    requires OwnedBy(db, id, s) || OwnedBy(Run(db, run), id, s)
    ensures OwnedBy(db, id, s) && OwnedBy(Run(db, run), id, s) && Run(db, run).resources[s] == db.resources[s]
    ensures db.resources[s].state == Destroyed && db.resources[s].cleanupEvidence.Some?
    decreases |run|
  {
    hide LogOk, LedgerOk, AccessOk, ResetsOk, Step, AttemptGrows, ResourceGrows, LogGrows, RecordsKept, Core;
    if run == [] {
      ResourceIsShaped(db, s);
    } else {
      var next := Step(db, run[0]);
      CallKeepsInvariant(db, run[0]);
      CallInsertsAlive(db, run[0]);
      GrownAttempt(db.resources, db.attempts[id], next.attempts[id]);
      if s in db.resources {
        GrownOwner(db.resources[s], next.resources[s]);
        ResourceIsShaped(db, s);
      }
      DestroyedIsFinal(next, run[1..], id, s);
    }
  }

  lemma GrownOwner(r: Resource, q: Resource)
    requires ResourceGrows(r, q)
    ensures q.attempt == r.attempt && (r.state == Destroyed ==> q == r)
  {
  }
}
