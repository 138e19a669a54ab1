/** The inductive invariant of attempts and resources, and the order in which rows
    grow. Conditions are stated row by row, so that changing a row keeps the others. */
module Invariant {
  import opened Records
  import opened Schema

  ghost predicate IsAt(a: Attempt, sandbox: Option<SandboxId>, generation: Option<nat>) {
    sandbox == Some(a.sandbox) && generation == Some(a.generation)
  }

  ghost predicate ActiveIsCurrent(a: Attempt) {
    IsAt(a, a.activeSandbox, a.activeGeneration)
  }

  /** The active sandbox is the one that a reset is replacing. */
  ghost predicate ActiveIsPrevious(a: Attempt) {
    && a.activeSandbox.Some? && a.activeSandbox != Some(a.sandbox)
    && a.generation >= 2 && a.activeGeneration == Some(a.generation - 1)
  }

  ghost predicate NoActive(a: Attempt) {
    a.activeSandbox.None? && a.activeGeneration.None?
  }

  ghost predicate NoCandidate(a: Attempt) {
    a.candidateSandbox.None? && a.candidateGeneration.None?
  }

  ghost predicate CandidateIsCurrent(a: Attempt) {
    IsAt(a, a.candidateSandbox, a.candidateGeneration)
  }

  ghost predicate AttemptShape(a: Attempt) {
    && a.generation >= 1
    && a.createdAt < a.expiresAt
    && a.epoch == a.generation - 1 + (if a.destroy then 1 else 0)
    && (a.expiry ==> a.destroy)
    && (NoCandidate(a) || CandidateIsCurrent(a))
    && (a.destroy <==> a.state.Stopping? || a.state.Destroyed?)
    && (a.provisioning <==> a.state.Provisioning? || a.state.Resetting?)
    && (a.state.Provisioning? || a.state.Open() ==> !a.reset)
    && (a.state.Resetting? || a.state.Failed? ==> a.reset)
    && match a.state
       case Provisioning => a.generation == 1 && a.version == 0 && NoActive(a) && CandidateIsCurrent(a)
       case Resetting => ActiveIsPrevious(a) && CandidateIsCurrent(a)
       case Failed => ActiveIsPrevious(a)
       case Ready => ActiveIsCurrent(a)
       case Running => ActiveIsCurrent(a)
       case Resolved => ActiveIsCurrent(a)
       case Stopping => (NoActive(a) && a.generation == 1) || ActiveIsCurrent(a) || ActiveIsPrevious(a)
       case Destroyed => NoActive(a)
       case _ => false
  }

  ghost predicate ResourceShape(r: Resource) {
    && r.generation >= 1
    && r.state.ForResource()
    && (r.destroy <==> r.state.Ending())
    && (r.expiry ==> r.destroy)
    && (r.state == Destroyed ==> r.cleanupEvidence.Some?)
    && (r.state.Starting? || r.state.Open() ==> r.container.Some?)
    && (r.state.Open() ==> r.evidence.Some?)
    && (r.state.Requested? || r.state.Creating? ==> r.container.None?)
    && (r.state.Requested? ==> r.version == 0)
  }

  /** A resource row agrees with its attempt, and every generation before the active one is destroyed. */
  ghost predicate Linked(a: Attempt, sandbox: SandboxId, r: Resource) {
    && r.expiresAt == a.expiresAt
    && r.generation <= a.generation
    && (r.generation == a.generation <==> sandbox == a.sandbox)
    && (sandbox == a.sandbox ==> r.runtimeId == a.runtimeId)
    && (a.activeGeneration.Some? ==>
          && (r.generation == a.activeGeneration.value <==> Some(sandbox) == a.activeSandbox)
          && (r.generation < a.activeGeneration.value ==> r.state == Destroyed))
    && (a.state == Destroyed ==> r.state == Destroyed)
  }

  /** How far a sandbox has come; teardown is the last stage. */
  ghost function Stage(s: State): nat {
    match s
    case Requested => 0
    case Creating => 1
    case Starting => 2
    case Ready => 3
    case Running => 4
    case Resolved => 5
    case _ => 6
  }

  ghost predicate HasReached(r: Resource, s: State) {
    Stage(s) <= Stage(r.state) && r.container.Some? && r.evidence.Some?
  }

  /** The attempt's pointers lead to its own resources, what it publishes has been
      observed, and a live candidate implies that the old sandbox is destroyed. */
  ghost predicate Bound(resources: map<SandboxId, Resource>, id: AttemptId, a: Attempt) {
    && (a.sandbox in resources ==> resources[a.sandbox].attempt == id)
    && (a.activeSandbox.Some? ==>
          && a.activeSandbox.value in resources
          && var active := resources[a.activeSandbox.value];
          && active.attempt == id
          && a.activeGeneration == Some(active.generation)
          && (a.state.Open() ==> HasReached(active, a.state))
          && (ActiveIsPrevious(a) && a.sandbox in resources && !resources[a.sandbox].destroy ==>
                active.state == Destroyed))
  }

  ghost predicate HasGeneration(resources: map<SandboxId, Resource>, id: AttemptId, g: nat) {
    exists s :: s in resources && resources[s].attempt == id && resources[s].generation == g
  }

  /** Every generation before the current one left a resource row. */
  ghost predicate Lineage(resources: map<SandboxId, Resource>, id: AttemptId, a: Attempt) {
    forall g | 1 <= g < a.generation :: HasGeneration(resources, id, g)
  }

  ghost predicate DistinctSandboxes(attempts: map<AttemptId, Attempt>) {
    forall i, j | i in attempts && j in attempts && i != j :: attempts[i].sandbox != attempts[j].sandbox
  }

  ghost predicate AttemptsOk(db: Db) {
    forall id | id in db.attempts ::
      && AttemptShape(db.attempts[id])
      && Bound(db.resources, id, db.attempts[id])
      && Lineage(db.resources, id, db.attempts[id])
  }

  ghost predicate ResourcesOk(db: Db) {
    forall s | s in db.resources ::
      && ResourceShape(db.resources[s])
      && db.resources[s].attempt in db.attempts
      && Linked(db.attempts[db.resources[s].attempt], s, db.resources[s])
  }

  ghost predicate DistinctContainers(resources: map<SandboxId, Resource>) {
    forall s | s in resources :: ContainerUnused(resources, s, resources[s].container)
  }

  ghost predicate Core(db: Db) {
    AttemptsOk(db) && ResourcesOk(db) && DistinctSandboxes(db.attempts) && DistinctContainers(db.resources)
  }

  /** How far a generation of an attempt has come; an ending is the last stage. */
  ghost function Progress(s: State): nat {
    match s
    case Ready => 1
    case Running => 2
    case Resolved => 3
    case Stopping => 4
    case Failed => 4
    case Destroyed => 4
    case _ => 0
  }

  /** One attempt row may become another: identity and deadline stay, versions and
      intents only grow, a generation never goes back, a new sandbox comes with the next
      generation, and a destroyed row stays as it is. */
  ghost predicate AttemptGrows(resources: map<SandboxId, Resource>, a: Attempt, b: Attempt) {
    && b.user == a.user && b.room == a.room && b.createdAt == a.createdAt && b.expiresAt == a.expiresAt
    && a.version <= b.version && (a.version == b.version ==> a == b)
    && a.epoch <= b.epoch && a.generation <= b.generation
    && (a.generation == b.generation ==>
          a.sandbox == b.sandbox && a.runtimeId == b.runtimeId && Progress(a.state) <= Progress(b.state))
    && (a.sandbox != b.sandbox ==> b.sandbox !in resources)
    && (a.destroy ==> b.destroy) && (a.expiry ==> b.expiry)
    && (a.generation == b.generation && (b.state.Provisioning? || b.state.Resetting?) ==> a == b)
    && (a.state == Destroyed ==> a == b)
  }

  ghost predicate ResourceGrows(r: Resource, s: Resource) {
    && s.attempt == r.attempt && s.generation == r.generation && s.runtimeId == r.runtimeId && s.expiresAt == r.expiresAt
    && r.version <= s.version && (r.version == s.version ==> r == s)
    && Stage(r.state) <= Stage(s.state)
    && (r.destroy ==> s.destroy) && (r.expiry ==> s.expiry)
    && (r.container.Some? ==> s.container == r.container)
    && (r.evidence.Some? ==> s.evidence.Some?)
    && (r.state == Destroyed ==> r == s)
  }

  ghost predicate AttemptsGrow(before: Db, after: Db) {
    forall id | id in before.attempts ::
      id in after.attempts && AttemptGrows(before.resources, before.attempts[id], after.attempts[id])
  }

  ghost predicate ResourcesGrow(before: Db, after: Db) {
    forall s | s in before.resources ::
      s in after.resources && ResourceGrows(before.resources[s], after.resources[s])
  }

  ghost predicate OperationGrows(k: OpKey, o: Operation, p: Operation) {
    && p.id == o.id && p.request == o.request && p.ref == o.ref
    && (k.actor != CleanupActor ==> p == o)
    && o.retryCount <= p.retryCount
    && (o.status == Succeeded ==> p == o)
  }

  ghost predicate LogGrows(before: Db, after: Db) {
    forall k | k in before.operations ::
      k in after.operations && OperationGrows(k, before.operations[k], after.operations[k])
  }

  ghost predicate RecordsKept(before: Db, after: Db) {
    && (forall j | j in before.uses :: j in after.uses && after.uses[j] == before.uses[j])
    && (forall l | l in before.leases :: l in after.leases && after.leases[l] == before.leases[l])
  }

  ghost predicate RowsGrow(before: Db, after: Db) {
    AttemptsGrow(before, after) && ResourcesGrow(before, after)
  }

  ghost predicate Grows(before: Db, after: Db) {
    RowsGrow(before, after) && LogGrows(before, after) && RecordsKept(before, after)
  }

  lemma RowsGrowTransitive(x: Db, y: Db, z: Db)
    requires RowsGrow(x, y) && RowsGrow(y, z)
    ensures RowsGrow(x, z)
  {
    assert forall s | s in x.resources :: s in y.resources;
    forall id | id in x.attempts
      ensures id in z.attempts && AttemptGrows(x.resources, x.attempts[id], z.attempts[id])
    {
      var a, b, c := x.attempts[id], y.attempts[id], z.attempts[id];
      assert AttemptGrows(x.resources, a, b) && AttemptGrows(y.resources, b, c);
    }
  }

  /** Changing one attempt row keeps the invariant. */
  lemma PutAttempt(db: Db, id: AttemptId, b: Attempt)
    requires Core(db) && AttemptShape(b) && Bound(db.resources, id, b) && Lineage(db.resources, id, b)
    requires SandboxUnused(db.attempts, id, b.sandbox)
    requires forall s | s in db.resources && db.resources[s].attempt == id :: Linked(b, s, db.resources[s])
    ensures Core(db.(attempts := db.attempts[id := b]))
  {
    hide Lineage, Bound, AttemptShape, Linked, ResourceShape, ContainerUnused;
  }

  lemma PutContainer(resources: map<SandboxId, Resource>, sandbox: SandboxId, r: Resource)
    requires DistinctContainers(resources) && ContainerUnused(resources, sandbox, r.container)
    ensures DistinctContainers(resources[sandbox := r])
  {
  }

  lemma GrownIsBound(resources: map<SandboxId, Resource>, sandbox: SandboxId, r: Resource, id: AttemptId, a: Attempt)
    requires Bound(resources, id, a) && sandbox in resources && ResourceGrows(resources[sandbox], r)
    ensures Bound(resources[sandbox := r], id, a)
  {
  }

  lemma LineageKept(resources: map<SandboxId, Resource>, s: SandboxId, r: Resource, id: AttemptId, a: Attempt)
    requires Lineage(resources, id, a)
    requires s in resources ==> r.attempt == resources[s].attempt && r.generation == resources[s].generation
    ensures Lineage(resources[s := r], id, a)
  {
    forall g {:trigger HasGeneration(resources[s := r], id, g)} | 1 <= g < a.generation
      ensures HasGeneration(resources[s := r], id, g)
    {
      assert HasGeneration(resources, id, g);
      var t :| t in resources && resources[t].attempt == id && resources[t].generation == g;
      assert t in resources[s := r];
    }
  }

  /** Changing one resource row, forwards, keeps the invariant. */
  lemma PutResource(db: Db, sandbox: SandboxId, r: Resource)
    requires Core(db) && sandbox in db.resources
    requires ResourceGrows(db.resources[sandbox], r) && ResourceShape(r)
    requires ContainerUnused(db.resources, sandbox, r.container)
    ensures Core(db.(resources := db.resources[sandbox := r]))
  {
    hide Bound, DistinctContainers, Lineage;
    var after := db.(resources := db.resources[sandbox := r]);
    PutContainer(db.resources, sandbox, r);
    forall id | id in after.attempts
      ensures Bound(after.resources, id, after.attempts[id]) && Lineage(after.resources, id, after.attempts[id])
    {
      GrownIsBound(db.resources, sandbox, r, id, db.attempts[id]);
      LineageKept(db.resources, sandbox, r, id, db.attempts[id]);
    }
    assert Linked(db.attempts[r.attempt], sandbox, db.resources[sandbox]);
  }
}
