/** Programs that make several store calls, with everything that may happen between
    them: calls of other clients, a busy database, any clock and any runtime answer. */
module Worlds {
  import opened Records
  import opened ControlPlane
  import opened Runs
  import opened Invariant
  import opened Log
  import opened Ledger
  import opened Access
  import opened Reachable
  import opened Idempotence
  import opened Keys

  /** What a program asks of the container runtime. */
  datatype Question =
    | DestroyQuestion(task: Task, row: Resource)
    | OpenQuestion(ref: Ref)
    | CreateQuestion(ref: Ref, row: Resource)
    | StartQuestion(ref: Ref, container: ContainerId)
    | BootstrapQuestion(ref: Ref, container: ContainerId)
    | CloseQuestion(ref: Ref)
    | VerifyQuestion(ref: Ref, container: ContainerId)
  {
    /** The tuple asked about. */
    function ObservedRef(): Ref {
      if DestroyQuestion? then task.ref else ref
    }
  }

  datatype Response = Evidence(digest: Digest) | Created(container: ContainerId) | Fault(error: ErrorCode)

  /** Surroundings of one access: calls other clients make before it, whether the store
      refuses it as busy, the clock, fresh identifiers, and the runtime's answer. */
  datatype Slice = Slice(others: seq<Call>, busy: bool, now: int, ids: Fresh, answer: Response)

  type Schedule = nat -> Slice

  datatype Event =
    | Committed(call: Call)
    | Rejected(call: Call, code: Code)
    | Asked(question: Question, answer: Response)

  /** A store, the number of accesses so far, whether all identifiers drawn so far were
      fresh and all derived keys honest, and what the program did. */
  datatype World = World(db: Db, tick: nat, legal: bool, trace: seq<Event>)

  predicate Proper(db: Db, run: seq<Call>) {
    Legal(db, run) && forall i | 0 <= i < |run| :: Honest(run[i])
  }

  /** Other clients are served first. */
  function Serve(w: World, schedule: Schedule): World {
    var slice := schedule(w.tick);
    w.(db := Run(w.db, slice.others), tick := w.tick + 1, legal := w.legal && Proper(w.db, slice.others))
  }

  /** One call with a receipt. */
  function Transact(w: World, schedule: Schedule, c: Call): (World, Verdict<Receipt>)
    requires HasReceipt(c)
  {
    var served := Serve(w, schedule);
    if schedule(w.tick).busy then (served, Reject(StoreBusy))
    else
      var o := Answer(served.db, c);
      var after := served.(db := o.After(served.db), legal := served.legal && FreshIds(served.db, c) && Honest(c));
      if o.Done? then (after.(trace := after.trace + [Committed(c)]), Allow(o.value))
      else (after.(trace := after.trace + [Rejected(c, o.code)]), Reject(o.code))
  }

  /** Read a resource row through its binding. */
  function Look(w: World, schedule: Schedule, ref: Ref): (World, Verdict<Resource>) {
    var served := Serve(w, schedule);
    (served, if schedule(w.tick).busy then Reject(StoreBusy) else Inspect(served.db, ref))
  }

  function AskRuntime(w: World, schedule: Schedule, question: Question): (World, Response) {
    var served := Serve(w, schedule);
    var answer := schedule(w.tick).answer;
    (served.(trace := served.trace + [Asked(question, answer)]), answer)
  }

  ghost predicate Intact(db: Db) {
    Inv(db) && KeysOk(db)
  }

  /** As long as everything was legal, the store is sound and has only grown. */
  ghost predicate Leads(w: World, later: World) {
    && w.tick <= later.tick
    && (later.legal && w.legal && Intact(w.db) ==> Intact(later.db) && Grows(w.db, later.db))
    && (later.legal ==> w.legal)
  }

  lemma LeadsOn(x: World, y: World, z: World)
    requires Leads(x, y) && Leads(y, z)
    ensures Leads(x, z)
  {
    hide Intact, Grows;
    if z.legal && x.legal && Intact(x.db) {
      GrowsTransitive(x.db, y.db, z.db);
    }
  }

  lemma Stays(w: World)
    ensures Leads(w, w)
  {
    hide Intact, Grows;
    GrowsReflexive(w.db);
  }

  lemma {:induction false} ProperRunKeepsKeys(db: Db, run: seq<Call>)
    requires Intact(db) && Proper(db, run)
    ensures Intact(Run(db, run)) && Grows(db, Run(db, run))
    decreases |run|
  {
    hide Inv, KeysOk, Grows, Step, Honest;
    GrowsReflexive(db);
    if run != [] {
      CallKeepsIntact(db, run[0]);
      ProperRunKeepsKeys(Step(db, run[0]), run[1..]);
      GrowsTransitive(db, Step(db, run[0]), Run(db, run));
    }
  }

  /** Every state that proper calls can reach from a new store is intact. */
  lemma ProperRunsAreIntact(run: seq<Call>)
    requires Proper(EMPTY, run)
    ensures Intact(Run(EMPTY, run))
  {
    hide Inv, KeysOk, Grows, Honest;
    EmptyIsGood();
    assert KeysOk(EMPTY) by { EmptyHasNoKeys(); }
    ProperRunKeepsKeys(EMPTY, run);
  }

  lemma EmptyHasNoKeys()
    ensures KeysOk(EMPTY)
  {
  }

  lemma CallKeepsIntact(db: Db, c: Call)
    requires Intact(db) && FreshIds(db, c) && Honest(c)
    ensures Intact(Step(db, c)) && Grows(db, Step(db, c))
  {
    hide Core, LogOk, AccessOk, ResetsOk, LedgerOk, KeysOk, Step, Honest, RowsGrow, RecordsKept, LogGrows;
    CallKeepsInvariant(db, c);
    HonestCallKeepsKeys(db, c);
  }

  lemma ServeLeads(w: World, schedule: Schedule)
    ensures Leads(w, Serve(w, schedule))
  {
    hide Intact, Grows, Proper;
    if w.legal && Intact(w.db) && Proper(w.db, schedule(w.tick).others) {
      ProperRunKeepsKeys(w.db, schedule(w.tick).others);
    }
  }

  lemma TransactLeads(w: World, schedule: Schedule, c: Call)
    requires HasReceipt(c)
    ensures Leads(w, Transact(w, schedule, c).0)
  {
    hide Intact, Grows, Honest, Apply, Answer, Leads;
    ServeLeads(w, schedule);
    var served := Serve(w, schedule);
    CallLeads(served, c);
    var after := Transact(w, schedule, c).0;
    if !schedule(w.tick).busy {
      var stepped := served.(db := Step(served.db, c), legal := served.legal && FreshIds(served.db, c) && Honest(c));
      LeadsOn(w, served, stepped);
      TraceAside(w, stepped, after);
    }
  }

  lemma TraceAside(w: World, x: World, y: World)
    requires Leads(w, x) && y.db == x.db && y.tick == x.tick && y.legal == x.legal
    ensures Leads(w, y)
  {
    hide Intact, Grows;
  }

  lemma CallLeads(w: World, c: Call)
    ensures Leads(w, w.(db := Step(w.db, c), legal := w.legal && FreshIds(w.db, c) && Honest(c)))
  {
    hide Intact, Grows, Honest, Step;
    if w.legal && Intact(w.db) && FreshIds(w.db, c) && Honest(c) {
      CallKeepsIntact(w.db, c);
    }
  }

  lemma AskLeads(w: World, schedule: Schedule, question: Question)
    ensures Leads(w, AskRuntime(w, schedule, question).0)
  {
    hide Leads;
    ServeLeads(w, schedule);
    TraceAside(w, Serve(w, schedule), AskRuntime(w, schedule, question).0);
  }
}
