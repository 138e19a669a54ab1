/** A version-checked step, and the acceptance of a sandbox, is logged under one key only. */
module OneKey {
  import opened Records
  import opened Common
  import opened Backend
  import opened ControlPlane
  import opened Runs
  import opened Invariant
  import opened Log
  import opened Ledger
  import opened Access
  import opened Reachable
  import opened Idempotence
  import opened Keys
  import opened Guarantees

  /** Two steps on one version of a row, two publications of one version of an attempt, or
      two acceptances of one sandbox. */
  predicate SameStep(x: Request, y: Request) {
    match x
    case TransitionRequest(ref, version, _) => y.TransitionRequest? && y.ref == ref && y.version == version
    case PublishRequest(_, ref, version) => y.PublishRequest? && y.ref == ref && y.version == version
    case AcceptRequest(ref) => y == x
    case _ => false
  }

  ghost predicate OneKeyEach(db: Db) {
    forall j, k | j in db.operations && k in db.operations && j.actor != CleanupActor && k.actor != CleanupActor
                  && SameStep(db.operations[j].request, db.operations[k].request) :: j == k
  }

  lemma AcceptedOnce(db: Db, k: OpKey, c: Call)
    requires LogOk(db) && k in db.operations && k.actor != CleanupActor && c.AcceptCall?
    requires db.operations[k].request == AcceptRequest(c.ref) && KeyOf(c) !in db.operations
    ensures !Answer(db, c).Done?
  {
    hide Finish;
    assert Witnessed(db, db.operations[k]);
  }

  /** A step that is logged is not done under another key. */
  lemma StepIsNotRepeated(db: Db, k: OpKey, c: Call)
    requires Inv(db) && k in db.operations && k.actor != CleanupActor
    requires HasReceipt(c) && SameStep(db.operations[k].request, RequestOf(c)) && KeyOf(c) !in db.operations
    ensures !Answer(db, c).Done?
  {
    hide Core, LogOk, LedgerOk, AccessOk, ResetsOk, Transition, Publish, Accept;
    match c
    case TransitionCall(service, ref, expected, m, key, now, batch) => LoggedTransitionIsTheOnlyOne(db, k, service, m, key, now, batch);
    case PublishCall(service, p, ref, expected, key, now, batch) => LoggedPublicationIsTheOnlyOne(db, k, service, p, key, now, batch);
    case AcceptCall(service, ref, key, now, batch) => AcceptedOnce(db, k, c);
    case _ =>
  }

  lemma UndoneLogsNothing(db: Db, c: Call)
    ensures !Apply(db, c).Done? ==> Step(db, c).operations == db.operations
  {
    hide Apply;
    CallFailsCleanly(db, c);
  }

  lemma ReceiptKeepsOneKey(before: Db, after: Db, k: OpKey, request: Request)
    requires OneKeyEach(before) && LogGrows(before, after) && LogsAtMost(before, k, request, after)
    requires k in before.operations || k !in after.operations
      || forall j | j in before.operations && j.actor != CleanupActor ::
           !SameStep(before.operations[j].request, request) && !SameStep(request, before.operations[j].request)
    ensures OneKeyEach(after)
  {
    hide SameStep;
  }

  lemma SameStepIsSymmetric(x: Request, y: Request)
    ensures SameStep(x, y) <==> SameStep(y, x)
  {
  }

  lemma CallKeepsOneKey(db: Db, c: Call)
    requires Inv(db) && FreshIds(db, c) && OneKeyEach(db)
    ensures OneKeyEach(Step(db, c))
  {
    hide Inv, FreshIds, Step, SameStep, RowsGrow, RecordsKept, LogsAtMost;
    CallKeepsInvariant(db, c);
    if !HasReceipt(c) {
      OtherCallsLogNoReceipt(db, c);
    } else {
      CallLogsItsOwnRequest(db, c);
      UndoneLogsNothing(db, c);
      StepDone(db, c);
      if KeyOf(c) !in db.operations && Answer(db, c).Done? {
        forall j | j in db.operations && j.actor != CleanupActor
          ensures !SameStep(db.operations[j].request, RequestOf(c)) && !SameStep(RequestOf(c), db.operations[j].request)
        {
          SameStepIsSymmetric(db.operations[j].request, RequestOf(c));
          if SameStep(db.operations[j].request, RequestOf(c)) {
            StepIsNotRepeated(db, j, c);
          }
        }
      }
      ReceiptKeepsOneKey(db, Step(db, c), KeyOf(c), RequestOf(c));
    }
  }

  lemma StepDone(db: Db, c: Call)
    requires HasReceipt(c)
    ensures Answer(db, c).Done? <==> Apply(db, c).Done?
  {
    hide Apply, Answer;
  }

  lemma {:induction false} RunKeepsOneKey(db: Db, run: seq<Call>)
    requires Inv(db) && Legal(db, run) && OneKeyEach(db)
    ensures OneKeyEach(Run(db, run))
    decreases |run|
  {
    hide Inv, Step, FreshIds, OneKeyEach, Grows;
    if run != [] {
      CallKeepsInvariant(db, run[0]);
      CallKeepsOneKey(db, run[0]);
      RunKeepsOneKey(Step(db, run[0]), run[1..]);
    }
  }

  /** In every reachable state, two receipts of one step are one receipt, under one key. */
  lemma ReachedStepsHaveOneKey(db: Db)
    requires IsReachable(db)
    ensures OneKeyEach(db)
  {
    hide Inv, FreshIds, Step;
    var run :| Legal(EMPTY, run) && Run(EMPTY, run) == db;
    EmptyIsGood();
    RunKeepsOneKey(EMPTY, run);
  }
}
