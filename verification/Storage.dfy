/** The database as an object: its tables are fields, its statements and transactions are
    methods. Each method is proved against the function that specifies it. */
module Storage {
  import opened Records
  import S = Schema
  import Common

  datatype Reply<+T> = Answered(value: T) | Error(code: Code)

  /** What the caller of a store method sees of an outcome. */
  function ReplyOf<T>(o: Outcome<T>): Reply<T> {
    if o.Done? then Answered(o.value) else Error(o.code)
  }

  /** A statement's outcome, as told by its success flag and the state it left. */
  ghost predicate Ran(before: Db, o: Outcome<()>, ok: bool, after: Db) {
    if ok then o == Done(after, ()) else o == Refused(StoreFailure) && after == before
  }

  class Database {
    var attempts: map<AttemptId, Attempt>
    var resources: map<SandboxId, Resource>
    var operations: map<OpKey, Operation>
    var uses: map<JtiHash, Use>
    var leases: map<LeaseId, Lease>

    constructor ()
      ensures View() == EMPTY
    {
      attempts, resources, operations, uses, leases := map[], map[], map[], map[], map[];
    }

    function View(): Db
      reads this
    {
      Db(attempts, resources, operations, uses, leases)
    }

    /** ROLLBACK */
    method Restore(saved: Db)
      modifies this
      ensures View() == saved
    {
      attempts, resources, operations, uses, leases :=
        saved.attempts, saved.resources, saved.operations, saved.uses, saved.leases;
    }

    method InsertAttempt(id: AttemptId, a: Attempt) returns (ok: bool)
      modifies this`attempts
      ensures Ran(old(View()), S.InsertAttempt(old(View()), id, a), ok, View())
    {
      ok := id !in attempts && S.AttemptCheck(a) && S.SandboxUnused(attempts, id, a.sandbox);
      if ok {
        attempts := attempts[id := a];
      }
    }

    method UpdateAttempt(id: AttemptId, a: Attempt) returns (ok: bool)
      requires id in attempts
      modifies this`attempts
      ensures Ran(old(View()), S.UpdateAttempt(old(View()), id, a), ok, View())
    {
      ok := !S.AttemptTrigger(attempts[id], a) && S.AttemptCheck(a) && S.SandboxUnused(attempts, id, a.sandbox);
      if ok {
        attempts := attempts[id := a];
      }
    }

    method InsertResource(sandbox: SandboxId, r: Resource) returns (ok: bool)
      modifies this`resources
      ensures Ran(old(View()), S.InsertResource(old(View()), sandbox, r), ok, View())
    {
      ok := sandbox !in resources && S.ResourceCheck(r) && r.attempt in attempts
        && S.ContainerUnused(resources, sandbox, r.container);
      if ok {
        resources := resources[sandbox := r];
      }
    }

    method UpdateResource(sandbox: SandboxId, r: Resource) returns (ok: bool)
      requires sandbox in resources
      modifies this`resources
      ensures Ran(old(View()), S.UpdateResource(old(View()), sandbox, r), ok, View())
    {
      ok := !S.ResourceTrigger(resources[sandbox], r) && S.ResourceCheck(r)
        && S.ContainerUnused(resources, sandbox, r.container);
      if ok {
        resources := resources[sandbox := r];
      }
    }

    method InsertOperation(k: OpKey, op: Operation) returns (ok: bool)
      modifies this`operations
      ensures Ran(old(View()), S.InsertOperation(old(View()), k, op), ok, View())
    {
      ok := k !in operations && S.OperationUnused(operations, op.id) && op.ref.attempt in attempts;
      if ok {
        operations := operations[k := op];
      }
    }

    method UpdateOperation(k: OpKey, op: Operation)
      requires k in operations && op.id == operations[k].id && op.ref == operations[k].ref
      modifies this`operations
      ensures Ran(old(View()), S.UpdateOperation(old(View()), k, op), true, View())
    {
      operations := operations[k := op];
    }

    method InsertUse(jti: JtiHash, use: Use) returns (ok: bool)
      modifies this`uses
      ensures Ran(old(View()), S.InsertUse(old(View()), jti, use), ok, View())
    {
      ok := jti !in uses && use.attempt in attempts && use.expiresAt > use.consumedAt;
      if ok {
        uses := uses[jti := use];
      }
    }

    method InsertLease(lease: LeaseId, row: Lease) returns (ok: bool)
      modifies this`leases
      ensures Ran(old(View()), S.InsertLease(old(View()), lease, row), ok, View())
    {
      ok := lease !in leases && row.jti in uses && row.ref.attempt in attempts
        && row.ref.sandbox in resources && row.ref.generation > 0
        && row.expiresAt > row.issuedAt && row.issuedAt <= row.consumedAt <= row.expiresAt
        && S.LeaseUnused(leases, row);
      if ok {
        leases := leases[lease := row];
      }
    }

    /** Append a receipt; if the log refuses it, roll the transaction back. */
    method Finish(k: OpKey, id: OperationId, request: Request, ref: Ref, state: State, version: nat, error: Option<ErrorCode>,
                  saved: Db) returns (reply: Reply<Receipt>)
      modifies this
      ensures var o := Common.Finish(old(View()), k, id, request, ref, state, version, error);
        View() == o.After(saved) && reply == ReplyOf(o)
    {
      var op := Common.Logged(id, request, ref, state, version, error);
      var ok := InsertOperation(k, op);
      if ok {
        reply := Answered(Common.ReceiptOf(op));
      } else {
        Restore(saved);
        reply := Error(StoreFailure);
      }
    }
  }
}
