/** The stores as shared objects: every access of a program comes after the calls that
    other clients make in the meantime. */
module Site {
  import opened Records
  import opened Storage
  import opened BackendStorage
  import opened ControlPlaneStorage
  import opened Runs
  import opened Idempotence
  import opened Keys
  import W = Worlds

  class Stores {
    const database: Database
    const backend: BackendStore
    const control: ControlPlaneStore
    const schedule: W.Schedule
    var tick: nat
    ghost var legal: bool
    ghost var trace: seq<W.Event>

    constructor (around: W.Schedule)
      ensures Valid() && schedule == around && Here() == W.World(EMPTY, 0, true, [])
      ensures fresh(database)
    {
      var db := new Database();
      database := db;
      backend := new BackendStore(db);
      control := new ControlPlaneStore(db);
      schedule := around;
      tick, legal, trace := 0, true, [];
    }

    ghost predicate Valid() {
      backend.database == database && control.database == database
    }

    ghost function Here(): W.World
      reads this, database
    {
      W.World(database.View(), tick, legal, trace)
    }

    /** One call of another client. */
    method Perform(c: Call)
      requires Valid()
      modifies database
      ensures Valid() && database.View() == Step(old(database.View()), c)
    {
      hide B.Create, B.Leave, B.BeginReset, B.Publish, B.Expire, B.Complete, B.Consume, C.Accept, C.Transition, C.GrantLease,
        C.Reconcile, C.CleanupFailed;
      match c
      case CreateCall(identity, room, key, deadline, now, ids) => var _ := backend.Create(identity, room, key, deadline, now, ids);
      case LeaveCall(identity, ref, key, now, batch) => var _ := backend.Leave(identity, ref, key, now, batch);
      case BeginResetCall(identity, ref, key, now, ids) => var _ := backend.BeginReset(identity, ref, key, now, ids);
      case PublishCall(service, p, ref, expected, key, now, batch) =>
        var _ := backend.Publish(service, p, ref, expected, key, now, batch);
      case ExpireCall(now, limit) => var _ := backend.Expire(now, limit);
      case CompleteCall(service, ref, key, now, batch) => var _ := backend.CompleteCleanup(service, ref, key, now, batch);
      case ConsumeCall(claims, now) => var _ := backend.Consume(claims, now);
      case AcceptCall(service, ref, key, now, batch) => var _ := control.Accept(service, ref, key, now, batch);
      case TransitionCall(service, ref, expected, m, key, now, batch) =>
        var _ := control.Transition(service, ref, expected, m, key, now, batch);
      case GrantCall(service, ref, consumed, session, duration, key, now, lease) =>
        var _ := control.GrantLease(service, ref, consumed, session, duration, key, now, lease);
      case ReconcileCall(now, limit, batch) => var _ := control.Reconcile(now, limit, batch);
      case CleanupFailedCall(service, ref, operation, expected, key, error, retryAt, now, batch) =>
        var _ := control.CleanupFailed(service, ref, operation, expected, key, error, retryAt, now, batch);
    }

    /** Let the other clients in. */
    method Serve()
      requires Valid()
      modifies this, database
      ensures Valid() && Here() == W.Serve(old(Here()), schedule)
    {
      hide Step, Legal, Honest;
      var others := schedule(tick).others;
      ghost var before := database.View();
      legal := legal && W.Proper(before, others);
      var i := 0;
      assert others[0..] == others;
      while i < |others|
        invariant 0 <= i <= |others|
        invariant Run(before, others) == Run(database.View(), others[i..])
        invariant tick == old(tick) && trace == old(trace) && legal == (old(legal) && W.Proper(before, others))
      {
        assert others[i..][1..] == others[i + 1..];
        Perform(others[i]);
        i := i + 1;
      }
      tick := tick + 1;
    }

    /** One call of the program itself, answered with a receipt. */
    method Transact(c: Call) returns (reply: Verdict<Receipt>)
      requires Valid() && HasReceipt(c)
      modifies this, database
      ensures Valid() && (Here(), reply) == W.Transact(old(Here()), schedule, c)
    {
      hide W.Serve, FreshIds, Honest, Apply;
      var busy := schedule(tick).busy;
      Serve();
      if busy {
        return Reject(StoreBusy);
      }
      ghost var served := database.View();
      legal := legal && FreshIds(served, c) && Honest(c);
      var answer := Answering(c);
      match answer
      case Answered(receipt) =>
        trace := trace + [W.Committed(c)];
        reply := Allow(receipt);
      case Error(code) =>
        trace := trace + [W.Rejected(c, code)];
        reply := Reject(code);
    }

    method Answering(c: Call) returns (reply: Reply<Receipt>)
      requires Valid() && HasReceipt(c)
      modifies database
      ensures Valid()
      ensures database.View() == Answer(old(database.View()), c).After(old(database.View()))
      ensures reply == ReplyOf(Answer(old(database.View()), c))
    {
      hide B.Create, B.Leave, B.BeginReset, B.Publish, B.Complete, C.Accept, C.Transition, C.CleanupFailed;
      match c
      case CreateCall(identity, room, key, deadline, now, ids) => reply := backend.Create(identity, room, key, deadline, now, ids);
      case LeaveCall(identity, ref, key, now, batch) => reply := backend.Leave(identity, ref, key, now, batch);
      case BeginResetCall(identity, ref, key, now, ids) => reply := backend.BeginReset(identity, ref, key, now, ids);
      case PublishCall(service, p, ref, expected, key, now, batch) =>
        reply := backend.Publish(service, p, ref, expected, key, now, batch);
      case CompleteCall(service, ref, key, now, batch) => reply := backend.CompleteCleanup(service, ref, key, now, batch);
      case AcceptCall(service, ref, key, now, batch) => reply := control.Accept(service, ref, key, now, batch);
      case TransitionCall(service, ref, expected, m, key, now, batch) =>
        reply := control.Transition(service, ref, expected, m, key, now, batch);
      case CleanupFailedCall(service, ref, operation, expected, key, error, retryAt, now, batch) =>
        reply := control.CleanupFailed(service, ref, operation, expected, key, error, retryAt, now, batch);
    }

    method Look(ref: Ref) returns (found: Verdict<Resource>)
      requires Valid()
      modifies this, database
      ensures Valid() && (Here(), found) == W.Look(old(Here()), schedule, ref)
    {
      hide W.Serve;
      var busy := schedule(tick).busy;
      Serve();
      if busy {
        return Reject(StoreBusy);
      }
      found := control.Inspect(ref);
    }

    method AskRuntime(question: W.Question) returns (answer: W.Response)
      requires Valid()
      modifies this, database
      ensures Valid() && (Here(), answer) == W.AskRuntime(old(Here()), schedule, question)
    {
      hide W.Serve;
      answer := schedule(tick).answer;
      Serve();
      trace := trace + [W.Asked(question, answer)];
    }
  }
}
