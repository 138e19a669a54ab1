/** What a provisioning has done when it reports success, and what it records when the
    runtime fails, whatever happened around it. */
module ProvisioningTraces {
  import opened Records
  import opened Common
  import opened ControlPlane
  import opened Runs
  import opened Idempotence
  import opened Worlds
  import opened Provisioning

  // ----- single events -----

  lemma TransactTrace(w: World, schedule: Schedule, c: Call)
    requires HasReceipt(c)
    ensures var (later, reply) := Transact(w, schedule, c);
      reply.Allow? ==> later.trace == w.trace + [Committed(c)]
  {
    hide Answer, Proper, FreshIds;
  }

  lemma AskTrace(w: World, schedule: Schedule, question: Question)
    ensures var (later, answer) := AskRuntime(w, schedule, question);
      later.trace == w.trace + [Asked(question, answer)]
  {
    hide Proper;
  }

  lemma ServeTrace(w: World, schedule: Schedule)
    ensures Serve(w, schedule).trace == w.trace
  {
    hide Proper;
  }

  /** A committed step under the key of its phase. */
  ghost predicate IsStepOf(e: Event, o: Orchestrator, ref: Ref, phase: Phase, m: Move) {
    && e.Committed? && e.call.TransitionCall? && e.call.service == o.control && e.call.ref == ref && e.call.move == m
    && e.call.key == PhaseKey(o.root, phase, ref, e.call.expected)
  }

  ghost predicate IsAcceptance(e: Event, o: Orchestrator, receipt: Receipt) {
    && e.Committed? && e.call.AcceptCall? && e.call.service == o.backend && e.call.ref == receipt.ref
    && e.call.key == PhaseKey(o.root, AcceptPhase, receipt.ref, receipt.version)
  }

  ghost predicate IsPublicationOf(e: Event, o: Orchestrator, receipt: Receipt, phase: Phase, p: Publication) {
    && e.Committed? && e.call.PublishCall? && e.call.service == o.backend && e.call.publication == p && e.call.ref == receipt.ref
    && e.call.expected == receipt.version && e.call.key == PhaseKey(o.root, phase, receipt.ref, receipt.version)
  }

  ghost predicate IsReadiness(e: Event, o: Orchestrator, receipt: Receipt) {
    IsPublicationOf(e, o, receipt, PublishPhase, if receipt.state == Provisioning then PublishReady else PublishResetReady)
  }

  ghost predicate Answers(e: Event, question: Question, answer: Response) {
    e == Asked(question, answer)
  }

  lemma StepTrace(w: World, schedule: Schedule, o: Orchestrator, phase: Phase, ref: Ref, version: nat, m: Move) returns (e: Event)
    ensures var (later, row) := StepAndLook(w, schedule, o, phase, ref, version, m);
      row.Allow? ==> later.trace == w.trace + [e] && IsStepOf(e, o, ref, phase, m) && e.call.expected == version
  {
    hide Transact, Serve, Inspect;
    var c := MoveCall(o, phase, ref, version, m, schedule(w.tick));
    e := Committed(c);
    TransactTrace(w, schedule, c);
    ServeTrace(Transact(w, schedule, c).0, schedule);
  }

  lemma ReadinessTrace(w: World, schedule: Schedule, o: Orchestrator, receipt: Receipt) returns (e: Event)
    ensures var (later, ending) := PublishReadiness(w, schedule, o, receipt);
      && !ending.RuntimeFailed?
      && (ending.Published? ==> later.trace == w.trace + [e] && IsReadiness(e, o, receipt))
  {
    hide Transact;
    var p := if receipt.state == Provisioning then PublishReady else PublishResetReady;
    var c := PublicationCall(o, PublishPhase, p, receipt, schedule(w.tick));
    e := Committed(c);
    TransactTrace(w, schedule, c);
  }

  // ----- failures -----

  /** The code on record for what the runtime answered to a question: its unavailability, or
      what failed. */
  ghost function CodeOf(question: Question, answer: Response): ErrorCode {
    if answer == Fault(RuntimeUnavailable) then RuntimeUnavailable
    else if question.StartQuestion? || question.BootstrapQuestion? then StartFailed
    else CreateFailed
  }

  /** The events end with a question that was not answered well, the step to FAILED with its
      code, and, for a reset, the publication of its failure. */
  ghost predicate EndsInFailure(events: seq<Event>, o: Orchestrator, receipt: Receipt, code: ErrorCode) {
    var n := |events| - (if receipt.state == Resetting then 1 else 0);
    && n >= 2
    && events[n - 2].Asked? && IsBadAnswer(events[n - 2].question, events[n - 2].answer)
    && code == CodeOf(events[n - 2].question, events[n - 2].answer)
    && IsStepOf(events[n - 1], o, receipt.ref, FailedPhase(events[n - 2].question), Move(State.Failed, None, None, Some(code)))
    && (receipt.state == Resetting ==> IsPublicationOf(events[n], o, receipt, ResetFailedPhase, FailReset))
  }

  ghost predicate IsBadAnswer(question: Question, answer: Response) {
    match question
    case CreateQuestion(_, _) => !answer.Created?
    case StartQuestion(_, _) => !answer.Evidence?
    case BootstrapQuestion(_, _) => !answer.Evidence?
    case _ => answer.Fault?
  }

  ghost function FailedPhase(question: Question): Phase {
    if question.StartQuestion? then StartFailedPhase
    else if question.BootstrapQuestion? then BootstrapFailedPhase else CreateFailedPhase
  }

  lemma FailTrace(w: World, schedule: Schedule, o: Orchestrator, receipt: Receipt, row: Resource, phase: Phase, question: Question,
                  answer: Response) returns (more: seq<Event>)
    requires IsBadAnswer(question, answer) && (answer.Fault? || !question.OpenQuestion?)
    requires phase == FailedPhase(question)
    ensures var (later, ending) := Fail(w, schedule, o, receipt, row, phase, ErrorOf(answer));
      && !ending.Published?
      && (ending.RuntimeFailed? ==>
            && later.trace == w.trace + more && |more| == (if receipt.state == Resetting then 2 else 1)
            && EndsInFailure([Asked(question, answer)] + more, o, receipt, ending.error))
  {
    hide Transact;
    var code := FailureCode(ErrorOf(answer), phase);
    var c := MoveCall(o, phase, receipt.ref, row.version, Move(State.Failed, None, None, Some(code)), schedule(w.tick));
    TransactTrace(w, schedule, c);
    var failed := Transact(w, schedule, c).0;
    var d := PublicationCall(o, ResetFailedPhase, FailReset, receipt, schedule(failed.tick));
    TransactTrace(failed, schedule, d);
    more := if receipt.state == Resetting then [Committed(c), Committed(d)] else [Committed(c)];
    assert (w.trace + [Committed(c)]) + [Committed(d)] == w.trace + [Committed(c), Committed(d)];
    var (ended, reply) := Transact(failed, schedule, d);
    assert reply.Allow? ==> ended.trace == failed.trace + [Committed(d)];
  }

  lemma FailureAfterMore(events: seq<Event>, tail: seq<Event>, o: Orchestrator, receipt: Receipt, code: ErrorCode)
    requires EndsInFailure(tail, o, receipt, code)
    ensures EndsInFailure(events + tail, o, receipt, code)
  {
  }

  /** What a program did from w on, as its ending tells. */
  ghost predicate Tells(w: World, later: World, ending: Ending, more: seq<Event>, o: Orchestrator, receipt: Receipt) {
    && (ending.Published? || ending.RuntimeFailed? ==> later.trace == w.trace + more)
    && (ending.RuntimeFailed? ==> EndsInFailure(more, o, receipt, ending.error))
  }

  lemma TellsMore(w: World, mid: World, some: seq<Event>, later: World, ending: Ending, more: seq<Event>, o: Orchestrator, receipt: Receipt)
    requires mid.trace == w.trace + some && Tells(mid, later, ending, more, o, receipt)
    ensures Tells(w, later, ending, some + more, o, receipt)
  {
    hide EndsInFailure;
    assert w.trace + some + more == w.trace + (some + more);
    if ending.RuntimeFailed? {
      FailureAfterMore(some, more, o, receipt, ending.error);
    }
  }

  /** A question answered badly, and the failure recorded. */
  lemma AskedAndFailed(w: World, schedule: Schedule, o: Orchestrator, receipt: Receipt, row: Resource, phase: Phase, question: Question)
      returns (more: seq<Event>)
    requires var (asked, answer) := AskRuntime(w, schedule, question);
      IsBadAnswer(question, answer) && (answer.Fault? || !question.OpenQuestion?) && phase == FailedPhase(question)
    ensures var (asked, answer) := AskRuntime(w, schedule, question);
      var (later, ending) := Fail(asked, schedule, o, receipt, row, phase, ErrorOf(answer));
      !ending.Published? && Tells(w, later, ending, more, o, receipt)
  {
    hide Fail, AskRuntime, EndsInFailure;
    AskTrace(w, schedule, question);
    var (asked, answer) := AskRuntime(w, schedule, question);
    var tail := FailTrace(asked, schedule, o, receipt, row, phase, question, answer);
    more := [Asked(question, answer)] + tail;
    assert w.trace + [Asked(question, answer)] + tail == w.trace + more;
  }

  // ----- success -----

  /** The session was closed, and READY was committed with the evidence and published. */
  ghost predicate IsConclusion(more: seq<Event>, o: Orchestrator, receipt: Receipt, evidence: Digest) {
    && |more| == 3
    && more[0].Asked? && more[0].question == CloseQuestion(receipt.ref) && !more[0].answer.Fault?
    && IsStepOf(more[1], o, receipt.ref, ReadyPhase, Move(Ready, None, Some(evidence), None))
    && IsReadiness(more[2], o, receipt)
  }

  lemma ConcludeTrace(w: World, schedule: Schedule, o: Orchestrator, receipt: Receipt, row: Resource, evidence: Digest)
      returns (more: seq<Event>)
    ensures var (later, ending) := Conclude(w, schedule, o, receipt, row, evidence);
      Tells(w, later, ending, more, o, receipt) && (ending.Published? ==> IsConclusion(more, o, receipt, evidence))
  {
    hide AskRuntime, Fail, StepAndLook, PublishReadiness, EndsInFailure;
    var question := CloseQuestion(receipt.ref);
    var (closed, answer) := AskRuntime(w, schedule, question);
    AskTrace(w, schedule, question);
    if answer.Fault? {
      more := AskedAndFailed(w, schedule, o, receipt, row, CreateFailedPhase, question);
    } else {
      var m := Move(Ready, None, Some(evidence), None);
      var step := StepTrace(closed, schedule, o, ReadyPhase, receipt.ref, row.version, m);
      var ready := StepAndLook(closed, schedule, o, ReadyPhase, receipt.ref, row.version, m).0;
      var publication := ReadinessTrace(ready, schedule, o, receipt);
      more := [Asked(question, answer), step, publication];
      assert w.trace + [Asked(question, answer)] + [step] + [publication] == w.trace + more;
    }
  }

  /** The container was started, and bootstrapped if the program does that; the evidence is the
      last observation. */
  ghost predicate IsStart(more: seq<Event>, o: Orchestrator, receipt: Receipt, container: ContainerId) {
    var n := if o.bootstraps then 2 else 1;
    && |more| >= n
    && more[0].Asked? && more[0].question == StartQuestion(receipt.ref, container) && more[0].answer.Evidence?
    && (o.bootstraps ==>
          more[1].Asked? && more[1].question == BootstrapQuestion(receipt.ref, container) && more[1].answer.Evidence?)
    && IsConclusion(more[n..], o, receipt, more[n - 1].answer.digest)
  }

  lemma StartTrace(w: World, schedule: Schedule, o: Orchestrator, receipt: Receipt, row: Resource, container: ContainerId)
      returns (more: seq<Event>)
    ensures var (later, ending) := Start(w, schedule, o, receipt, row, container);
      Tells(w, later, ending, more, o, receipt) && (ending.Published? ==> IsStart(more, o, receipt, container))
  {
    hide AskRuntime, Fail, Conclude, EndsInFailure, IsConclusion;
    var starting, booting := StartQuestion(receipt.ref, container), BootstrapQuestion(receipt.ref, container);
    var (started, answer) := AskRuntime(w, schedule, starting);
    AskTrace(w, schedule, starting);
    if !answer.Evidence? {
      more := AskedAndFailed(w, schedule, o, receipt, row, StartFailedPhase, starting);
    } else if !o.bootstraps {
      var tail := ConcludeTrace(started, schedule, o, receipt, row, answer.digest);
      more := [Asked(starting, answer)] + tail;
      var (later, ending) := Conclude(started, schedule, o, receipt, row, answer.digest);
      TellsMore(w, started, [Asked(starting, answer)], later, ending, tail, o, receipt);
      assert more[0] == Asked(starting, answer) && more[1..] == tail;
    } else {
      var (booted, observation) := AskRuntime(started, schedule, booting);
      AskTrace(started, schedule, booting);
      if !observation.Evidence? {
        var tail := AskedAndFailed(started, schedule, o, receipt, row, BootstrapFailedPhase, booting);
        more := [Asked(starting, answer)] + tail;
        var (later, ending) := Fail(booted, schedule, o, receipt, row, BootstrapFailedPhase, ErrorOf(observation));
        TellsMore(w, started, [Asked(starting, answer)], later, ending, tail, o, receipt);
      } else {
        var tail := ConcludeTrace(booted, schedule, o, receipt, row, observation.digest);
        var both := [Asked(starting, answer), Asked(booting, observation)];
        more := both + tail;
        var (later, ending) := Conclude(booted, schedule, o, receipt, row, observation.digest);
        assert booted.trace == w.trace + both;
        TellsMore(w, booted, both, later, ending, tail, o, receipt);
        assert more[0] == both[0] && more[1] == both[1] && more[2..] == tail;
      }
    }
  }

  /** A session, a container, the step that names it, and its start. */
  ghost predicate IsRuntimePart(more: seq<Event>, o: Orchestrator, receipt: Receipt, row: Resource) {
    && |more| >= 3
    && more[0].Asked? && more[0].question == OpenQuestion(receipt.ref) && !more[0].answer.Fault?
    && more[1].Asked? && more[1].question == CreateQuestion(receipt.ref, row) && more[1].answer.Created?
    && IsStepOf(more[2], o, receipt.ref, StartingPhase, Move(Starting, Some(more[1].answer.container), None, None))
    && IsStart(more[3..], o, receipt, more[1].answer.container)
  }

  lemma RuntimeTrace(w: World, schedule: Schedule, o: Orchestrator, receipt: Receipt, row: Resource) returns (more: seq<Event>)
    ensures var (later, ending) := RunRuntime(w, schedule, o, receipt, row);
      Tells(w, later, ending, more, o, receipt) && (ending.Published? ==> IsRuntimePart(more, o, receipt, row))
  {
    hide AskRuntime, Fail, StepAndLook, Start, EndsInFailure, IsStart;
    var opening, creation := OpenQuestion(receipt.ref), CreateQuestion(receipt.ref, row);
    var (begun, session) := AskRuntime(w, schedule, opening);
    AskTrace(w, schedule, opening);
    if session.Fault? {
      more := AskedAndFailed(w, schedule, o, receipt, row, CreateFailedPhase, opening);
    } else {
      var (created, answer) := AskRuntime(begun, schedule, creation);
      AskTrace(begun, schedule, creation);
      if !answer.Created? {
        var tail := AskedAndFailed(begun, schedule, o, receipt, row, CreateFailedPhase, creation);
        more := [Asked(opening, session)] + tail;
        var (later, ending) := Fail(created, schedule, o, receipt, row, CreateFailedPhase, ErrorOf(answer));
        TellsMore(w, begun, [Asked(opening, session)], later, ending, tail, o, receipt);
      } else {
        var m := Move(Starting, Some(answer.container), None, None);
        var step := StepTrace(created, schedule, o, StartingPhase, receipt.ref, row.version, m);
        var (starting, next) := StepAndLook(created, schedule, o, StartingPhase, receipt.ref, row.version, m);
        more := [];
        if next.Allow? {
          var tail := StartTrace(starting, schedule, o, receipt, next.value, answer.container);
          var three := [Asked(opening, session), Asked(creation, answer), step];
          more := three + tail;
          var (later, ending) := Start(starting, schedule, o, receipt, next.value, answer.container);
          assert starting.trace == w.trace + three;
          TellsMore(w, starting, three, later, ending, tail, o, receipt);
          assert more[3..] == tail;
        }
      }
    }
  }

  /** The acceptance, and then: the publication of a sandbox that was READY already; or CREATING
      and the whole runtime part. */
  ghost predicate IsProvisioning(more: seq<Event>, o: Orchestrator, receipt: Receipt) {
    && |more| >= 2 && IsAcceptance(more[0], o, receipt)
    && if |more| == 2 then IsReadiness(more[1], o, receipt)
       else
         && IsStepOf(more[1], o, receipt.ref, CreatingPhase, Move(Creating, None, None, None))
         && exists row :: IsRuntimePart(more[2..], o, receipt, row)
  }

  /** Whatever happens around it: a provisioning that reports success has done exactly these
      things in this order; one that reports a failure of the runtime has recorded it, as its
      last act, with the code of what went wrong. */
  lemma ProvisionTells(w: World, schedule: Schedule, o: Orchestrator, receipt: Receipt) returns (more: seq<Event>)
    ensures var (later, ending) := Provision(w, schedule, o, receipt);
      && (ending.Published? ==> later.trace == w.trace + more && IsProvisioning(more, o, receipt))
      && (ending.RuntimeFailed? ==> later.trace == w.trace + more && EndsInFailure(more, o, receipt, ending.error))
  {
    hide Transact, Serve, Inspect, Binding, StepAndLook, RunRuntime, PublishReadiness, EndsInFailure, IsRuntimePart;
    more := [];
    var c := AcceptingCall(o, receipt, schedule(w.tick));
    TransactTrace(w, schedule, c);
    var (accepted, reply) := Transact(w, schedule, c);
    var (looked, found) := Look(accepted, schedule, receipt.ref);
    ServeTrace(accepted, schedule);
    if reply.Allow? && found.Allow? {
      if found.value.state == Ready {
        var publication := ReadinessTrace(looked, schedule, o, receipt);
        more := [Committed(c), publication];
        assert w.trace + [Committed(c)] + [publication] == w.trace + more;
      } else {
        var roomed := Serve(looked, schedule);
        ServeTrace(looked, schedule);
        var m := Move(Creating, None, None, None);
        var step := StepTrace(roomed, schedule, o, CreatingPhase, receipt.ref, reply.value.version, m);
        var (creating, row) := StepAndLook(roomed, schedule, o, CreatingPhase, receipt.ref, reply.value.version, m);
        if row.Allow? {
          var tail := RuntimeTrace(creating, schedule, o, receipt, row.value);
          var two := [Committed(c), step];
          more := two + tail;
          if found.value.state == Requested && RoomForBinding(looked, schedule, receipt.ref).1 == Guard.Pass {
            var (later, ending) := RunRuntime(creating, schedule, o, receipt, row.value);
            assert creating.trace == w.trace + two;
            TellsMore(w, creating, two, later, ending, tail, o, receipt);
            assert more[2..] == tail;
            LongEnough(tail, o, receipt, row.value);
          }
        }
      }
    }
  }

  lemma LongEnough(more: seq<Event>, o: Orchestrator, receipt: Receipt, row: Resource)
    ensures IsRuntimePart(more, o, receipt, row) ==> |more| >= 3
  {
  }
}
