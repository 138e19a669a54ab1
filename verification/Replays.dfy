/** What a repeated call is answered with: exactly when it is the first receipt again. */
module Replays {
  import opened Records
  import opened Common
  import opened Backend
  import opened ControlPlane
  import opened Runs
  import opened Invariant
  import opened Preservation
  import opened Idempotence
  import opened BackendOutcomes
  import opened ControlOutcomes

  /** What is checked before the log is consulted: never the states that the first call changed. */
  ghost predicate MayReplay(db: Db, c: Call)
    requires HasReceipt(c)
  {
    match c
    case CreateCall(identity, room, _, _, _, _) => room in identity.rooms
    case LeaveCall(identity, ref, _, _, _) => OwnedIn(db, identity, ref.attempt) && IsPresent(db, ref)
    case BeginResetCall(identity, ref, _, _, _) => OwnedIn(db, identity, ref.attempt)
    case PublishCall(_, p, ref, _, _, now, _) =>
      IsPresent(db, ref) && (ChecksLiveness(p) ==> !IsOver(db.attempts[ref.attempt], now))
    case CompleteCall(_, ref, _, _, _) => IsPresentOrActive(db, ref)
    case AcceptCall(_, ref, _, now, _) => IsPresent(db, ref) && !IsOver(db.attempts[ref.attempt], now)
    case TransitionCall(_, ref, _, m, _, now, _) =>
      && IsStepRequest(m) && IsPresentOrActive(db, ref) && HasRow(db, ref)
      && (IsTeardown(db.resources[ref.sandbox], m)
          || (IsPresent(db, ref) && !IsOver(db.attempts[ref.attempt], now) && !db.resources[ref.sandbox].state.Ending()))
    case CleanupFailedCall(_, ref, _, _, _, error, _, _, _) =>
      (error == RuntimeUnavailable || error == CleanupIncomplete) && IsPresentOrActive(db, ref) && HasRow(db, ref)
  }

  /** The first receipt again for the same request, and a conflict for another one. */
  ghost predicate IsReplay(db: Db, k: OpKey, request: Request, o: Outcome<Receipt>)
    requires k in db.operations
  {
    o == if db.operations[k].request == request then Done(db, ReceiptOf(db.operations[k])) else Refused(IdempotencyConflict)
  }

  lemma UserReplays(db: Db, c: Call)
    requires Core(db) && (c.CreateCall? || c.LeaveCall? || c.BeginResetCall?) && KeyOf(c) in db.operations
    ensures if MayReplay(db, c) then IsReplay(db, KeyOf(c), RequestOf(c), Answer(db, c)) else !Answer(db, c).Done?
  {
    hide Core, StopAttempt, Finish;
  }

  lemma PublishReplays(db: Db, c: Call)
    requires Core(db) && c.PublishCall? && KeyOf(c) in db.operations
    ensures if MayReplay(db, c) then IsReplay(db, KeyOf(c), RequestOf(c), Answer(db, c)) else !Answer(db, c).Done?
  {
    hide Core, StopAttempt, ApplyPublication, IsReplay;
    if IsPresent(db, c.ref) {
      AttemptIsShaped(db, c.ref.attempt);
      DenialNeverDone<()>(db, c.ref.attempt, c.now);
    }
    ReplayIsReplay(db, KeyOf(c), RequestOf(c));
  }

  lemma ReplayIsReplay(db: Db, k: OpKey, request: Request)
    requires k in db.operations
    ensures var previous := Replay(db, k, request);
      if previous.Reject? then IsReplay(db, k, request, Refused(previous.code))
      else previous.value.Some? && IsReplay(db, k, request, Done(db, previous.value.value))
  {
  }

  lemma ServiceReplays(db: Db, c: Call)
    requires Core(db) && (c.CompleteCall? || c.AcceptCall? || c.CleanupFailedCall?) && KeyOf(c) in db.operations
    ensures if MayReplay(db, c) then IsReplay(db, KeyOf(c), RequestOf(c), Answer(db, c)) else !Answer(db, c).Done?
  {
    hide Core, StopAttempt, Finish, AllDestroyed, Dead, IsOver, OldDestroyed, CleanlyDestroyed;
    if c.AcceptCall? && IsPresent(db, c.ref) {
      DeadIsOver(db, c.ref.attempt, c.now);
    }
  }

  lemma StepReplays(db: Db, c: Call)
    requires Core(db) && c.TransitionCall? && KeyOf(c) in db.operations
    ensures if MayReplay(db, c) then IsReplay(db, KeyOf(c), RequestOf(c), Answer(db, c)) else !Answer(db, c).Done?
  {
    hide Core, RequireLive, ApplyMove, StopIsCommitted, IsOver, IsReplay;
    ReplayIsReplay(db, KeyOf(c), RequestOf(c));
    if IsPresentOrActive(db, c.ref) && HasRow(db, c.ref) {
      ResourceIsShaped(db, c.ref.sandbox);
      AttemptIsShaped(db, c.ref.attempt);
      if IsPresent(db, c.ref) {
        RequireLiveOutcome(db, c.ref, c.now);
        ExpiredIsOver(db, c.ref.attempt, c.now);
      }
    }
  }

  lemma ExpiredIsOver(db: Db, id: AttemptId, now: int)
    requires Core(db) && id in db.attempts
    ensures now >= db.attempts[id].expiresAt || db.attempts[id].expiry ==> IsOver(db.attempts[id], now)
  {
    hide Core;
    AttemptIsShaped(db, id);
  }

  /** A call whose key is logged is answered with the first receipt again, and changes nothing,
      exactly if it may be repeated and its request is the same. */
  lemma LoggedCallReplays(db: Db, c: Call)
    requires Core(db) && HasReceipt(c) && KeyOf(c) in db.operations
    ensures if MayReplay(db, c) then IsReplay(db, KeyOf(c), RequestOf(c), Answer(db, c)) else !Answer(db, c).Done?
  {
    hide Core, Answer, MayReplay, IsReplay;
    if c.CreateCall? || c.LeaveCall? || c.BeginResetCall? {
      UserReplays(db, c);
    } else if c.PublishCall? {
      PublishReplays(db, c);
    } else if c.TransitionCall? {
      StepReplays(db, c);
    } else {
      ServiceReplays(db, c);
    }
  }
}
