/** BackendStore: every method is one transaction on the attempt rows. */
module BackendStorage {
  import opened Records
  import opened Common
  import opened Selection
  import opened Storage
  import B = Backend
  import Effects
  import opened Listings

  class BackendStore {
    const database: Database

    constructor (db: Database)
      ensures database == db
    {
      database := db;
    }

    /** Set the destroy intent of an attempt, and its expiry intent past the deadline. */
    method Stop(id: AttemptId, now: int) returns (ok: bool)
      requires id in database.attempts
      modifies database`attempts
      ensures Ran(old(database.View()), B.StopAttempt(old(database.View()), id, now), ok, database.View())
    {
      ok := true;
      var a := database.attempts[id];
      if a.state != Destroyed {
        var expired := now >= a.expiresAt;
        if !a.destroy || (expired && !a.expiry) {
          ok := database.UpdateAttempt(id, B.Stopped(a, expired));
        }
      }
    }

    /** The stop of an expired attempt is committed although the call is denied. */
    method DenyExpired(id: AttemptId, now: int) returns (code: Code)
      requires id in database.attempts
      modifies database
      ensures var o := B.DenyExpired<()>(old(database.View()), id, now);
        !o.Done? && database.View() == o.After(old(database.View())) && code == o.code
    {
      var saved := database.View();
      var ok := Stop(id, now);
      if ok {
        code := AttemptUnavailable;
      } else {
        database.Restore(saved);
        code := StoreFailure;
      }
    }

    method Live(id: AttemptId, now: int) returns (reply: Reply<()>)
      requires id in database.attempts
      modifies database
      ensures var o := B.Live(old(database.View()), id, now);
        database.View() == o.After(old(database.View())) && reply == ReplyOf(o)
    {
      var a := database.attempts[id];
      if now >= a.expiresAt {
        var code := DenyExpired(id, now);
        return Error(code);
      }
      if a.destroy || a.state.Ending() {
        return Error(AttemptUnavailable);
      }
      reply := Answered(());
    }

    method Create(identity: UserIdentity, room: RoomId, key: Key, deadline: int, now: int, ids: Fresh)
      returns (reply: Reply<Receipt>)
      modifies database
      ensures var o := B.Create(old(database.View()), identity, room, key, deadline, now, ids);
        database.View() == o.After(old(database.View())) && reply == ReplyOf(o)
    {
      var saved := database.View();
      var k, request := OpKey(UserActor(identity.id), key), CreateRequest(room, deadline);
      if room !in identity.rooms {
        return Error(NotAuthorized);
      }
      var previous := Replay(saved, k, request);
      if previous.Reject? {
        return Error(previous.code);
      }
      if previous.value.Some? {
        return Answered(previous.value.value);
      }
      if deadline <= now {
        return Error(InvalidRequest);
      }
      var ok := database.InsertAttempt(ids.attempt, B.NewAttempt(identity.id, room, now, deadline, ids));
      if !ok {
        return Error(StoreFailure);
      }
      reply := database.Finish(k, OperationId(ids.batch, 0), request, Ref(ids.attempt, ids.sandbox, 1), Provisioning, 0, None, saved);
    }

    method Leave(identity: UserIdentity, ref: Ref, key: Key, now: int, batch: nat) returns (reply: Reply<Receipt>)
      modifies database
      ensures var o := B.Leave(old(database.View()), identity, ref, key, now, batch);
        database.View() == o.After(old(database.View())) && reply == ReplyOf(o)
    {
      var saved := database.View();
      var row := Owned(saved, identity, ref.attempt);
      if row.Reject? {
        return Error(row.code);
      }
      var bound := Binding(saved, ref, false);
      if bound.Reject? {
        return Error(bound.code);
      }
      var k := OpKey(UserActor(identity.id), key);
      var previous := Replay(saved, k, LeaveRequest(ref));
      if previous.Reject? {
        return Error(previous.code);
      }
      if previous.value.Some? {
        return Answered(previous.value.value);
      }
      var ok := Stop(ref.attempt, now);
      if !ok {
        return Error(StoreFailure);
      }
      bound := Binding(database.View(), ref, false);
      if bound.Reject? {
        database.Restore(saved);
        return Error(bound.code);
      }
      reply := database.Finish(k, OperationId(batch, 0), LeaveRequest(ref), ref, bound.value.state, bound.value.version, None, saved);
    }

    method BeginReset(identity: UserIdentity, ref: Ref, key: Key, now: int, ids: Fresh) returns (reply: Reply<Receipt>)
      modifies database
      ensures var o := B.BeginReset(old(database.View()), identity, ref, key, now, ids);
        database.View() == o.After(old(database.View())) && reply == ReplyOf(o)
    {
      var saved := database.View();
      var row := Owned(saved, identity, ref.attempt);
      if row.Reject? {
        return Error(row.code);
      }
      var a := row.value;
      var k := OpKey(UserActor(identity.id), key);
      var previous := Replay(saved, k, BeginResetRequest(ref));
      if previous.Reject? {
        return Error(previous.code);
      }
      if previous.value.Some? {
        return Answered(previous.value.value);
      }
      var bound := Binding(saved, ref, false);
      if bound.Reject? {
        return Error(bound.code);
      }
      if now >= a.expiresAt {
        var code := DenyExpired(ref.attempt, now);
        return Error(code);
      }
      if !a.state.Open() || a.destroy || !IsActive(a, ref) {
        return Error(InvalidTransition);
      }
      var ok := database.UpdateAttempt(ref.attempt, B.Resetted(a, ids));
      if !ok {
        return Error(StoreFailure);
      }
      reply := database.Finish(k, OperationId(ids.batch, 0), BeginResetRequest(ref), Ref(ref.attempt, ids.sandbox, ref.generation + 1),
                               Resetting, a.version + 1, None, saved);
    }

    /** The five publications: ready, running, resolved, reset-ready and failed reset. */
    method Publish(service: ServiceId, p: Publication, ref: Ref, expected: nat, key: Key, now: int, batch: nat)
      returns (reply: Reply<Receipt>)
      modifies database
      ensures var o := B.Publish(old(database.View()), service, p, ref, expected, key, now, batch);
        database.View() == o.After(old(database.View())) && reply == ReplyOf(o)
    {
      hide B.StopAttempt, B.ApplyPublication;
      var saved := database.View();
      var bound := Binding(saved, ref, false);
      if bound.Reject? {
        return Error(bound.code);
      }
      var a := bound.value;
      var k, request := OpKey(BackendActor(service), key), PublishRequest(p, ref, expected);
      var endsReset := p.PublishResetReady? || p.FailReset?;
      if !endsReset {
        var live := Live(ref.attempt, now);
        if live.Error? {
          return Error(live.code);
        }
      }
      var previous := Replay(saved, k, request);
      if previous.Reject? {
        return Error(previous.code);
      }
      if previous.value.Some? {
        return Answered(previous.value.value);
      }
      if endsReset {
        if now >= a.expiresAt {
          var code := DenyExpired(ref.attempt, now);
          return Error(code);
        }
        if a.destroy {
          return Error(AttemptUnavailable);
        }
      }
      reply := ApplyPublication(a, k, p, ref, expected, batch);
    }

    method ApplyPublication(a: Attempt, k: OpKey, p: Publication, ref: Ref, expected: nat, batch: nat) returns (reply: Reply<Receipt>)
      requires ref.attempt in database.attempts
      modifies database
      ensures var o := B.ApplyPublication(old(database.View()), a, k, p, ref, expected, batch);
        database.View() == o.After(old(database.View())) && reply == ReplyOf(o)
    {
      hide B.MayPublish, B.Published;
      var saved := database.View();
      if a.version != expected {
        return Error(StaleVersion);
      }
      if !B.MayPublish(saved, a, p, ref) {
        return Error(InvalidTransition);
      }
      var ok := database.UpdateAttempt(ref.attempt, B.Published(a, p, ref));
      if !ok {
        return Error(StoreFailure);
      }
      reply := database.Finish(k, OperationId(batch, 0), PublishRequest(p, ref, expected), ref, B.PublicationState(p), expected + 1,
                               None, saved);
    }

    /** Stop every expired attempt, earliest deadline first, up to the limit. */
    method Expire(now: int, limit: int) returns (reply: Reply<seq<Ref>>)
      modifies database
      ensures var o := B.Expire(old(database.View()), now, limit);
        database.View() == o.After(old(database.View())) && reply == ReplyOf(o)
    {
      hide Select, B.StopAttempt;
      if !B.LimitOk(limit) {
        return Error(InvalidRequest);
      }
      var saved := database.View();
      var rows := Select(B.ExpiryRows(saved, now), limit);
      var i := 0;
      while i < |rows|
        invariant 0 <= i <= |rows|
        invariant B.RowsKnown(database.View(), rows[i..])
        invariant B.StopAll(saved, rows, now) == B.StopAll(database.View(), rows[i..], now)
      {
        assert rows[i..][0] == rows[i] && rows[i..][1..] == rows[i + 1..];
        Effects.StopAttemptKeys(database.View(), rows[i].attempt, now);
        var ok := Stop(rows[i].attempt, now);
        if !ok {
          database.Restore(saved);
          return Error(StoreFailure);
        }
        i := i + 1;
      }
      reply := Answered(B.RowRefs(saved, rows));
    }

    /** The current tuples of the attempts that await finalization: each once, earliest
        deadline first, and all of them unless the limit is reached. */
    method PendingFinalizations(limit: int) returns (reply: Verdict<seq<Ref>>)
      ensures reply == B.PendingFinalizations(database.View(), limit)
      ensures reply.Reject? <==> !(1 <= limit <= 1000)
      ensures reply.Allow? ==> FinalizationsListed(database.View(), limit, reply.value)
    {
      if !B.LimitOk(limit) {
        return Reject(InvalidRequest);
      }
      var db := database.View();
      var rows := Select(B.FinalizationRows(db), limit);
      FinalizationsAreListed(db, limit);
      reply := Allow(B.RowRefs(db, rows));
    }

    /** The receipts of the resets whose candidate awaits provisioning: each once, earliest
        deadline first, and all of them unless the limit is reached. */
    method PendingResetProvisioning(limit: int) returns (reply: Verdict<seq<Receipt>>)
      ensures reply == B.PendingResetProvisioning(database.View(), limit)
      ensures reply.Reject? <==> !(1 <= limit <= 1000)
      ensures reply.Allow? ==> ResetsListed(database.View(), limit, reply.value)
    {
      if !B.LimitOk(limit) {
        return Reject(InvalidRequest);
      }
      var db := database.View();
      var rows := Select(B.ResetRows(db), limit);
      ResetsAreListed(db, limit);
      reply := Allow(B.ResetReceipts(db, rows));
    }

    /** Finalize a destroyed sandbox; the attempt is destroyed with its last one. */
    method CompleteCleanup(service: ServiceId, ref: Ref, key: Key, now: int, batch: nat) returns (reply: Reply<Receipt>)
      modifies database
      ensures var o := B.Complete(old(database.View()), service, ref, key, now, batch);
        database.View() == o.After(old(database.View())) && reply == ReplyOf(o)
    {
      hide B.AllDestroyed, B.Finalized;
      var saved := database.View();
      var bound := Binding(saved, ref, true);
      if bound.Reject? {
        return Error(bound.code);
      }
      var k, request := OpKey(BackendActor(service), key), CompleteRequest(ref);
      var previous := Replay(saved, k, request);
      if previous.Reject? {
        return Error(previous.code);
      }
      if previous.value.Some? {
        return Answered(previous.value.value);
      }
      if !B.CleanlyDestroyed(saved, Some(ref.sandbox)) {
        return Error(CleanupUnverified);
      }
      if !IsCurrent(bound.value, ref) {
        if bound.value.state != Resetting || !bound.value.reset {
          return Error(InvalidTransition);
        }
        reply := database.Finish(k, OperationId(batch, 0), request, ref, Destroyed, saved.resources[ref.sandbox].version, None, saved);
      } else {
        if !B.AllDestroyed(saved, ref.attempt) {
          return Error(CleanupUnverified);
        }
        var ok := Stop(ref.attempt, now);
        if !ok {
          return Error(StoreFailure);
        }
        bound := Binding(database.View(), ref, false);
        if bound.Reject? {
          database.Restore(saved);
          return Error(bound.code);
        }
        var b := B.Finalized(bound.value);
        ok := database.UpdateAttempt(ref.attempt, b);
        if !ok {
          database.Restore(saved);
          return Error(StoreFailure);
        }
        reply := database.Finish(k, OperationId(batch, 0), request, ref, Destroyed, b.version, None, saved);
      }
    }

    /** Consume a terminal capability, once. */
    method Consume(claims: Claims, now: int) returns (reply: Reply<CapabilityUse>)
      modifies database
      ensures var o := B.Consume(old(database.View()), claims, now);
        database.View() == o.After(old(database.View())) && reply == ReplyOf(o)
    {
      hide B.StopAttempt;
      var saved := database.View();
      var bound := Binding(saved, claims.ref, false);
      if bound.Reject? {
        return Error(bound.code);
      }
      var a := bound.value;
      if a.user != claims.user {
        return Error(NotAuthorized);
      }
      var live := Live(claims.ref.attempt, now);
      if live.Error? {
        return Error(live.code);
      }
      if !a.state.Attachable() || a.activeSandbox != Some(claims.ref.sandbox) || a.epoch != claims.epoch
        || claims.expiresAt <= now || claims.expiresAt > a.expiresAt
      {
        return Error(CapabilityInvalid);
      }
      if !B.Attachable(saved, claims.ref.sandbox) {
        return Error(AttemptUnavailable);
      }
      if claims.jti in saved.uses {
        return Error(CapabilityReplay);
      }
      var ok := database.InsertUse(claims.jti, Use(claims.ref.attempt, now, claims.expiresAt));
      if !ok {
        return Error(StoreFailure);
      }
      reply := Answered(CapabilityUse(claims.jti, claims.ref, claims.epoch, claims.expiresAt));
    }
  }
}
