/** Slots bound the terminal connections and sessions of each sandbox generation. */
module Slots {
  import opened Records
  import opened ControlPlane

  // ----- the pool as a value -----

  datatype Holder = Holder(ref: Ref, released: bool)

  /** The counts the pool keeps, and every slot it ever handed out. */
  datatype Pool = Pool(limit: nat, held: map<Ref, nat>, holders: seq<Holder>)

  function HeldBy(held: map<Ref, nat>, ref: Ref): nat {
    if ref in held then held[ref] else 0
  }

  function Acquire(p: Pool, ref: Ref): Pool {
    if HeldBy(p.held, ref) >= p.limit then p
    else p.(held := p.held[ref := HeldBy(p.held, ref) + 1], holders := p.holders + [Holder(ref, false)])
  }

  function WithoutOne(held: map<Ref, nat>, ref: Ref): map<Ref, nat> {
    if HeldBy(held, ref) > 1 then held[ref := held[ref] - 1] else held - {ref}
  }

  function Release(p: Pool, i: nat): Pool
    requires i < |p.holders|
  {
    var h := p.holders[i];
    if h.released then p
    else p.(held := WithoutOne(p.held, h.ref), holders := p.holders[i := h.(released := true)])
  }

  /** The slots of a sandbox that were acquired and not yet released. */
  ghost function Outstanding(holders: seq<Holder>, ref: Ref): nat {
    if holders == [] then 0
    else (if holders[|holders| - 1] == Holder(ref, false) then 1 else 0) + Outstanding(holders[..|holders| - 1], ref)
  }

  /** Counts are exact, within the limit, and never kept at zero. */
  ghost predicate IsExact(p: Pool) {
    && (forall ref :: HeldBy(p.held, ref) == Outstanding(p.holders, ref))
    && (forall ref | ref in p.held :: 1 <= p.held[ref] <= p.limit)
  }

  lemma {:induction false} ReleasedOne(holders: seq<Holder>, i: nat, ref: Ref)
    requires i < |holders| && !holders[i].released
    ensures Outstanding(holders[i := holders[i].(released := true)], ref)
      == Outstanding(holders, ref) - (if holders[i].ref == ref then 1 else 0)
    decreases |holders|
  {
    var last := |holders| - 1;
    var after := holders[i := holders[i].(released := true)];
    if i < last {
      ReleasedOne(holders[..last], i, ref);
      assert after[..last] == holders[..last][i := holders[i].(released := true)];
    } else {
      assert after[..last] == holders[..last];
    }
  }

  lemma AcquireIsExact(p: Pool, ref: Ref)
    requires IsExact(p)
    ensures IsExact(Acquire(p, ref))
  {
    var q := Acquire(p, ref);
    if q != p {
      assert q.holders[..|q.holders| - 1] == p.holders;
      forall other
        ensures HeldBy(q.held, other) == Outstanding(q.holders, other)
      {
      }
    }
  }

  lemma ReleaseIsExact(p: Pool, i: nat)
    requires IsExact(p) && i < |p.holders|
    ensures IsExact(Release(p, i)) && Release(Release(p, i), i) == Release(p, i)
  {
    if !p.holders[i].released {
      var q := Release(p, i);
      forall other
        ensures HeldBy(q.held, other) == Outstanding(q.holders, other)
      {
        ReleasedOne(p.holders, i, other);
      }
    }
  }

  datatype Action = Acquiring(ref: Ref) | Releasing(index: nat)

  /** Any sequence of acquisitions and releases; a slot that was never handed out is ignored. */
  function Perform(p: Pool, actions: seq<Action>): Pool
    decreases |actions|
  {
    if actions == [] then p
    else
      var q := match actions[0]
               case Acquiring(ref) => Acquire(p, ref)
               case Releasing(i) => if i < |p.holders| then Release(p, i) else p;
      Perform(q, actions[1..])
  }

  /** Whatever the sequence, the count of each sandbox is exactly its unreleased slots, at
      most the limit, and kept only while it is not zero. */
  lemma {:induction false} CountsAreExact(p: Pool, actions: seq<Action>)
    requires IsExact(p)
    ensures IsExact(Perform(p, actions))
    decreases |actions|
  {
    if actions != [] {
      match actions[0]
      case Acquiring(ref) =>
        AcquireIsExact(p, ref);
        CountsAreExact(Acquire(p, ref), actions[1..]);
      case Releasing(i) =>
        if i < |p.holders| {
          ReleaseIsExact(p, i);
          CountsAreExact(Release(p, i), actions[1..]);
        } else {
          CountsAreExact(p, actions[1..]);
        }
    }
  }

  // ----- the objects -----

  class SandboxSlots {
    const limit: nat
    var held: map<Ref, nat>
    ghost var slots: seq<Slot>

    constructor (bound: nat)
      ensures limit == bound && Valid() && View() == Pool(bound, map[], []) && slots == []
    {
      limit, held, slots := bound, map[], [];
    }

    ghost function View(): Pool
      reads this, slots
    {
      Pool(limit, held, seq(|slots|, i requires 0 <= i < |slots| reads this, slots => Holder(slots[i].ref, slots[i].released)))
    }

    ghost predicate Valid()
      reads this, slots
    {
      && IsExact(View())
      && (forall i | 0 <= i < |slots| :: slots[i].pool == this)
      && (forall i, j | 0 <= i < j < |slots| :: slots[i] != slots[j])
    }

    /** A new slot, or none when the sandbox has reached the limit. */
    method Take(ref: Ref) returns (slot: Slot?)
      requires Valid()
      modifies this
      ensures Valid() && View() == Acquire(old(View()), ref)
      ensures slot == null <==> HeldBy(old(held), ref) >= limit
      ensures if slot == null then slots == old(slots) else slots == old(slots) + [slot] && fresh(slot)
      ensures slot != null ==> slot.pool == this && slot.ref == ref && !slot.released
    {
      var count := HeldBy(held, ref);
      if count >= limit {
        return null;
      }
      ghost var before := View();
      held := held[ref := count + 1];
      slot := new Slot(this, ref);
      slots := slots + [slot];
      AcquireIsExact(before, ref);
      assert View().holders == before.holders + [Holder(ref, false)];
    }
  }

  /** One counted holder; only its first release returns the slot. */
  class Slot {
    const pool: SandboxSlots
    const ref: Ref
    var released: bool

    constructor (owner: SandboxSlots, key: Ref)
      ensures pool == owner && ref == key && !released
    {
      pool, ref, released := owner, key, false;
    }

    method GiveBack(ghost i: nat)
      requires pool.Valid() && i < |pool.slots| && pool.slots[i] == this
      modifies this, pool
      ensures pool.Valid() && pool.slots == old(pool.slots) && released
      ensures pool.View() == Release(old(pool.View()), i)
    {
      ghost var before := pool.View();
      ReleaseIsExact(before, i);
      if released {
        return;
      }
      released := true;
      pool.held := WithoutOne(pool.held, ref);
      assert pool.View().holders == before.holders[i := Holder(ref, true)];
    }
  }

  /** A PTY session that owns a session slot. Closing it twice returns the slot once, also
      when closing the PTY fails. */
  class OwnedTerminalSession {
    const slot: Slot
    var closed: bool

    constructor (owned: Slot)
      ensures slot == owned && !closed
    {
      slot, closed := owned, false;
    }

    method Close(ptyFails: bool, ghost i: nat) returns (failed: bool)
      requires slot.pool.Valid() && i < |slot.pool.slots| && slot.pool.slots[i] == slot
      requires closed ==> slot.released
      modifies this, slot, slot.pool
      ensures slot.pool.Valid() && closed && slot.released && slot.pool.slots == old(slot.pool.slots)
      ensures slot.pool.View() == Release(old(slot.pool.View()), i)
      ensures failed == (ptyFails && !old(closed))
    {
      ghost var before := slot.pool.View();
      failed := false;
      if closed {
        assert before.holders[i].released;
        return;
      }
      closed := true;
      failed := ptyFails;
      slot.GiveBack(i);
    }
  }

  datatype AttachError = AttachmentDenied | LimitReached | PtyUnavailable

  /** The row that a live attachment needs. */
  predicate MayAttach(db: Db, ref: Ref, leaseExpires: int, now: int) {
    && now < leaseExpires
    && Inspect(db, ref).Allow?
    && var r := Inspect(db, ref).value;
    && now < r.expiresAt && r.state.Attachable() && !r.expiry && !r.destroy && r.container.Some?
  }

  class TerminalService {
    const connections: SandboxSlots
    const sessions: SandboxSlots

    constructor (connectionLimit: nat, sessionLimit: nat)
      ensures Valid() && connections.limit == connectionLimit && sessions.limit == sessionLimit
      ensures fresh(connections) && fresh(sessions)
    {
      connections := new SandboxSlots(connectionLimit);
      sessions := new SandboxSlots(sessionLimit);
    }

    ghost predicate Valid()
      reads connections, connections.slots, sessions, sessions.slots
    {
      connections != sessions && connections.Valid() && sessions.Valid()
    }

    /** Count one authorized connection. */
    method Admit(ref: Ref) returns (slot: Slot?)
      requires Valid()
      modifies connections
      ensures Valid() && connections.View() == Acquire(old(connections.View()), ref)
      ensures slot == null <==> HeldBy(old(connections.held), ref) >= connections.limit
      ensures sessions.View() == old(sessions.View())
    {
      slot := connections.Take(ref);
      assert forall i, j | 0 <= i < |connections.slots| && 0 <= j < |sessions.slots| :: connections.slots[i] != sessions.slots[j];
    }

    /** Open a shell in the container of a live row. A slot that was taken for a PTY that
        does not open is returned. */
    method Attach(db: Db, ref: Ref, leaseExpires: int, now: int, opens: bool)
      returns (session: OwnedTerminalSession?, error: AttachError)
      requires Valid()
      modifies sessions
      ensures Valid() && connections.View() == old(connections.View())
      ensures var full := HeldBy(old(sessions.held), ref) >= sessions.limit;
        && (session != null <==> MayAttach(db, ref, leaseExpires, now) && !full && opens)
        && (session == null ==>
              error == if !MayAttach(db, ref, leaseExpires, now) then AttachmentDenied else if full then LimitReached else PtyUnavailable)
      ensures session != null ==>
        && sessions.View() == Acquire(old(sessions.View()), ref)
        && fresh(session) && !session.closed && session.slot.ref == ref && !session.slot.released
        && sessions.slots == old(sessions.slots) + [session.slot]
      ensures session == null ==> sessions.held == old(sessions.held)
    {
      session, error := null, AttachmentDenied;
      if !MayAttach(db, ref, leaseExpires, now) {
        return;
      }
      var slot := sessions.Take(ref);
      assert forall i, j | 0 <= i < |connections.slots| && 0 <= j < |sessions.slots| :: connections.slots[i] != sessions.slots[j];
      if slot == null {
        error := LimitReached;
        return;
      }
      if !opens {
        slot.GiveBack(|sessions.slots| - 1);
        error := PtyUnavailable;
        return;
      }
      session := new OwnedTerminalSession(slot);
    }
  }
}
