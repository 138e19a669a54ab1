/** PID 1 of a sandbox sleeps for a planned number of seconds and exits before the deadline.
    Times are microseconds on one trusted clock that never goes back. */
module Lifetime {
  import opened Records
  import opened Decimals
  import opened Preservation
  import opened Reachable

  const SECOND := 1_000_000
  const MARGIN := 10

  /** Sleep until the start margin before the deadline, never past the profile's limit. */
  function Planned(deadline: int, now: int, ttl: int): Option<nat> {
    var remaining := (deadline - now) / SECOND;
    var seconds := if remaining - MARGIN <= ttl - MARGIN then remaining - MARGIN else ttl - MARGIN;
    if seconds < 1 then None else Some(seconds)
  }

  /** The sleep that a container's command names, if it is one to ten digits without a
      leading zero and within the limit. */
  function Verified(command: string, ttl: int): Option<nat> {
    if 1 <= |command| <= 10 && AllDigits(command) && command[0] != '0' && ValueOf(command) <= ttl - MARGIN
    then Some(ValueOf(command)) else None
  }

  predicate Within(now: int, seconds: int, deadline: int) {
    now + seconds * SECOND <= deadline
  }

  /** The plan is the longest whole number of seconds that leaves the margin. */
  lemma PlanIsTight(deadline: int, now: int, ttl: int)
    ensures var p := Planned(deadline, now, ttl);
      && (p.Some? ==>
            && 1 <= p.value <= ttl - MARGIN && Within(now, p.value + MARGIN, deadline)
            && (p.value == ttl - MARGIN || !Within(now, p.value + 1 + MARGIN, deadline)))
      && (p.None? ==> ttl - MARGIN < 1 || !Within(now, 1 + MARGIN, deadline))
  {
  }

  /** A plan passes its later verification exactly when the limit or the time left keeps it
      within ten digits. */
  lemma PlanIsVerified(deadline: int, now: int, ttl: int)
    requires Planned(deadline, now, ttl).Some?
    ensures var seconds := Planned(deadline, now, ttl).value;
      Verified(Print(seconds), ttl) == Some(seconds)
      <==> ttl - MARGIN < 10_000_000_000 || deadline - now < (10_000_000_000 + MARGIN) * SECOND
  {
    var seconds := Planned(deadline, now, ttl).value;
    PlanIsShort(deadline, now, ttl);
    PrintReadsBack(seconds);
    assert Pow10(10) == 10_000_000_000 by {
      assert Pow10(5) == 100_000;
    }
    if seconds < 10_000_000_000 {
      PrintLength(seconds, 10);
    } else {
      ValueIsBounded(Print(seconds));
      if |Print(seconds)| <= 10 {
        PowGrows(|Print(seconds)|, 10);
      }
    }
  }

  lemma PlanIsShort(deadline: int, now: int, ttl: int)
    requires Planned(deadline, now, ttl).Some?
    ensures Planned(deadline, now, ttl).value < 10_000_000_000
      <==> ttl - MARGIN < 10_000_000_000 || deadline - now < (10_000_000_000 + MARGIN) * SECOND
  {
  }

  /** Whatever happens within the margin after planning does not refuse the start. */
  lemma MarginSuffices(deadline: int, planned: int, ttl: int, later: int)
    requires Planned(deadline, planned, ttl).Some? && later <= planned + MARGIN * SECOND
    ensures Within(later, Planned(deadline, planned, ttl).value, deadline)
  {
  }

  /** A container: the command of its PID 1, and when it was started. */
  datatype Container = Container(command: string, startedAt: Option<int>)

  /** What the daemon reports of a container. */
  datatype Status = IsCreated | IsRunning | HasExited

  datatype CreatedContainer = CreatedContainer(id: ContainerId, running: bool)

  /** The Docker daemon and the clock. Every access takes some time; a creation or a start may
      be obeyed although its response is lost, or not at all. */
  class Daemon {
    const delay: nat -> nat
    const obeys: nat -> bool
    const exits: nat -> bool
    const answers: nat -> bool
    var tick: nat
    var now: int
    var names: map<nat, ContainerId>
    var containers: map<ContainerId, Container>

    constructor (latency: nat -> nat, obedience: nat -> bool, exit: nat -> bool, response: nat -> bool, start: int)
      ensures Valid() && now == start && containers == map[]
    {
      delay, obeys, exits, answers := latency, obedience, exit, response;
      tick, now, names, containers := 0, start, map[], map[];
    }

    /** Names lead to containers, and none was started in the future. */
    ghost predicate Valid()
      reads this
    {
      && (forall name | name in names :: names[name] in containers)
      && (forall id | id in containers :: containers[id].startedAt.Some? ==> containers[id].startedAt.value <= now)
    }

    method Pass()
      requires Valid()
      modifies this
      ensures Valid() && now >= old(now) && names == old(names) && containers == old(containers)
    {
      now := now + delay(tick);
      tick := tick + 1;
    }

    /** Tells whether the creation was confirmed. */
    method Create(name: nat, id: ContainerId, command: string) returns (confirmed: bool)
      requires Valid() && name !in names && id !in containers
      modifies this
      ensures Valid() && now >= old(now)
      ensures var created := names == old(names)[name := id] && containers == old(containers)[id := Container(command, None)];
        created || (!confirmed && names == old(names) && containers == old(containers))
    {
      var obeyed := obeys(tick);
      confirmed := obeyed && answers(tick);
      Pass();
      if obeyed {
        names := names[name := id];
        containers := containers[id := Container(command, None)];
      }
    }

    method Start(id: ContainerId)
      requires Valid() && id in containers
      modifies this
      ensures Valid() && now >= old(now) && names == old(names)
      ensures containers == old(containers)
        || (old(containers)[id].startedAt.None?
            && containers == old(containers)[id := old(containers)[id].(startedAt := Some(now))])
    {
      var obeyed := obeys(tick);
      Pass();
      if obeyed && containers[id].startedAt.None? {
        containers := containers[id := containers[id].(startedAt := Some(now))];
      }
    }

    /** A container that was never started is created; a started one runs or has exited. */
    method Inspect(id: ContainerId) returns (status: Status)
      requires Valid() && id in containers
      modifies this
      ensures Valid() && now >= old(now) && names == old(names) && containers == old(containers)
      ensures status == IsCreated <==> containers[id].startedAt.None?
    {
      status := if containers[id].startedAt.None? then IsCreated else if exits(tick) then HasExited else IsRunning;
      Pass();
    }

    method Clock() returns (reading: int)
      requires Valid()
      modifies this
      ensures Valid() && names == old(names) && containers == old(containers)
      ensures old(now) <= reading == now
    {
      Pass();
      reading := now;
    }
  }

  /** One prepared operation for one sandbox: its container name, profile limit and deadline. */
  class PreparedOperation {
    const daemon: Daemon
    const name: nat
    const ttl: int
    const deadline: int
    var cleanup: Option<ContainerId>

    constructor (docker: Daemon, containerName: nat, limit: int, attemptDeadline: int)
      ensures daemon == docker && name == containerName && ttl == limit && deadline == attemptDeadline && cleanup == None
    {
      daemon, name, ttl, deadline, cleanup := docker, containerName, limit, attemptDeadline, None;
    }

    /** Create the container with its planned sleep, or find the one an earlier try left. An
        unconfirmed creation and a container that has exited are refused. */
    method CreateVerified(id: ContainerId) returns (created: Option<CreatedContainer>)
      requires daemon.Valid() && id !in daemon.containers
      modifies this, daemon
      ensures daemon.Valid() && daemon.now >= old(daemon.now)
      ensures created.Some? ==>
        && name in daemon.names && daemon.names[name] == created.value.id && created.value.id in daemon.containers
        && (created.value.running <==> daemon.containers[created.value.id].startedAt.Some?)
      ensures old(name in daemon.names) ==> daemon.containers == old(daemon.containers) && cleanup == old(cleanup)
      ensures old(name !in daemon.names) && created.Some? ==> cleanup == Some(id) && created.value == CreatedContainer(id, false)
      ensures daemon.containers != old(daemon.containers) ==>
        && id in daemon.containers && daemon.containers == old(daemon.containers)[id := daemon.containers[id]]
        && daemon.containers[id].startedAt.None?
        && exists planned | old(daemon.now) <= planned <= daemon.now ::
             var p := Planned(deadline, planned, ttl);
             p.Some? && daemon.containers[id].command == Print(p.value)
      ensures cleanup != old(cleanup) ==> cleanup == Some(id) && id in daemon.containers
    {
      var planned := daemon.Clock();
      var seconds := Planned(deadline, planned, ttl);
      if seconds.None? {
        return None;
      }
      var cid := id;
      if name in daemon.names {
        cid := daemon.names[name];
      } else {
        var confirmed := daemon.Create(name, id, Print(seconds.value));
        if !confirmed {
          return None;
        }
        cleanup := Some(id);
      }
      var status := daemon.Inspect(cid);
      if status == HasExited {
        return None;
      }
      created := Some(CreatedContainer(cid, status == IsRunning));
    }

    /** Start the container, or take over one that already runs. On success PID 1 ends by the
        deadline: its start plus the whole sleep that its command names lies before it. */
    method StartVerified(created: CreatedContainer) returns (seconds: Option<nat>)
      requires daemon.Valid()
      modifies daemon
      ensures daemon.Valid() && daemon.now >= old(daemon.now)
      ensures seconds.Some? ==>
        && created.id in daemon.containers
        && var c := daemon.containers[created.id];
        && Verified(c.command, ttl) == seconds
        && c.startedAt.Some? && c.startedAt.value <= daemon.now
        && c.startedAt.value + seconds.value * SECOND <= deadline
      ensures seconds.Some? && old(created.id in daemon.containers) && old(daemon.containers[created.id].startedAt.Some?) ==>
        daemon.containers == old(daemon.containers)
    {
      if created.id !in daemon.containers {
        return None;
      }
      var _ := daemon.Inspect(created.id);
      var command := daemon.containers[created.id].command;
      var lifetime := Verified(command, ttl);
      if lifetime.None? {
        return None;
      }
      if !created.running {
        var before := daemon.Clock();
        if !Within(before, lifetime.value, deadline) {
          return None;
        }
        daemon.Start(created.id);
      }
      var status := daemon.Inspect(created.id);
      if status != IsRunning {
        return None;
      }
      var after := daemon.Clock();
      if !Within(after, lifetime.value, deadline) {
        return None;
      }
      seconds := lifetime;
    }
  }

  /** The deadline that bounds PID 1 is the attempt's own, in every reachable state. */
  lemma ResourceDeadlineIsTheAttempts(db: Db, s: SandboxId, startedAt: int, seconds: nat)
    requires IsReachable(db) && s in db.resources
    requires startedAt + seconds * SECOND <= db.resources[s].expiresAt
    ensures db.resources[s].attempt in db.attempts
    ensures startedAt + seconds * SECOND <= db.attempts[db.resources[s].attempt].expiresAt
  {
    ReachableIsGood(db);
    SameDeadline(db, s);
  }
}
