/** The supervisor as the program has it: one object whose handlers update its tables and the
  * entries of its children in place. Each handler is proved to take the step the model says. */
module SupervisorClass {
  import opened Wrappers
  import opened Permissions
  import opened CrashBudget
  import opened Desks
  import Spec = SupervisorSpec
  import opened SupervisorSpec

  class ChildEntry {
    var child: nat
    var parsed: Parsed
    var restarts: nat
    var windowStart: int
    ghost var windows: seq<Window>
    var stopping: bool
    var restarting: bool
    var cycle: Option<Cycle>
    var candidate: bool
    var locked: Option<string>
    var pendingReset: Option<PendingReset>
    var timer: bool
    var escalated: bool
    const ceiling: Option<Ceiling>

    ghost function View(): Entry
      reads this
    {
      Entry(child, parsed, restarts, windowStart, windows, stopping, restarting, cycle, candidate,
            locked, pendingReset, timer, escalated, ceiling)
    }

    constructor (child: nat, parsed: Parsed, ceiling: Option<Ceiling>, now: int)
      ensures View() == NewEntry(child, parsed, ceiling, now)
    {
      this.child, this.parsed, this.ceiling := child, parsed, ceiling;
      restarts, windowStart, windows := 0, now, Opened(now);
      stopping, restarting, cycle, candidate := false, false, None, false;
      locked, pendingReset, timer, escalated := parsed.resume, None, false, false;
    }

    /** Moves the session this agent holds and resumes. */
    method Retarget(target: Option<string>, candidate: bool)
      modifies this
      ensures View() == old(View()).(parsed := old(parsed).(resume := target), locked := target, candidate := candidate)
    {
      parsed := parsed.(resume := target);
      locked := target;
      this.candidate := candidate;
    }

    /** A deliberate cycle does not count against the crash budget. */
    method RefreshBudget(now: int)
      modifies this
      ensures View() == FreshBudget(old(View()), now)
    {
      restarts, windowStart, windows := 0, now, Opened(now);
    }

    /** Charges a crash: past the window the budget starts over; false once it is spent. */
    method ChargeCrash(now: int) returns (up: bool)
      modifies this
      ensures (View(), up) == Spec.ChargeCrash(old(View()), now)
    {
      if now - windowStart > RESTART_WINDOW_MS {
        windowStart, restarts, windows := now, 0, windows + Opened(now);
      }
      if restarts >= MAX_RESTARTS { return false; }
      restarts, windows := restarts + 1, if windows == [] then [] else Charged(windows, now);
      return true;
    }

    /** The process is gone: no timer and no flag of the cycle that ended it is left. */
    method BeginExit()
      modifies this
      ensures View() == Exiting(old(View())) && pendingReset == old(pendingReset)
    {
      timer, escalated := false, false;
      if !stopping && (pendingReset.Some? || restarting) {
        if pendingReset.None? { cycle := None; }
        restarting := false;
      }
    }

    method BeginRestart(requestId: Option<string>, now: int)
      modifies this
      ensures var e := old(View());
              var p := if requestId.Some? then e.parsed.(requestId := requestId) else e.parsed;
              View() == FreshBudget(e.(parsed := p, cycle := Some(RestartCycle), restarting := true), now)
    {
      if requestId.Some? { parsed := parsed.(requestId := requestId); }
      cycle, restarting := Some(RestartCycle), true;
      RefreshBudget(now);
    }

    method BeginSwitch(next: Parsed, resume: string, now: int)
      modifies this
      ensures View() == FreshBudget(old(View()).(locked := Some(resume), cycle := Some(SwitchCycle), candidate := false,
                                                 parsed := next, restarting := true), now)
    {
      locked, cycle, candidate := Some(resume), Some(SwitchCycle), false;
      parsed, restarting := next, true;
      RefreshBudget(now);
    }

    method BeginReset(p: PendingReset, next: Parsed, now: int)
      modifies this
      ensures View() == FreshBudget(old(View()).(pendingReset := Some(p), parsed := next, restarting := true,
                                                 escalated := false), now)
    {
      pendingReset, parsed, restarting, escalated := Some(p), next, true, false;
      RefreshBudget(now);
    }

    /** The grace ran out: a pending reset goes on to the second signal. */
    method TimerExpired()
      modifies this
      ensures View() == Expired(old(View())) && pendingReset == old(pendingReset)
    {
      timer := false;
      if pendingReset.Some? { escalated := true; }
    }

    method CheckCeiling(next: Parsed) returns (conflict: bool)
      ensures conflict == ExceedsCeiling(View(), next)
    {
      conflict := ceiling.Some? && ConflictAgainst(next.settings.axes, ceiling.value) != [];
    }

    method AbandonReset(p: PendingReset)
      modifies this
      ensures View() == old(View()).(parsed := p.previousParsed, restarting := false, pendingReset := None)
    {
      parsed, restarting, pendingReset := p.previousParsed, false, None;
    }

    /** A fresh session after a reset, or the previous one after a failed reset. */
    method Resume(child: nat, session: Option<string>, p: Parsed, now: int)
      modifies this
      ensures View() == FreshBudget(old(View()).(child := child, candidate := false, locked := session,
                                                 pendingReset := None, parsed := p), now)
    {
      this.child, parsed, candidate := child, p, false;
      locked, pendingReset := session, None;
      RefreshBudget(now);
    }
  }

  /** A shutdown under way: the agents in `left` are still to be marked. */
  ghost function StoppedBut(m: map<string, Entry>, left: set<string>): map<string, Entry> {
    map a | a in m :: if a in left then m[a] else m[a].(stopping := true)
  }

  lemma AllLeft(m: map<string, Entry>)
    ensures StoppedBut(m, m.Keys) == m
  {
  }

  lemma OneStopped(m: map<string, Entry>, left: set<string>, a: string)
    requires a in left && a in m
    ensures StoppedBut(m, left)[a := StoppedBut(m, left)[a].(stopping := true)] == StoppedBut(m, left - {a})
  {
  }

  lemma Overwritten<T>(m: map<string, T>, a: string, x: T)
    ensures (m - {a})[a := x] == m[a := x]
  {
  }

  class Supervisor {
    var children: map<string, ChildEntry>
    ghost var entries: map<string, Entry>
    var active: set<string>
    var pendingSpawns: map<string, PendingSpawn>
    var pendingSwitches: map<string, PendingSwitch>
    var generation: nat
    var config: Config
    var world: World

    ghost function Objects(): set<ChildEntry>
      reads this
    {
      children.Values
    }

    ghost function View(): State
      reads this
    {
      State(entries, active, pendingSpawns, pendingSwitches, generation, config, world)
    }

    /** The ghost copy of every entry is up to date, and no entry is listed under two agents. */
    ghost predicate Valid()
      reads this, Objects()
    {
      && entries.Keys == children.Keys
      && (forall a :: a in children ==> entries[a] == children[a].View())
      && (forall a, b :: a in children && b in children && a != b ==> children[a] != children[b])
    }

    /** Brings the ghost copy up to date after an edit of one entry. */
    ghost method Sync(a: string)
      requires a in children && entries.Keys == children.Keys
      requires forall b :: b in children && b != a ==> entries[b] == children[b].View()
      requires forall b, c :: b in children && c in children && b != c ==> children[b] != children[c]
      modifies this`entries
      ensures Valid() && entries == old(entries)[a := children[a].View()]
    {
      entries := entries[a := children[a].View()];
    }

    constructor (config: Config)
      ensures Valid() && View() == Init(config)
    {
      children, entries, active, pendingSpawns, pendingSwitches, generation := map[], map[], {}, map[], map[], 0;
      this.config := config;
      world := World(0, 0, map[], [], Desk(map[], {}, [], {}), Desk(map[], {}, [], {}), [], {}, [], 0);
    }

    // ---- Effects on the outside -----------------------------------------------

    method SendSpawnResult(ticket: nat, r: SpawnReply)
      requires Valid()
      modifies this`world
      ensures Valid()
      ensures world == old(world).(spawns := Reply(old(world).spawns, ticket, r), results := old(world).results + [r])
    {
      world := world.(spawns := Reply(world.spawns, ticket, r), results := world.results + [r]);
    }

    method SendNotice(a: string, reason: Reason, requestId: Option<string>)
      requires Valid()
      modifies this`world
      ensures Valid()
      ensures world == old(world).(results := old(world).results + [SpawnReply(a, Some(reason), requestId)])
    {
      world := world.(results := world.results + [SpawnReply(a, Some(reason), requestId)]);
    }

    method SendResetResult(a: string, p: PendingReset, outcome: ResetOutcome)
      requires Valid()
      modifies this`world
      ensures Valid()
      ensures world == old(world).(resets := Reply(old(world).resets, p.ticket,
                                                   ResetReply(a, p.requestId, p.mode, outcome)))
    {
      world := world.(resets := Reply(world.resets, p.ticket, ResetReply(a, p.requestId, p.mode, outcome)));
    }

    /** A launch that does not throw: a process with a new id. */
    method Launch(a: string, resume: Option<string>, axes: Axes, ceiling: Option<Ceiling>) returns (child: nat)
      modifies this`world
      ensures child == old(world).nextChild
      ensures world == old(world).(nextChild := child + 1, live := old(world).live[child := a],
                                   launches := old(world).launches
                                     + [SupervisorSpec.Launch(a, child, resume, axes, ceiling)])
    {
      child := world.nextChild;
      world := world.(nextChild := child + 1, live := world.live[child := a],
                      launches := world.launches + [SupervisorSpec.Launch(a, child, resume, axes, ceiling)]);
    }

    // ---- Exits ------------------------------------------------------------------

    /** Drops an entry and frees the session it locks. */
    method Remove(a: string)
      requires Valid() && a in children
      modifies this
      ensures Valid() && Objects() <= old(Objects())
      ensures View() == Spec.Remove(old(View()), a)
    {
      hide Release;
      var lock := children[a].locked;
      assert lock == entries[a].locked;
      ForgetSwitch(a);
      Unlist(a);
      Unlock(lock);
    }

    method ForgetSwitch(a: string)
      requires Valid()
      modifies this`pendingSwitches
      ensures Valid() && pendingSwitches == old(pendingSwitches) - {a}
    {
      pendingSwitches := pendingSwitches - {a};
    }

    method Unlock(lock: Option<string>)
      requires Valid()
      modifies this`active
      ensures Valid() && active == Release(old(active), lock)
    {
      active := Release(active, lock);
    }

    method Unlist(a: string)
      requires Valid() && a in children
      modifies this`children, this`entries
      ensures Valid() && Objects() <= old(Objects()) && entries == old(entries) - {a}
    {
      children, entries := children - {a}, entries - {a};
    }

    method Relaunch(a: string, requestId: Option<string>, env: Env)
      requires Valid() && a in children
      modifies this, children[a]
      ensures Valid() && Objects() <= old(Objects())
      ensures View() == Spec.Relaunch(old(View()), a, requestId, env)
    {
      var entry := children[a];
      if env.first != Launches {
        if requestId.Some? { SendNotice(a, OtherError, requestId); }
        Remove(a);
      } else {
        LaunchAgain(a, entry.parsed.resume);
      }
    }

    /** Replaces the process of an entry that has lost its own. */
    method LaunchAgain(a: string, resume: Option<string>)
      requires Valid() && a in children
      modifies this`world, this`entries, children[a]
      ensures Valid()
      ensures var s := old(View());
              var e := s.children[a];
              View() == Put(Started(s, a, resume, e.parsed.settings.axes, e.ceiling), a, e.(child := s.world.nextChild))
    {
      var entry := children[a];
      entry.child := Launch(a, resume, entry.parsed.settings.axes, entry.ceiling);
      Sync(a);
    }

    method SelectRecovery(a: string, r: Recovery) returns (ok: bool)
      requires Valid() && a in children
      modifies this`active, this`entries, children[a]
      ensures Valid()
      ensures (ok, View()) == Spec.SelectRecovery(old(View()), a, r)
      ensures !ok ==> View() == old(View())
    {
      var entry := children[a];
      if r.Refused? || r.Absent? { return r.Absent?; }
      var target, candidate := entry.parsed.resume, entry.candidate;
      assert entry.View() == View().children[a];
      match r {
        case Live(id) => target, candidate := Some(id), false;
        case Unbound(Some(id)) => target, candidate := Some(id), true;
        case Unbound(None) => if candidate { target, candidate := None, false; }
        case _ =>
      }
      assert (target, candidate) == RecoveryTarget(entry.View(), r);
      if target != entry.locked && target.Some? && target.value in active { return false; }
      MoveLock(a, target, candidate);
      return true;
    }

    /** The lock of `a` moves to the session it is to resume. */
    method MoveLock(a: string, target: Option<string>, candidate: bool)
      requires Valid() && a in children
      modifies this`active, this`entries, children[a]
      ensures Valid()
      ensures View() == Spec.MoveLock(old(View()), a, target, candidate)
    {
      var entry := children[a];
      if entry.locked != target { active := Release(active, entry.locked); }
      active := Claim(active, target);
      entry.Retarget(target, candidate);
      Sync(a);
    }

    /** A new process for an entry, resuming `session`, with its reset over. */
    method Renew(a: string, session: Option<string>, p: Parsed, now: int)
      requires Valid() && a in children
      modifies this`world, this`entries, children[a]
      ensures Valid()
      ensures View() == Spec.Renewed(old(View()), a, session, p, now)
    {
      var child := Launch(a, session, p.settings.axes, children[a].ceiling);
      children[a].Resume(child, session, p, now);
      Sync(a);
    }

    method RelaunchForReset(a: string, env: Env)
      requires Valid() && a in children && children[a].pendingReset.Some?
      modifies this, children[a]
      ensures Valid() && Objects() <= old(Objects())
      ensures View() == Spec.RelaunchForReset(old(View()), a, env)
    {
      hide Spec.Rollback, Renewed;
      if env.first != Launches {
        Rollback(a, env);
      } else {
        StartFresh(a, env.now);
      }
    }

    method StartFresh(a: string, now: int)
      requires Valid() && a in children && children[a].pendingReset.Some?
      modifies this`world, this`active, this`entries, children[a]
      ensures Valid()
      ensures var s := old(View());
              var (e, p) := (s.children[a], s.children[a].pendingReset.value);
              View() == ResetAnswer(Renewed(s, a, None, e.parsed, now).(active := Release(s.active, p.oldResume)), a, p,
                                    FreshSession)
    {
      hide Renewed, Release;
      var pending := children[a].pendingReset.value;
      Renew(a, None, children[a].parsed, now);
      Unlock(pending.oldResume);
      SendResetResult(a, pending, FreshSession);
    }

    /** The fresh launch failed: the previous session is resumed and its lock taken over. */
    method Rollback(a: string, env: Env)
      requires Valid() && a in children && children[a].pendingReset.Some?
      modifies this, children[a]
      ensures Valid() && Objects() <= old(Objects())
      ensures View() == Spec.Rollback(old(View()), a, env)
    {
      hide Spec.Remove, Renewed;
      var pending := children[a].pendingReset.value;
      var back := pending.previousSessionId;
      if back.None? || back.value == "" || env.second != Launches {
        DropFailedReset(a);
      } else {
        RollBackTo(a, back, env.now);
      }
    }

    method RollBackTo(a: string, back: Option<string>, now: int)
      requires Valid() && a in children && children[a].pendingReset.Some?
      modifies this`world, this`active, this`entries, children[a]
      ensures Valid()
      ensures var s := old(View());
              var p := s.children[a].pendingReset.value;
              var table := if p.oldResume != back then Claim(Release(s.active, p.oldResume), back) else s.active;
              View() == ResetAnswer(Renewed(s, a, back, s.children[a].parsed.(resume := back), now).(active := table),
                                    a, p, SpawnFailed)
    {
      hide Renewed, Release, Claim, Started, FreshBudget, Put;
      var pending := children[a].pendingReset.value;
      ghost var r := Renewed(View(), a, back, children[a].parsed.(resume := back), now);
      Renew(a, back, children[a].parsed.(resume := back), now);
      TransferLock(pending.oldResume, back);
      assert View() == r.(active := active);
      SendResetResult(a, pending, SpawnFailed);
    }

    method TransferLock(from: Option<string>, next: Option<string>)
      requires Valid()
      modifies this`active
      ensures Valid()
      ensures active == if from != next then Claim(Release(old(active), from), next) else old(active)
    {
      if from != next { active := Claim(Release(active, from), next); }
    }

    method DropFailedReset(a: string)
      requires Valid() && a in children && children[a].pendingReset.Some?
      modifies this, children[a]
      ensures Valid() && Objects() <= old(Objects())
      ensures var s := old(View());
              var e := s.children[a];
              var answered := ResetAnswer(Put(s, a, e.(pendingReset := None)), a, e.pendingReset.value, RollbackFailed);
              View() == Spec.Remove(answered, a)
    {
      hide Spec.Remove;
      SendResetResult(a, children[a].pendingReset.value, RollbackFailed);
      ClearReset(a);
      Remove(a);
    }

    method ExitOfCycle(a: string, cycle: Option<Cycle>, env: Env)
      requires Valid() && a in children
      modifies this, children[a]
      ensures Valid() && Objects() <= old(Objects())
      ensures View() == Spec.ExitOfCycle(old(View()), a, cycle, env)
    {
      hide Spec.Relaunch, Spec.Remove, Spec.SelectRecovery;
      var requestId := children[a].parsed.requestId;
      var ok := true;
      if cycle != Some(SwitchCycle) { ok := SelectRecovery(a, env.recovery); }
      if ok {
        Relaunch(a, requestId, env);
      } else {
        SendNotice(a, OtherError, requestId);
        Remove(a);
      }
    }

    method ExitOfCrash(a: string, env: Env)
      requires Valid() && a in children
      modifies this, children[a]
      ensures Valid() && Objects() <= old(Objects())
      ensures View() == Spec.ExitOfCrash(old(View()), a, env)
    {
      hide Spec.Charge, Spec.Remove, Spec.SelectRecovery;
      var ok := SelectRecovery(a, env.recovery);
      if ok { Charge(a, env); } else { Remove(a); }
    }

    method Charge(a: string, env: Env)
      requires Valid() && a in children
      modifies this, children[a]
      ensures Valid() && Objects() <= old(Objects())
      ensures View() == Spec.Charge(old(View()), a, env)
    {
      hide Spec.Relaunch, Spec.Remove, Spec.ChargeCrash;
      var up := children[a].ChargeCrash(env.now);
      Sync(a);
      if up { Relaunch(a, None, env); } else { Remove(a); }
    }

    /** A stop that finds a reset pending leaves it unanswered. */
    method RemoveStopped(a: string)
      requires Valid() && a in children
      modifies this, children[a]
      ensures Valid() && Objects() <= old(Objects())
      ensures View() == Spec.RemoveStopped(old(View()), a)
    {
      hide Spec.Remove;
      LeaveUnanswered(a);
      ClearReset(a);
      Remove(a);
    }

    /** The reset that is pending gets no answer. */
    method LeaveUnanswered(a: string)
      requires Valid() && a in children
      modifies this`world
      ensures Valid()
      ensures View() == DropReset(old(View()), old(View()).children[a])
    {
      if children[a].pendingReset.Some? {
        world := world.(resets := Drop(world.resets, {children[a].pendingReset.value.ticket}));
      }
    }

    method ClearReset(a: string)
      requires Valid() && a in children
      modifies this`entries, children[a]
      ensures Valid() && entries == old(entries)[a := old(entries)[a].(pendingReset := None)]
    {
      children[a].pendingReset := None;
      Sync(a);
    }

    /** The current process of `a` is gone. */
    method OnExit(a: string, env: Env)
      requires Valid() && a in children
      modifies this, children[a]
      ensures Valid() && Objects() <= old(Objects())
      ensures View() == Spec.OnExit(old(View()), a, env)
    {
      hide Exiting, Spec.RemoveStopped, Spec.RelaunchForReset, Spec.ExitOfCycle, Spec.ExitOfCrash;
      var entry := children[a];
      var cycle, stopping := entry.cycle, entry.stopping;
      var resetting, restarting := entry.pendingReset.Some?, entry.restarting;
      entry.BeginExit();
      Sync(a);
      if stopping {
        RemoveStopped(a);
      } else if resetting {
        RelaunchForReset(a, env);
      } else if restarting {
        ExitOfCycle(a, cycle, env);
      } else {
        ExitOfCrash(a, env);
      }
    }

    /** An exit event; one from a process that was replaced changes nothing. */
    method HandleExit(a: string, child: nat, env: Env)
      requires Valid()
      modifies this, Objects()
      ensures Valid() && Objects() <= old(Objects())
      ensures View() == Exited(old(View()), a, child, env)
    {
      hide Spec.OnExit;
      if a in children && children[a].child == child { OnExit(a, env); }
    }

    // ---- Spawning -------------------------------------------------------------

    method LaunchSpawn(a: string, p: Parsed, ticket: nat, env: Env)
      requires Valid() && a !in children
      modifies this
      ensures Valid() && fresh(Objects() - old(Objects()))
      ensures View() == Spec.LaunchSpawn(old(View()), a, p, ticket, env)
    {
      hide Resolve, Release, Started, NewEntry;
      var refused := false;
      if p.engine == Antigravity {
        var resolution := ResolveAntigravityCeiling(p.settings.axes, config.max);
        refused := resolution.conflicts != [];
      }
      if refused || env.first != Launches {
        assert entries - {a} == entries;
        FailSpawn(a, p, ticket, if refused then CeilingConflict else OtherError);
      } else {
        Start(a, p, env.now);
        SendSpawnResult(ticket, SpawnReply(a, None, p.requestId));
      }
    }

    /** The session the launch claimed is free again. */
    method FailSpawn(a: string, p: Parsed, ticket: nat, reason: Reason)
      requires Valid()
      modifies this`active, this`world
      ensures Valid()
      ensures var s := old(View());
              View() == SpawnAnswer(s.(active := Release(s.active, p.resume)), ticket,
                                    SpawnReply(a, Some(reason), p.requestId))
    {
      hide Release;
      Unlock(p.resume);
      SendSpawnResult(ticket, SpawnReply(a, Some(reason), p.requestId));
    }

    /** The ceiling is resolved once, here, and pinned for the entry's lifetime. */
    method PinCeiling(p: Parsed) returns (ceiling: Option<Ceiling>)
      ensures ceiling == CeilingFor(p, config.max)
    {
      hide Resolve;
      ceiling := None;
      if p.engine == Antigravity {
        var resolution := ResolveAntigravityCeiling(p.settings.axes, config.max);
        ceiling := Some(resolution.ceiling);
      }
    }

    method Start(a: string, p: Parsed, now: int)
      requires Valid() && a !in children
      modifies this`world, this`children, this`entries
      ensures Valid() && fresh(Objects() - old(Objects()))
      ensures var s, ceiling := old(View()), CeilingFor(p, old(config).max);
              View() == Put(Started(s, a, p.resume, p.settings.axes, ceiling), a,
                            NewEntry(s.world.nextChild, p, ceiling, now))
    {
      hide CeilingFor, NewEntry, Started;
      var ceiling := PinCeiling(p);
      StartUnder(a, p, ceiling, now);
    }

    method StartUnder(a: string, p: Parsed, ceiling: Option<Ceiling>, now: int)
      requires Valid() && a !in children
      modifies this`world, this`children, this`entries
      ensures Valid() && fresh(Objects() - old(Objects()))
      ensures var s := old(View());
              View() == Put(Started(s, a, p.resume, p.settings.axes, ceiling), a,
                            NewEntry(s.world.nextChild, p, ceiling, now))
    {
      hide NewEntry;
      var child := Launch(a, p.resume, p.settings.axes, ceiling);
      Enter(a, child, p, ceiling, now);
    }

    method Enter(a: string, child: nat, p: Parsed, ceiling: Option<Ceiling>, now: int)
      requires Valid() && a !in children
      modifies this`children, this`entries
      ensures Valid() && fresh(Objects() - old(Objects()))
      ensures entries == old(entries)[a := NewEntry(child, p, ceiling, now)]
    {
      hide NewEntry;
      var entry := new ChildEntry(child, p, ceiling, now);
      ListEntry(a, entry);
    }

    method ListEntry(a: string, entry: ChildEntry)
      requires Valid() && entry !in Objects()
      modifies this`children, this`entries
      ensures Valid() && Objects() <= old(Objects()) + {entry}
      ensures entries == old(entries)[a := entry.View()]
    {
      children, entries := children[a := entry], entries[a := entry.View()];
    }

    method CompleteResumeSpawn(a: string, p: Parsed, ticket: nat, found: bool, env: Env)
      requires Valid() && a !in children && p.resume.Some?
      modifies this
      ensures Valid() && fresh(Objects() - old(Objects()))
      ensures View() == Spec.CompleteResumeSpawn(old(View()), a, p, ticket, found, env)
    {
      hide Spec.LaunchSpawn;
      if !found {
        SendSpawnResult(ticket, SpawnReply(a, Some(SessionNotFound), p.requestId));
      } else if p.resume.value in active {
        SendSpawnResult(ticket, SpawnReply(a, Some(AlreadyRunning), p.requestId));
      } else {
        active := Claim(active, p.resume);
        LaunchSpawn(a, p, ticket, env);
      }
    }

    method TakeSpawnTicket(a: string, requestId: Option<string>) returns (ticket: nat)
      requires Valid()
      modifies this`world
      ensures Valid()
      ensures ticket == old(world).tickets && View() == AskedSpawn(old(View()), a, requestId)
    {
      ticket := world.tickets;
      world := world.(tickets := ticket + 1, spawns := Ask(world.spawns, ticket, SpawnAsk(a, requestId)));
    }

    method HandleSpawn(agent: Option<string>, requestId: Option<string>, parsed: Option<Parsed>, check: Check, env: Env)
      requires Valid()
      modifies this
      ensures Valid() && fresh(Objects() - old(Objects()))
      ensures View() == Spec.HandleSpawn(old(View()), agent, requestId, parsed, check, env)
    {
      hide Spec.AcceptedSpawn;
      if agent.None? { return; }
      if parsed.None? {
        var ticket := TakeSpawnTicket(agent.value, requestId);
        SendSpawnResult(ticket, SpawnReply(agent.value, Some(OtherError), requestId));
      } else {
        AcceptedSpawn(agent.value, parsed.value.(requestId := requestId), check, env);
      }
    }

    method AcceptedSpawn(a: string, p: Parsed, check: Check, env: Env)
      requires Valid()
      modifies this
      ensures Valid() && fresh(Objects() - old(Objects()))
      ensures View() == Spec.AcceptedSpawn(old(View()), a, p, check, env)
    {
      hide Spec.LaunchSpawn, Spec.CompleteResumeSpawn, ApplyResumeSnapshot;
      var ticket := TakeSpawnTicket(a, p.requestId);
      if p.cwd !in config.allowlist {
        SendSpawnResult(ticket, SpawnReply(a, Some(CwdNotFound), p.requestId));
      } else if a in children || a in pendingSpawns {
        SendSpawnResult(ticket, SpawnReply(a, Some(AlreadyRunning), p.requestId));
      } else if p.resume.None? {
        LaunchSpawn(a, if p.restore then WithSnapshot(p, p.snapshot) else p, ticket, env);
      } else {
        CheckResume(a, WithSnapshot(p, p.snapshot), ticket, check, env);
      }
    }

    method CheckResume(a: string, resumed: Parsed, ticket: nat, check: Check, env: Env)
      requires Valid() && a !in children && resumed.resume.Some?
      modifies this
      ensures Valid() && fresh(Objects() - old(Objects()))
      ensures var s := old(View());
              View() == if check.AtOnce? then Spec.CompleteResumeSpawn(s, a, resumed, ticket, check.found, env)
                        else s.(pendingSpawns := s.pendingSpawns[a := PendingSpawn(ticket, resumed)])
    {
      hide Spec.CompleteResumeSpawn;
      if check.AtOnce? {
        CompleteResumeSpawn(a, resumed, ticket, check.found, env);
      } else {
        pendingSpawns := pendingSpawns[a := PendingSpawn(ticket, resumed)];
      }
    }

    /** A check that was superseded or cancelled finds another ticket, or none. What is asked of
      * the tables holds in every reachable state (see Pendings in SupervisorSafety). */
    method SpawnCheckDone(a: string, ticket: nat, outcome: CheckOutcome, env: Env)
      requires Valid() && (a in pendingSpawns ==> a !in children && pendingSpawns[a].parsed.resume.Some?)
      modifies this
      ensures Valid() && fresh(Objects() - old(Objects()))
      ensures View() == SpawnChecked(old(View()), a, ticket, outcome, env)
    {
      hide Spec.CompleteResumeSpawn;
      if a !in pendingSpawns || pendingSpawns[a].ticket != ticket { return; }
      var p := pendingSpawns[a].parsed;
      pendingSpawns := pendingSpawns - {a};
      if outcome.Found? {
        CompleteResumeSpawn(a, p, ticket, outcome.found, env);
      } else {
        SendSpawnResult(ticket, SpawnReply(a, Some(OtherError), p.requestId));
      }
    }

    // ---- Stopping and restarting ----------------------------------------------

    method HandleStop(a: string)
      requires Valid()
      modifies this, Objects()
      ensures Valid() && children == old(children)
      ensures View() == Spec.HandleStop(old(View()), a)
    {
      if a in pendingSpawns {
        CancelSpawn(a);
      } else if a in children {
        ForgetSwitch(a);
        MarkStopping(a);
      }
    }

    method CancelSpawn(a: string)
      requires Valid() && a in pendingSpawns
      modifies this`world, this`pendingSpawns
      ensures Valid()
      ensures var s := old(View());
              View() == SpawnAnswer(s.(pendingSpawns := s.pendingSpawns - {a}), s.pendingSpawns[a].ticket,
                                    SpawnReply(a, Some(OtherError), None))
    {
      var ticket := pendingSpawns[a].ticket;
      pendingSpawns := pendingSpawns - {a};
      SendSpawnResult(ticket, SpawnReply(a, Some(OtherError), None));
    }

    method HandleRestart(a: string, requestId: Option<string>, env: Env)
      requires Valid()
      modifies this, Objects()
      ensures Valid() && children == old(children)
      ensures View() == Spec.HandleRestart(old(View()), a, requestId, env)
    {
      hide FreshBudget;
      if a !in children { return; }
      if env.preflightRefused || !env.launchable {
        SendNotice(a, OtherError, requestId);
      } else {
        Cycle(a, requestId, env.now);
      }
    }

    /** A restart overtakes a switch that waits on its check. */
    method Cycle(a: string, requestId: Option<string>, now: int)
      requires Valid() && a in children
      modifies this`entries, this`pendingSwitches, children[a]
      ensures Valid()
      ensures var s := old(View());
              var e := s.children[a];
              var p := if requestId.Some? then e.parsed.(requestId := requestId) else e.parsed;
              View() == Put(s.(pendingSwitches := s.pendingSwitches - {a}), a,
                            FreshBudget(e.(parsed := p, cycle := Some(RestartCycle), restarting := true), now))
    {
      hide FreshBudget;
      ForgetSwitch(a);
      MarkRestarting(a, requestId, now);
    }

    method MarkRestarting(a: string, requestId: Option<string>, now: int)
      requires Valid() && a in children
      modifies this`entries, children[a]
      ensures Valid()
      ensures var e := old(entries)[a];
              var p := if requestId.Some? then e.parsed.(requestId := requestId) else e.parsed;
              entries == old(entries)[a := FreshBudget(e.(parsed := p, cycle := Some(RestartCycle), restarting := true),
                                                       now)]
    {
      hide FreshBudget;
      children[a].BeginRestart(requestId, now);
      Sync(a);
    }

    /** Shutdown: every check is cancelled and every child marked, whatever the order. */
    method StopAll()
      requires Valid()
      modifies this, Objects()
      ensures Valid() && children == old(children)
      ensures View() == Spec.StopAll(old(View()))
    {
      world := world.(spawns := Drop(world.spawns, Tickets(pendingSpawns)));
      pendingSpawns, pendingSwitches, generation := map[], map[], generation + 1;
      MarkAllStopping();
    }

    method MarkAllStopping()
      requires Valid()
      modifies this`entries, Objects()
      ensures Valid()
      ensures entries == map a | a in old(entries) :: old(entries)[a].(stopping := true)
    {
      ghost var was := entries;
      var left := children.Keys;
      AllLeft(was);
      while left != {}
        invariant left <= children.Keys && Valid() && entries == StoppedBut(was, left)
        decreases left
      {
        var a :| a in left;
        OneStopped(was, left, a);
        MarkStopping(a);
        left := left - {a};
      }
    }

    method MarkStopping(a: string)
      requires Valid() && a in children
      modifies this`entries, children[a]
      ensures Valid() && entries == old(entries)[a := old(entries)[a].(stopping := true)]
    {
      children[a].stopping := true;
      Sync(a);
    }

    // ---- Switching sessions ---------------------------------------------------

    method HandleSwitchSession(a: string, payload: SwitchPayload, check: Check, env: Env)
      requires Valid()
      modifies this, Objects()
      ensures Valid() && children == old(children)
      ensures View() == HandleSwitch(old(View()), a, payload, check, env)
    {
      hide Spec.CompleteSwitch;
      if a !in children { return; }
      if payload.resume.None? || payload.resume.value == "" {
        SendNotice(a, OtherError, payload.requestId);
        return;
      }
      StartCheck(a, payload, check, env);
    }

    method StartCheck(a: string, payload: SwitchPayload, check: Check, env: Env)
      requires Valid() && a in children && payload.resume.Some?
      modifies this, Objects()
      ensures Valid() && children == old(children)
      ensures var s, t := old(View()), old(world).tickets;
              var cancelled := s.(pendingSwitches := s.pendingSwitches - {a}, world := s.world.(tickets := t + 1));
              View() == if check.AtOnce? then Spec.CompleteSwitch(cancelled, a, payload, check.found, env)
                        else cancelled.(pendingSwitches := s.pendingSwitches[a := PendingSwitch(t, payload)])
    {
      hide Spec.CompleteSwitch;
      Overwritten(pendingSwitches, a, PendingSwitch(world.tickets, payload));
      var ticket := SupersedeSwitch(a);
      if check.AtOnce? {
        CompleteSwitch(a, payload, check.found, env);
      } else {
        AwaitCheck(a, PendingSwitch(ticket, payload));
      }
    }

    method AwaitCheck(a: string, pending: PendingSwitch)
      requires Valid()
      modifies this`pendingSwitches
      ensures Valid() && View() == old(View()).(pendingSwitches := old(pendingSwitches)[a := pending])
    {
      pendingSwitches := pendingSwitches[a := pending];
    }

    /** Whatever check of an earlier switch still runs will find its ticket gone. */
    method SupersedeSwitch(a: string) returns (ticket: nat)
      requires Valid()
      modifies this`world, this`pendingSwitches
      ensures Valid()
      ensures ticket == old(world).tickets
      ensures View() == old(View()).(pendingSwitches := old(pendingSwitches) - {a},
                                     world := old(world).(tickets := ticket + 1))
    {
      ticket := world.tickets;
      world := world.(tickets := ticket + 1);
      pendingSwitches := pendingSwitches - {a};
    }

    method CompleteSwitch(a: string, payload: SwitchPayload, found: bool, env: Env)
      requires Valid() && payload.resume.Some?
      modifies this, Objects()
      ensures Valid() && children == old(children)
      ensures View() == Spec.CompleteSwitch(old(View()), a, payload, found, env)
    {
      hide FreshBudget, SwitchedParsed, ExceedsCeiling;
      if a !in children || children[a].stopping { return; }
      var entry, resume := children[a], payload.resume.value;
      var next := SwitchedParsed(entry.parsed, payload, resume);
      assert entry.View() == entries[a];
      var conflict := entry.CheckCeiling(next);
      if !found {
        SendNotice(a, SessionNotFound, payload.requestId);
      } else if !env.launchable || payload.snapshot.MalformedSnapshot? {
        SendNotice(a, OtherError, payload.requestId);
      } else if conflict {
        SendNotice(a, CeilingConflict, payload.requestId);
      } else if Some(resume) != entry.locked && resume in active {
        SendNotice(a, AlreadyRunning, payload.requestId);
      } else {
        TakeOver(a, next, resume, env.now);
      }
    }

    /** The lock moves to the new session and the old process is signalled. */
    method TakeOver(a: string, next: Parsed, resume: string, now: int)
      requires Valid() && a in children
      modifies this`active, this`entries, children[a]
      ensures Valid()
      ensures var s := old(View());
              var e := s.children[a];
              View() == Put(s.(active := Claim(Release(s.active, e.locked), Some(resume))), a,
                            FreshBudget(e.(locked := Some(resume), cycle := Some(SwitchCycle), candidate := false,
                                           parsed := next, restarting := true), now))
    {
      active := Claim(Release(active, children[a].locked), Some(resume));
      children[a].BeginSwitch(next, resume, now);
      Sync(a);
    }

    method SwitchCheckDone(a: string, ticket: nat, outcome: CheckOutcome, env: Env)
      requires Valid() && (a in pendingSwitches ==> pendingSwitches[a].payload.resume.Some?)
      modifies this, Objects()
      ensures Valid() && children == old(children)
      ensures View() == SwitchChecked(old(View()), a, ticket, outcome, env)
    {
      hide Spec.CompleteSwitch;
      if a !in pendingSwitches || pendingSwitches[a].ticket != ticket { return; }
      var payload := pendingSwitches[a].payload;
      pendingSwitches := pendingSwitches - {a};
      if outcome.Found? {
        CompleteSwitch(a, payload, outcome.found, env);
      } else if a in children && !children[a].stopping {
        SendNotice(a, OtherError, payload.requestId);
      }
    }

    // ---- Resetting ------------------------------------------------------------

    method TerminateForReset(a: string, env: Env)
      requires Valid() && a in children && children[a].pendingReset.Some?
      modifies this, children[a]
      ensures Valid() && Objects() <= old(Objects())
      ensures View() == Spec.TerminateForReset(old(View()), a, env)
    {
      hide Spec.OnExit;
      if env.killed {
        children[a].timer := true;
        Sync(a);
      } else {
        OnExit(a, env);
      }
    }

    method HandleTimer(a: string, env: Env)
      requires Valid()
      modifies this, Objects()
      ensures Valid() && Objects() <= old(Objects())
      ensures View() == TimerFired(old(View()), a, env)
    {
      hide Expired, Spec.TerminateForReset, Spec.FailResetTermination;
      if a !in children || !children[a].timer { return; }
      var resetting, escalated := children[a].pendingReset.Some?, children[a].escalated;
      Expire(a);
      if resetting { Escalate(a, escalated, env); }
    }

    /** The second signal, or giving up once that was sent. */
    method Escalate(a: string, escalated: bool, env: Env)
      requires Valid() && a in children && children[a].pendingReset.Some?
      modifies this, children[a]
      ensures Valid() && Objects() <= old(Objects())
      ensures View() == if escalated then Spec.FailResetTermination(old(View()), a)
                        else Spec.TerminateForReset(old(View()), a, env)
    {
      hide Spec.TerminateForReset, Spec.FailResetTermination;
      if escalated { FailResetTermination(a); } else { TerminateForReset(a, env); }
    }

    method Expire(a: string)
      requires Valid() && a in children
      modifies this`entries, children[a]
      ensures Valid() && children[a].pendingReset == old(children[a].pendingReset)
      ensures View() == Put(old(View()), a, Expired(old(View()).children[a]))
    {
      hide Expired;
      children[a].TimerExpired();
      Sync(a);
    }

    method FailResetTermination(a: string)
      requires Valid() && a in children && children[a].pendingReset.Some?
      modifies this`world, this`entries, children[a]
      ensures Valid()
      ensures View() == Spec.FailResetTermination(old(View()), a)
    {
      var entry := children[a];
      var pending := entry.pendingReset.value;
      entry.AbandonReset(pending);
      Sync(a);
      SendResetResult(a, pending, TimedOut);
    }

    method HandleResetSession(a: string, payload: ResetPayload, env: Env)
      requires Valid()
      modifies this, Objects()
      ensures Valid() && Objects() <= old(Objects())
      ensures View() == HandleReset(old(View()), a, payload, env)
    {
      hide AcceptedReset, ResetParsed;
      if a !in children || payload.requestId.None? || payload.requestId.value == "" || payload.mode.None? { return; }
      var entry := children[a];
      var pending := PendingReset(world.tickets, payload.requestId.value, payload.mode.value, payload.previousSessionId,
                                  entry.parsed.resume, entry.parsed);
      assert entry.View() == entries[a];
      TakeResetTicket(ResetAsk(a, pending.requestId, pending.mode));
      if env.launchable {
        AcceptReset(a, pending, ResetParsed(entry.parsed, payload), env);
      } else {
        SendResetResult(a, pending, SpawnFailed);
      }
    }

    method AcceptReset(a: string, pending: PendingReset, next: Parsed, env: Env)
      requires Valid() && a in children
      modifies this, children[a]
      ensures Valid() && Objects() <= old(Objects())
      ensures View() == AcceptedReset(old(View()), a, pending, next, env)
    {
      hide Spec.TerminateForReset, ExceedsCeiling, Begun, DropReset;
      var conflict := children[a].CheckCeiling(next);
      CancelPending(a);
      if conflict {
        RefuseReset(a, pending);
      } else {
        Begin(a, pending, next, env.now);
        TerminateForReset(a, env);
      }
    }

    method RefuseReset(a: string, pending: PendingReset)
      requires Valid() && a in children
      modifies this`world, this`entries, children[a]
      ensures Valid()
      ensures var s := old(View());
              View() == ResetAnswer(Put(s, a, s.children[a].(pendingReset := None)), a, pending, ResetCeilingConflict)
    {
      ClearReset(a);
      SendResetResult(a, pending, ResetCeilingConflict);
    }

    /** A reset overtakes a switch that waits on its check, and any reset before it. */
    method CancelPending(a: string)
      requires Valid() && a in children
      modifies this`world, this`pendingSwitches
      ensures Valid()
      ensures var s := old(View());
              View() == DropReset(s.(pendingSwitches := s.pendingSwitches - {a}), s.children[a])
    {
      pendingSwitches := pendingSwitches - {a};
      LeaveUnanswered(a);
    }

    method Begin(a: string, pending: PendingReset, next: Parsed, now: int)
      requires Valid() && a in children
      modifies this`entries, children[a]
      ensures Valid() && children[a].pendingReset.Some?
      ensures View() == Begun(old(View()), a, pending, next, now)
    {
      children[a].BeginReset(pending, next, now);
      Sync(a);
    }

    method TakeResetTicket(ask: ResetAsk)
      requires Valid()
      modifies this`world
      ensures Valid()
      ensures View() == AskedReset(old(View()), ask)
    {
      world := world.(tickets := world.tickets + 1, resets := Ask(world.resets, world.tickets, ask));
    }

    // ---- Enumeration and reload -----------------------------------------------

    method HandleEnumerate(answeredAtOnce: bool)
      modifies this`generation, this`world
      ensures View() == Spec.HandleEnumerate(old(View()), answeredAtOnce)
    {
      generation := generation + 1;
      world := if answeredAtOnce then world.(published := world.published + [generation])
               else world.(scanning := world.scanning + {generation});
    }

    method EnumerationDone(g: nat)
      modifies this`world
      ensures View() == Enumerated(old(View()), g)
    {
      world := world.(scanning := world.scanning - {g});
      if g == generation { world := world.(published := world.published + [g]); }
    }

    /** A config reload leaves running children alone. */
    method UpdateRuntimeConfig(config: Config)
      modifies this`config
      ensures View() == Step(old(View()), Reload(config))
    {
      this.config := config;
    }
  }
}
