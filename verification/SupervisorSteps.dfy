/** Every step of the supervisor keeps the invariant; whole runs follow. */
module SupervisorSteps {
  import opened Wrappers
  import opened Permissions
  import opened CrashBudget
  import opened Desks
  import opened SupervisorSpec
  import opened SupervisorSafety

  // ---- Replacing an entry ---------------------------------------------------

  /** The two ways an entry's process may change: not at all, or to a new one while nothing
    * of the agent runs. */
  ghost predicate ProcessStep(s: State, a: string, e: Entry, w: World)
    requires a in s.children
  {
    || (e.child == s.children[a].child && w.live == s.world.live && w.nextChild == s.world.nextChild)
    || (Idle(s, a) && e.child == s.world.nextChild && w.live == s.world.live[s.world.nextChild := a]
        && w.nextChild == s.world.nextChild + 1)
  }

  /** The parts of the world an entry does not decide. */
  ghost predicate WorldOk(s: State, w: World) {
    && DesksOk(w) && LaunchesOk(w.launches) && Published(s.generation, w.scanning, w.published)
    && w.spawns == s.world.spawns && w.clock == s.world.clock
  }

  lemma Replaced(s: State, a: string, e: Entry, active: set<string>, w: World)
    requires Core(s) && a in s.children
    requires Locks(s.children[a := e], active)
    requires EntryOk(e, s.world.clock) && ProcessStep(s, a, e, w) && WorldOk(s, w)
    requires ResetsTracked(s.children[a := e], w.resets)
    ensures Core(s.(children := s.children[a := e], active := active, world := w))
  {
    hide Locks, Processes, Entries, Pendings, SpawnsTracked, ResetsTracked, DesksOk, LaunchesOk, Published, BudgetOk,
         CeilingOk, EntryOk;
    if e.child == s.children[a].child && w.live == s.world.live && w.nextChild == s.world.nextChild {
      SameProcess(s.children, s.world.live, s.world.nextChild, a, e);
    } else {
      NewProcess(s.children, s.world.live, s.world.nextChild, a, e);
    }
    EntryPut(s.children, s.world.clock, a, e);
    PendingsPut(s.children, s.pendingSpawns, s.pendingSwitches, a, e);
  }

  lemma StartedWorld(s: State, a: string, resume: Option<string>, engine: Engine, axes: Axes, ceiling: Option<Ceiling>)
    requires WorldOk(s, s.world) && CeilingOk(engine, axes, ceiling)
    ensures WorldOk(s, Started(s, a, resume, axes, ceiling).world)
  {
  }

  // ---- Exits ----------------------------------------------------------------

  lemma RelaunchKeeps(s: State, a: string, requestId: Option<string>, env: Env)
    requires Core(s) && a in s.children && Idle(s, a) && s.children[a].pendingReset.None?
    ensures Core(Relaunch(s, a, requestId, env))
  {
    hide Core, Locks, Processes, Entries, Pendings, SpawnsTracked, ResetsTracked, DesksOk, LaunchesOk, Published,
         BudgetOk, CeilingOk;
    CoreParts(s);
    CoreEntry(s, a);
    var e := s.children[a];
    if env.first != Launches {
      NoticeKeeps(s, a, OtherError, requestId);
      RemoveKeeps(if requestId.Some? then Notice(s, a, OtherError, requestId) else s, a);
    } else {
      var next := e.(child := s.world.nextChild);
      StartedWorld(s, a, e.parsed.resume, e.parsed.engine, e.parsed.settings.axes, e.ceiling);
      LocksKept(s.children, s.active, a, next);
      ResetKept(s.children, s.world.resets, a, next);
      Replaced(s, a, next, s.active, Started(s, a, e.parsed.resume, e.parsed.settings.axes, e.ceiling).world);
    }
  }

  /** A recovery moves one entry's lock, session and kind, and nothing else. */
  lemma SelectRecoveryFrame(s: State, a: string, r: Recovery)
    requires a in s.children
    ensures var t := SelectRecovery(s, a, r).1;
            && t.children.Keys == s.children.Keys
            && t.children[a] == s.children[a].(parsed := t.children[a].parsed, locked := t.children[a].locked,
                                              candidate := t.children[a].candidate)
            && (forall b :: b in s.children && b != a ==> t.children[b] == s.children[b])
            && t == s.(children := t.children, active := t.active)
  {
  }

  lemma SelectRecoveryKeeps(s: State, a: string, r: Recovery)
    requires Core(s) && a in s.children && s.children[a].pendingReset.None?
    ensures Core(SelectRecovery(s, a, r).1)
  {
    hide Core, Locks, Processes, Entries, Pendings, SpawnsTracked, ResetsTracked, DesksOk, LaunchesOk, Published,
         BudgetOk, CeilingOk;
    var e := s.children[a];
    var (target, candidate) := RecoveryTarget(e, r);
    if !r.Refused? && !r.Absent? && !(target != e.locked && target.Some? && target.value in s.active) {
      LockMoved(s, a, target, candidate);
      var next := e.(parsed := e.parsed.(resume := target), locked := target, candidate := candidate);
      var table := Claim(if e.locked != target then Release(s.active, e.locked) else s.active, target);
      CoreParts(s);
      assert table == Claim(Release(s.active, e.locked), target) by { LockListed(s, a); }
      assert SelectRecovery(s, a, r).1 == Put(s.(active := table), a, next);
    }
  }

  lemma LockListed(s: State, a: string)
    requires Core(s) && a in s.children
    ensures s.children[a].locked.Some? ==> s.children[a].locked.value in s.active
  {
  }

  /** Moving a lock to a session nobody else holds. */
  lemma LockMoved(s: State, a: string, target: Option<string>, candidate: bool)
    requires Core(s) && a in s.children && s.children[a].pendingReset.None?
    requires target == s.children[a].locked || target.None? || target.value !in s.active
    ensures var e := s.children[a];
            Core(Put(s.(active := Claim(Release(s.active, e.locked), target)), a,
                     e.(parsed := e.parsed.(resume := target), locked := target, candidate := candidate)))
  {
    hide Core, Locks, Processes, Entries, Pendings, SpawnsTracked, ResetsTracked, DesksOk, LaunchesOk, Published,
         BudgetOk, CeilingOk;
    CoreParts(s);
    CoreEntry(s, a);
    var e := s.children[a];
    var next := e.(parsed := e.parsed.(resume := target), locked := target, candidate := candidate);
    FreeIsNotForeign(s.children, s.active, a, target);
    LocksMove(s.children, s.active, a, next);
    ResetKept(s.children, s.world.resets, a, next);
    Replaced(s, a, next, Claim(Release(s.active, e.locked), target), s.world);
  }

  lemma ExitOfCycleKeeps(s: State, a: string, cycle: Option<Cycle>, env: Env)
    requires Core(s) && a in s.children && Idle(s, a) && s.children[a].pendingReset.None?
    ensures Core(ExitOfCycle(s, a, cycle, env))
  {
    hide Core, Locks, Processes, Entries, Pendings, SpawnsTracked, ResetsTracked, DesksOk, LaunchesOk, Published,
         BudgetOk, CeilingOk, SelectRecovery, Relaunch, Remove;
    CoreParts(s);
    CoreEntry(s, a);
    var requestId := s.children[a].parsed.requestId;
    if cycle == Some(SwitchCycle) {
      RelaunchKeeps(s, a, requestId, env);
    } else {
      SelectRecoveryKeeps(s, a, env.recovery);
      SelectRecoveryFrame(s, a, env.recovery);
      var (ok, t) := SelectRecovery(s, a, env.recovery);
      if ok {
        RelaunchKeeps(t, a, requestId, env);
      } else {
        NoticeKeeps(s, a, OtherError, requestId);
        RemoveKeeps(Notice(s, a, OtherError, requestId), a);
      }
    }
  }

  lemma BudgetSteps(e: Entry, now: int)
    requires BudgetOk(e.windows, e.windowStart, e.restarts, now)
    ensures var over := now - e.windowStart > RESTART_WINDOW_MS;
            var rolled := if over then e.windows + Opened(now) else e.windows;
            var start, used := if over then now else e.windowStart, if over then 0 else e.restarts;
            && rolled != []
            && BudgetOk(rolled, start, used, now)
            && (used < MAX_RESTARTS ==> BudgetOk(Charged(rolled, now), start, used + 1, now))
  {
    RolledIsBudgeted(e.windows, now, now);
    var rolled := Rolled(e.windows, now);
    if |Current(rolled).relaunches| < MAX_RESTARTS { ChargedIsBudgeted(rolled, now); }
  }

  lemma ExitOfCrashKeeps(s: State, a: string, env: Env)
    requires Core(s) && a in s.children && Idle(s, a) && s.children[a].pendingReset.None?
    requires env.now == s.world.clock
    ensures Core(ExitOfCrash(s, a, env))
  {
    hide Core, Locks, Processes, Entries, Pendings, SpawnsTracked, ResetsTracked, DesksOk, LaunchesOk, Published,
         BudgetOk, CeilingOk, SelectRecovery, Relaunch, Remove;
    SelectRecoveryKeeps(s, a, env.recovery);
    SelectRecoveryFrame(s, a, env.recovery);
    var (ok, t) := SelectRecovery(s, a, env.recovery);
    if ok {
      ChargeKeeps(t, a, env);
    } else {
      RemoveKeeps(s, a);
      assert ExitOfCrash(s, a, env) == Remove(s, a);
    }
  }

  lemma ChargedEntryOk(e: Entry, now: int)
    requires EntryOk(e, now)
    ensures EntryOk(ChargeCrash(e, now).0, now)
    ensures var f := ChargeCrash(e, now).0;
            f == e.(restarts := f.restarts, windowStart := f.windowStart, windows := f.windows)
  {
    hide BudgetOk, CeilingOk;
    BudgetSteps(e, now);
  }

  lemma ChargeKeeps(s: State, a: string, env: Env)
    requires Core(s) && a in s.children && Idle(s, a) && s.children[a].pendingReset.None?
    requires env.now == s.world.clock
    ensures Core(Charge(s, a, env))
  {
    hide Core, EntryOk, Relaunch, Remove, ChargeCrash;
    CoreEntry(s, a);
    ChargedEntryOk(s.children[a], env.now);
    var (e, up) := ChargeCrash(s.children[a], env.now);
    Touched(s, a, e);
    if up {
      RelaunchKeeps(Put(s, a, e), a, None, env);
    } else {
      RemoveKeeps(Put(s, a, e), a);
    }
  }

  lemma RelaunchForResetKeeps(s: State, a: string, env: Env)
    requires Core(s) && a in s.children && Idle(s, a) && s.children[a].pendingReset.Some?
    requires RollbackIsOwn(s, a) && env.now == s.world.clock
    ensures Core(RelaunchForReset(s, a, env))
  {
    hide Core, Locks, Processes, Entries, Pendings, SpawnsTracked, ResetsTracked, DesksOk, LaunchesOk, Published,
         BudgetOk, CeilingOk;
    CoreParts(s);
    CoreEntry(s, a);
    var e := s.children[a];
    var p := e.pendingReset.value;
    if env.first != Launches {
      RollbackKeeps(s, a, env);
    } else {
      var started := Started(s, a, None, e.parsed.settings.axes, e.ceiling);
      var next := FreshBudget(e.(child := s.world.nextChild, candidate := false, locked := None, pendingReset := None),
                              env.now);
      var w := ResetAnswer(started, a, p, FreshSession).world;
      FreshBudgetOk(env.now);
      StartedWorld(s, a, None, e.parsed.engine, e.parsed.settings.axes, e.ceiling);
      ResetReplied(started.world, p.ticket, ResetReply(a, p.requestId, p.mode, FreshSession));
      ResetClosed(s.children, s.world.resets, a, next, w.resets);
      LocksMove(s.children, s.active, a, next);
      Replaced(s, a, next, Release(s.active, p.oldResume), w);
    }
  }

  /** The reset ends without a process: its ticket is answered, then the entry goes. */
  lemma ResetAnsweredKeeps(s: State, a: string, e: Entry, outcome: ResetOutcome)
    requires Core(s) && a in s.children && s.children[a].pendingReset.Some?
    requires e.pendingReset.None? && e.child == s.children[a].child && e.locked == s.children[a].locked
    requires EntryOk(e, s.world.clock)
    ensures Core(ResetAnswer(Put(s, a, e), a, s.children[a].pendingReset.value, outcome))
  {
    hide Core, Locks, Processes, Entries, Pendings, SpawnsTracked, ResetsTracked, DesksOk, LaunchesOk, Published,
         BudgetOk, CeilingOk;
    CoreParts(s);
    CoreEntry(s, a);
    var p := s.children[a].pendingReset.value;
    var w := ResetAnswer(s, a, p, outcome).world;
    ResetReplied(s.world, p.ticket, ResetReply(a, p.requestId, p.mode, outcome));
    ResetClosed(s.children, s.world.resets, a, e, w.resets);
    LocksKept(s.children, s.active, a, e);
    Replaced(s, a, e, s.active, w);
  }

  lemma RollbackKeeps(s: State, a: string, env: Env)
    requires Core(s) && a in s.children && Idle(s, a) && s.children[a].pendingReset.Some?
    requires RollbackIsOwn(s, a) && env.now == s.world.clock
    ensures Core(Rollback(s, a, env))
  {
    hide Core, Locks, Processes, Entries, Pendings, SpawnsTracked, ResetsTracked, DesksOk, LaunchesOk, Published,
         BudgetOk, CeilingOk;
    CoreParts(s);
    CoreEntry(s, a);
    var e := s.children[a];
    var p := e.pendingReset.value;
    if p.previousSessionId.None? || p.previousSessionId.value == "" || env.second != Launches {
      AbandonedReset(s, a);
    } else {
      var back := p.previousSessionId;
      var base := e.(child := s.world.nextChild, candidate := false, locked := back, pendingReset := None,
                     parsed := e.parsed.(resume := back));
      var next := FreshBudget(base, env.now);
      FreshBudgetOk(env.now);
      var started := Started(s, a, back, e.parsed.settings.axes, e.ceiling);
      var w := ResetAnswer(started, a, p, SpawnFailed).world;
      StartedWorld(s, a, back, e.parsed.engine, e.parsed.settings.axes, e.ceiling);
      ResetReplied(started.world, p.ticket, ResetReply(a, p.requestId, p.mode, SpawnFailed));
      ResetClosed(s.children, s.world.resets, a, next, w.resets);
      LocksMove(s.children, s.active, a, next);
      var table := if p.oldResume != back then Claim(Release(s.active, p.oldResume), back) else s.active;
      assert table == Claim(Release(s.active, e.locked), back);
      Replaced(s, a, next, table, w);
    }
  }

  /** Dropping an entry whose rollback failed: the answer and the removal as one step, since
    * in between the entry holds a lock its stripped launch state no longer names. */
  lemma AbandonedReset(s: State, a: string)
    requires Core(s) && a in s.children && Idle(s, a) && s.children[a].pendingReset.Some?
    ensures var e := s.children[a];
            Core(Remove(ResetAnswer(Put(s, a, e.(pendingReset := None)), a, e.pendingReset.value, RollbackFailed), a))
  {
    hide Core, Locks, Processes, Entries, Pendings, SpawnsTracked, ResetsTracked, DesksOk, LaunchesOk, Published,
         BudgetOk, CeilingOk;
    CoreParts(s);
    CoreEntry(s, a);
    var e := s.children[a];
    var p := e.pendingReset.value;
    var given := e.(pendingReset := None, parsed := e.parsed.(resume := e.locked));
    ResetAnsweredKeeps(s, a, given, RollbackFailed);
    var t := ResetAnswer(Put(s, a, given), a, p, RollbackFailed);
    RemoveKeeps(t, a);
    var u := ResetAnswer(Put(s, a, e.(pendingReset := None)), a, p, RollbackFailed);
    assert t.children - {a} == u.children - {a};
    assert Remove(t, a) == Remove(u, a);
  }

  /** A stop that finds a reset pending drops its ticket unanswered. */
  lemma StoppedExitKeeps(s: State, a: string)
    requires Core(s) && a in s.children && Idle(s, a)
    ensures Core(RemoveStopped(s, a))
  {
    hide Core, Locks, Processes, Entries, Pendings, SpawnsTracked, ResetsTracked, DesksOk, LaunchesOk, Published,
         BudgetOk, CeilingOk;
    var e := s.children[a];
    StopDropsReset(s, a);
    var given := e.(pendingReset := None, parsed := e.parsed.(resume := e.locked));
    var t := DropReset(Put(s, a, given), e);
    RemoveKeeps(t, a);
    var u := DropReset(Put(s, a, e.(pendingReset := None)), e);
    assert t.children - {a} == u.children - {a};
    assert Remove(t, a) == Remove(u, a);
  }

  lemma StopDropsReset(s: State, a: string)
    requires Core(s) && a in s.children
    ensures var e := s.children[a];
            Core(DropReset(Put(s, a, e.(pendingReset := None, parsed := e.parsed.(resume := e.locked))), e))
  {
    hide Core, Locks, Processes, Entries, Pendings, SpawnsTracked, ResetsTracked, DesksOk, LaunchesOk, Published,
         BudgetOk, CeilingOk;
    CoreParts(s);
    CoreEntry(s, a);
    var e := s.children[a];
    var given := e.(pendingReset := None, parsed := e.parsed.(resume := e.locked));
    if e.pendingReset.Some? {
      TicketIsOpen(s, a);
      var w := DropReset(s, e).world;
      ResetDropped(s.world, e.pendingReset.value.ticket);
      ResetClosed(s.children, s.world.resets, a, given, w.resets);
      LocksKept(s.children, s.active, a, given);
      Replaced(s, a, given, s.active, w);
    } else {
      Touched(s, a, given);
    }
  }

  lemma TicketIsOpen(s: State, a: string)
    requires Core(s) && a in s.children && s.children[a].pendingReset.Some?
    ensures s.children[a].pendingReset.value.ticket in s.world.resets.open
  {
  }

  lemma OnExitKeeps(s: State, a: string, env: Env)
    requires Core(s) && a in s.children && Idle(s, a) && RollbackIsOwn(s, a) && env.now == s.world.clock
    ensures Core(OnExit(s, a, env))
  {
    hide Core, Locks, Processes, Entries, Pendings, SpawnsTracked, ResetsTracked, DesksOk, LaunchesOk, Published,
         BudgetOk, CeilingOk, RelaunchForReset, ExitOfCycle, ExitOfCrash, RemoveStopped, Budgeted;
    var e := s.children[a];
    Unflagged(s, a, Exiting(e));
    var u := Put(s, a, Exiting(e));
    if e.stopping {
      StoppedExitKeeps(u, a);
    } else if e.pendingReset.Some? {
      RelaunchForResetKeeps(u, a, env);
    } else if e.restarting {
      ExitOfCycleKeeps(u, a, e.cycle, env);
    } else {
      ExitOfCrashKeeps(u, a, env);
    }
  }

  /** Clearing the flags of an entry keeps the core and what is running. */
  lemma Unflagged(s: State, a: string, e: Entry)
    requires Core(s) && a in s.children
    requires e == s.children[a].(timer := e.timer, escalated := e.escalated, restarting := e.restarting,
                                 cycle := e.cycle)
    ensures Core(Put(s, a, e)) && (Idle(s, a) ==> Idle(Put(s, a, e), a))
    ensures RollbackIsOwn(s, a) ==> RollbackIsOwn(Put(s, a, e), a)
  {
    hide Core, Locks, Processes, Entries, Pendings, SpawnsTracked, ResetsTracked, DesksOk, LaunchesOk, Published,
         BudgetOk, CeilingOk, Budgeted;
    CoreEntry(s, a);
    Touched(s, a, e);
  }
}
