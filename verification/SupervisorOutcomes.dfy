/** What comes of each command and each exit: who runs afterwards, on which session, with which
  * privileges, and who does not. */
module SupervisorOutcomes {
  import opened Wrappers
  import opened Permissions
  import opened CrashBudget
  import opened Desks
  import opened SupervisorSpec
  import opened SupervisorSafety
  import opened SupervisorSteps
  import opened SupervisorFrames
  import opened SupervisorCommands
  import opened SupervisorRuns
  import opened SupervisorTheorems
  import opened SupervisorMoves

  // ---- Up and down ----------------------------------------------------------

  /** One new process of `a`, resuming `session` with the privileges of the entry `e`. */
  predicate Starts(s: State, t: State, a: string, e: Entry, session: Option<string>) {
    var c := s.world.nextChild;
    && t.world.nextChild == c + 1 && t.world.live == s.world.live[c := a]
    && t.world.launches == s.world.launches + [Launch(a, c, session, e.parsed.settings.axes, e.ceiling)]
  }

  predicate StartsNothing(s: State, t: State) {
    t.world.launches == s.world.launches && t.world.live == s.world.live && t.world.nextChild == s.world.nextChild
  }

  /** The agent runs again under the entry `e`, on a session it alone holds. */
  ghost predicate Back(s: State, t: State, a: string, e: Entry, session: Option<string>)
    requires a in s.children
  {
    && Starts(s, t, a, e, session)
    && t.children == s.children[a := e]
    && e.child == s.world.nextChild && e.locked == e.parsed.resume == session
    && LockMovedTo(s.active, t.active, s.children[a].locked, session) && HeldByNoOther(t.children, a, session)
  }

  /** The agent is gone: no process was started and exactly its lock is free. */
  ghost predicate Down(s: State, t: State, a: string)
    requires a in s.children
  {
    && StartsNothing(s, t) && t.children == s.children - {a}
    && LockMovedTo(s.active, t.active, s.children[a].locked, None)
  }

  // ---- Stopped agents -------------------------------------------------------

  /** The exit of a stopped agent's process removes it: nothing is started, its lock is freed,
    * nothing is reported, and a reset that was pending is given up. */
  lemma StoppedIsGone(s: State, a: string, env: Env)
    requires a in s.children && s.children[a].stopping
    ensures var e, t := s.children[a], Step(s, Exit(a, s.children[a].child, env));
            && Down(s, t, a) && a !in t.pendingSwitches
            && t.world.results == s.world.results && t.world.resets.replies == s.world.resets.replies
            && (e.pendingReset.Some? ==> e.pendingReset.value.ticket in t.world.resets.dropped)
  {
    var t := Step(s, Exit(a, s.children[a].child, env));
    assert t.children == s.children - {a};
  }

  /** Nothing can start a process for `a` any more. */
  predicate Silenced(s: State, a: string) {
    a !in s.pendingSpawns && (a in s.children ==> s.children[a].stopping)
  }

  /** Told to stop, or everything is. */
  predicate Stops(ev: Event, a: string) { ev == Stop(a) || ev.StopEverything? }

  lemma StopSilences(s: State, ev: Event, a: string)
    requires Inv(s) && Stops(ev, a)
    ensures Silenced(Step(s, ev), a)
  {
    hide Core, Tidy;
    SpawnsAreForAbsent(s);
  }

  lemma SpawnsAreForAbsent(s: State)
    requires Inv(s)
    ensures s.pendingSpawns.Keys !! s.children.Keys
  {
    hide Locks, Processes, Entries, SpawnsTracked, ResetsTracked, DesksOk, LaunchesOk, Published, PendingIds, Tidy;
  }

  predicate SpawnsIt(ev: Event, a: string) { ev.Spawn? && ev.agent == Some(a) }

  /** A step that is no spawn of `a` leaves it silenced and starts nothing for it. */
  lemma SilencedStays(s: State, ev: Event, a: string)
    requires Silenced(s, a) && !SpawnsIt(ev, a)
    requires Inv(s) && Enabled(s, ev) && Coordinated(s, ev)
    ensures Silenced(Step(s, ev), a)
    ensures forall l :: l in NewLaunches(s, ev) ==> l.agent != a
  {
    hide Inv, Enabled, Coordinated, Touches, About, Step, Processes, Locks;
    LaunchesAreSafe(s, ev);
    if Subject(ev) == Some(a) {
      OwnStepSilent(s, ev, a);
    } else if Subject(ev).Some? {
      StepIsAbout(s, ev);
      OthersAlone(s, Step(s, ev), Subject(ev).value, a);
    } else {
      NoSubjectSilent(s, ev, a);
      NoLaunch(s, ev);
    }
  }

  lemma OthersAlone(s: State, t: State, b: string, a: string)
    requires Touches(s, t, b) && a != b && Silenced(s, a)
    ensures Silenced(t, a)
  {
    hide LaunchesOne, DropsOwn, KeptOrNew;
    assert a in t.children <==> a in t.children - {b};
    assert a in s.children <==> a in s.children - {b};
    if a in t.children { assert t.children[a] == (t.children - {b})[a] == (s.children - {b})[a]; }
    assert a in t.pendingSpawns <==> a in t.pendingSpawns - {b};
    assert a in s.pendingSpawns <==> a in s.pendingSpawns - {b};
  }

  lemma NoSubjectSilent(s: State, ev: Event, a: string)
    requires Silenced(s, a) && Subject(ev).None?
    ensures Silenced(Step(s, ev), a)
  {
    hide AcceptedSpawn, SpawnChecked, HandleStop, HandleRestart, HandleSwitch, SwitchChecked, HandleReset, Exited,
         TimerFired;
  }

  lemma OwnStepSilent(s: State, ev: Event, a: string)
    requires Silenced(s, a) && Subject(ev) == Some(a) && !SpawnsIt(ev, a)
    ensures Silenced(Step(s, ev), a) && Step(s, ev).world.launches == s.world.launches
  {
    hide HandleSpawn, HandleRestart, HandleSwitch, SwitchChecked, HandleReset, Exited, TimerFired;
    match ev
    case Restart(_, requestId, env) => RestartSilent(s, a, requestId, env);
    case Switch(_, payload, check, env) => SwitchSilent(s, a, payload, check, env);
    case SwitchCheck(_, k, outcome, env) => SwitchCheckSilent(s, a, k, outcome, env);
    case Reset(_, payload, env) => ResetSilent(s, a, payload, env);
    case Exit(_, c, env) => ExitSilent(s, a, c, env);
    case Timer(_, env) => TimerSilent(s, a, env);
    case _ =>
  }

  lemma RestartSilent(s: State, a: string, requestId: Option<string>, env: Env)
    requires Silenced(s, a)
    ensures var t := HandleRestart(s, a, requestId, env); Silenced(t, a) && t.world.launches == s.world.launches
  {
  }

  lemma SwitchSilent(s: State, a: string, payload: SwitchPayload, check: Check, env: Env)
    requires Silenced(s, a)
    ensures var t := HandleSwitch(s, a, payload, check, env); Silenced(t, a) && t.world.launches == s.world.launches
  {
  }

  lemma SwitchCheckSilent(s: State, a: string, ticket: nat, outcome: CheckOutcome, env: Env)
    requires Silenced(s, a)
    ensures var t := SwitchChecked(s, a, ticket, outcome, env); Silenced(t, a) && t.world.launches == s.world.launches
  {
  }

  lemma StoppedExit(s: State, a: string, env: Env)
    requires a in s.children && s.children[a].stopping && a !in s.pendingSpawns
    ensures var t := OnExit(s, a, env);
            a !in t.children && a !in t.pendingSpawns && t.world.launches == s.world.launches
  {
  }

  lemma ResetSilent(s: State, a: string, payload: ResetPayload, env: Env)
    requires Silenced(s, a)
    ensures var t := HandleReset(s, a, payload, env); Silenced(t, a) && t.world.launches == s.world.launches
  {
    hide AcceptedReset, ResetParsed;
    if a in s.children && payload.requestId.Some? && payload.mode.Some? {
      var asked := AskedReset(s, ResetAsk(a, payload.requestId.value, payload.mode.value));
      var p := PendingReset(s.world.tickets, payload.requestId.value, payload.mode.value, payload.previousSessionId,
                            s.children[a].parsed.resume, s.children[a].parsed);
      AcceptedSilent(asked, a, p, ResetParsed(s.children[a].parsed, payload), env);
    }
  }

  lemma AcceptedSilent(s: State, a: string, p: PendingReset, next: Parsed, env: Env)
    requires a in s.children && Silenced(s, a)
    ensures var t := AcceptedReset(s, a, p, next, env); Silenced(t, a) && t.world.launches == s.world.launches
  {
    hide OnExit, ExceedsCeiling;
    var cancelled := DropReset(s.(pendingSwitches := s.pendingSwitches - {a}), s.children[a]);
    StoppedExit(Begun(cancelled, a, p, next, env.now), a, env);
  }

  lemma ExitSilent(s: State, a: string, child: nat, env: Env)
    requires Silenced(s, a)
    ensures var t := Exited(s, a, child, env); Silenced(t, a) && t.world.launches == s.world.launches
  {
    hide OnExit;
    if a in s.children { StoppedExit(s, a, env); }
  }

  lemma TimerSilent(s: State, a: string, env: Env)
    requires Silenced(s, a)
    ensures var t := TimerFired(s, a, env); Silenced(t, a) && t.world.launches == s.world.launches
  {
    hide OnExit;
    if a in s.children { StoppedExit(Put(s, a, Expired(s.children[a])), a, env); }
  }

  /** Once it is stopped, no process of an agent is ever started again, through any restart, switch,
    * reset, timer or exit, until a spawn asks for it. */
  lemma {:induction false} StopIsFinal(s: State, stop: Event, a: string, evs: seq<Event>)
    requires Inv(s) && Stops(stop, a) && Enabled(s, stop) && Coordinated(s, stop) && Allowed(Step(s, stop), evs)
    requires forall i :: 0 <= i < |evs| ==> !SpawnsIt(evs[i], a)
    ensures var t := After(Step(s, stop), evs);
            && Silenced(t, a) && |s.world.launches| <= |t.world.launches|
            && (forall i :: |s.world.launches| <= i < |t.world.launches| ==> t.world.launches[i].agent != a)
  {
    hide Inv, Enabled, Coordinated, Step, Silenced;
    var u := Step(s, stop);
    StepKeepsInv(s, stop);
    if evs == [] {
      StopSilences(s, stop, a);
      StopStartsNothing(s, stop, a);
    } else {
      var before, ev := evs[..|evs| - 1], evs[|evs| - 1];
      StopIsFinal(s, stop, a, before);
      RunKeepsInv(u, before);
      SilencedStays(After(u, before), ev, a);
      LaunchesAreSafe(After(u, before), ev);
    }
  }

  lemma StopStartsNothing(s: State, stop: Event, a: string)
    requires Stops(stop, a)
    ensures Step(s, stop).world.launches == s.world.launches
  {
  }

  // ---- Exits ----------------------------------------------------------------

  /** What an exit finds at the checkpoint: a live session, a session not yet bound, or nothing that
    * changes which session comes next. */
  predicate Checkpoint(e: Entry, f: Entry, r: Recovery) {
    match r
    case Live(id) => f.parsed.resume == Some(id) && !f.candidate
    case Unbound(Some(id)) => f.parsed.resume == Some(id) && f.candidate
    case Unbound(None) =>
      if e.candidate then f.parsed.resume == None && !f.candidate
      else f.parsed.resume == e.parsed.resume && f.candidate == e.candidate
    case _ => f.parsed.resume == e.parsed.resume && f.candidate == e.candidate
  }

  /** Another agent holds the session the checkpoint names, or there is no telling from it. */
  predicate Unrecoverable(s: State, a: string, r: Recovery)
    requires a in s.children
  {
    match r
    case Refused => true
    case Live(id) => Some(id) != s.children[a].locked && id in s.active
    case Unbound(Some(id)) => Some(id) != s.children[a].locked && id in s.active
    case _ => false
  }

  /** The budget has room: its window is past, or fewer than five relaunches are charged to it. */
  predicate HasRoom(e: Entry, now: int) { now - e.windowStart > 60_000 || e.restarts < 5 }

  /** The entry after one more charged relaunch. */
  predicate ChargedOnce(e: Entry, f: Entry, now: int) {
    if now - e.windowStart > 60_000 then f.windowStart == now && f.restarts == 1
    else f.windowStart == e.windowStart && f.restarts == e.restarts + 1
  }

  /** The launch state is the one the process ended with, but for the session. */
  predicate SameLaunchState(e: Entry, f: Entry) {
    && f.parsed == e.parsed.(resume := f.parsed.resume) && f.ceiling == e.ceiling
    && !f.stopping && !f.restarting && f.pendingReset.None? && !f.timer
  }

  /** Only this entry changed, and the lock went to the session it now holds, which was free. */
  ghost predicate Moved(s: State, t: State, a: string, f: Entry)
    requires a in s.children
  {
    var e := s.children[a];
    && t == s.(children := s.children[a := f], active := t.active)
    && (f.locked == e.locked || f.locked.None? || f.locked.value !in s.active)
    && LockMovedTo(s.active, t.active, e.locked, f.locked) && HeldByNoOther(t.children, a, f.locked)
  }

  /** The entry the checkpoint leaves. */
  predicate Recovered(e: Entry, f: Entry, r: Recovery) {
    && f == e.(parsed := e.parsed.(resume := f.locked), locked := f.locked, candidate := f.candidate)
    && Checkpoint(e, f, r)
  }

  lemma RecoveryOutcome(s: State, a: string, r: Recovery)
    requires Core(s) && a in s.children && s.children[a].pendingReset.None?
    ensures var (ok, t) := SelectRecovery(s, a, r);
            && (ok <==> !Unrecoverable(s, a, r)) && (!ok ==> t == s)
            && (ok ==> Moved(s, t, a, t.children[a]) && Recovered(s.children[a], t.children[a], r))
  {
    hide Core, LockMovedTo, HeldByNoOther, MoveLock;
    OwnLockListed(s, a);
    LockIsSession(s, a);
    RecoveryMovesTheLock(s, a, r);
    if r.Absent? {
      assert s.children[a := s.children[a]] == s.children;
      SameLock(s.active, s.children[a].locked);
    } else if !Unrecoverable(s, a, r) {
      var (target, candidate) := RecoveryTarget(s.children[a], r);
      MoveLockIs(s, a, target, candidate);
    }
  }

  lemma SameLock(active: set<string>, lock: Option<string>)
    requires lock.Some? ==> lock.value in active
    ensures LockMovedTo(active, active, lock, lock)
  {
  }

  lemma MoveLockIs(s: State, a: string, target: Option<string>, candidate: bool)
    requires a in s.children
    ensures var e, t := s.children[a], MoveLock(s, a, target, candidate);
            && t == s.(children := t.children, active := t.active)
            && t.children == s.children[a := e.(parsed := e.parsed.(resume := target), locked := target,
                                                candidate := candidate)]
  {
  }

  lemma LockIsSession(s: State, a: string)
    requires Core(s) && a in s.children && s.children[a].pendingReset.None?
    ensures s.children[a].locked == s.children[a].parsed.resume
  {
    hide Locks, Processes, Pendings, SpawnsTracked, ResetsTracked, DesksOk, LaunchesOk, Published, PendingIds,
         BudgetOk, CeilingOk;
  }

  /** What a relaunch that fails says, and to whom. */
  function FailureNotice(a: string, requestId: Option<string>): seq<SpawnReply> {
    if requestId.Some? then [SpawnReply(a, Some(OtherError), requestId)] else []
  }

  lemma RelaunchOutcome(s: State, a: string, requestId: Option<string>, env: Env)
    requires a in s.children
    ensures var e, t := s.children[a], Relaunch(s, a, requestId, env);
            && t.world.resets == s.world.resets
            && (if env.first == Launches then
                  && Starts(s, t, a, e, e.parsed.resume) && t.active == s.active && t.world.results == s.world.results
                  && t.children == s.children[a := e.(child := s.world.nextChild)]
                else
                  && StartsNothing(s, t) && t.children == s.children - {a} && t.active == Release(s.active, e.locked)
                  && t.world.results == s.world.results + FailureNotice(a, requestId))
  {
    var t := Relaunch(s, a, requestId, env);
    if env.first != Launches { assert t.children == s.children - {a}; }
  }

  /** An entry that moved and was then relaunched, or let go. */
  lemma MovedThenRelaunched(s: State, u: State, a: string, requestId: Option<string>, env: Env)
    requires a in s.children && a in u.children && Moved(s, u, a, u.children[a])
    requires u.children[a].locked == u.children[a].parsed.resume
    ensures var f, t := u.children[a].(child := s.world.nextChild), Relaunch(u, a, requestId, env);
            && t.world.resets == s.world.resets
            && (if env.first == Launches then
                  Back(s, t, a, f, f.parsed.resume) && t.children == s.children[a := f]
                  && t.world.results == s.world.results
                else Down(s, t, a) && t.world.results == s.world.results + FailureNotice(a, requestId))
  {
    hide Relaunch, FailureNotice;
    RelaunchOutcome(u, a, requestId, env);
    var t := Relaunch(u, a, requestId, env);
    if env.first == Launches {
      assert t.children == s.children[a := u.children[a].(child := s.world.nextChild)];
    } else {
      assert t.children == s.children - {a};
    }
  }

  /** The same after the flags of the process that ended are cleared. */
  lemma UnflaggedMove(s: State, u: State, a: string, f: Entry)
    requires a in s.children && Moved(Put(s, a, Exiting(s.children[a])), u, a, f)
    ensures Moved(s, u, a, f)
  {
  }

  lemma RemovedAtOnce(s: State, a: string)
    requires a in s.children
    ensures var t := Remove(Put(s, a, Exiting(s.children[a])), a);
            Down(s, t, a) && t.world == s.world
  {
    assert s.children[a := Exiting(s.children[a])] - {a} == s.children - {a};
  }

  lemma MovedMore(s: State, u: State, a: string, f: Entry)
    requires a in s.children && a in u.children && Moved(s, u, a, u.children[a]) && f.locked == u.children[a].locked
    ensures Moved(s, Put(u, a, f), a, f)
  {
    assert u.children[a := f] == s.children[a := f];
  }

  lemma MovedThenRemoved(s: State, u: State, a: string)
    requires a in s.children && a in u.children && Moved(s, u, a, u.children[a])
    ensures Down(s, Remove(u, a), a) && Remove(u, a).world == s.world
  {
    assert u.children - {a} == s.children - {a};
  }

  lemma ChargeOutcome(e: Entry, now: int)
    ensures var (f, up) := ChargeCrash(e, now);
            && (up <==> HasRoom(e, now)) && (up ==> ChargedOnce(e, f, now))
            && f == e.(restarts := f.restarts, windowStart := f.windowStart, windows := f.windows)
  {
  }

  /** A crash: the agent is brought back exactly when its checkpoint allows, its budget has room
    * and the launch works; then it resumes what the checkpoint names, with the privileges it had,
    * and the relaunch is charged. Otherwise it is gone and its lock is free. Nobody is told. */
  lemma CrashOutcome(s: State, a: string, env: Env)
    requires Core(s) && a in s.children
    requires var e := s.children[a]; !e.stopping && e.pendingReset.None? && !e.restarting
    ensures var e, t := s.children[a], Step(s, Exit(a, s.children[a].child, env));
            && t.world.results == s.world.results && t.world.resets == s.world.resets
            && (if !Unrecoverable(s, a, env.recovery) && HasRoom(e, env.now) && env.first == Launches then
                  && a in t.children
                  && var f := t.children[a];
                     Back(s, t, a, f, f.parsed.resume) && Checkpoint(e, f, env.recovery) && ChargedOnce(e, f, env.now)
                     && SameLaunchState(e, f)
                else Down(s, t, a))
  {
    hide Core, SelectRecovery, Relaunch, ChargeCrash, Back, Down, Moved, Remove;
    var e := s.children[a];
    var u := Put(s, a, Exiting(e));
    Unflagged(s, a, Exiting(e));
    RecoveryOutcome(u, a, env.recovery);
    var (ok, v) := SelectRecovery(u, a, env.recovery);
    assert Exiting(e) == e.(timer := false, escalated := false);
    if ok {
      UnflaggedMove(s, v, a, v.children[a]);
      ChargeOutcome(v.children[a], env.now);
      var (f, up) := ChargeCrash(v.children[a], env.now);
      MovedMore(s, v, a, f);
      if up { MovedThenRelaunched(s, Put(v, a, f), a, None, env); } else { MovedThenRemoved(s, Put(v, a, f), a); }
    } else {
      RemovedAtOnce(s, a);
    }
  }

  /** The end of a deliberate cycle: after a switch the agent resumes the session it switched to,
    * after a restart what its checkpoint names, with the privileges it had, and its budget is not
    * charged. It is gone, and its requester told, when the checkpoint or the launch refuses. */
  lemma CycleOutcome(s: State, a: string, env: Env)
    requires Core(s) && a in s.children
    requires var e := s.children[a]; !e.stopping && e.pendingReset.None? && e.restarting
    ensures var e, t := s.children[a], Step(s, Exit(a, s.children[a].child, env));
            var refused := e.cycle != Some(SwitchCycle) && Unrecoverable(s, a, env.recovery);
            && t.world.resets == s.world.resets
            && (if !refused && env.first == Launches then
                  && a in t.children && t.world.results == s.world.results
                  && var f := t.children[a];
                     Back(s, t, a, f, f.parsed.resume) && SameLaunchState(e, f)
                     && f.restarts == e.restarts && f.windowStart == e.windowStart && f.cycle.None?
                     && (if e.cycle == Some(SwitchCycle) then f.parsed.resume == e.parsed.resume
                         else Checkpoint(e, f, env.recovery))
                else
                  && Down(s, t, a)
                  && t.world.results == s.world.results
                       + if refused then [SpawnReply(a, Some(OtherError), e.parsed.requestId)]
                         else FailureNotice(a, e.parsed.requestId))
  {
    hide Core, SelectRecovery, Relaunch, Back, Down, Moved, Remove, FailureNotice;
    var e := s.children[a];
    var u := Put(s, a, Exiting(e));
    Unflagged(s, a, Exiting(e));
    if e.cycle == Some(SwitchCycle) {
      OwnLockListed(s, a);
      LockIsSession(s, a);
      UnmovedYet(s, a);
      MovedThenRelaunched(s, u, a, e.parsed.requestId, env);
    } else {
      RecoveryOutcome(u, a, env.recovery);
      var (ok, v) := SelectRecovery(u, a, env.recovery);
      if ok {
        UnflaggedMove(s, v, a, v.children[a]);
        MovedThenRelaunched(s, v, a, e.parsed.requestId, env);
      } else {
        RefusedCycle(s, a);
      }
    }
  }

  lemma UnmovedYet(s: State, a: string)
    requires Core(s) && a in s.children
    ensures Moved(s, Put(s, a, Exiting(s.children[a])), a, Exiting(s.children[a]))
  {
    hide Core;
    OwnLockListed(s, a);
  }

  lemma RefusedCycle(s: State, a: string)
    requires a in s.children
    ensures var e := s.children[a];
            var t := Remove(Notice(Put(s, a, Exiting(e)), a, OtherError, e.parsed.requestId), a);
            && Down(s, t, a) && t.world.resets == s.world.resets
            && t.world.results == s.world.results + [SpawnReply(a, Some(OtherError), e.parsed.requestId)]
  {
    assert s.children[a := Exiting(s.children[a])] - {a} == s.children - {a};
  }

  /** The answer to a reset. */
  predicate Answered(s: State, t: State, a: string, p: PendingReset, outcome: ResetOutcome) {
    t.world.resets == Reply(s.world.resets, p.ticket, ResetReply(a, p.requestId, p.mode, outcome))
  }

  /** The exit a reset waits for: the agent starts afresh without a session, or, when that launch
    * fails, goes back to the session the command named, under the settings the reset brought
    * either way and with a full budget; when that fails too it is gone. The reset is answered. */
  lemma ResetOutcomeIs(s: State, a: string, env: Env)
    requires Core(s) && a in s.children && RollbackIsOwn(s, a)
    requires var e := s.children[a]; !e.stopping && e.pendingReset.Some?
    ensures var e, t := s.children[a], Step(s, Exit(a, s.children[a].child, env));
            var p := e.pendingReset.value;
            && t.world.results == s.world.results
            && (if env.first == Launches then
                  && a in t.children && Answered(s, t, a, p, FreshSession)
                  && var f := t.children[a];
                     Back(s, t, a, f, None) && SameLaunchState(e, f) && !f.candidate
                     && f.restarts == 0 && f.windowStart == env.now
                else if RollbackWorks(p, env) then
                  && a in t.children && Answered(s, t, a, p, SpawnFailed)
                  && var f := t.children[a];
                     Back(s, t, a, f, p.previousSessionId) && SameLaunchState(e, f) && !f.candidate
                     && f.restarts == 0 && f.windowStart == env.now
                else Down(s, t, a) && Answered(s, t, a, p, RollbackFailed))
  {
    hide Core, Rollback, Back, Down, RollbackWorks;
    var e := s.children[a];
    var u := Put(s, a, Exiting(e));
    Unflagged(s, a, Exiting(e));
    OldResumeIsLock(s, a);
    OwnLockListed(s, a);
    if env.first == Launches {
      FreshOutcome(s, a, env);
    } else {
      RollbackOutcome(s, a, env);
    }
  }

  lemma FreshOutcome(s: State, a: string, env: Env)
    requires Core(s) && a in s.children && s.children[a].pendingReset.Some? && !s.children[a].stopping
    requires env.first == Launches
    ensures var e, t := s.children[a], RelaunchForReset(Put(s, a, Exiting(s.children[a])), a, env);
            && t.world.results == s.world.results && Answered(s, t, a, e.pendingReset.value, FreshSession)
            && a in t.children
            && var f := t.children[a];
               Back(s, t, a, f, None) && SameLaunchState(e, f) && !f.candidate
               && f.restarts == 0 && f.windowStart == env.now
  {
    hide Core;
    OldResumeIsLock(s, a);
    NoSessionDuringReset(s, a);
  }

  lemma NoSessionDuringReset(s: State, a: string)
    requires Core(s) && a in s.children && s.children[a].pendingReset.Some?
    ensures s.children[a].parsed.resume.None?
  {
    hide Locks, Processes, Pendings, SpawnsTracked, ResetsTracked, DesksOk, LaunchesOk, Published, PendingIds,
         BudgetOk, CeilingOk;
  }

  lemma RollbackOutcome(s: State, a: string, env: Env)
    requires Core(s) && a in s.children && RollbackIsOwn(s, a)
    requires s.children[a].pendingReset.Some? && !s.children[a].stopping
    ensures var e, t := s.children[a], Rollback(Put(s, a, Exiting(s.children[a])), a, env);
            var p := e.pendingReset.value;
            && t.world.results == s.world.results
            && (if RollbackWorks(p, env) then
                  && a in t.children && Answered(s, t, a, p, SpawnFailed)
                  && var f := t.children[a];
                     Back(s, t, a, f, p.previousSessionId) && SameLaunchState(e, f) && !f.candidate
                     && f.restarts == 0 && f.windowStart == env.now
                else Down(s, t, a) && Answered(s, t, a, p, RollbackFailed))
  {
    hide Core;
    OwnLockListed(s, a);
    OldResumeIsLock(s, a);
    if RollbackWorks(s.children[a].pendingReset.value, env) {
      RollbackBack(s, a, env);
    } else {
      RollbackDown(s, a, env);
    }
  }

  lemma RollbackDown(s: State, a: string, env: Env)
    requires a in s.children && s.children[a].pendingReset.Some?
    requires !RollbackWorks(s.children[a].pendingReset.value, env)
    ensures var t := Rollback(Put(s, a, Exiting(s.children[a])), a, env);
            && t.world.results == s.world.results && Down(s, t, a)
            && Answered(s, t, a, s.children[a].pendingReset.value, RollbackFailed)
  {
    assert Rollback(Put(s, a, Exiting(s.children[a])), a, env).children == s.children - {a};
  }

  lemma RollbackBack(s: State, a: string, env: Env)
    requires a in s.children && s.children[a].pendingReset.Some? && RollbackWorks(s.children[a].pendingReset.value, env)
    requires s.children[a].pendingReset.value.oldResume == s.children[a].locked && !s.children[a].stopping
    requires s.children[a].locked.Some? ==> s.children[a].locked.value in s.active
    requires HeldByNoOther(s.children, a, s.children[a].pendingReset.value.previousSessionId)
    ensures var e, t := s.children[a], Rollback(Put(s, a, Exiting(s.children[a])), a, env);
            && t.world.results == s.world.results && a in t.children
            && Answered(s, t, a, e.pendingReset.value, SpawnFailed)
            && var f := t.children[a];
               Back(s, t, a, f, e.pendingReset.value.previousSessionId) && SameLaunchState(e, f) && !f.candidate
               && f.restarts == 0 && f.windowStart == env.now
  {
  }

  // ---- Spawning -------------------------------------------------------------

  /** A spawn of these settings meets no explicit ceiling it exceeds. */
  predicate Affordable(s: State, p: Parsed) {
    p.engine == Antigravity ==> Resolve(p.settings.axes, s.config.max).conflicts == []
  }

  /** The new entry of a spawned agent. */
  predicate Spawned(s: State, f: Entry, p: Parsed, now: int) {
    && f.parsed == p && f.child == s.world.nextChild && f.locked == p.resume
    && f.restarts == 0 && f.windowStart == now
    && !f.stopping && !f.restarting && f.pendingReset.None? && !f.timer && !f.candidate
    && f.ceiling == if p.engine == Antigravity then Some(Resolve(p.settings.axes, s.config.max).ceiling) else None
  }

  /** The agent runs, on its session if it has one. */
  ghost predicate Up(s: State, t: State, a: string, p: Parsed, now: int) {
    && a in t.children
    && var f := t.children[a];
       && Spawned(s, f, p, now) && Starts(s, t, a, f, p.resume) && t.children == s.children[a := f]
       && forall x :: x in t.active <==> x in s.active || Some(x) == p.resume
  }

  /** One answer to the spawn command `k`. */
  predicate Replies(s: State, t: State, a: string, k: nat, reason: Option<Reason>, requestId: Option<string>) {
    && t.world.results == s.world.results + [SpawnReply(a, reason, requestId)]
    && t.world.spawns.replies == s.world.spawns.replies + [(k, SpawnReply(a, reason, requestId))]
  }

  /** Nothing came of it. */
  predicate Refuses(s: State, t: State, a: string, k: nat, reason: Reason, requestId: Option<string>) {
    && StartsNothing(s, t) && t.children == s.children && t.active == s.active
    && Replies(s, t, a, k, Some(reason), requestId)
  }

  lemma LaunchOutcome(s: State, a: string, p: Parsed, k: nat, env: Env)
    requires a !in s.children && (p.resume.Some? ==> p.resume.value !in s.active)
    ensures var t := LaunchSpawn(s.(active := Claim(s.active, p.resume)), a, p, k, env);
            && t.pendingSpawns == s.pendingSpawns
            && (if !Affordable(s, p) then Refuses(s, t, a, k, CeilingConflict, p.requestId)
                else if env.first != Launches then Refuses(s, t, a, k, OtherError, p.requestId)
                else Up(s, t, a, p, env.now) && Replies(s, t, a, k, None, p.requestId))
  {
    hide Resolve;
    var t := LaunchSpawn(s.(active := Claim(s.active, p.resume)), a, p, k, env);
    assert s.children - {a} == s.children;
    assert Release(Claim(s.active, p.resume), p.resume) == s.active;
  }

  /** An existence check that answers: the agent is started exactly on a session that exists, that no
    * agent holds, that its ceiling affords and whose launch works. */
  lemma ResumeOutcome(s: State, a: string, p: Parsed, k: nat, found: bool, env: Env)
    requires a !in s.children && p.resume.Some?
    ensures var t := CompleteResumeSpawn(s, a, p, k, found, env);
            && t.pendingSpawns == s.pendingSpawns
            && (if !found then Refuses(s, t, a, k, SessionNotFound, p.requestId)
                else if p.resume.value in s.active then Refuses(s, t, a, k, AlreadyRunning, p.requestId)
                else if !Affordable(s, p) then Refuses(s, t, a, k, CeilingConflict, p.requestId)
                else if env.first != Launches then Refuses(s, t, a, k, OtherError, p.requestId)
                else Up(s, t, a, p, env.now) && Replies(s, t, a, k, None, p.requestId))
  {
    hide LaunchSpawn, Affordable, Up;
    if p.resume.value !in s.active { LaunchOutcome(s, a, p, k, env); }
  }

  /** The settings a spawn runs with: a resumed or restored one takes its snapshot. */
  function Wanted(p: Parsed, requestId: Option<string>): Parsed {
    p.(requestId := requestId,
       settings := if p.resume.Some? || p.restore then ApplyResumeSnapshot(p.settings, p.snapshot, p.engine)
                   else p.settings)
  }

  /** A spawn command: refused for a malformed payload, for a directory outside the allowlist
    * and for an agent that is there or on its way; otherwise started at once, or once its session is known to exist. */
  lemma SpawnOutcome(s: State, a: string, requestId: Option<string>, p: Parsed, check: Check, env: Env)
    ensures Refuses(s, Step(s, Spawn(Some(a), requestId, None, check, env)), a, s.world.tickets, OtherError, requestId)
    ensures var t := Step(s, Spawn(Some(a), requestId, Some(p), check, env));
            var k, w := s.world.tickets, Wanted(p, requestId);
            if p.cwd !in s.config.allowlist then Refuses(s, t, a, k, CwdNotFound, requestId)
            else if a in s.children || a in s.pendingSpawns then Refuses(s, t, a, k, AlreadyRunning, requestId)
            else if p.resume.Some? && check.Later? then
              StartsNothing(s, t) && t.children == s.children && t.active == s.active
              && t.world.results == s.world.results && t.pendingSpawns == s.pendingSpawns[a := PendingSpawn(k, w)]
            else if p.resume.Some? && !check.found then Refuses(s, t, a, k, SessionNotFound, requestId)
            else if p.resume.Some? && p.resume.value in s.active then Refuses(s, t, a, k, AlreadyRunning, requestId)
            else if !Affordable(s, w) then Refuses(s, t, a, k, CeilingConflict, requestId)
            else if env.first != Launches then Refuses(s, t, a, k, OtherError, requestId)
            else Up(s, t, a, w, env.now) && Replies(s, t, a, k, None, requestId)
  {
    hide LaunchSpawn, CompleteResumeSpawn, Affordable, Up, ApplyResumeSnapshot;
    var w := Wanted(p, requestId);
    var asked := AskedSpawn(s, a, requestId);
    if a !in s.children && a !in s.pendingSpawns && p.cwd in s.config.allowlist {
      if p.resume.None? {
        LaunchOutcome(asked, a, w, s.world.tickets, env);
        assert asked.(active := Claim(asked.active, w.resume)) == asked;
      } else if check.AtOnce? {
        ResumeOutcome(asked, a, w, s.world.tickets, check.found, env);
      }
      SameConfig(s, asked, w);
    }
  }

  /** A resumed or restored spawn runs with its snapshot's privileges, any other with its own. */
  lemma SpawnTakesTheSnapshot(s: State, t: State, a: string, requestId: Option<string>, p: Parsed, now: int)
    requires Up(s, t, a, Wanted(p, requestId), now)
    ensures var l := t.world.launches[|t.world.launches| - 1];
            && l.agent == a && l.resume == p.resume && l.axes == t.children[a].parsed.settings.axes
            && (if p.snapshot.Some? && (p.resume.Some? || p.restore)
                then Applied(p.settings, p.snapshot.value, p.engine, t.children[a].parsed.settings)
                else t.children[a].parsed.settings == p.settings)
  {
    hide ApplyResumeSnapshot, Applied;
    if p.snapshot.Some? { SnapshotValuesAreApplied(p.settings, p.snapshot.value, p.engine); }
    NothingApplied(p);
  }

  lemma SameConfig(s: State, t: State, p: Parsed)
    requires t == s.(world := t.world) && t.world.live == s.world.live && t.world.launches == s.world.launches
    requires t.world.nextChild == s.world.nextChild
    ensures Affordable(t, p) == Affordable(s, p)
    ensures forall u, a, now :: Up(t, u, a, p, now) <==> Up(s, u, a, p, now)
  {
    hide Resolve;
  }

  /** The answer to a check that still counts; any other changes nothing. */
  lemma SpawnCheckOutcome(s: State, a: string, k: nat, outcome: CheckOutcome, env: Env)
    requires Inv(s)
    ensures var t := Step(s, SpawnCheck(a, k, outcome, env));
            if a !in s.pendingSpawns || s.pendingSpawns[a].ticket != k then t == s
            else
              var p := s.pendingSpawns[a].parsed;
              && p.resume.Some? && t.pendingSpawns == s.pendingSpawns - {a}
              && (if outcome.ScanFailed? then Refuses(s, t, a, k, OtherError, p.requestId)
                  else if !outcome.found then Refuses(s, t, a, k, SessionNotFound, p.requestId)
                  else if p.resume.value in s.active then Refuses(s, t, a, k, AlreadyRunning, p.requestId)
                  else if !Affordable(s, p) then Refuses(s, t, a, k, CeilingConflict, p.requestId)
                  else if env.first != Launches then Refuses(s, t, a, k, OtherError, p.requestId)
                  else Up(s, t, a, p, env.now) && Replies(s, t, a, k, None, p.requestId))
  {
    hide CompleteResumeSpawn, Affordable, Core, Tidy;
    if a in s.pendingSpawns {
      PendingIsAbsent(s, a);
      var taken := s.(pendingSpawns := s.pendingSpawns - {a});
      if outcome.Found? { ResumeOutcome(taken, a, s.pendingSpawns[a].parsed, k, outcome.found, env); }
      TakenAffords(s, taken, s.pendingSpawns[a].parsed);
    }
  }

  lemma TakenAffords(s: State, t: State, p: Parsed)
    requires t.config == s.config
    ensures Affordable(t, p) == Affordable(s, p)
  {
    hide Resolve;
  }

  lemma PendingIsAbsent(s: State, a: string)
    requires Inv(s) && a in s.pendingSpawns
    ensures a !in s.children && s.pendingSpawns[a].parsed.resume.Some?
  {
    hide Locks, Processes, Entries, SpawnsTracked, ResetsTracked, DesksOk, LaunchesOk, Published, PendingIds, Tidy;
  }

  /** A stop answers a spawn that waits on its check, without an id, and cancels the wait; of an agent
    * that is there it cancels the switch that waits and marks it, no more. */
  lemma StopOutcome(s: State, a: string)
    requires Inv(s)
    ensures var t := Step(s, Stop(a));
            if a in s.pendingSpawns then
              && t.pendingSpawns == s.pendingSpawns - {a}
              && Refuses(s, t, a, s.pendingSpawns[a].ticket, OtherError, None)
            else if a in s.children then
              t == s.(children := s.children[a := s.children[a].(stopping := true)],
                      pendingSwitches := s.pendingSwitches - {a})
            else t == s
  {
    hide Inv;
  }

  // ---- Deliberate cycles ----------------------------------------------------

  /** A restart that is accepted brings the agent back with its next exit, whatever its crash budget:
    * on what its checkpoint then names, with the privileges it had and a full budget. */
  lemma RestartBringsBack(s: State, a: string, requestId: Option<string>, env: Env, exit: Env)
    requires Core(s) && env.now == s.world.clock && a in s.children && env.launchable && !env.preflightRefused
    requires var e := s.children[a]; !e.stopping && e.pendingReset.None?
    ensures var e, u := s.children[a], Step(s, Restart(a, requestId, env));
            var t := Step(u, Exit(a, e.child, exit));
            && StartsNothing(s, u) && u.world.results == s.world.results && a !in u.pendingSwitches
            && a in u.children && u.children[a].child == e.child
            && (if Unrecoverable(s, a, exit.recovery) || exit.first != Launches then Down(u, t, a)
                else
                  && a in t.children
                  && var f := t.children[a];
                     Back(u, t, a, f, f.parsed.resume) && Checkpoint(e, f, exit.recovery)
                     && f.restarts == 0 && f.windowStart == env.now && f.parsed.settings == e.parsed.settings
                     && f.parsed.requestId == if requestId.Some? then requestId else e.parsed.requestId)
  {
    hide Core, Back, Down;
    HandleRestartKeeps(s, a, requestId, env);
    CycleOutcome(Step(s, Restart(a, requestId, env)), a, exit);
  }

  /** One that is refused only says so. */
  lemma RestartRefused(s: State, a: string, requestId: Option<string>, env: Env)
    requires a in s.children && (env.preflightRefused || !env.launchable)
    ensures var t := Step(s, Restart(a, requestId, env));
            t == s.(world := s.world.(results := s.world.results + [SpawnReply(a, Some(OtherError), requestId)]))
  {
  }

  /** What a switch is refused for, in the order of the tests. */
  function SwitchRefusal(s: State, a: string, payload: SwitchPayload, found: bool, env: Env): Reason
    requires a in s.children && payload.resume.Some?
  {
    if !found then SessionNotFound
    else if !env.launchable || payload.snapshot.MalformedSnapshot? then OtherError
    else if ExceedsCeiling(s.children[a], SwitchedParsed(s.children[a].parsed, payload, payload.resume.value))
    then CeilingConflict
    else AlreadyRunning
  }

  /** The launch state after a command with this snapshot: the snapshot, the empty one when it is
    * malformed, or else the one already carried, is applied and carried on. */
  predicate InForce(p: Parsed, q: Parsed, arg: SnapshotArg) {
    var carried := match arg
                   case Given(x) => Some(x)
                   case MalformedSnapshot => Some(EmptySnapshot)
                   case NoSnapshot => p.snapshot;
    && q.snapshot == carried && q.engine == p.engine && q.cwd == p.cwd
    && (if carried.Some? then Applied(p.settings, carried.value, p.engine, q.settings) else q.settings == p.settings)
  }

  lemma NextIsInForce(p: Parsed, q: Parsed, arg: SnapshotArg)
    requires var next := NextSnapshot(p, arg);
             q == WithSnapshot(p, next).(resume := q.resume, snapshot := next, requestId := q.requestId)
    ensures InForce(p, q, arg)
  {
    hide ApplyResumeSnapshot, Applied;
    var next := NextSnapshot(p, arg);
    if next.Some? { SnapshotValuesAreApplied(p.settings, next.value, p.engine); }
    NothingApplied(p);
  }

  lemma NothingApplied(p: Parsed)
    ensures ApplyResumeSnapshot(p.settings, None, p.engine) == p.settings
  {
  }

  /** The agent after a switch that was accepted and the exit that follows it. */
  ghost predicate Switched(e: Entry, u: State, t: State, a: string, payload: SwitchPayload, now: int, exit: Env)
    requires a in u.children
  {
    if exit.first != Launches then Down(u, t, a)
    else
      && a in t.children
      && var f := t.children[a];
         && Back(u, t, a, f, payload.resume) && f.parsed.requestId == payload.requestId
         && f.restarts == 0 && f.windowStart == now && !f.candidate
         && InForce(e.parsed, f.parsed, payload.snapshot)
  }

  /** A switch whose session was looked up: refused without touching the agent, or accepted, and then
    * the next exit brings the agent back on the new session with its lock, the snapshot's privileges,
    * the command's id and a full budget. */
  lemma SwitchMovesTheAgent(s: State, a: string, payload: SwitchPayload, found: bool, env: Env, exit: Env)
    requires Core(s) && Resting(s, a) && env.now == s.world.clock && a in s.children && !s.children[a].stopping
    requires payload.resume.Some?
    ensures var e, u := s.children[a], CompleteSwitch(s, a, payload, found, env);
            && StartsNothing(s, u)
            && (if SwitchAllowed(s, a, payload, found, env) then
                  && u.world.results == s.world.results && LockMovedTo(s.active, u.active, e.locked, payload.resume)
                  && a in u.children && Switched(e, u, Step(u, Exit(a, e.child, exit)), a, payload, env.now, exit)
                else
                  && u.children == s.children && u.active == s.active
                  && u.world.results == s.world.results + [SpawnReply(a, Some(SwitchRefusal(s, a, payload, found, env)),
                                                                      payload.requestId)])
  {
    hide Core, Back, Down, ExceedsCeiling, ApplyResumeSnapshot, Applied, InForce;
    var u := CompleteSwitch(s, a, payload, found, env);
    CompleteSwitchKeeps(s, a, payload, found, env);
    SwitchMovesTheLock(s, a, payload, found, env);
    if SwitchAllowed(s, a, payload, found, env) {
      CycleOutcome(u, a, exit);
      var e := s.children[a];
      var next := SwitchedParsed(e.parsed, payload, payload.resume.value);
      NextIsInForce(e.parsed, next, payload.snapshot);
    }
  }

  /** The command itself: malformed, it is refused; with an answer at hand it is settled as above; and
    * otherwise only its ticket waits, in place of any earlier one. */
  lemma SwitchOutcome(s: State, a: string, payload: SwitchPayload, check: Check, env: Env)
    requires a in s.children
    ensures var t := Step(s, Switch(a, payload, check, env));
            var named := payload.resume.Some? && payload.resume.value != "";
            && (!named ==> t.children == s.children && StartsNothing(s, t) && t.active == s.active
                           && t.world.results == s.world.results + [SpawnReply(a, Some(OtherError), payload.requestId)])
            && (named && check.Later? ==>
                  && t.children == s.children && StartsNothing(s, t) && t.active == s.active
                  && t.world.results == s.world.results
                  && t.pendingSwitches == s.pendingSwitches[a := PendingSwitch(s.world.tickets, payload)])
            && (named && check.AtOnce? ==>
                  t == CompleteSwitch(s.(pendingSwitches := s.pendingSwitches - {a},
                                         world := s.world.(tickets := s.world.tickets + 1)),
                                      a, payload, check.found, env))
  {
    hide CompleteSwitch;
  }

  /** The answer to a check that still counts settles the switch as above; a failed scan refuses it. */
  lemma SwitchCheckOutcome(s: State, a: string, k: nat, outcome: CheckOutcome, env: Env)
    requires a in s.pendingSwitches && s.pendingSwitches[a].ticket == k && s.pendingSwitches[a].payload.resume.Some?
    requires a in s.children && !s.children[a].stopping
    ensures var t, c := Step(s, SwitchCheck(a, k, outcome, env)), s.(pendingSwitches := s.pendingSwitches - {a});
            var payload := s.pendingSwitches[a].payload;
            if outcome.Found? then t == CompleteSwitch(c, a, payload, outcome.found, env)
            else t == c.(world := c.world.(results := c.world.results
                                                        + [SpawnReply(a, Some(OtherError), payload.requestId)]))
  {
    hide CompleteSwitch;
  }

  /** For an agent that is stopping or gone the answer only ends the wait; one that no longer counts
    * changes nothing. */
  lemma LateSwitchSaysNothing(s: State, a: string, k: nat, outcome: CheckOutcome, env: Env)
    requires Inv(s) && (a in s.children ==> s.children[a].stopping)
    ensures Step(s, SwitchCheck(a, k, outcome, env))
         == if a in s.pendingSwitches && s.pendingSwitches[a].ticket == k
            then s.(pendingSwitches := s.pendingSwitches - {a}) else s
  {
    hide Locks, Processes, Entries, SpawnsTracked, ResetsTracked, DesksOk, LaunchesOk, Published, PendingIds, Tidy;
  }

  // ---- Resets ---------------------------------------------------------------

  /** What a reset is answered with when it is not accepted. */
  function ResetRefusal(env: Env): ResetOutcome { if !env.launchable then SpawnFailed else ResetCeilingConflict }

  /** A reset that names its id and mode: refused with its answer and the agent as it was, or
    * accepted; and then, once the process it signalled is gone, the agent runs afresh without a
    * session, with the snapshot's privileges and a full budget, and the reset is answered. */
  lemma ResetStartsAfresh(s: State, a: string, payload: ResetPayload, env: Env, exit: Env)
    requires Core(s) && Resting(s, a) && NotForeign(s.children, a, payload.previousSessionId)
    requires a in s.children && !s.children[a].stopping && env.now == s.world.clock && env.killed
    requires payload.requestId.Some? && payload.requestId.value != "" && payload.mode.Some?
    ensures var e, u := s.children[a], Step(s, Reset(a, payload, env));
            var k, ask := s.world.tickets, ResetReply(a, payload.requestId.value, payload.mode.value, FreshSession);
            && StartsNothing(s, u) && u.world.results == s.world.results && u.active == s.active && a in u.children
            && (if !ResetAccepted(s, a, payload, env) then
                  && u.children[a] == e
                  && u.world.resets.replies == s.world.resets.replies + [(k, ask.(outcome := ResetRefusal(env)))]
                else
                  && u.children[a].timer && !u.children[a].escalated && u.children[a].child == e.child
                  && u.world.resets.replies == s.world.resets.replies && k in u.world.resets.open
                  && (exit.first == Launches ==>
                        var t := Step(u, Exit(a, e.child, exit));
                        && a in t.children && t.world.resets.replies == s.world.resets.replies + [(k, ask)]
                        && Back(u, t, a, t.children[a], None) && t.children[a].restarts == 0
                        && t.children[a].parsed.requestId == payload.requestId
                        && InForce(e.parsed, t.children[a].parsed, payload.snapshot)))
  {
    hide Core, Back, Down, ExceedsCeiling, ApplyResumeSnapshot, Applied, InForce;
    var e, u := s.children[a], Step(s, Reset(a, payload, env));
    HandleResetKeeps(s, a, payload, env);
    if ResetAccepted(s, a, payload, env) {
      OwnRollback(s, u, a, payload);
      ResetOutcomeIs(u, a, exit);
      NextIsInForce(e.parsed, ResetParsed(e.parsed, payload), payload.snapshot);
    }
  }

  lemma OwnRollback(s: State, u: State, a: string, payload: ResetPayload)
    requires a in s.children && NotForeign(s.children, a, payload.previousSessionId)
    requires a in u.children && u.children - {a} == s.children - {a} && u.children[a].pendingReset.Some?
    requires u.children[a].pendingReset.value.previousSessionId == payload.previousSessionId
    ensures RollbackIsOwn(u, a)
  {
    forall b | b in u.children && b != a ensures b in s.children && u.children[b] == s.children[b] {
      assert b in u.children - {a};
      assert (u.children - {a})[b] == (s.children - {a})[b];
    }
  }

  /** The grace period ends: a reset that was signalled once is signalled again, by the exit path when
    * the process turns out to be gone; one that was signalled twice is given up with a timeout and the
    * launch state of before; and without a reset only the timer is over. */
  lemma TimerOutcome(s: State, a: string, env: Env)
    requires a in s.children && s.children[a].timer
    ensures var e, t := s.children[a], Step(s, Timer(a, env));
            if e.pendingReset.None? then t == Put(s, a, e.(timer := false))
            else if e.escalated then
              var p := e.pendingReset.value;
              && Answered(s, t, a, p, TimedOut) && StartsNothing(s, t) && t.active == s.active
              && t.children == s.children[a := e.(timer := false, parsed := p.previousParsed, restarting := false,
                                                  pendingReset := None)]
            else if env.killed then t == Put(s, a, e.(escalated := true))
            else t == Step(s, Exit(a, e.child, env))
  {
    hide OnExit;
    var e := s.children[a];
    ExitOfExpired(s, a, env);
    assert s.children[a := Expired(e)][a := e.(escalated := true)] == s.children[a := e.(escalated := true)];
  }

  lemma ExitOfExpired(s: State, a: string, env: Env)
    requires a in s.children
    ensures OnExit(Put(s, a, Expired(s.children[a])), a, env) == OnExit(s, a, env)
  {
    hide RemoveStopped, RelaunchForReset, ExitOfCycle, ExitOfCrash;
    var e := s.children[a];
    assert s.children[a := Expired(e)][a := Exiting(e)] == s.children[a := Exiting(e)];
  }

  // ---- Enumeration ----------------------------------------------------------

  /** A list is published with its request when it is at hand, and with its scan when nothing newer
    * was asked for meanwhile. */
  lemma NewestListIsPublished(s: State, g: nat)
    ensures Step(s, Enumerate(true)).world.published == s.world.published + [s.generation + 1]
    ensures var t := Step(s, Enumerate(false));
            && t.world.published == s.world.published && s.generation + 1 in t.world.scanning
            && Step(t, ScanDone(s.generation + 1)).world.published == s.world.published + [s.generation + 1]
    ensures g != s.generation ==> Step(s, ScanDone(g)).world.published == s.world.published
  {
  }

  /** After a reload spawns are judged by the new configuration. */
  lemma ReloadIsInForce(s: State, config: Config, a: string, requestId: Option<string>, p: Parsed, check: Check,
                        env: Env)
    requires p.cwd !in config.allowlist
    ensures var u, spawn := Step(s, Reload(config)), Spawn(Some(a), requestId, Some(p), check, env);
            && u.children == s.children && u.active == s.active
            && Refuses(u, Step(u, spawn), a, s.world.tickets, CwdNotFound, requestId)
  {
    SpawnOutcome(Step(s, Reload(config)), a, requestId, p, check, env);
  }
}
