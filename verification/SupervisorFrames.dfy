/** What a step about one agent may touch: that agent's entry and pending switch, and at most
  * one new process for it. */
module SupervisorFrames {
  import opened Wrappers
  import opened Permissions
  import opened CrashBudget
  import opened Desks
  import opened SupervisorSpec
  import opened SupervisorSafety

  predicate SameElsewhere<T(==)>(m: map<string, T>, n: map<string, T>, a: string) {
    m - {a} == n - {a}
  }

  /** What an entry keeps for life: its engine, its directory and its ceiling. */
  predicate Follows(e: Entry, f: Entry) {
    f.parsed.engine == e.parsed.engine && f.parsed.cwd == e.parsed.cwd && f.ceiling == e.ceiling
  }

  /** No launch, or one whose process is the entry's, resuming the session the entry locks,
    * with the entry's privileges and ceiling. */
  predicate LaunchesOne(s: State, t: State, a: string) {
    || (t.world.launches == s.world.launches && t.world.live == s.world.live)
    || (a in t.children
        && var e := t.children[a];
           && e.child == s.world.nextChild
           && t.world.live == s.world.live[e.child := a]
           && t.world.launches == s.world.launches + [Launch(a, e.child, e.locked, e.parsed.settings.axes, e.ceiling)])
  }

  /** Requests stay on record, and only requests of `a` are given up. */
  ghost predicate DropsOwn(d: Desk<ResetAsk, ResetReply>, d': Desk<ResetAsk, ResetReply>, a: string) {
    && (forall k :: k in d.asked ==> k in d'.asked && d'.asked[k] == d.asked[k])
    && (forall k :: k in d'.dropped && k !in d.dropped ==> k in d'.asked && d'.asked[k].agent == a)
  }

  predicate KeptOrNew(s: State, t: State, a: string) {
    && (a in t.children && t.children[a].pendingReset.Some? ==>
          t.children[a].pendingReset.value.ticket >= s.world.tickets
          || (a in s.children && s.children[a].pendingReset == t.children[a].pendingReset))
    && (a in t.pendingSwitches ==>
          t.pendingSwitches[a].ticket >= s.world.tickets
          || (a in s.pendingSwitches && s.pendingSwitches[a] == t.pendingSwitches[a]))
    && (a in t.pendingSpawns ==>
          t.pendingSpawns[a].ticket >= s.world.tickets
          || (a in s.pendingSpawns && s.pendingSpawns[a] == t.pendingSpawns[a]))
  }

  /** What waits for an answer was waiting before, or carries a ticket of this step. */
  predicate TicketStep(s: State, t: State, a: string) {
    && t.world.tickets >= s.world.tickets
    && SameElsewhere(s.pendingSpawns, t.pendingSpawns, a)
    && KeptOrNew(s, t, a)
  }

  ghost predicate Touches(s: State, t: State, a: string) {
    && SameElsewhere(s.children, t.children, a)
    && SameElsewhere(s.pendingSwitches, t.pendingSwitches, a)
    && (a in s.children && a in t.children ==> Follows(s.children[a], t.children[a]))
    && LaunchesOne(s, t, a)
    && DropsOwn(s.world.resets, t.world.resets, a)
    && t.world.spawns.dropped == s.world.spawns.dropped
    && TicketStep(s, t, a)
  }

  predicate Stopping(s: State, a: string) { a in s.children && s.children[a].stopping }

  /** Only a stop marks an agent as stopping, and only a stopping agent's reset is given up. */
  predicate Unstopped(s: State, t: State, a: string) {
    Stopping(s, a) || (!Stopping(t, a) && t.world.resets.dropped == s.world.resets.dropped)
  }

  ghost predicate About(s: State, t: State, a: string) { Touches(s, t, a) && Unstopped(s, t, a) }

  /** The ticket of a pending reset is on record for its agent. */
  predicate TicketNamed(s: State, a: string) {
    a in s.children && s.children[a].pendingReset.Some? ==>
      var k := s.children[a].pendingReset.value.ticket;
      k in s.world.resets.asked && s.world.resets.asked[k].agent == a
  }

  /** Two stages of one step, the first of them without a launch. */
  lemma AboutThen(s: State, t: State, u: State, a: string)
    requires About(s, t, a) && About(t, u, a) && (a in s.children <==> a in t.children)
    requires t.world.launches == s.world.launches && t.world.live == s.world.live
    requires t.world.nextChild == s.world.nextChild
    ensures About(s, u, a)
  {
  }

  lemma NothingIsAbout(s: State, a: string)
    ensures About(s, s, a)
  {
  }

  predicate Settled(t: State, a: string) {
    a in t.children ==> !t.children[a].timer && t.children[a].pendingReset.None?
  }

  predicate Ready(s: State, a: string) {
    && a in s.children && !s.children[a].timer && s.children[a].pendingReset.None?
    && s.children[a].locked == s.children[a].parsed.resume
  }

  lemma RemoveIsAbout(s: State, a: string)
    requires a in s.children
    ensures About(s, Remove(s, a), a) && Settled(Remove(s, a), a)
  {
  }

  lemma RelaunchIsAbout(s: State, a: string, requestId: Option<string>, env: Env)
    requires Ready(s, a)
    ensures About(s, Relaunch(s, a, requestId, env), a) && Settled(Relaunch(s, a, requestId, env), a)
  {
  }

  lemma SelectRecoveryIsAbout(s: State, a: string, r: Recovery)
    requires Ready(s, a)
    ensures var t := SelectRecovery(s, a, r).1; About(s, t, a) && Ready(t, a) && t.world == s.world
  {
  }

  lemma ExitOfCycleIsAbout(s: State, a: string, cycle: Option<Cycle>, env: Env)
    requires Ready(s, a)
    ensures var t := ExitOfCycle(s, a, cycle, env); About(s, t, a) && Settled(t, a)
  {
    hide SelectRecovery, Relaunch, About;
    var requestId := s.children[a].parsed.requestId;
    RelaunchIsAbout(s, a, requestId, env);
    if cycle != Some(SwitchCycle) {
      SelectRecoveryIsAbout(s, a, env.recovery);
      var (ok, u) := SelectRecovery(s, a, env.recovery);
      if ok {
        RelaunchIsAbout(u, a, requestId, env);
        AboutThen(s, u, Relaunch(u, a, requestId, env), a);
      } else {
        NoticeThenRemove(s, a, requestId);
      }
    }
  }

  lemma NoticeThenRemove(s: State, a: string, requestId: Option<string>)
    requires a in s.children
    ensures About(s, Remove(Notice(s, a, OtherError, requestId), a), a)
  {
  }

  lemma ExitOfCrashIsAbout(s: State, a: string, env: Env)
    requires Ready(s, a)
    ensures var t := ExitOfCrash(s, a, env); About(s, t, a) && Settled(t, a)
  {
    hide SelectRecovery, Charge, About;
    RemoveIsAbout(s, a);
    SelectRecoveryIsAbout(s, a, env.recovery);
    var (ok, u) := SelectRecovery(s, a, env.recovery);
    if ok {
      ChargeIsAbout(u, a, env);
      AboutThen(s, u, Charge(u, a, env), a);
    }
  }

  lemma PutIsAbout(s: State, a: string, e: Entry)
    requires a in s.children && Follows(s.children[a], e) && e.stopping == s.children[a].stopping
    requires e.pendingReset == s.children[a].pendingReset
    ensures About(s, Put(s, a, e), a)
  {
  }

  lemma ChargeIsAbout(s: State, a: string, env: Env)
    requires Ready(s, a)
    ensures var t := Charge(s, a, env); About(s, t, a) && Settled(t, a)
  {
    hide Relaunch, Remove, About;
    var (e, up) := ChargeCrash(s.children[a], env.now);
    var u := Put(s, a, e);
    PutIsAbout(s, a, e);
    RelaunchIsAbout(u, a, None, env);
    RemoveIsAbout(u, a);
    AboutThen(s, u, Charge(s, a, env), a);
  }

  /** A reset answered together with a new process. */
  lemma AnsweredLaunchIsAbout(s: State, a: string, e: Entry, active: set<string>, p: PendingReset,
                              outcome: ResetOutcome)
    requires a in s.children && Follows(s.children[a], e) && e.stopping == s.children[a].stopping
    requires !e.timer && e.pendingReset.None? && e.child == s.world.nextChild
    ensures var u := Started(s, a, e.locked, e.parsed.settings.axes, e.ceiling).(active := active);
            var t := ResetAnswer(Put(u, a, e), a, p, outcome);
            About(s, t, a) && Settled(t, a)
  {
  }

  lemma AbandonedIsAbout(s: State, a: string, p: PendingReset)
    requires a in s.children
    ensures var t := Remove(ResetAnswer(Put(s, a, s.children[a].(pendingReset := None)), a, p, RollbackFailed), a);
            About(s, t, a) && Settled(t, a)
  {
  }

  lemma RollbackIsAbout(s: State, a: string, env: Env)
    requires a in s.children && s.children[a].pendingReset.Some? && !s.children[a].timer
    ensures var t := Rollback(s, a, env); About(s, t, a) && Settled(t, a)
  {
    hide About, Settled;
    var e := s.children[a];
    var p := e.pendingReset.value;
    AbandonedIsAbout(s, a, p);
    var back := p.previousSessionId;
    var active := if p.oldResume != back then Claim(Release(s.active, p.oldResume), back) else s.active;
    var restored := FreshBudget(e.(child := s.world.nextChild, candidate := false, locked := back, pendingReset := None,
                                   parsed := e.parsed.(resume := back)), env.now);
    AnsweredLaunchIsAbout(s, a, restored, active, p, SpawnFailed);
  }

  lemma RelaunchForResetIsAbout(s: State, a: string, env: Env)
    requires a in s.children && s.children[a].pendingReset.Some? && !s.children[a].timer
    ensures var t := RelaunchForReset(s, a, env); About(s, t, a) && Settled(t, a)
  {
    hide Rollback, About, Settled;
    RollbackIsAbout(s, a, env);
    var e := s.children[a];
    var p := e.pendingReset.value;
    var renewed := FreshBudget(e.(child := s.world.nextChild, candidate := false, locked := None, pendingReset := None),
                               env.now);
    AnsweredLaunchIsAbout(s, a, renewed, Release(s.active, p.oldResume), p, FreshSession);
  }

  lemma StoppedIsAbout(s: State, a: string)
    requires Stopping(s, a) && TicketNamed(s, a)
    ensures var t := RemoveStopped(s, a); About(s, t, a) && Settled(t, a)
  {
  }

  lemma OnExitIsAbout(s: State, a: string, env: Env)
    requires a in s.children && LockIsResume(s.children[a]) && TicketNamed(s, a)
    ensures var t := OnExit(s, a, env); About(s, t, a) && Settled(t, a)
  {
    hide About, RemoveStopped, RelaunchForReset, ExitOfCycle, ExitOfCrash;
    var e := s.children[a];
    var u := Put(s, a, Exiting(e));
    PutIsAbout(s, a, Exiting(e));
    if e.stopping {
      StoppedIsAbout(u, a);
    } else if e.pendingReset.Some? {
      RelaunchForResetIsAbout(u, a, env);
    } else if e.restarting {
      ExitOfCycleIsAbout(u, a, e.cycle, env);
    } else {
      ExitOfCrashIsAbout(u, a, env);
    }
    AboutThen(s, u, OnExit(s, a, env), a);
  }

  // ---- Commands -------------------------------------------------------------

  predicate NeatAt(s: State, a: string) {
    a in s.children ==> Neat(s.children[a], a in s.pendingSwitches)
  }

  lemma SettledIsNeat(s: State, a: string)
    requires Settled(s, a)
    ensures NeatAt(s, a)
  {
  }

  lemma LaunchIsAbout(s: State, a: string, p: Parsed, ticket: nat, env: Env)
    requires a !in s.children
    ensures var t := LaunchSpawn(s, a, p, ticket, env); About(s, t, a) && Settled(t, a)
  {
    hide Resolve;
  }

  lemma ResumeIsAbout(s: State, a: string, p: Parsed, ticket: nat, found: bool, env: Env)
    requires a !in s.children && p.resume.Some?
    ensures var t := CompleteResumeSpawn(s, a, p, ticket, found, env); About(s, t, a) && Settled(t, a)
  {
    hide LaunchSpawn;
    LaunchIsAbout(s.(active := Claim(s.active, p.resume)), a, p, ticket, env);
  }

  lemma AskedIsAbout(s: State, a: string, requestId: Option<string>)
    requires NeatAt(s, a)
    ensures var t := AskedSpawn(s, a, requestId); About(s, t, a) && NeatAt(t, a)
  {
  }

  lemma AnswerIsAbout(s: State, a: string, requestId: Option<string>, r: SpawnReply)
    requires NeatAt(s, a)
    ensures var t := SpawnAnswer(AskedSpawn(s, a, requestId), s.world.tickets, r); About(s, t, a) && NeatAt(t, a)
  {
  }

  lemma DeferredIsAbout(s: State, a: string, p: Parsed, requestId: Option<string>)
    requires NeatAt(s, a)
    ensures var waiting := s.pendingSpawns[a := PendingSpawn(s.world.tickets, p)];
            var t := AskedSpawn(s, a, requestId).(pendingSpawns := waiting);
            About(s, t, a) && NeatAt(t, a)
  {
  }

  lemma HandleSpawnIsAbout(s: State, a: string, requestId: Option<string>, parsed: Option<Parsed>, check: Check,
                           env: Env)
    requires NeatAt(s, a)
    ensures var t := HandleSpawn(s, Some(a), requestId, parsed, check, env); About(s, t, a) && NeatAt(t, a)
  {
    hide AcceptedSpawn, About, NeatAt;
    if parsed.Some? {
      AcceptedSpawnIsAbout(s, a, parsed.value.(requestId := requestId), check, env);
    } else {
      AnswerIsAbout(s, a, requestId, SpawnReply(a, Some(OtherError), requestId));
    }
  }

  lemma AcceptedSpawnIsAbout(s: State, a: string, p: Parsed, check: Check, env: Env)
    requires NeatAt(s, a)
    ensures var t := AcceptedSpawn(s, a, p, check, env); About(s, t, a) && NeatAt(t, a)
  {
    hide LaunchSpawn, CompleteResumeSpawn, ApplyResumeSnapshot, About, NeatAt, Settled;
    var asked := AskedSpawn(s, a, p.requestId);
    var t := AcceptedSpawn(s, a, p, check, env);
    AskedIsAbout(s, a, p.requestId);
    if p.cwd !in s.config.allowlist {
      AnswerIsAbout(s, a, p.requestId, SpawnReply(a, Some(CwdNotFound), p.requestId));
    } else if a in s.children || a in s.pendingSpawns {
      AnswerIsAbout(s, a, p.requestId, SpawnReply(a, Some(AlreadyRunning), p.requestId));
    } else if p.resume.None? {
      LaunchIsAbout(asked, a, if p.restore then WithSnapshot(p, p.snapshot) else p, s.world.tickets, env);
      AboutThen(s, asked, t, a);
      SettledIsNeat(t, a);
    } else if check.AtOnce? {
      ResumeIsAbout(asked, a, WithSnapshot(p, p.snapshot), s.world.tickets, check.found, env);
      AboutThen(s, asked, t, a);
      SettledIsNeat(t, a);
    } else {
      DeferredIsAbout(s, a, WithSnapshot(p, p.snapshot), p.requestId);
    }
  }

  lemma SpawnCheckedIsAbout(s: State, a: string, ticket: nat, outcome: CheckOutcome, env: Env)
    requires NeatAt(s, a) && (a in s.pendingSpawns ==> a !in s.children)
    ensures var t := SpawnChecked(s, a, ticket, outcome, env); About(s, t, a) && NeatAt(t, a)
  {
    hide CompleteResumeSpawn;
    if a in s.pendingSpawns && s.pendingSpawns[a].parsed.resume.Some? && outcome.Found? {
      ResumeIsAbout(s.(pendingSpawns := s.pendingSpawns - {a}), a, s.pendingSpawns[a].parsed, ticket, outcome.found,
                    env);
    }
  }

  lemma HandleStopIsAbout(s: State, a: string)
    requires NeatAt(s, a)
    ensures var t := HandleStop(s, a); Touches(s, t, a) && NeatAt(t, a)
  {
  }

  lemma HandleRestartIsAbout(s: State, a: string, requestId: Option<string>, env: Env)
    requires NeatAt(s, a)
    ensures var t := HandleRestart(s, a, requestId, env); About(s, t, a) && NeatAt(t, a)
  {
  }

  lemma RetargetedIsAbout(s: State, a: string, active: set<string>, e: Entry)
    requires a in s.children && NeatAt(s, a) && Follows(s.children[a], e)
    requires e == s.children[a].(parsed := e.parsed, locked := e.locked, restarts := e.restarts,
                                 windowStart := e.windowStart, windows := e.windows, restarting := e.restarting,
                                 cycle := e.cycle, candidate := e.candidate)
    ensures var t := Put(s.(active := active), a, e); About(s, t, a) && NeatAt(t, a)
  {
  }

  lemma NoticeIsAbout(s: State, a: string, reason: Reason, requestId: Option<string>)
    requires NeatAt(s, a)
    ensures var t := Notice(s, a, reason, requestId); About(s, t, a) && NeatAt(t, a)
  {
  }

  lemma CompleteSwitchIsAbout(s: State, a: string, payload: SwitchPayload, found: bool, env: Env)
    requires NeatAt(s, a) && payload.resume.Some?
    ensures var t := CompleteSwitch(s, a, payload, found, env); About(s, t, a) && NeatAt(t, a)
  {
    hide ApplyResumeSnapshot, ExceedsCeiling, About, NeatAt;
    NothingIsAbout(s, a);
    if a in s.children && !s.children[a].stopping {
      var e, resume := s.children[a], payload.resume.value;
      forall reason
        ensures About(s, Notice(s, a, reason, payload.requestId), a)
        ensures NeatAt(Notice(s, a, reason, payload.requestId), a)
      {
        NoticeIsAbout(s, a, reason, payload.requestId);
      }
      var next := FreshBudget(e.(locked := Some(resume), cycle := Some(SwitchCycle), candidate := false,
                                 parsed := SwitchedParsed(e.parsed, payload, resume), restarting := true), env.now);
      RetargetedIsAbout(s, a, Claim(Release(s.active, e.locked), Some(resume)), next);
    }
  }

  lemma HandleSwitchIsAbout(s: State, a: string, payload: SwitchPayload, check: Check, env: Env)
    requires NeatAt(s, a) && Resting(s, a)
    ensures var t := HandleSwitch(s, a, payload, check, env); About(s, t, a) && NeatAt(t, a)
  {
    hide CompleteSwitch;
    if payload.resume.Some? && check.AtOnce? {
      CompleteSwitchIsAbout(s.(pendingSwitches := s.pendingSwitches - {a},
                               world := s.world.(tickets := s.world.tickets + 1)),
                            a, payload, check.found, env);
    }
  }

  lemma SwitchCheckedIsAbout(s: State, a: string, ticket: nat, outcome: CheckOutcome, env: Env)
    requires NeatAt(s, a)
    ensures var t := SwitchChecked(s, a, ticket, outcome, env); About(s, t, a) && NeatAt(t, a)
  {
    hide CompleteSwitch;
    if a in s.pendingSwitches && s.pendingSwitches[a].payload.resume.Some? && outcome.Found? {
      CompleteSwitchIsAbout(s.(pendingSwitches := s.pendingSwitches - {a}), a, s.pendingSwitches[a].payload,
                            outcome.found, env);
    }
  }

  lemma TerminateIsAbout(s: State, a: string, env: Env)
    requires a in s.children && LockIsResume(s.children[a]) && s.children[a].pendingReset.Some?
    requires a !in s.pendingSwitches && TicketNamed(s, a)
    ensures var t := TerminateForReset(s, a, env); About(s, t, a) && NeatAt(t, a)
  {
    hide OnExit;
    if !env.killed { OnExitIsAbout(s, a, env); }
  }

  lemma BegunIsAbout(s: State, a: string, p: PendingReset, next: Parsed, env: Env)
    requires a in s.children && LockIsResume(s.children[a]) && Resting(s, a)
    requires next == next.(engine := s.children[a].parsed.engine, cwd := s.children[a].parsed.cwd, resume := None)
    requires p.oldResume == s.children[a].parsed.resume && p.previousParsed == s.children[a].parsed
    requires CeilingOk(p.previousParsed.engine, p.previousParsed.settings.axes, s.children[a].ceiling)
    requires s.world.tickets !in s.world.resets.asked && p.ticket == s.world.tickets
    ensures var asked := AskedReset(s, ResetAsk(a, p.requestId, p.mode));
            var t := Begun(asked.(pendingSwitches := s.pendingSwitches - {a}), a, p, next, env.now);
            About(s, t, a) && LockIsResume(t.children[a]) && TicketNamed(t, a)
  {
  }

  lemma RefusedIsAbout(s: State, a: string, p: PendingReset, outcome: ResetOutcome, cancel: bool)
    requires a in s.children && NeatAt(s, a) && s.world.tickets !in s.world.resets.asked
    ensures var asked := AskedReset(s, ResetAsk(a, p.requestId, p.mode));
            var t := ResetAnswer(if cancel then asked.(pendingSwitches := s.pendingSwitches - {a}) else asked, a, p,
                                 outcome);
            About(s, t, a) && NeatAt(t, a)
  {
  }

  lemma HandleResetIsAbout(s: State, a: string, payload: ResetPayload, env: Env)
    requires NeatAt(s, a) && Resting(s, a) && (a in s.children ==> EntryOk(s.children[a], s.world.clock))
    requires s.world.tickets !in s.world.resets.asked
    ensures var t := HandleReset(s, a, payload, env); About(s, t, a) && NeatAt(t, a)
  {
    hide TerminateForReset, ApplyResumeSnapshot, ExceedsCeiling, Begun, EntryOk, About, NeatAt;
    NothingIsAbout(s, a);
    if a in s.children && payload.requestId.Some? && payload.requestId.value != "" && payload.mode.Some? {
      var e := s.children[a];
      var p := PendingReset(s.world.tickets, payload.requestId.value, payload.mode.value, payload.previousSessionId,
                            e.parsed.resume, e.parsed);
      if !env.launchable {
        RefusedIsAbout(s, a, p, SpawnFailed, false);
      } else if ExceedsCeiling(e, ResetParsed(e.parsed, payload)) {
        assert e.(pendingReset := None) == e && s.children[a := e] == s.children;
        RefusedIsAbout(s, a, p, ResetCeilingConflict, true);
      } else {
        AcceptedResetIsAbout(s, a, payload, env);
      }
    }
  }

  lemma AcceptedResetIsAbout(s: State, a: string, payload: ResetPayload, env: Env)
    requires a in s.children && Resting(s, a) && EntryOk(s.children[a], s.world.clock)
    requires s.world.tickets !in s.world.resets.asked
    requires payload.requestId.Some? && payload.requestId.value != "" && payload.mode.Some? && env.launchable
    requires !ExceedsCeiling(s.children[a], ResetParsed(s.children[a].parsed, payload))
    ensures var t := HandleReset(s, a, payload, env); About(s, t, a) && NeatAt(t, a)
  {
    hide TerminateForReset, ApplyResumeSnapshot, ExceedsCeiling, CeilingOk, BudgetOk, About, NeatAt;
    var e := s.children[a];
    var next := ResetParsed(e.parsed, payload);
    var p := PendingReset(s.world.tickets, payload.requestId.value, payload.mode.value, payload.previousSessionId,
                          e.parsed.resume, e.parsed);
    var u := Begun(AskedReset(s, ResetAsk(a, p.requestId, p.mode)).(pendingSwitches := s.pendingSwitches - {a}), a, p,
                   next, env.now);
    BegunIsAbout(s, a, p, next, env);
    TerminateIsAbout(u, a, env);
    AboutThen(s, u, TerminateForReset(u, a, env), a);
  }

  lemma TimerFiredIsAbout(s: State, a: string, env: Env)
    requires NeatAt(s, a) && TicketNamed(s, a) && (a in s.children ==> LockIsResume(s.children[a]))
    ensures var t := TimerFired(s, a, env); About(s, t, a) && NeatAt(t, a)
  {
    hide TerminateForReset, About;
    NothingIsAbout(s, a);
    if a in s.children && s.children[a].timer {
      var e := s.children[a];
      var u := Put(s, a, Expired(e));
      PutIsAbout(s, a, Expired(e));
      if e.pendingReset.Some? && !e.escalated {
        TerminateIsAbout(u, a, env);
        AboutThen(s, u, TerminateForReset(u, a, env), a);
      } else if e.pendingReset.Some? {
        GaveUpIsAbout(u, a);
        AboutThen(s, u, FailResetTermination(u, a), a);
      }
    }
  }

  lemma GaveUpIsAbout(s: State, a: string)
    requires a in s.children && s.children[a].pendingReset.Some? && !s.children[a].timer
    requires LockIsResume(s.children[a])
    requires s.children[a].pendingReset.value.previousParsed.cwd == s.children[a].parsed.cwd
    ensures var t := FailResetTermination(s, a); About(s, t, a) && NeatAt(t, a)
  {
  }

  lemma ExitedIsAbout(s: State, a: string, child: nat, env: Env)
    requires NeatAt(s, a) && TicketNamed(s, a) && (a in s.children ==> LockIsResume(s.children[a]))
    ensures var t := Exited(s, a, child, env); About(s, t, a) && NeatAt(t, a)
  {
    hide OnExit;
    if a in s.children && s.children[a].child == child {
      OnExitIsAbout(s, a, env);
      SettledIsNeat(OnExit(s, a, env), a);
    }
  }
}
