/** Every command of the server, and every late answer to one, keeps the core invariant. */
module SupervisorCommands {
  import opened Wrappers
  import opened Permissions
  import opened CrashBudget
  import opened Desks
  import opened SupervisorSpec
  import opened SupervisorSafety
  import opened SupervisorSteps

  // ---- Spawning -------------------------------------------------------------

  lemma ResetAdded(children: map<string, Entry>, d: Desk<ResetAsk, ResetReply>, a: string, e: Entry)
    requires ResetsTracked(children, d) && a !in children && e.pendingReset.None?
    ensures ResetsTracked(children[a := e], d)
  {
  }

  lemma NothingRuns(s: State, a: string)
    requires Core(s) && a !in s.children
    ensures Idle(s, a)
  {
  }

  /** A new agent with a new process and, for a resume, a newly claimed session. */
  lemma EntryAdded(s: State, a: string, e: Entry)
    requires Core(s) && a !in s.children && a !in s.pendingSpawns
    requires e.child == s.world.nextChild && e.pendingReset.None? && EntryOk(e, s.world.clock)
    requires e.locked.Some? ==> e.locked.value !in s.active
    ensures Core(Put(Started(s.(active := Claim(s.active, e.locked)), a, e.parsed.resume, e.parsed.settings.axes,
                             e.ceiling), a, e))
  {
    hide Core, Locks, Processes, Entries, Pendings, SpawnsTracked, ResetsTracked, DesksOk, LaunchesOk, Published,
         BudgetOk, CeilingOk, PendingIds;
    CoreParts(s);
    NothingRuns(s, a);
    LocksAdd(s.children, s.active, a, e);
    NewProcess(s.children, s.world.live, s.world.nextChild, a, e);
    EntryPut(s.children, s.world.clock, a, e);
    PendingsPut(s.children, s.pendingSpawns, s.pendingSwitches, a, e);
    ResetAdded(s.children, s.world.resets, a, e);
    StartedWorld(s, a, e.parsed.resume, e.parsed.engine, e.parsed.settings.axes, e.ceiling);
    CoreOf(Put(Started(s.(active := Claim(s.active, e.locked)), a, e.parsed.resume, e.parsed.settings.axes, e.ceiling),
               a, e));
  }

  lemma CoreOf(s: State)
    requires Locks(s.children, s.active)
    requires Processes(s.children, s.world.live, s.world.nextChild)
    requires Entries(s.children, s.world.clock)
    requires Pendings(s.children, s.pendingSpawns, s.pendingSwitches)
    requires SpawnsTracked(s.pendingSpawns, s.world.spawns) && PendingIds(s.pendingSpawns, s.world.spawns.asked)
    requires ResetsTracked(s.children, s.world.resets)
    requires DesksOk(s.world) && LaunchesOk(s.world.launches)
    requires Published(s.generation, s.world.scanning, s.world.published)
    ensures Core(s)
  {
  }

  /** The command with this ticket may be answered now, for any reason. */
  ghost predicate Answerable(s: State, a: string, ticket: nat, requestId: Option<string>) {
    forall reason :: Core(SpawnAnswer(s, ticket, SpawnReply(a, reason, requestId)))
  }

  lemma AnswerNow(s: State, a: string, ticket: nat, requestId: Option<string>, reason: Option<Reason>)
    requires Answerable(s, a, ticket, requestId)
    ensures Core(SpawnAnswer(s, ticket, SpawnReply(a, reason, requestId)))
  {
  }

  lemma NewEntryOk(child: nat, p: Parsed, max: MaxConfig, now: int)
    requires p.engine != Antigravity || Resolve(p.settings.axes, max).conflicts == []
    ensures EntryOk(NewEntry(child, p, CeilingFor(p, max), now), now)
  {
    FreshBudgetOk(now);
    if p.engine == Antigravity {
      ResolvedLaunchIsWithin(p.settings.axes, max);
      PinnedApprovalIsRanked(p.settings.axes, max);
    }
  }

  /** `s` is the state before the session is claimed. */
  lemma LaunchKeeps(s: State, a: string, p: Parsed, ticket: nat, env: Env)
    requires Answerable(s, a, ticket, p.requestId) && a !in s.children && a !in s.pendingSpawns
    requires p.resume.Some? ==> p.resume.value !in s.active
    requires env.now == s.world.clock
    ensures Core(LaunchSpawn(s.(active := Claim(s.active, p.resume)), a, p, ticket, env))
  {
    hide Core, Answerable, EntryOk, Resolve, ConflictAgainst;
    var claimed := s.(active := Claim(s.active, p.resume));
    assert Release(claimed.active, p.resume) == s.active;
    assert s.children - {a} == s.children;
    if p.engine == Antigravity && Resolve(p.settings.axes, s.config.max).conflicts != [] {
      AnswerNow(s, a, ticket, p.requestId, Some(CeilingConflict));
    } else if env.first != Launches {
      AnswerNow(s, a, ticket, p.requestId, Some(OtherError));
    } else {
      LaunchedKeeps(s, a, p, ticket, env);
    }
  }

  lemma LaunchedKeeps(s: State, a: string, p: Parsed, ticket: nat, env: Env)
    requires Answerable(s, a, ticket, p.requestId) && a !in s.children && a !in s.pendingSpawns
    requires p.resume.Some? ==> p.resume.value !in s.active
    requires env.now == s.world.clock
    requires p.engine != Antigravity || Resolve(p.settings.axes, s.config.max).conflicts == []
    ensures var ceiling := CeilingFor(p, s.config.max);
            Core(SpawnAnswer(Put(Started(s.(active := Claim(s.active, p.resume)), a, p.resume, p.settings.axes,
                                         ceiling), a,
                                 NewEntry(s.world.nextChild, p, ceiling, env.now)), ticket,
                             SpawnReply(a, None, p.requestId)))
  {
    hide Core, Answerable, EntryOk, Resolve;
    var ceiling := CeilingFor(p, s.config.max);
    var e := NewEntry(s.world.nextChild, p, ceiling, env.now);
    var answered := SpawnAnswer(s, ticket, SpawnReply(a, None, p.requestId));
    AnswerNow(s, a, ticket, p.requestId, None);
    NewEntryOk(s.world.nextChild, p, s.config.max, env.now);
    EntryAdded(answered, a, e);
  }

  lemma CompleteResumeSpawnKeeps(s: State, a: string, p: Parsed, ticket: nat, found: bool, env: Env)
    requires Answerable(s, a, ticket, p.requestId) && a !in s.children && a !in s.pendingSpawns
    requires p.resume.Some? && env.now == s.world.clock
    ensures Core(CompleteResumeSpawn(s, a, p, ticket, found, env))
  {
    hide Core, Answerable, LaunchSpawn;
    if !found {
      AnswerNow(s, a, ticket, p.requestId, Some(SessionNotFound));
    } else if p.resume.value in s.active {
      AnswerNow(s, a, ticket, p.requestId, Some(AlreadyRunning));
    } else {
      LaunchKeeps(s, a, p, ticket, env);
    }
  }

  lemma SpawnsClosed(pending: map<string, PendingSpawn>, d: Desk<SpawnAsk, SpawnReply>, t: nat, ask: SpawnAsk,
                     r: SpawnReply)
    requires SpawnsTracked(pending, d) && PendingIds(pending, d.asked) && t !in d.asked
    ensures SpawnsTracked(pending, Reply(Ask(d, t, ask), t, r))
    ensures PendingIds(pending, Reply(Ask(d, t, ask), t, r).asked)
  {
  }

  lemma UnusedTicket(w: World)
    requires DesksOk(w)
    ensures w.tickets !in w.spawns.asked && w.tickets !in w.resets.asked
  {
  }

  lemma SpawnAnswered(s: State, a: string, asked: Option<string>, r: SpawnReply)
    requires Core(s) && r.agent == a && r.requestId == asked
    ensures Core(SpawnAnswer(AskedSpawn(s, a, asked), s.world.tickets, r))
  {
    hide Core, Locks, Processes, Entries, Pendings, SpawnsTracked, ResetsTracked, DesksOk, LaunchesOk, Published,
         PendingIds;
    CoreParts(s);
    var t := s.world.tickets;
    UnusedTicket(s.world);
    SpawnsClosed(s.pendingSpawns, s.world.spawns, t, SpawnAsk(a, asked), r);
    SpawnAsked(s.world, SpawnAsk(a, asked));
    SpawnReplied(AskedSpawn(s, a, asked).world, t, r);
    CoreOf(SpawnAnswer(AskedSpawn(s, a, asked), t, r));
  }

  lemma AskedIsAnswerable(s: State, a: string, requestId: Option<string>)
    requires Core(s)
    ensures Answerable(AskedSpawn(s, a, requestId), a, s.world.tickets, requestId)
  {
    hide Core;
    forall reason
      ensures Core(SpawnAnswer(AskedSpawn(s, a, requestId), s.world.tickets, SpawnReply(a, reason, requestId)))
    {
      SpawnAnswered(s, a, requestId, SpawnReply(a, reason, requestId));
    }
  }

  /** The check goes to the background: the ticket stays open under the agent's name. */
  lemma SpawnDeferred(s: State, a: string, p: Parsed)
    requires Core(s) && a !in s.children && a !in s.pendingSpawns && p.resume.Some?
    ensures var waiting := s.pendingSpawns[a := PendingSpawn(s.world.tickets, p)];
            Core(AskedSpawn(s, a, p.requestId).(pendingSpawns := waiting))
  {
    hide Core, Locks, Processes, Entries, ResetsTracked, DesksOk, LaunchesOk, Published;
    CoreParts(s);
    UnusedTicket(s.world);
    SpawnAsked(s.world, SpawnAsk(a, p.requestId));
    CoreOf(AskedSpawn(s, a, p.requestId).(pendingSpawns := s.pendingSpawns[a := PendingSpawn(s.world.tickets, p)]));
  }

  lemma HandleSpawnKeeps(s: State, agent: Option<string>, requestId: Option<string>, parsed: Option<Parsed>,
                         check: Check, env: Env)
    requires Core(s) && env.now == s.world.clock
    ensures Core(HandleSpawn(s, agent, requestId, parsed, check, env))
  {
    hide Core, Answerable, AcceptedSpawn;
    if agent.Some? {
      var a, t := agent.value, s.world.tickets;
      var asked := AskedSpawn(s, a, requestId);
      AskedIsAnswerable(s, a, requestId);
      if parsed.None? {
        AnswerNow(asked, a, t, requestId, Some(OtherError));
      } else {
        AcceptedSpawnKeeps(s, a, parsed.value.(requestId := requestId), check, env);
      }
    }
  }

  lemma AcceptedSpawnKeeps(s: State, a: string, p: Parsed, check: Check, env: Env)
    requires Core(s) && env.now == s.world.clock
    ensures Core(AcceptedSpawn(s, a, p, check, env))
  {
    hide Core, Answerable, LaunchSpawn, CompleteResumeSpawn, ApplyResumeSnapshot;
    var t := s.world.tickets;
    var asked := AskedSpawn(s, a, p.requestId);
    AskedIsAnswerable(s, a, p.requestId);
    if p.cwd !in s.config.allowlist {
      AnswerNow(asked, a, t, p.requestId, Some(CwdNotFound));
    } else if a in s.children || a in s.pendingSpawns {
      AnswerNow(asked, a, t, p.requestId, Some(AlreadyRunning));
    } else if p.resume.None? {
      LaunchKeeps(asked, a, if p.restore then WithSnapshot(p, p.snapshot) else p, t, env);
    } else if check.AtOnce? {
      CompleteResumeSpawnKeeps(asked, a, WithSnapshot(p, p.snapshot), t, check.found, env);
    } else {
      SpawnDeferred(s, a, WithSnapshot(p, p.snapshot));
    }
  }

  lemma PendingResolved(pending: map<string, PendingSpawn>, d: Desk<SpawnAsk, SpawnReply>, a: string, r: SpawnReply)
    requires SpawnsTracked(pending, d) && PendingIds(pending, d.asked) && a in pending
    ensures SpawnsTracked(pending - {a}, Reply(d, pending[a].ticket, r)) && PendingIds(pending - {a}, d.asked)
  {
  }

  lemma PendingTicket(s: State, a: string)
    requires Core(s) && a in s.pendingSpawns
    ensures var t := s.pendingSpawns[a].ticket;
            t in s.world.spawns.open && t in s.world.spawns.asked
            && s.world.spawns.asked[t] == SpawnAsk(a, s.pendingSpawns[a].parsed.requestId)
            && a !in s.children && s.pendingSpawns[a].parsed.resume.Some?
  {
  }

  lemma PendingAnswered(s: State, a: string, r: SpawnReply)
    requires Core(s) && a in s.pendingSpawns && r.agent == a
    requires r.requestId == s.pendingSpawns[a].parsed.requestId || (r.requestId.None? && r.reason == Some(OtherError))
    ensures Core(SpawnAnswer(s.(pendingSpawns := s.pendingSpawns - {a}), s.pendingSpawns[a].ticket, r))
  {
    hide Core, Locks, Processes, Entries, SpawnsTracked, ResetsTracked, DesksOk, LaunchesOk, Published, PendingIds;
    CoreParts(s);
    var t := s.pendingSpawns[a].ticket;
    PendingTicket(s, a);
    PendingResolved(s.pendingSpawns, s.world.spawns, a, r);
    SpawnReplied(s.world, t, r);
    CoreOf(SpawnAnswer(s.(pendingSpawns := s.pendingSpawns - {a}), t, r));
  }

  lemma SpawnCheckedKeeps(s: State, a: string, ticket: nat, outcome: CheckOutcome, env: Env)
    requires Core(s) && env.now == s.world.clock
    ensures Core(SpawnChecked(s, a, ticket, outcome, env))
  {
    hide Core, Answerable, CompleteResumeSpawn;
    if a in s.pendingSpawns && s.pendingSpawns[a].ticket == ticket {
      PendingTicket(s, a);
      var p := s.pendingSpawns[a].parsed;
      var taken := s.(pendingSpawns := s.pendingSpawns - {a});
      PendingIsAnswerable(s, a);
      if outcome.Found? {
        CompleteResumeSpawnKeeps(taken, a, p, ticket, outcome.found, env);
      } else {
        AnswerNow(taken, a, ticket, p.requestId, Some(OtherError));
      }
    }
  }

  lemma PendingIsAnswerable(s: State, a: string)
    requires Core(s) && a in s.pendingSpawns
    ensures Answerable(s.(pendingSpawns := s.pendingSpawns - {a}), a, s.pendingSpawns[a].ticket,
                       s.pendingSpawns[a].parsed.requestId)
  {
    hide Core;
    var taken, p := s.(pendingSpawns := s.pendingSpawns - {a}), s.pendingSpawns[a];
    forall reason ensures Core(SpawnAnswer(taken, p.ticket, SpawnReply(a, reason, p.parsed.requestId))) {
      PendingAnswered(s, a, SpawnReply(a, reason, p.parsed.requestId));
    }
  }

  // ---- Stopping and restarting ----------------------------------------------

  lemma HandleStopKeeps(s: State, a: string)
    requires Core(s)
    ensures Core(HandleStop(s, a))
  {
    hide Core, EntryOk, BudgetOk, CeilingOk;
    if a in s.pendingSpawns {
      PendingAnswered(s, a, SpawnReply(a, Some(OtherError), None));
    } else if a in s.children {
      CancelSwitch(s, a);
      CoreEntry(s, a);
      var e := s.children[a].(stopping := true);
      EntryFlags(s.children[a], e, s.world.clock);
      Touched(s.(pendingSwitches := s.pendingSwitches - {a}), a, e);
    }
  }

  /** Flags and the request id play no part in what an entry must satisfy. */
  lemma EntryFlags(e: Entry, f: Entry, clock: int)
    requires EntryOk(e, clock)
    requires f == e.(parsed := e.parsed.(requestId := f.parsed.requestId), stopping := f.stopping,
                     restarting := f.restarting, cycle := f.cycle, timer := f.timer, escalated := f.escalated)
    ensures EntryOk(f, clock)
  {
    hide BudgetOk, CeilingOk;
  }

  lemma EntryRefreshed(e: Entry, clock: int)
    requires EntryOk(e, clock)
    ensures EntryOk(FreshBudget(e, clock), clock)
  {
    FreshBudgetOk(clock);
  }

  lemma HandleRestartKeeps(s: State, a: string, requestId: Option<string>, env: Env)
    requires Core(s) && env.now == s.world.clock
    ensures Core(HandleRestart(s, a, requestId, env))
  {
    hide Core, EntryOk, BudgetOk, CeilingOk;
    if a in s.children {
      if env.preflightRefused || !env.launchable {
        NoticeKeeps(s, a, OtherError, requestId);
      } else {
        CancelSwitch(s, a);
        CoreEntry(s, a);
        var e := s.children[a];
        var p := if requestId.Some? then e.parsed.(requestId := requestId) else e.parsed;
        var f := e.(parsed := p, cycle := Some(RestartCycle), restarting := true);
        EntryFlags(e, f, s.world.clock);
        EntryRefreshed(f, s.world.clock);
        Touched(s.(pendingSwitches := s.pendingSwitches - {a}), a, FreshBudget(f, env.now));
      }
    }
  }

  // ---- Switching ------------------------------------------------------------

  /** What passed the ceiling check is within the ceiling. */
  lemma CheckedIsWithin(e: Entry, p: Parsed, clock: int)
    requires EntryOk(e, clock) && p.engine == e.parsed.engine && !ExceedsCeiling(e, p)
    ensures CeilingOk(p.engine, p.settings.axes, e.ceiling)
  {
    hide BudgetOk, ConflictAgainst, Within;
    if e.ceiling.Some? { ConflictAgainstIsExact(p.settings.axes, e.ceiling.value); }
  }

  lemma SwitchedEntryOk(e: Entry, next: Parsed, resume: string, clock: int)
    requires EntryOk(e, clock) && e.pendingReset.None? && next.engine == e.parsed.engine && next.resume == Some(resume)
    requires !ExceedsCeiling(e, next)
    ensures EntryOk(FreshBudget(e.(locked := Some(resume), cycle := Some(SwitchCycle), candidate := false,
                                   parsed := next, restarting := true), clock), clock)
  {
    hide BudgetOk, CeilingOk, ConflictAgainst, ExceedsCeiling;
    FreshBudgetOk(clock);
    CheckedIsWithin(e, next, clock);
  }

  /** A lock moves and the launch state follows, with the process left running. */
  lemma Retargeted(s: State, a: string, e: Entry)
    requires Core(s) && a in s.children && e.child == s.children[a].child
    requires e.pendingReset == s.children[a].pendingReset && EntryOk(e, s.world.clock)
    requires e.locked.Some? && (e.locked == s.children[a].locked || e.locked.value !in s.active)
    ensures Core(Put(s.(active := Claim(Release(s.active, s.children[a].locked), e.locked)), a, e))
  {
    hide Core, Locks, Processes, Entries, Pendings, SpawnsTracked, ResetsTracked, DesksOk, LaunchesOk, Published,
         EntryOk, PendingIds;
    CoreParts(s);
    FreeIsNotForeign(s.children, s.active, a, e.locked);
    LocksMove(s.children, s.active, a, e);
    ResetKept(s.children, s.world.resets, a, e);
    Replaced(s, a, e, Claim(Release(s.active, s.children[a].locked), e.locked), s.world);
  }

  lemma CompleteSwitchKeeps(s: State, a: string, payload: SwitchPayload, found: bool, env: Env)
    requires Core(s) && payload.resume.Some? && Resting(s, a) && env.now == s.world.clock
    ensures Core(CompleteSwitch(s, a, payload, found, env))
  {
    hide Core, EntryOk, BudgetOk, CeilingOk, ExceedsCeiling, ApplyResumeSnapshot, FreshBudget;
    if a in s.children && !s.children[a].stopping {
      var e, resume := s.children[a], payload.resume.value;
      var next := SwitchedParsed(e.parsed, payload, resume);
      forall reason ensures Core(Notice(s, a, reason, payload.requestId)) {
        NoticeKeeps(s, a, reason, payload.requestId);
      }
      if found && env.launchable && !payload.snapshot.MalformedSnapshot? && !ExceedsCeiling(e, next)
         && !(Some(resume) != e.locked && resume in s.active) {
        SwitchedKeeps(s, a, next, resume);
      }
    }
  }

  lemma SwitchedKeeps(s: State, a: string, next: Parsed, resume: string)
    requires Core(s) && a in s.children && Resting(s, a)
    requires next.engine == s.children[a].parsed.engine && next.resume == Some(resume)
    requires !ExceedsCeiling(s.children[a], next) && (Some(resume) == s.children[a].locked || resume !in s.active)
    ensures var e := s.children[a];
            Core(Put(s.(active := Claim(Release(s.active, e.locked), Some(resume))), a,
                     FreshBudget(e.(locked := Some(resume), cycle := Some(SwitchCycle), candidate := false,
                                    parsed := next, restarting := true), s.world.clock)))
  {
    hide Core, EntryOk, BudgetOk, CeilingOk, ExceedsCeiling;
    var e := s.children[a];
    CoreEntry(s, a);
    SwitchedEntryOk(e, next, resume, s.world.clock);
    Retargeted(s, a, FreshBudget(e.(locked := Some(resume), cycle := Some(SwitchCycle), candidate := false,
                                    parsed := next, restarting := true), s.world.clock));
  }

  lemma TicketTaken(s: State)
    requires Core(s)
    ensures Core(s.(world := s.world.(tickets := s.world.tickets + 1)))
  {
    hide Locks, Processes, Entries, Pendings, SpawnsTracked, ResetsTracked, LaunchesOk, Published, PendingIds, Fair;
  }

  lemma HandleSwitchKeeps(s: State, a: string, payload: SwitchPayload, check: Check, env: Env)
    requires Core(s) && Resting(s, a) && env.now == s.world.clock
    ensures Core(HandleSwitch(s, a, payload, check, env))
  {
    hide Core, CompleteSwitch;
    if a in s.children {
      if payload.resume.None? || payload.resume.value == "" {
        NoticeKeeps(s, a, OtherError, payload.requestId);
      } else {
        CancelSwitch(s, a);
        var t := s.(pendingSwitches := s.pendingSwitches - {a});
        TicketTaken(t);
        var cancelled := t.(world := s.world.(tickets := s.world.tickets + 1));
        if check.AtOnce? {
          CompleteSwitchKeeps(cancelled, a, payload, check.found, env);
        } else {
          SwitchDeferred(cancelled, a, PendingSwitch(s.world.tickets, payload));
          assert cancelled.pendingSwitches[a := PendingSwitch(s.world.tickets, payload)]
              == s.pendingSwitches[a := PendingSwitch(s.world.tickets, payload)];
        }
      }
    }
  }

  lemma SwitchDeferred(s: State, a: string, p: PendingSwitch)
    requires Core(s) && a in s.children && p.payload.resume.Some?
    ensures Core(s.(pendingSwitches := s.pendingSwitches[a := p]))
  {
    hide Locks, Processes, Entries, SpawnsTracked, ResetsTracked, DesksOk, LaunchesOk, Published, PendingIds;
  }

  lemma SwitchCheckedKeeps(s: State, a: string, ticket: nat, outcome: CheckOutcome, env: Env)
    requires Core(s) && env.now == s.world.clock && (a in s.pendingSwitches ==> Resting(s, a))
    ensures Core(SwitchChecked(s, a, ticket, outcome, env))
  {
    hide Core, CompleteSwitch;
    if a in s.pendingSwitches && s.pendingSwitches[a].ticket == ticket && s.pendingSwitches[a].payload.resume.Some? {
      CancelSwitch(s, a);
      var taken := s.(pendingSwitches := s.pendingSwitches - {a});
      var payload := s.pendingSwitches[a].payload;
      if outcome.Found? {
        CompleteSwitchKeeps(taken, a, payload, outcome.found, env);
      } else {
        NoticeKeeps(taken, a, OtherError, payload.requestId);
      }
    }
  }

  // ---- Resetting ------------------------------------------------------------

  lemma ResetsClosed(children: map<string, Entry>, d: Desk<ResetAsk, ResetReply>, t: nat, ask: ResetAsk, r: ResetReply)
    requires ResetsTracked(children, d) && t !in d.asked
    ensures ResetsTracked(children, Reply(Ask(d, t, ask), t, r))
  {
  }

  /** A reset refused on the spot. */
  lemma ResetRefused(s: State, a: string, p: PendingReset, outcome: ResetOutcome)
    requires Core(s) && p.ticket == s.world.tickets
    ensures Core(ResetAnswer(AskedReset(s, ResetAsk(a, p.requestId, p.mode)), a, p, outcome))
  {
    hide Core, Locks, Processes, Entries, Pendings, SpawnsTracked, ResetsTracked, DesksOk, LaunchesOk, Published,
         PendingIds;
    CoreParts(s);
    UnusedTicket(s.world);
    var ask, r := ResetAsk(a, p.requestId, p.mode), ResetReply(a, p.requestId, p.mode, outcome);
    ResetsClosed(s.children, s.world.resets, p.ticket, ask, r);
    ResetAsked(s.world, ask);
    ResetReplied(AskedReset(s, ask).world, p.ticket, r);
    CoreOf(ResetAnswer(AskedReset(s, ask), a, p, outcome));
  }

  lemma ResetOpened(children: map<string, Entry>, d: Desk<ResetAsk, ResetReply>, t: nat, ask: ResetAsk, e: Entry)
    requires ResetsTracked(children, d) && t !in d.asked && ask.agent in children
    requires children[ask.agent].pendingReset.None? && e.pendingReset.Some?
    requires e.pendingReset.value.ticket == t
    requires ask == ResetAsk(ask.agent, e.pendingReset.value.requestId, e.pendingReset.value.mode)
    ensures ResetsTracked(children[ask.agent := e], Ask(d, t, ask))
  {
  }

  lemma BegunEntryOk(e: Entry, next: Parsed, p: PendingReset, clock: int)
    requires EntryOk(e, clock) && e.pendingReset.None?
    requires next.engine == e.parsed.engine && next.cwd == e.parsed.cwd && next.resume.None? && !ExceedsCeiling(e, next)
    requires p.oldResume == e.parsed.resume && p.previousParsed == e.parsed
    ensures EntryOk(FreshBudget(e.(pendingReset := Some(p), parsed := next, restarting := true, escalated := false),
                                clock), clock)
  {
    hide BudgetOk, CeilingOk, ConflictAgainst, ExceedsCeiling;
    FreshBudgetOk(clock);
    CheckedIsWithin(e, next, clock);
  }

  lemma ResetBegun(s: State, a: string, e: Entry)
    requires Core(s) && a in s.children && s.children[a].pendingReset.None?
    requires e.locked == s.children[a].locked && e.child == s.children[a].child && EntryOk(e, s.world.clock)
    requires e.pendingReset.Some? && e.pendingReset.value.ticket == s.world.tickets
    ensures var p := e.pendingReset.value; Core(Put(AskedReset(s, ResetAsk(a, p.requestId, p.mode)), a, e))
  {
    hide Core, Locks, Processes, Entries, Pendings, SpawnsTracked, ResetsTracked, DesksOk, LaunchesOk, Published,
         EntryOk, PendingIds;
    CoreParts(s);
    UnusedTicket(s.world);
    var p := e.pendingReset.value;
    var ask := ResetAsk(a, p.requestId, p.mode);
    ResetAsked(s.world, ask);
    ResetOpened(s.children, s.world.resets, p.ticket, ask, e);
    LocksKept(s.children, s.active, a, e);
    Replaced(s, a, e, s.active, AskedReset(s, ask).world);
  }

  lemma HandleResetKeeps(s: State, a: string, payload: ResetPayload, env: Env)
    requires Core(s) && Resting(s, a) && NotForeign(s.children, a, payload.previousSessionId)
    requires env.now == s.world.clock && (env.killed || Gone(s, a))
    ensures Core(HandleReset(s, a, payload, env))
  {
    hide Core, EntryOk, ExceedsCeiling, ApplyResumeSnapshot, TerminateForReset, NotForeign;
    if a in s.children && payload.requestId.Some? && payload.requestId.value != "" && payload.mode.Some? {
      var e, t := s.children[a], s.world.tickets;
      var pending := PendingReset(t, payload.requestId.value, payload.mode.value, payload.previousSessionId,
                                  e.parsed.resume, e.parsed);
      var next := ResetParsed(e.parsed, payload);
      CancelSwitch(s, a);
      var u := s.(pendingSwitches := s.pendingSwitches - {a});
      if !env.launchable {
        ResetRefused(s, a, pending, SpawnFailed);
      } else if ExceedsCeiling(e, next) {
        ResetRefused(u, a, pending, ResetCeilingConflict);
        assert e.(pendingReset := None) == e;
        assert u.children[a := e] == u.children;
      } else {
        BegunKeeps(u, a, pending, next, env);
      }
    }
  }

  lemma BegunKeeps(s: State, a: string, p: PendingReset, next: Parsed, env: Env)
    requires Core(s) && a in s.children && Resting(s, a) && NotForeign(s.children, a, p.previousSessionId)
    requires env.now == s.world.clock && (env.killed || Gone(s, a))
    requires next.engine == s.children[a].parsed.engine && next.cwd == s.children[a].parsed.cwd && next.resume.None?
    requires !ExceedsCeiling(s.children[a], next)
    requires p.ticket == s.world.tickets && p.oldResume == s.children[a].parsed.resume
    requires p.previousParsed == s.children[a].parsed
    ensures Core(TerminateForReset(Begun(AskedReset(s, ResetAsk(a, p.requestId, p.mode)), a, p, next, env.now), a, env))
  {
    hide Core, EntryOk, ExceedsCeiling, TerminateForReset;
    var begun := Begun(AskedReset(s, ResetAsk(a, p.requestId, p.mode)), a, p, next, env.now);
    CoreEntry(s, a);
    BegunEntryOk(s.children[a], next, p, env.now);
    ResetBegun(s, a, begun.children[a]);
    TerminateKeeps(begun, a, env);
  }

  lemma TerminateKeeps(s: State, a: string, env: Env)
    requires Core(s) && a in s.children && RollbackIsOwn(s, a) && env.now == s.world.clock
    requires env.killed || Gone(s, a)
    ensures Core(TerminateForReset(s, a, env))
  {
    hide Core, OnExit, EntryOk, RollbackIsOwn;
    if env.killed {
      CoreEntry(s, a);
      EntryFlags(s.children[a], s.children[a].(timer := true), s.world.clock);
      Touched(s, a, s.children[a].(timer := true));
    } else {
      GoneIsIdle(s, a);
      OnExitKeeps(s, a, env);
    }
  }

  lemma TimerFiredKeeps(s: State, a: string, env: Env)
    requires Core(s) && RollbackIsOwn(s, a) && env.now == s.world.clock && (env.killed || Gone(s, a))
    ensures Core(TimerFired(s, a, env))
  {
    hide Core, EntryOk, TerminateForReset, FailResetTermination, RollbackIsOwn, Gone;
    if a in s.children && s.children[a].timer {
      var e := s.children[a];
      var u := Put(s, a, Expired(e));
      Signalled(s, a, Expired(e));
      if e.pendingReset.Some? {
        if e.escalated { FailResetTerminationKeeps(u, a); } else { TerminateKeeps(u, a, env); }
      }
    }
  }

  lemma Signalled(s: State, a: string, e: Entry)
    requires Core(s) && a in s.children
    requires e == s.children[a].(timer := e.timer, escalated := e.escalated)
    ensures Core(Put(s, a, e)) && (RollbackIsOwn(s, a) ==> RollbackIsOwn(Put(s, a, e), a))
    ensures Gone(s, a) ==> Gone(Put(s, a, e), a)
  {
    hide Core, EntryOk;
    CoreEntry(s, a);
    EntryFlags(s.children[a], e, s.world.clock);
    Touched(s, a, e);
  }

  /** Giving up restores the launch state from before the reset. */
  lemma FailResetTerminationKeeps(s: State, a: string)
    requires Core(s) && a in s.children && s.children[a].pendingReset.Some?
    ensures Core(FailResetTermination(s, a))
  {
    hide Core, BudgetOk, CeilingOk;
    CoreEntry(s, a);
    var e := s.children[a];
    ResetAnsweredKeeps(s, a,
                       e.(parsed := e.pendingReset.value.previousParsed, restarting := false,
                          pendingReset := None), TimedOut);
  }

  // ---- The rest -------------------------------------------------------------

  lemma EnumerateKeeps(s: State, answeredAtOnce: bool)
    requires Core(s)
    ensures Core(HandleEnumerate(s, answeredAtOnce))
  {
    hide Core, Locks, Processes, Entries, Pendings, SpawnsTracked, ResetsTracked, DesksOk, LaunchesOk, PendingIds;
    CoreParts(s);
    DesksIgnore(s.world, HandleEnumerate(s, answeredAtOnce).world);
    CoreOf(HandleEnumerate(s, answeredAtOnce));
  }

  lemma DesksIgnore(w: World, v: World)
    requires DesksOk(w) && v.spawns == w.spawns && v.resets == w.resets && v.tickets == w.tickets
    ensures DesksOk(v)
  {
  }

  lemma EnumeratedKeeps(s: State, g: nat)
    requires Core(s) && g in s.world.scanning
    ensures Core(Enumerated(s, g))
  {
    hide Core, Locks, Processes, Entries, Pendings, SpawnsTracked, ResetsTracked, DesksOk, LaunchesOk, Published,
         PendingIds;
    CoreParts(s);
    ScanEnds(s.generation, s.world.scanning, s.world.published, g);
    DesksIgnore(s.world, Enumerated(s, g).world);
    CoreOf(Enumerated(s, g));
  }

  lemma ScanEnds(generation: nat, scanning: set<nat>, published: seq<nat>, g: nat)
    requires Published(generation, scanning, published) && g in scanning
    ensures Published(generation, scanning - {g}, published)
    ensures g == generation ==> Published(generation, scanning - {g}, published + [g])
  {
  }

  lemma StopAllKeeps(s: State)
    requires Core(s)
    ensures Core(StopAll(s))
  {
    hide Core, Locks, Processes, Entries, Pendings, SpawnsTracked, ResetsTracked, DesksOk, LaunchesOk, Published,
         PendingIds, EntryOk;
    CoreParts(s);
    var t := StopAll(s);
    AllStopping(s.children, s.active, s.world.live, s.world.nextChild, t.children);
    AllStoppingEntries(s.children, s.world.clock, t.children);
    AllStoppingResets(s.children, s.world.resets, t.children);
    TicketsAreOpen(s.pendingSpawns, s.world.spawns);
    SpawnsDropped(s.world, Tickets(s.pendingSpawns));
    NoPending(t.children, t.world.spawns);
    Unscanned(s.generation, s.world.scanning, s.world.published);
    CoreOf(t);
  }

  ghost predicate SameBut(children: map<string, Entry>, stopped: map<string, Entry>) {
    stopped.Keys == children.Keys && forall a :: a in children ==> stopped[a] == children[a].(stopping := true)
  }

  lemma AllStopping(children: map<string, Entry>, active: set<string>, live: map<nat, string>, next: nat,
                    stopped: map<string, Entry>)
    requires Locks(children, active) && Processes(children, live, next) && SameBut(children, stopped)
    ensures Locks(stopped, active) && Processes(stopped, live, next)
  {
    forall x | x in active ensures exists a :: a in stopped && stopped[a].locked == Some(x) {
      var a :| a in children && children[a].locked == Some(x);
      assert stopped[a].locked == Some(x);
    }
  }

  lemma AllStoppingEntries(children: map<string, Entry>, clock: int, stopped: map<string, Entry>)
    requires Entries(children, clock) && SameBut(children, stopped)
    ensures Entries(stopped, clock)
  {
    hide EntryOk;
    forall a | a in stopped ensures EntryOk(stopped[a], clock) { EntryFlags(children[a], stopped[a], clock); }
  }

  lemma AllStoppingResets(children: map<string, Entry>, d: Desk<ResetAsk, ResetReply>, stopped: map<string, Entry>)
    requires ResetsTracked(children, d) && SameBut(children, stopped)
    ensures ResetsTracked(stopped, d)
  {
  }

  lemma TicketsAreOpen(pending: map<string, PendingSpawn>, d: Desk<SpawnAsk, SpawnReply>)
    requires SpawnsTracked(pending, d)
    ensures Tickets(pending) == d.open
  {
  }

  lemma NoPending(children: map<string, Entry>, d: Desk<SpawnAsk, SpawnReply>)
    requires d.open == {}
    ensures Pendings(children, map[], map[]) && SpawnsTracked(map[], d) && PendingIds(map[], d.asked)
  {
  }

  lemma Unscanned(generation: nat, scanning: set<nat>, published: seq<nat>)
    requires Published(generation, scanning, published)
    ensures Published(generation + 1, scanning, published)
  {
  }

  lemma DiedKeeps(s: State, c: nat)
    requires Core(s)
    ensures Core(s.(world := s.world.(live := s.world.live - {c})))
  {
    hide Core, Locks, Entries, Pendings, SpawnsTracked, ResetsTracked, DesksOk, LaunchesOk, Published, PendingIds;
    CoreParts(s);
    var t := s.(world := s.world.(live := s.world.live - {c}));
    DesksIgnore(s.world, t.world);
    CoreOf(t);
  }

  lemma TickKeeps(s: State, now: int)
    requires Core(s) && s.world.clock <= now
    ensures Core(s.(world := s.world.(clock := now)))
  {
    hide Core, Locks, Processes, Pendings, SpawnsTracked, ResetsTracked, DesksOk, LaunchesOk, Published, PendingIds,
         LockIsResume, CeilingOk;
    CoreParts(s);
    var t := s.(world := s.world.(clock := now));
    DesksIgnore(s.world, t.world);
    CoreOf(t);
  }
}
