/** The promises of the supervisor, over every run from the start. */
module SupervisorTheorems {
  import opened Wrappers
  import opened Permissions
  import opened CrashBudget
  import opened Desks
  import opened SupervisorSpec
  import opened SupervisorSafety
  import opened SupervisorSteps
  import opened SupervisorCommands
  import opened SupervisorFrames
  import opened SupervisorRuns

  lemma RunIsSafe(config: Config, evs: seq<Event>)
    requires Allowed(Init(config), evs)
    ensures Inv(After(Init(config), evs))
  {
    InitIsSafe(config);
    RunKeepsInv(Init(config), evs);
  }

  // ---- Locks ----------------------------------------------------------------

  predicate Holds(s: State, a: string, x: string) { a in s.children && s.children[a].locked == Some(x) }

  /** The same-session locks are never leaked and never held twice: the table lists exactly
    * the sessions of the agents present, each held by one of them, and each agent holds what
    * it would resume, or what its pending reset has yet to give up. */
  lemma LockTableIsExact(config: Config, evs: seq<Event>, x: string)
    requires Allowed(Init(config), evs)
    ensures var s := After(Init(config), evs);
            && (x in s.active <==> exists a :: Holds(s, a, x))
            && (forall a, b :: Holds(s, a, x) && Holds(s, b, x) ==> a == b)
            && (forall a :: a in s.children ==>
                  var e := s.children[a];
                  e.locked == if e.pendingReset.Some? then e.pendingReset.value.oldResume else e.parsed.resume)
  {
    RunIsSafe(config, evs);
    LockFacts(After(Init(config), evs), x);
  }

  lemma LockFacts(s: State, x: string)
    requires Inv(s)
    ensures x in s.active <==> exists a :: Holds(s, a, x)
    ensures forall a, b :: Holds(s, a, x) && Holds(s, b, x) ==> a == b
    ensures forall a :: a in s.children ==>
              var e := s.children[a];
              e.locked == if e.pendingReset.Some? then e.pendingReset.value.oldResume else e.parsed.resume
  {
    hide Processes, Pendings, SpawnsTracked, ResetsTracked, DesksOk, LaunchesOk, Published, PendingIds, Tidy, BudgetOk,
         CeilingOk;
    if x in s.active {
      var a :| a in s.children && s.children[a].locked == Some(x);
      assert Holds(s, a, x);
    }
  }

  // ---- Processes ------------------------------------------------------------

  /** At most one process of an agent runs, and it is the one its entry names. */
  lemma OneProcessPerAgent(config: Config, evs: seq<Event>, c: nat, d: nat)
    requires Allowed(Init(config), evs)
    ensures var s := After(Init(config), evs);
            c in s.world.live && d in s.world.live && s.world.live[c] == s.world.live[d] ==>
              c == d && s.world.live[c] in s.children && s.children[s.world.live[c]].child == c
  {
    RunIsSafe(config, evs);
    ProcessFacts(After(Init(config), evs));
  }

  lemma ProcessFacts(s: State)
    requires Inv(s)
    ensures Processes(s.children, s.world.live, s.world.nextChild)
  {
  }

  /** The launches a step adds. */
  function NewLaunches(s: State, ev: Event): seq<Launch> {
    var t := Step(s, ev);
    if |t.world.launches| >= |s.world.launches| then t.world.launches[|s.world.launches|..] else []
  }

  /** A step launches at most one process, only when none of that agent runs, resuming the
    * session the agent then holds the lock of, and within the ceiling it was first given. */
  lemma LaunchesAreSafe(s: State, ev: Event)
    requires Inv(s) && Enabled(s, ev) && Coordinated(s, ev)
    ensures var t, added := Step(s, ev), NewLaunches(s, ev);
            && |added| <= 1
            && t.world.launches == s.world.launches + added
            && (|added| == 1 ==>
                  var n := added[0];
                  && Subject(ev) == Some(n.agent) && Idle(s, n.agent)
                  && n.agent in t.children && t.children[n.agent].child == n.child && n.child !in s.world.live
                  && n.resume == t.children[n.agent].locked && (n.resume.Some? ==> n.resume.value in t.active)
                  && n.ceiling == t.children[n.agent].ceiling
                  && (n.ceiling.Some? ==> Within(n.axes, n.ceiling.value))
                  && (n.agent in s.children ==> n.ceiling == s.children[n.agent].ceiling))
  {
    hide Step, Inv, Enabled, Coordinated, Touches, About, Processes, Locks;
    StepKeepsInv(s, ev);
    var t := Step(s, ev);
    ProcessFacts(s);
    ProcessFacts(t);
    if Subject(ev).Some? {
      var a := Subject(ev).value;
      StepIsAbout(s, ev);
      OneLaunch(s, t, a);
      NewChildIsUnused(s.children, s.world.live, s.world.nextChild);
      if t.world.launches != s.world.launches {
        IdleBefore(s, t, a);
        LaunchedEntry(t, a);
      }
    } else {
      NoLaunch(s, ev);
    }
  }

  lemma OneLaunch(s: State, t: State, a: string)
    requires Touches(s, t, a)
    ensures LaunchesOne(s, t, a) && (a in s.children && a in t.children ==> Follows(s.children[a], t.children[a]))
  {
  }

  lemma NoLaunch(s: State, ev: Event)
    requires Subject(ev).None?
    ensures Step(s, ev).world.launches == s.world.launches
  {
  }

  lemma NewChildIsUnused(children: map<string, Entry>, live: map<nat, string>, next: nat)
    requires Processes(children, live, next)
    ensures next !in live
  {
  }

  lemma IdleBefore(s: State, t: State, a: string)
    requires Processes(s.children, s.world.live, s.world.nextChild)
    requires Processes(t.children, t.world.live, t.world.nextChild)
    requires a in t.children && t.children[a].child == s.world.nextChild
    requires t.world.live == s.world.live[s.world.nextChild := a]
    ensures Idle(s, a)
  {
    forall c | c in s.world.live ensures s.world.live[c] != a {
      assert c in t.world.live && c < s.world.nextChild;
    }
  }

  lemma LaunchedEntry(s: State, a: string)
    requires Inv(s) && a in s.children
    ensures var e := s.children[a];
            && (e.locked.Some? ==> e.locked.value in s.active)
            && (e.ceiling.Some? ==> Within(e.parsed.settings.axes, e.ceiling.value))
  {
    hide Processes, Pendings, SpawnsTracked, ResetsTracked, DesksOk, LaunchesOk, Published, PendingIds, Tidy, BudgetOk,
         Within;
  }

  // ---- Ceilings -------------------------------------------------------------

  /** The agent is present in every state of the run. */
  predicate Stays(s: State, evs: seq<Event>, a: string) {
    a in After(s, evs).children && (evs != [] ==> Stays(s, evs[..|evs| - 1], a))
  }

  /** As long as an agent stays, through any crash, switch, reset, rollback or timeout, its
    * ceiling is the one it was given and its values are within it. */
  lemma {:induction false} CeilingIsForLife(s: State, evs: seq<Event>, a: string)
    requires Inv(s) && Allowed(s, evs) && Stays(s, evs, a) && a in s.children
    ensures var e, f := s.children[a], After(s, evs).children[a];
            && Follows(e, f)
            && (e.parsed.engine == Antigravity <==> f.ceiling.Some?)
            && (f.ceiling.Some? ==> Within(f.parsed.settings.axes, f.ceiling.value))
  {
    hide Inv, Step, Enabled, Coordinated, Within;
    RunKeepsInv(s, evs);
    EntryCeiling(After(s, evs), a);
    if evs != [] {
      var before := evs[..|evs| - 1];
      CeilingIsForLife(s, before, a);
      RunKeepsInv(s, before);
      StepIsIsolated(After(s, before), evs[|evs| - 1], a);
    }
  }

  lemma EntryCeiling(s: State, a: string)
    requires Inv(s) && a in s.children
    ensures CeilingOk(s.children[a].parsed.engine, s.children[a].parsed.settings.axes, s.children[a].ceiling)
  {
    hide Processes, Pendings, SpawnsTracked, ResetsTracked, DesksOk, LaunchesOk, Published, PendingIds, Tidy, BudgetOk,
         CeilingOk, Locks;
  }

  lemma SwitchTakesTheSnapshot(s: State, a: string, payload: SwitchPayload, x: Snapshot, env: Env)
    requires a in s.children && payload.resume.Some? && payload.snapshot == Given(x)
    ensures var e, t := s.children[a], CompleteSwitch(s, a, payload, true, env);
            a in t.children
            && (t.children[a] != e ==>
                  t.children[a].parsed.settings == ApplyResumeSnapshot(e.parsed.settings, Some(x), e.parsed.engine))
  {
    hide ApplyResumeSnapshot, ExceedsCeiling;
  }

  /** What a reset needs before anything is signalled: an id, a mode, an agent that can be
    * launched, and values within the ceiling. */
  predicate ResetAccepted(s: State, a: string, payload: ResetPayload, env: Env)
    requires a in s.children
  {
    && payload.requestId.Some? && payload.requestId.value != "" && payload.mode.Some? && env.launchable
    && !ExceedsCeiling(s.children[a], ResetParsed(s.children[a].parsed, payload))
  }

  /** An exit while a reset is pending keeps the settings, whether the agent comes back on a fresh
    * session or is rolled back. */
  lemma ExitKeepsSettings(s: State, a: string, env: Env)
    requires a in s.children && s.children[a].pendingReset.Some?
    ensures var t := OnExit(s, a, env);
            a in t.children ==> t.children[a].parsed.settings == s.children[a].parsed.settings
  {
  }

  lemma ResetTakesTheSnapshot(s: State, a: string, payload: ResetPayload, x: Snapshot, env: Env)
    requires a in s.children
    requires payload.snapshot == Given(x) || (payload.snapshot.MalformedSnapshot? && x == EmptySnapshot)
    ensures var e, t := s.children[a], HandleReset(s, a, payload, env);
            if ResetAccepted(s, a, payload, env) then
              && (env.killed ==> a in t.children)
              && (a in t.children ==>
                    t.children[a].parsed.settings == ApplyResumeSnapshot(e.parsed.settings, Some(x), e.parsed.engine))
            else a in t.children && t.children[a].parsed == e.parsed && t.children[a].child == e.child
  {
    hide ApplyResumeSnapshot, ExceedsCeiling, OnExit;
    if ResetAccepted(s, a, payload, env) {
      var e, t := s.children[a], s.world.tickets;
      var pending := PendingReset(t, payload.requestId.value, payload.mode.value, payload.previousSessionId,
                                  e.parsed.resume, e.parsed);
      var asked := AskedReset(s, ResetAsk(a, payload.requestId.value, payload.mode.value));
      var cancelled := DropReset(asked.(pendingSwitches := asked.pendingSwitches - {a}), e);
      ExitKeepsSettings(Begun(cancelled, a, pending, ResetParsed(e.parsed, payload), env.now), a, env);
    }
  }

  /** A switch that carries a snapshot leaves privileges that depend on nothing but the
    * snapshot: two agents of one engine, in any two states, come out the same. */
  lemma SwitchesDecideAlone(s: State, t: State, a: string, b: string, x: Snapshot, payload: SwitchPayload, env: Env)
    requires a in s.children && b in t.children && s.children[a].parsed.engine == t.children[b].parsed.engine
    requires payload.resume.Some? && payload.snapshot == Given(x)
    ensures var u, v := CompleteSwitch(s, a, payload, true, env), CompleteSwitch(t, b, payload, true, env);
            a in u.children && b in v.children
            && (u.children[a] != s.children[a] && v.children[b] != t.children[b] ==>
                  SamePrivileges(u.children[a].parsed.settings, v.children[b].parsed.settings,
                                 s.children[a].parsed.engine))
  {
    hide ApplyResumeSnapshot, SamePrivileges, CompleteSwitch;
    SwitchTakesTheSnapshot(s, a, payload, x, env);
    SwitchTakesTheSnapshot(t, b, payload, x, env);
    SnapshotDecidesAlone(s.children[a].parsed.settings, t.children[b].parsed.settings, x, s.children[a].parsed.engine);
  }

  /** The same for every agent still there after a reset that was accepted, whatever happened to
    * its old child; a malformed snapshot counts as the empty one. */
  lemma ResetsDecideAlone(s: State, t: State, a: string, b: string, x: Snapshot, payload: ResetPayload,
                          env: Env, env': Env)
    requires a in s.children && b in t.children && s.children[a].parsed.engine == t.children[b].parsed.engine
    requires payload.snapshot == Given(x) || (payload.snapshot.MalformedSnapshot? && x == EmptySnapshot)
    requires ResetAccepted(s, a, payload, env) && ResetAccepted(t, b, payload, env')
    ensures var u, v := HandleReset(s, a, payload, env), HandleReset(t, b, payload, env');
            && (env.killed ==> a in u.children) && (env'.killed ==> b in v.children)
            && (a in u.children && b in v.children ==>
                  SamePrivileges(u.children[a].parsed.settings, v.children[b].parsed.settings,
                                 s.children[a].parsed.engine))
  {
    hide ApplyResumeSnapshot, SamePrivileges, HandleReset, ResetAccepted;
    ResetTakesTheSnapshot(s, a, payload, x, env);
    ResetTakesTheSnapshot(t, b, payload, x, env');
    SnapshotDecidesAlone(s.children[a].parsed.settings, t.children[b].parsed.settings, x, s.children[a].parsed.engine);
  }

  // ---- The crash budget -----------------------------------------------------

  /** Commands that open a fresh budget for `a`. */
  predicate Deliberate(ev: Event, a: string) {
    (ev.Restart? || ev.Switch? || ev.SwitchCheck? || ev.Reset?) && Subject(ev) == Some(a)
  }

  /** The exit of the current process of an agent that is brought back unasked. */
  predicate Automatic(s: State, ev: Event, a: string) {
    && ev.Exit? && ev.a == a && a in s.children && s.children[a].child == ev.child
    && a in Step(s, ev).children
  }

  predicate Quiet(s: State, a: string) {
    a in s.children ==> !s.children[a].restarting && s.children[a].pendingReset.None?
  }

  /** The automatic relaunches of a run whose instant lies in the interval. */
  function AutomaticIn(s: State, evs: seq<Event>, a: string, from: int, to: int): nat {
    if evs == [] then 0
    else
      var before, ev := After(s, evs[..|evs| - 1]), evs[|evs| - 1];
      AutomaticIn(s, evs[..|evs| - 1], a, from, to)
      + if Automatic(before, ev, a) && from <= before.world.clock <= to then 1 else 0
  }

  lemma CrashOfQuiet(s: State, a: string, env: Env)
    requires a in s.children && Quiet(s, a) && a in OnExit(s, a, env).children && s.children[a].windows != []
    requires s.children[a].windowStart == Current(s.children[a].windows).start
    requires s.children[a].restarts == |Current(s.children[a].windows).relaunches|
    ensures Quiet(OnExit(s, a, env), a)
    ensures var (after, up) := Crash(s.children[a].windows, env.now);
            up && OnExit(s, a, env).children[a].windows == after
  {
    hide SelectRecovery;
    assert !s.children[a].stopping;
    var u := Put(s, a, Exiting(s.children[a]));
    SelectRecoveryFrame(u, a, env.recovery);
    var (ok, t) := SelectRecovery(u, a, env.recovery);
    assert ok;
    assert OnExit(s, a, env) == Charge(t, a, env);
    ChargeCharges(t, a, env);
  }

  lemma ChargeCharges(s: State, a: string, env: Env)
    requires a in s.children && Quiet(s, a) && a in Charge(s, a, env).children && s.children[a].windows != []
    requires s.children[a].windowStart == Current(s.children[a].windows).start
    requires s.children[a].restarts == |Current(s.children[a].windows).relaunches|
    ensures Quiet(Charge(s, a, env), a)
    ensures var (after, up) := Crash(s.children[a].windows, env.now);
            up && Charge(s, a, env).children[a].windows == after
  {
  }

  /** Events about an agent that are not deliberate cycles and not its exit. */
  lemma OtherEventsSpendNothing(s: State, ev: Event, a: string)
    requires Inv(s) && Coordinated(s, ev) && a in s.children && Quiet(s, a)
    requires !Deliberate(ev, a) && !(ev.Exit? && ev.a == a)
    ensures a in Step(s, ev).children && Quiet(Step(s, ev), a)
    ensures Step(s, ev).children[a].windows == s.children[a].windows
  {
    hide Core, Step, Coordinated;
    PendingSwitchRests(s, a);
    StepIsIsolated(s, ev, a);
    if Subject(ev) == Some(a) {
      PresentAgent(s, ev, a);
    } else if ev.StopEverything? {
      NoSubject(s, ev);
    }
  }

  lemma PresentAgent(s: State, ev: Event, a: string)
    requires NeatAt(s, a) && a !in s.pendingSpawns && a in s.children && Quiet(s, a)
    requires Subject(ev) == Some(a) && !Deliberate(ev, a) && !ev.Exit?
    ensures a in Step(s, ev).children && Quiet(Step(s, ev), a)
    ensures Step(s, ev).children[a].windows == s.children[a].windows
  {
    hide LaunchSpawn, CompleteResumeSpawn;
  }

  lemma StepIsCharged(s: State, ev: Event, a: string, from: int, to: int)
    requires Inv(s) && Enabled(s, ev) && Coordinated(s, ev) && a in s.children && Quiet(s, a)
    requires !Deliberate(ev, a) && a in Step(s, ev).children
    ensures Quiet(Step(s, ev), a)
    ensures Relaunches(Step(s, ev).children[a].windows, from, to)
         == Relaunches(s.children[a].windows, from, to)
            + if Automatic(s, ev, a) && from <= s.world.clock <= to then 1 else 0
  {
    hide Inv, Coordinated, OnExit, HandleSpawn, SpawnChecked, HandleStop, HandleRestart, HandleSwitch, SwitchChecked,
         HandleReset, TimerFired, Relaunches, Crash;
    if ev.Exit? && ev.a == a {
      if s.children[a].child == ev.child {
        PendingSwitchRests(s, a);
        CrashOfQuiet(s, a, ev.env);
        CrashIsRecorded(s.children[a].windows, ev.env.now, from, to);
      }
    } else {
      OtherEventsSpendNothing(s, ev, a);
    }
  }

  predicate NoneDeliberate(evs: seq<Event>, a: string) {
    forall k :: 0 <= k < |evs| ==> !Deliberate(evs[k], a)
  }

  lemma {:induction false} RunIsCharged(s: State, evs: seq<Event>, a: string, from: int, to: int)
    requires Inv(s) && Allowed(s, evs) && Stays(s, evs, a) && a in s.children && Quiet(s, a) && NoneDeliberate(evs, a)
    ensures Quiet(After(s, evs), a)
    ensures Relaunches(After(s, evs).children[a].windows, from, to)
         == Relaunches(s.children[a].windows, from, to) + AutomaticIn(s, evs, a, from, to)
  {
    hide Inv, Step, Enabled, Coordinated, Relaunches, Automatic, Deliberate, Quiet;
    if evs != [] {
      var before := evs[..|evs| - 1];
      RunIsCharged(s, before, a, from, to);
      RunKeepsInv(s, before);
      StepIsCharged(After(s, before), evs[|evs| - 1], a, from, to);
    }
  }

  /** However an agent crashes, an interval one window long holds at most twice the cap of
    * automatic relaunches (and that many are possible, see TwiceTheCapIsReached). */
  lemma RelaunchesAreBounded(s: State, evs: seq<Event>, a: string, from: int)
    requires Inv(s) && Allowed(s, evs) && Stays(s, evs, a) && a in s.children && Quiet(s, a) && NoneDeliberate(evs, a)
    ensures AutomaticIn(s, evs, a, from, from + RESTART_WINDOW_MS) <= 2 * MAX_RESTARTS
  {
    hide Inv, Step, Quiet, Allowed, NoneDeliberate, AutomaticIn, Budgeted;
    RunIsCharged(s, evs, a, from, from + RESTART_WINDOW_MS);
    RunKeepsInv(s, evs);
    var t := After(s, evs);
    PendingSwitchRests(t, a);
    WindowsAreBudgeted(t.children[a].windows, t.world.clock);
    AtMostTwoWindows(t.children[a].windows, from);
  }

  lemma WindowsAreBudgeted(ws: seq<Window>, clock: int)
    requires Budgeted(ws, clock)
    ensures ws != [] && Budgeted(ws, Current(ws).start)
  {
  }

  // ---- Replies --------------------------------------------------------------

  predicate Waiting(s: State, a: string, ticket: nat) {
    a in s.pendingSpawns && s.pendingSpawns[a].ticket == ticket
  }

  predicate Resetting(s: State, a: string, ticket: nat) {
    a in s.children && s.children[a].pendingReset.Some? && s.children[a].pendingReset.value.ticket == ticket
  }

  ghost predicate SpawnOnce(s: State, ticket: nat) {
    var d := s.world.spawns;
    ticket in d.asked ==>
      && Count(d.replies, ticket) == (if Waiting(s, d.asked[ticket].agent, ticket) || ticket in d.dropped then 0 else 1)
      && (Waiting(s, d.asked[ticket].agent, ticket) ==> ticket !in d.dropped)
      && (forall i :: 0 <= i < |d.replies| && d.replies[i].0 == ticket ==> SpawnReplyOk(d.asked, d.replies[i]))
  }

  /** Each spawn command is answered exactly once, unless its check is still running or a
    * shutdown cancelled it; the answer names the command. */
  lemma SpawnsAreAnsweredOnce(config: Config, evs: seq<Event>, ticket: nat)
    requires Allowed(Init(config), evs)
    ensures SpawnOnce(After(Init(config), evs), ticket)
  {
    hide Inv, SpawnOnce, Allowed;
    RunIsSafe(config, evs);
    SpawnFacts(After(Init(config), evs), ticket);
  }

  lemma SpawnFacts(s: State, ticket: nat)
    requires Inv(s)
    ensures SpawnOnce(s, ticket)
  {
    hide Locks, Processes, Entries, Pendings, ResetsTracked, LaunchesOk, Published, PendingIds, Tidy, ResetReplyOk,
         SpawnReplyOk;
  }

  ghost predicate ResetOnce(s: State, ticket: nat) {
    var d := s.world.resets;
    ticket in d.asked ==>
      && Count(d.replies, ticket)
         == (if Resetting(s, d.asked[ticket].agent, ticket) || ticket in d.dropped then 0 else 1)
      && (Resetting(s, d.asked[ticket].agent, ticket) ==> ticket !in d.dropped)
      && (forall i :: 0 <= i < |d.replies| && d.replies[i].0 == ticket ==> ResetReplyOk(d.asked, d.replies[i]))
  }

  /** Each accepted reset command is answered exactly once, unless it is still pending or a
    * stop of the agent gave it up. */
  lemma ResetsAreAnsweredOnce(config: Config, evs: seq<Event>, ticket: nat)
    requires Allowed(Init(config), evs)
    ensures ResetOnce(After(Init(config), evs), ticket)
  {
    hide Inv, ResetOnce, Allowed;
    RunIsSafe(config, evs);
    ResetFacts(After(Init(config), evs), ticket);
  }

  lemma ResetFacts(s: State, ticket: nat)
    requires Inv(s)
    ensures ResetOnce(s, ticket)
  {
    hide Locks, Processes, Entries, Pendings, SpawnsTracked, LaunchesOk, Published, PendingIds, Tidy, SpawnReplyOk,
         ResetReplyOk;
  }

  predicate NoStopOf(evs: seq<Event>, a: string) {
    forall k :: 0 <= k < |evs| ==> evs[k] != Stop(a) && evs[k] != StopEverything
  }

  /** Only a stop of the agent, or a shutdown, leaves one of its resets unanswered. */
  lemma {:induction false} OnlyAStopDropsAReset(config: Config, evs: seq<Event>, a: string)
    requires Allowed(Init(config), evs) && NoStopOf(evs, a)
    ensures var s := After(Init(config), evs);
            !Stopping(s, a) && forall k :: k in s.world.resets.dropped ==>
              k in s.world.resets.asked && s.world.resets.asked[k].agent != a
  {
    hide Inv, Step, Enabled, Coordinated;
    if evs != [] {
      var before, ev := evs[..|evs| - 1], evs[|evs| - 1];
      OnlyAStopDropsAReset(config, before, a);
      RunIsSafe(config, before);
      DroppedByOthers(After(Init(config), before), ev, a);
    }
  }

  lemma DroppedByOthers(s: State, ev: Event, a: string)
    requires Inv(s) && Coordinated(s, ev) && ev != Stop(a) && ev != StopEverything && !Stopping(s, a)
    requires forall k :: k in s.world.resets.dropped ==> k in s.world.resets.asked && s.world.resets.asked[k].agent != a
    ensures var t := Step(s, ev);
            !Stopping(t, a) && forall k :: k in t.world.resets.dropped ==>
              k in t.world.resets.asked && t.world.resets.asked[k].agent != a
  {
    hide Inv, Step, Coordinated, SameElsewhere, LaunchesOne;
    StepIsIsolated(s, ev, a);
    if Subject(ev).Some? {
      StepIsAbout(s, ev);
    } else {
      NoSubjectNoDrop(s, ev);
    }
  }

  lemma NoSubjectNoDrop(s: State, ev: Event)
    requires Subject(ev).None?
    ensures Step(s, ev).world.resets == s.world.resets
    ensures !ev.StopEverything? ==> Step(s, ev).world.spawns.dropped == s.world.spawns.dropped
  {
  }

  /** Only a shutdown leaves a spawn unanswered. */
  lemma {:induction false} OnlyAShutdownDropsASpawn(config: Config, evs: seq<Event>)
    requires Allowed(Init(config), evs) && StopEverything !in evs
    ensures After(Init(config), evs).world.spawns.dropped == {}
  {
    hide Inv, Step, Enabled, Coordinated, SameElsewhere, LaunchesOne;
    if evs != [] {
      var before, ev := evs[..|evs| - 1], evs[|evs| - 1];
      OnlyAShutdownDropsASpawn(config, before);
      RunIsSafe(config, before);
      if Subject(ev).Some? {
        StepIsAbout(After(Init(config), before), ev);
      } else {
        NoSubjectNoDrop(After(Init(config), before), ev);
      }
    }
  }
}
