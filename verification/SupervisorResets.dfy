/** Resets end, checks that were superseded stay dead, and why the server's lock is needed. */
module SupervisorResets {
  import opened Wrappers
  import opened Permissions
  import opened CrashBudget
  import opened Desks
  import opened SupervisorSpec
  import opened SupervisorSafety
  import opened SupervisorSteps
  import opened SupervisorCommands
  import opened SupervisorFrames
  import opened SupervisorRuns
  import opened SupervisorTheorems

  // ---- A reset ends ---------------------------------------------------------

  /** SIGTERM and SIGKILL may be left, then only SIGKILL, then nothing. */
  function SignalsLeft(s: State, a: string, ticket: nat): nat {
    if !Resetting(s, a, ticket) then 0 else if s.children[a].escalated then 1 else 2
  }

  function TimersOf(evs: seq<Event>, a: string): nat {
    if evs == [] then 0
    else TimersOf(evs[..|evs| - 1], a) + if evs[|evs| - 1].Timer? && evs[|evs| - 1].a == a then 1 else 0
  }

  lemma TimerSpendsASignal(s: State, a: string, env: Env, ticket: nat)
    requires NeatAt(s, a) && TicketNamed(s, a) && (a in s.children ==> LockIsResume(s.children[a]))
    ensures var t := TimerFired(s, a, env);
            SignalsLeft(t, a, ticket) < SignalsLeft(s, a, ticket) || SignalsLeft(t, a, ticket) == 0
  {
    hide OnExit, About, LockIsResume;
    if a in s.children && s.children[a].timer && s.children[a].pendingReset.Some?
       && !s.children[a].escalated && !env.killed {
      var u := Put(s, a, Expired(s.children[a]));
      assert LockIsResume(u.children[a]) by { SameLock(s.children[a], u.children[a]); }
      OnExitIsAbout(u, a, env);
    }
  }

  lemma SameLock(e: Entry, f: Entry)
    requires LockIsResume(e) && f == e.(timer := f.timer, escalated := f.escalated)
    ensures LockIsResume(f)
  {
  }

  /** Events about an agent other than its timer and its exit. */
  lemma CommandsKeepTheReset(s: State, ev: Event, a: string)
    requires NeatAt(s, a) && Coordinated(s, ev) && (a in s.pendingSpawns ==> a !in s.children) && Subject(ev) == Some(a)
    requires !ev.Timer? && !ev.Exit?
    requires a in s.children && s.children[a].pendingReset.Some?
    ensures a in Step(s, ev).children
         && Step(s, ev).children[a].pendingReset == s.children[a].pendingReset
         && Step(s, ev).children[a].escalated == s.children[a].escalated
  {
    hide LaunchSpawn, CompleteResumeSpawn;
  }


  /** No step sets a reset back: its timer spends a signal, everything else keeps the count
    * or ends it. */
  lemma StepSpendsSignals(s: State, ev: Event, a: string, ticket: nat)
    requires Inv(s) && Coordinated(s, ev) && ticket < s.world.tickets
    ensures var n, m := SignalsLeft(s, a, ticket), SignalsLeft(Step(s, ev), a, ticket);
            if ev.Timer? && ev.a == a then m < n || m == 0 else m <= n
  {
    hide Inv, Step, Coordinated, SameElsewhere, LaunchesOne, DropsOwn, TimerFired, OnExit;
    PendingSwitchRests(s, a);
    if ev.Timer? && ev.a == a {
      if a in s.children { EntryLock(s.children[a], s.world.clock); }
      TimerSpendsASignal(s, a, ev.env, ticket);
      assert Step(s, ev) == TimerFired(s, a, ev.env) by { TimerStep(s, ev); }
    } else if Subject(ev) == Some(a) {
      StepIsAbout(s, ev);
      if Resetting(s, a, ticket) {
        if ev.Exit? {
          ExitEndsTheReset(s, a, ev.child, ev.env);
          assert Step(s, ev) == Exited(s, a, ev.child, ev.env) by { ExitStep(s, ev); }
        } else {
          CommandsKeepTheReset(s, ev, a);
        }
      }
    } else if Subject(ev).Some? {
      StepIsIsolated(s, ev, a);
    } else {
      NoSubject(s, ev);
    }
  }

  lemma TimerStep(s: State, ev: Event)
    requires ev.Timer?
    ensures Step(s, ev) == TimerFired(s, ev.a, ev.env)
  {
  }

  lemma ExitStep(s: State, ev: Event)
    requires ev.Exit?
    ensures Step(s, ev) == Exited(s, ev.a, ev.child, ev.env)
  {
  }

  lemma ExitEndsTheReset(s: State, a: string, child: nat, env: Env)
    requires a in s.children && LockIsResume(s.children[a]) && TicketNamed(s, a)
    ensures Exited(s, a, child, env) == s || Settled(Exited(s, a, child, env), a)
  {
    hide OnExit, About, LockIsResume, TicketNamed, Settled;
    OnExitIsAbout(s, a, env);
  }

  lemma TicketsGrow(s: State, ev: Event)
    requires Inv(s) && Coordinated(s, ev)
    ensures Step(s, ev).world.tickets >= s.world.tickets
  {
    hide Inv, Coordinated, HandleSpawn, SpawnChecked, HandleStop, HandleRestart, HandleSwitch, SwitchChecked,
         HandleReset, Exited, TimerFired, SameElsewhere, LaunchesOne, DropsOwn;
    if Subject(ev).Some? { StepIsAbout(s, ev); } else { NoSubjectNoTicket(s, ev); }
  }

  lemma NoSubjectNoTicket(s: State, ev: Event)
    requires Subject(ev).None?
    ensures Step(s, ev).world.tickets == s.world.tickets
  {
  }

  lemma {:induction false} RunTicketsGrow(s: State, evs: seq<Event>)
    requires Inv(s) && Allowed(s, evs)
    ensures After(s, evs).world.tickets >= s.world.tickets
  {
    hide Inv, Step, Enabled, Coordinated;
    if evs != [] {
      var before := evs[..|evs| - 1];
      RunTicketsGrow(s, before);
      RunKeepsInv(s, before);
      TicketsGrow(After(s, before), evs[|evs| - 1]);
    }
  }

  lemma {:induction false} RunSpendsSignals(s: State, evs: seq<Event>, a: string, ticket: nat)
    requires Inv(s) && Allowed(s, evs) && ticket < s.world.tickets
    ensures SignalsLeft(After(s, evs), a, ticket) == 0
         || SignalsLeft(After(s, evs), a, ticket) + TimersOf(evs, a) <= SignalsLeft(s, a, ticket)
  {
    hide Inv, Step, Enabled, Coordinated, SignalsLeft;
    if evs != [] {
      var before := evs[..|evs| - 1];
      RunSpendsSignals(s, before, a, ticket);
      RunTicketsGrow(s, before);
      RunKeepsInv(s, before);
      StepSpendsSignals(After(s, before), evs[|evs| - 1], a, ticket);
    }
  }

  /** Two graces end every reset, whatever else happens: after its agent's timer has fired
    * twice it is no longer pending, so it has been answered or a stop gave it up. */
  lemma ResetsEndInTwoGraces(s: State, evs: seq<Event>, a: string, ticket: nat)
    requires Inv(s) && Allowed(s, evs) && ticket < s.world.tickets && TimersOf(evs, a) >= 2
    ensures !Resetting(After(s, evs), a, ticket)
  {
    hide Inv, Step, Allowed;
    RunSpendsSignals(s, evs, a, ticket);
  }

  // ---- Giving up ------------------------------------------------------------

  /** While one reset stays pending, what it saved does not change, nor does the process. */
  predicate Frozen(s: State, t: State, a: string) {
    && a in s.children && a in t.children && s.children[a].pendingReset.Some?
    && t.children[a].pendingReset == s.children[a].pendingReset
    && t.children[a].child == s.children[a].child && t.children[a].locked == s.children[a].locked
  }

  lemma StepFreezes(s: State, ev: Event, a: string)
    requires Inv(s) && Coordinated(s, ev) && a in s.children && s.children[a].pendingReset.Some?
    requires Resetting(Step(s, ev), a, s.children[a].pendingReset.value.ticket)
    ensures Frozen(s, Step(s, ev), a)
  {
    hide Inv, Step, Coordinated, TimerFired, OnExit;
    PendingSwitchRests(s, a);
    if ev.Exit? && ev.a == a {
      ExitEndsTheReset(s, a, ev.child, ev.env);
      ExitStep(s, ev);
    } else if ev.Timer? && ev.a == a {
      TimerStep(s, ev);
      TimerFreezes(s, a, ev.env);
    } else if Subject(ev) == Some(a) {
      CommandsFreeze(s, ev, a);
    } else if Subject(ev).Some? {
      StepIsIsolated(s, ev, a);
    } else {
      NoSubject(s, ev);
    }
  }

  lemma CommandsFreeze(s: State, ev: Event, a: string)
    requires NeatAt(s, a) && Coordinated(s, ev) && (a in s.pendingSpawns ==> a !in s.children) && Subject(ev) == Some(a)
    requires !ev.Timer? && !ev.Exit? && a in s.children && s.children[a].pendingReset.Some?
    ensures Frozen(s, Step(s, ev), a)
  {
    hide LaunchSpawn, CompleteResumeSpawn;
  }

  lemma TimerFreezes(s: State, a: string, env: Env)
    requires NeatAt(s, a) && TicketNamed(s, a) && a in s.children && LockIsResume(s.children[a])
    requires s.children[a].pendingReset.Some?
    requires Resetting(TimerFired(s, a, env), a, s.children[a].pendingReset.value.ticket)
    ensures Frozen(s, TimerFired(s, a, env), a)
  {
    hide OnExit, About, LockIsResume;
    if !s.children[a].escalated && !env.killed {
      var u := Put(s, a, Expired(s.children[a]));
      SameLock(s.children[a], u.children[a]);
      OnExitIsAbout(u, a, env);
    }
  }

  /** The reset stays pending through every state of the run. */
  predicate Pends(s: State, evs: seq<Event>, a: string, ticket: nat) {
    Resetting(After(s, evs), a, ticket) && (evs != [] ==> Pends(s, evs[..|evs| - 1], a, ticket))
  }

  lemma {:induction false} RunFreezes(s: State, evs: seq<Event>, a: string, ticket: nat)
    requires Inv(s) && Allowed(s, evs) && Pends(s, evs, a, ticket)
    ensures Frozen(s, After(s, evs), a)
  {
    hide Inv, Step, Enabled, Coordinated;
    if evs != [] {
      var before := evs[..|evs| - 1];
      RunFreezes(s, before, a, ticket);
      RunKeepsInv(s, before);
      StepFreezes(After(s, before), evs[|evs| - 1], a);
    }
  }

  /** A reset accepted, pending through any run, and then given up by its timer: the agent is
    * back in its launch state from before the command, with the same process and lock, and
    * the command is answered with a timeout. */
  lemma GiveUpRestores(s: State, ev: Event, evs: seq<Event>, timer: Event)
    requires Inv(s) && ev.Reset? && timer.Timer? && timer.a == ev.a && ev.a in s.children
    requires Enabled(s, ev) && Coordinated(s, ev) && ev.env.killed
    requires Resetting(Step(s, ev), ev.a, s.world.tickets) && Allowed(Step(s, ev), evs)
    requires Pends(Step(s, ev), evs, ev.a, s.world.tickets)
    requires After(Step(s, ev), evs).children[ev.a].escalated
    ensures var before, t := After(Step(s, ev), evs), Step(After(Step(s, ev), evs), timer);
            && ev.a in t.children
            && t.children[ev.a].parsed == s.children[ev.a].parsed
            && t.children[ev.a].locked == s.children[ev.a].locked
            && t.children[ev.a].child == s.children[ev.a].child
            && t.children[ev.a].pendingReset.None? && !t.children[ev.a].restarting
            && t.world.resets.replies == before.world.resets.replies
                 + [(s.world.tickets, ResetReply(ev.a, ev.reset.requestId.value, ev.reset.mode.value, TimedOut))]
  {
    hide Inv, Step, Enabled, Coordinated, TimerFired, HandleReset;
    var a, u := ev.a, Step(s, ev);
    StepKeepsInv(s, ev);
    ResetStep(s, ev);
    ResetSaves(s, a, ev.reset, ev.env);
    RunKeepsInv(u, evs);
    RunFreezes(u, evs, a, s.world.tickets);
    var before := After(u, evs);
    PendingSwitchRests(before, a);
    TimerStep(before, timer);
    GiveUp(before, a, timer.env);
  }

  lemma ResetStep(s: State, ev: Event)
    requires ev.Reset?
    ensures Step(s, ev) == HandleReset(s, ev.a, ev.reset, ev.env)
    ensures Coordinated(s, ev) ==> Resting(s, ev.a)
  {
  }

  lemma ResetSaves(s: State, a: string, payload: ResetPayload, env: Env)
    requires a in s.children && env.killed && Resetting(HandleReset(s, a, payload, env), a, s.world.tickets)
    requires s.children[a].pendingReset.None?
    ensures payload.requestId.Some? && payload.mode.Some?
    ensures var e, f := s.children[a], HandleReset(s, a, payload, env).children[a];
            && f.pendingReset.value.previousParsed == e.parsed && f.locked == e.locked && f.child == e.child
            && f.pendingReset.value.requestId == payload.requestId.value
            && f.pendingReset.value.mode == payload.mode.value
  {
    hide ApplyResumeSnapshot, ExceedsCeiling, OnExit;
  }

  lemma GiveUp(s: State, a: string, env: Env)
    requires NeatAt(s, a) && a in s.children && s.children[a].pendingReset.Some? && s.children[a].escalated
    ensures var e, t := s.children[a], TimerFired(s, a, env);
            && a in t.children && t.children[a].parsed == e.pendingReset.value.previousParsed
            && t.children[a].locked == e.locked && t.children[a].child == e.child
            && t.children[a].pendingReset.None? && !t.children[a].restarting
            && t.world.resets.replies == s.world.resets.replies
                 + [(e.pendingReset.value.ticket,
                     ResetReply(a, e.pendingReset.value.requestId, e.pendingReset.value.mode, TimedOut))]
  {
    hide OnExit;
  }

  // ---- Superseded checks ----------------------------------------------------

  predicate Checking(s: State, a: string, ticket: nat) {
    Waiting(s, a, ticket) || (a in s.pendingSwitches && s.pendingSwitches[a].ticket == ticket)
  }

  lemma StepRevivesNoCheck(s: State, ev: Event, a: string, ticket: nat)
    requires Inv(s) && Coordinated(s, ev) && ticket < s.world.tickets && !Checking(s, a, ticket)
    ensures !Checking(Step(s, ev), a, ticket)
  {
    hide Inv, Step, Coordinated, LaunchesOne, DropsOwn;
    if Subject(ev).Some? {
      StepIsAbout(s, ev);
      var b, t := Subject(ev).value, Step(s, ev);
      if a != b {
        Elsewhere(s.pendingSwitches, t.pendingSwitches, b, a);
        Elsewhere(s.pendingSpawns, t.pendingSpawns, b, a);
      }
    } else {
      NoSubjectNoCheck(s, ev);
    }
  }

  lemma NoSubjectNoCheck(s: State, ev: Event)
    requires Subject(ev).None?
    ensures var t := Step(s, ev);
            if ev.StopEverything? then t.pendingSwitches == map[] && t.pendingSpawns == map[]
            else t.pendingSwitches == s.pendingSwitches && t.pendingSpawns == s.pendingSpawns
  {
  }

  /** A check that was answered, superseded or cancelled stays dead: however the run goes on,
    * its late completion changes nothing. */
  lemma {:induction false} LateChecksDoNothing(s: State, evs: seq<Event>, a: string, ticket: nat,
                                               outcome: CheckOutcome, env: Env)
    requires Inv(s) && Allowed(s, evs) && ticket < s.world.tickets && !Checking(s, a, ticket)
    ensures !Checking(After(s, evs), a, ticket)
    ensures SpawnChecked(After(s, evs), a, ticket, outcome, env) == After(s, evs)
    ensures SwitchChecked(After(s, evs), a, ticket, outcome, env) == After(s, evs)
  {
    hide Inv, Step, Enabled, Coordinated;
    if evs != [] {
      var before := evs[..|evs| - 1];
      LateChecksDoNothing(s, before, a, ticket, outcome, env);
      RunTicketsGrow(s, before);
      RunKeepsInv(s, before);
      StepRevivesNoCheck(After(s, before), evs[|evs| - 1], a, ticket);
    }
  }

  /** Enumerations publish in request order, each at most once, and only the latest asked. */
  lemma OnlyTheLatestListPublishes(config: Config, evs: seq<Event>, g: nat)
    requires Allowed(Init(config), evs)
    ensures var s := After(Init(config), evs);
            && (forall i, j :: 0 <= i < j < |s.world.published| ==> s.world.published[i] < s.world.published[j])
            && (g in s.world.scanning ==> g !in s.world.published)
            && (g in s.world.scanning && g != s.generation ==>
                  Step(s, ScanDone(g)).world.published == s.world.published)
            && (Step(s, StopEverything).generation !in Step(s, StopEverything).world.scanning)
  {
    hide Inv, Allowed;
    RunIsSafe(config, evs);
    PublishedFacts(After(Init(config), evs));
  }

  lemma PublishedFacts(s: State)
    requires Inv(s)
    ensures Published(s.generation, s.world.scanning, s.world.published)
  {
  }

  // ---- Why the server's lock is needed --------------------------------------

  predicate Leaked(s: State, x: string) {
    x in s.active && forall a :: a in s.children ==> s.children[a].locked != Some(x)
  }

  /** The environment in which everything asked of it works. */
  predicate Smooth(env: Env) { env.launchable && env.killed && env.first == Launches }

  lemma ExitAfterReset(s: State, a: string, env: Env)
    requires a in s.children && !s.children[a].stopping && s.children[a].pendingReset.Some? && env.first == Launches
    ensures var p, t := s.children[a].pendingReset.value, Exited(s, a, s.children[a].child, env);
            && t.children.Keys == s.children.Keys && t.children[a].locked == None
            && (forall b :: b in s.children && b != a ==> t.children[b] == s.children[b])
            && t.active == Release(s.active, p.oldResume)
  {
  }

  /** A switch that reaches an agent whose reset is pending: when the reset then succeeds, the
    * session switched to stays in the lock table with no agent holding it. */
  lemma SwitchDuringResetLeaksALock(s: State, a: string, y: string, env: Env)
    requires Inv(s) && a in s.children && !s.children[a].stopping && s.children[a].pendingReset.Some?
    requires y != "" && y !in s.active && Smooth(env) && s.children[a].ceiling.None?
    ensures var switched := HandleSwitch(s, a, SwitchPayload(Some(y), None, NoSnapshot), AtOnce(true), env);
            Leaked(Exited(switched, a, s.children[a].child, env), y)
  {
    hide Tidy, Processes, Pendings, SpawnsTracked, ResetsTracked, DesksOk, LaunchesOk, Published, PendingIds, BudgetOk,
         CeilingOk, ApplyResumeSnapshot, Exited;
    var switched := HandleSwitch(s, a, SwitchPayload(Some(y), None, NoSnapshot), AtOnce(true), env);
    SwitchTakes(s, a, y, env);
    ExitAfterReset(switched, a, env);
  }

  lemma SwitchTakes(s: State, a: string, y: string, env: Env)
    requires a in s.children && !s.children[a].stopping && y != "" && y !in s.active && Smooth(env)
    requires s.children[a].ceiling.None?
    ensures var t := HandleSwitch(s, a, SwitchPayload(Some(y), None, NoSnapshot), AtOnce(true), env);
            && t.children == s.children[a := t.children[a]] && !t.children[a].stopping
            && t.children[a].pendingReset == s.children[a].pendingReset && t.children[a].child == s.children[a].child
            && t.active == Claim(Release(s.active, s.children[a].locked), Some(y))
  {
    hide ApplyResumeSnapshot;
  }

  /** A second reset while one is pending: the first is never answered, and once the second
    * succeeds the session the agent resumed stays locked with no agent holding it. */
  lemma SecondResetLeaksALock(s: State, a: string, x: string, env: Env)
    requires Inv(s) && a in s.children && !s.children[a].stopping && s.children[a].pendingReset.Some?
    requires s.children[a].locked == Some(x) && Smooth(env) && s.children[a].ceiling.None?
    ensures var again := HandleReset(s, a, ResetPayload(Some("again"), Some(NewSession), None, NoSnapshot), env);
            && s.children[a].pendingReset.value.ticket in again.world.resets.dropped
            && Leaked(Exited(again, a, s.children[a].child, env), x)
  {
    hide Tidy, Processes, Pendings, SpawnsTracked, ResetsTracked, DesksOk, LaunchesOk, Published, PendingIds, BudgetOk,
         CeilingOk, ApplyResumeSnapshot, Exited;
    var again := HandleReset(s, a, ResetPayload(Some("again"), Some(NewSession), None, NoSnapshot), env);
    ResetTakes(s, a, env);
    ExitAfterReset(again, a, env);
  }

  lemma ResetTakes(s: State, a: string, env: Env)
    requires a in s.children && !s.children[a].stopping && s.children[a].pendingReset.Some? && Smooth(env)
    requires s.children[a].parsed.resume.None? && s.children[a].ceiling.None?
    ensures var t := HandleReset(s, a, ResetPayload(Some("again"), Some(NewSession), None, NoSnapshot), env);
            && t.children == s.children[a := t.children[a]] && !t.children[a].stopping && t.active == s.active
            && t.children[a].pendingReset.Some? && t.children[a].pendingReset.value.oldResume == None
            && t.children[a].child == s.children[a].child
            && s.children[a].pendingReset.value.ticket in t.world.resets.dropped
  {
    hide ApplyResumeSnapshot;
  }

  /** A rollback to a session another agent holds: both then hold it. */
  lemma ForeignRollbackSharesALock(s: State, a: string, b: string, y: string, env: Env)
    requires Inv(s) && a in s.children && b in s.children && a != b && !s.children[a].stopping
    requires s.children[a].pendingReset.Some? && s.children[a].pendingReset.value.previousSessionId == Some(y)
    requires y != ""
    requires s.children[b].locked == Some(y) && env.first != Launches && env.second == Launches
    ensures var t := Exited(s, a, s.children[a].child, env);
            Holds(t, a, y) && Holds(t, b, y)
  {
    hide Inv;
  }
}
