/** Whole runs of the supervisor: the invariant holds in every reachable state, and what
  * follows for locks, processes, ceilings, the crash budget and replies. */
module SupervisorRuns {
  import opened Wrappers
  import opened Permissions
  import opened CrashBudget
  import opened Desks
  import opened SupervisorSpec
  import opened SupervisorSafety
  import opened SupervisorSteps
  import opened SupervisorCommands
  import opened SupervisorFrames

  // ---- One step -------------------------------------------------------------

  /** The agent an event is about. */
  function Subject(ev: Event): Option<string> {
    match ev
    case Spawn(agent, _, _, _, _) => agent
    case SpawnCheck(a, _, _, _) => Some(a)
    case Stop(a) => Some(a)
    case Restart(a, _, _) => Some(a)
    case Switch(a, _, _, _) => Some(a)
    case SwitchCheck(a, _, _, _) => Some(a)
    case Reset(a, _, _) => Some(a)
    case Exit(a, _, _) => Some(a)
    case Timer(a, _) => Some(a)
    case _ => None
  }

  lemma StepKeepsCore(s: State, ev: Event)
    requires Inv(s) && Enabled(s, ev) && Coordinated(s, ev)
    ensures Core(Step(s, ev))
  {
    hide Core, RollbackIsOwn, Resting, NotForeign, HandleSpawn, SpawnChecked, HandleStop, HandleRestart, HandleSwitch,
         SwitchChecked, HandleReset, Exited, TimerFired, HandleEnumerate, Enumerated, StopAll;
    match ev
    case Spawn(agent, requestId, parsed, check, env) => HandleSpawnKeeps(s, agent, requestId, parsed, check, env);
    case SpawnCheck(a, ticket, outcome, env) => SpawnCheckedKeeps(s, a, ticket, outcome, env);
    case Stop(a) => HandleStopKeeps(s, a);
    case Restart(a, requestId, env) => HandleRestartKeeps(s, a, requestId, env);
    case Switch(a, payload, check, env) => HandleSwitchKeeps(s, a, payload, check, env);
    case SwitchCheck(a, ticket, outcome, env) =>
      PendingSwitchRests(s, a);
      SwitchCheckedKeeps(s, a, ticket, outcome, env);
    case Reset(a, payload, env) => HandleResetKeeps(s, a, payload, env);
    case Exit(a, child, env) => ExitedKeeps(s, a, child, env);
    case Timer(a, env) => TimerFiredKeeps(s, a, env);
    case Died(c) => DiedKeeps(s, c);
    case Enumerate(answeredAtOnce) => EnumerateKeeps(s, answeredAtOnce);
    case ScanDone(g) => EnumeratedKeeps(s, g);
    case StopEverything => StopAllKeeps(s);
    case Reload(config) => ReloadKeeps(s, config);
    case Tick(now) => TickKeeps(s, now);
  }

  lemma PendingSwitchRests(s: State, a: string)
    requires Inv(s)
    ensures a in s.pendingSwitches ==> Resting(s, a)
    ensures a in s.pendingSpawns ==> a !in s.children
    ensures NeatAt(s, a) && (a in s.children ==> EntryOk(s.children[a], s.world.clock))
    ensures TicketNamed(s, a) && s.world.tickets !in s.world.resets.asked
  {
  }

  lemma ReloadKeeps(s: State, config: Config)
    requires Core(s)
    ensures Core(s.(config := config))
  {
    hide Locks, Processes, Entries, Pendings, SpawnsTracked, ResetsTracked, DesksOk, LaunchesOk, Published, PendingIds;
  }

  lemma ExitedKeeps(s: State, a: string, child: nat, env: Env)
    requires Core(s) && RollbackIsOwn(s, a) && env.now == s.world.clock && child !in s.world.live
    ensures Core(Exited(s, a, child, env))
  {
    hide Core, OnExit, RollbackIsOwn;
    if a in s.children && s.children[a].child == child {
      GoneIsIdle(s, a);
      OnExitKeeps(s, a, env);
    }
  }

  lemma StepIsAbout(s: State, ev: Event)
    requires Inv(s) && Coordinated(s, ev) && Subject(ev).Some?
    ensures var a := Subject(ev).value; Touches(s, Step(s, ev), a) && NeatAt(Step(s, ev), a)
    ensures ev.Stop? || About(s, Step(s, ev), Subject(ev).value)
  {
    hide Inv, Touches, Unstopped, TicketNamed, NeatAt, RollbackIsOwn, NotForeign, EntryOk, HandleSpawn, SpawnChecked,
         HandleStop, HandleRestart, HandleSwitch, SwitchChecked, HandleReset, Exited, TimerFired, HandleEnumerate,
         Enumerated, StopAll;
    var a := Subject(ev).value;
    PendingSwitchRests(s, a);
    if a in s.children { EntryLock(s.children[a], s.world.clock); }
    match ev
    case Spawn(agent, requestId, parsed, check, env) => HandleSpawnIsAbout(s, a, requestId, parsed, check, env);
    case SpawnCheck(_, ticket, outcome, env) => SpawnCheckedIsAbout(s, a, ticket, outcome, env);
    case Stop(_) => HandleStopIsAbout(s, a);
    case Restart(_, requestId, env) => HandleRestartIsAbout(s, a, requestId, env);
    case Switch(_, payload, check, env) => HandleSwitchIsAbout(s, a, payload, check, env);
    case SwitchCheck(_, ticket, outcome, env) => SwitchCheckedIsAbout(s, a, ticket, outcome, env);
    case Reset(_, payload, env) => HandleResetIsAbout(s, a, payload, env);
    case Exit(_, child, env) => ExitedIsAbout(s, a, child, env);
    case Timer(_, env) => TimerFiredIsAbout(s, a, env);
  }

  lemma EntryLock(e: Entry, clock: int)
    requires EntryOk(e, clock)
    ensures LockIsResume(e)
  {
  }

  lemma Elsewhere<T>(m: map<string, T>, n: map<string, T>, a: string, b: string)
    requires m - {a} == n - {a} && a != b
    ensures (b in m <==> b in n) && (b in m ==> m[b] == n[b])
  {
    assert b in m <==> b in m - {a};
    assert b in n <==> b in n - {a};
    if b in m { assert m[b] == (m - {a})[b] == (n - {a})[b] == n[b]; }
  }

  /** What any step leaves of an agent that stays: its engine, directory and ceiling, and
    * everything when the event is about another agent. */
  ghost predicate Isolated(s: State, ev: Event, b: string) {
    var t := Step(s, ev);
    && (b in s.children && b in t.children ==> Follows(s.children[b], t.children[b]))
    && (Subject(ev) != Some(b) && !ev.StopEverything? ==>
          && (b in s.children <==> b in t.children)
          && (b in s.children ==> t.children[b] == s.children[b]))
  }

  lemma StepIsIsolated(s: State, ev: Event, b: string)
    requires Inv(s) && Coordinated(s, ev)
    ensures Isolated(s, ev, b)
  {
    hide Inv, Step, Coordinated, HandleSpawn, SpawnChecked, HandleStop, HandleRestart, HandleSwitch, SwitchChecked,
         HandleReset, Exited, TimerFired;
    if Subject(ev).Some? {
      var a := Subject(ev).value;
      StepIsAbout(s, ev);
      if a != b { Elsewhere(s.children, Step(s, ev).children, a, b); }
    } else {
      NoSubject(s, ev);
    }
  }

  lemma StepKeepsTidy(s: State, ev: Event)
    requires Inv(s) && Coordinated(s, ev)
    ensures Tidy(Step(s, ev))
  {
    hide Core, Step, Coordinated, Touches, About, HandleSpawn, SpawnChecked, HandleStop, HandleRestart, HandleSwitch,
         SwitchChecked, HandleReset, Exited, TimerFired;
    var t := Step(s, ev);
    forall b | b in t.children ensures Neat(t.children[b], b in t.pendingSwitches) {
      if Subject(ev).Some? {
        var a := Subject(ev).value;
        StepIsAbout(s, ev);
        if a != b {
          TouchesElsewhere(s, t, a);
          Elsewhere(s.children, t.children, a, b);
          Elsewhere(s.pendingSwitches, t.pendingSwitches, a, b);
        }
      } else {
        NoSubject(s, ev);
      }
    }
  }

  /** An event about no agent leaves every entry, but for the flag a shutdown sets. */
  lemma NoSubject(s: State, ev: Event)
    requires Subject(ev).None?
    ensures var t := Step(s, ev);
            if ev.StopEverything? then SameBut(s.children, t.children) && t.pendingSwitches == map[]
            else t.children == s.children && t.pendingSwitches == s.pendingSwitches
  {
  }

  lemma TouchesElsewhere(s: State, t: State, a: string)
    requires Touches(s, t, a)
    ensures s.children - {a} == t.children - {a} && s.pendingSwitches - {a} == t.pendingSwitches - {a}
  {
  }

  /** The invariant is inductive. */
  lemma StepKeepsInv(s: State, ev: Event)
    requires Inv(s) && Enabled(s, ev) && Coordinated(s, ev)
    ensures Inv(Step(s, ev))
  {
    hide Step, Core, Tidy;
    StepKeepsCore(s, ev);
    StepKeepsTidy(s, ev);
  }

  // ---- Runs -----------------------------------------------------------------

  function After(s: State, evs: seq<Event>): State {
    if evs == [] then s else Step(After(s, evs[..|evs| - 1]), evs[|evs| - 1])
  }

  /** Every event of the run respects what the outside and the server promise. */
  ghost predicate Allowed(s: State, evs: seq<Event>) {
    evs == [] ||
    var before := evs[..|evs| - 1];
    && Allowed(s, before)
    && Enabled(After(s, before), evs[|evs| - 1])
    && Coordinated(After(s, before), evs[|evs| - 1])
  }

  lemma InitIsSafe(config: Config)
    ensures Inv(Init(config))
  {
  }

  lemma {:induction false} RunKeepsInv(s: State, evs: seq<Event>)
    requires Inv(s) && Allowed(s, evs)
    ensures Inv(After(s, evs))
  {
    hide Inv, Step, Enabled, Coordinated;
    if evs != [] {
      RunKeepsInv(s, evs[..|evs| - 1]);
      StepKeepsInv(After(s, evs[..|evs| - 1]), evs[|evs| - 1]);
    }
  }
}
