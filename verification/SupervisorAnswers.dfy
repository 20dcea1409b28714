/** How often the request id of a spawn is answered, over whole runs, and when a spawn's
  * answer is ok. */
module SupervisorAnswers {
  import opened Wrappers
  import opened Permissions
  import opened CrashBudget
  import opened Desks
  import opened SupervisorSpec
  import opened SupervisorSafety
  import opened SupervisorSteps
  import opened SupervisorCommands
  import opened SupervisorFrames
  import opened SupervisorRuns
  import opened SupervisorTheorems
  import opened SupervisorResets
  import opened SupervisorResults

  // ---- One step -------------------------------------------------------------

  lemma FailingStepSees(s: State, t: State, ev: Event, a: string, id: Option<string>, r: string)
    requires Fails(s, t, a, id) && IdsKept(s, t, a, Carried(ev)) && t.pendingSpawns == s.pendingSpawns
    requires id != Some(r) && Carried(ev) != Some(r) && r !in SwitchIds(s, a) && !ev.Exit? && !ev.SpawnCheck?
    ensures Sees(s, t, ev, a, r)
  {
    hide Fails;
    FailsCount(s, t, a, id, r);
  }

  lemma SilentStepSees(s: State, t: State, ev: Event, a: string, r: string)
    requires Silent(s, t) && IdsKept(s, t, a, Carried(ev)) && t.pendingSpawns == s.pendingSpawns
    requires Carried(ev) != Some(r) && r !in SwitchIds(s, a) && !ev.Exit? && !ev.SpawnCheck?
    ensures Sees(s, t, ev, a, r)
  {
    SilentFails(s, t, a, None);
    FailingStepSees(s, t, ev, a, None, r);
  }

  lemma StepSees(s: State, ev: Event, a: string, r: string)
    requires Inv(s) && Coordinated(s, ev) && Subject(ev) == Some(a) && Carried(ev) != Some(r) && r !in SwitchIds(s, a)
    ensures Sees(s, Step(s, ev), ev, a, r)
  {
    hide Inv, Sees, Fails, IdsKept, Silent, SwitchIds, NotForeign, RollbackIsOwn, EntryOk, HandleSpawn, SpawnChecked,
         HandleStop, HandleRestart, HandleSwitch, SwitchChecked, HandleReset, Exited, TimerFired;
    PendingSwitchRests(s, a);
    PendingCheckResumes(s, a);
    var t := Step(s, ev);
    match ev
    case Spawn(_, requestId, parsed, check, env) => SpawnSees(s, ev, a, r);
    case SpawnCheck(_, _, _, _) => CheckSees(s, ev, r);
    case Stop(_) => StopSees(s, ev, r);
    case Restart(_, requestId, env) =>
      HandleRestartSays(s, a, requestId, env);
      FailingStepSees(s, t, ev, a, requestId, r);
    case Switch(_, payload, check, env) =>
      HandleSwitchSays(s, a, payload, check, env);
      FailingStepSees(s, t, ev, a, payload.requestId, r);
    case SwitchCheck(_, k, outcome, env) => LateSwitchSees(s, ev, r);
    case Reset(_, payload, env) =>
      HandleResetSays(s, a, payload, env);
      SilentStepSees(s, t, ev, a, r);
    case Exit(_, _, _) => ExitSees(s, ev, r);
    case Timer(_, env) =>
      TimerFiredSays(s, a, env);
      SilentStepSees(s, t, ev, a, r);
  }

  lemma LateSwitchSees(s: State, ev: Event, r: string)
    requires ev.SwitchCheck? && r !in SwitchIds(s, ev.a)
    requires ev.a in s.pendingSwitches ==> Resting(s, ev.a)
    ensures Sees(s, SwitchChecked(s, ev.a, ev.ticket, ev.outcome, ev.env), ev, ev.a, r)
  {
    hide SwitchChecked, Sees, Fails, IdsKept;
    var a, t := ev.a, SwitchChecked(s, ev.a, ev.ticket, ev.outcome, ev.env);
    SwitchCheckedSays(s, a, ev.ticket, ev.outcome, ev.env);
    if a in s.pendingSwitches {
      FailingStepSees(s, t, ev, a, s.pendingSwitches[a].payload.requestId, r);
    } else {
      SilentFails(s, s, a, None);
      FailingStepSees(s, t, ev, a, None, r);
    }
  }

  lemma PendingCheckResumes(s: State, a: string)
    requires Inv(s)
    ensures a in s.pendingSpawns ==> s.pendingSpawns[a].parsed.resume.Some?
  {
  }

  // ---- The life of one request id -------------------------------------------

  /** No entry, check or switch remembers the id. */
  ghost predicate Nowhere(s: State, r: string) {
    && (forall b :: r !in EntryIds(s, b)) && (forall b :: r !in WaitIds(s, b))
    && (forall b :: r !in SwitchIds(s, b))
  }

  /** Only the check of this spawn remembers it. */
  ghost predicate OnlyWaits(s: State, a: string, r: string) {
    forall b :: r !in EntryIds(s, b) && r !in SwitchIds(s, b) && (r in WaitIds(s, b) ==> b == a)
  }

  /** At most the entry of this agent does. */
  ghost predicate OnlyAt(s: State, a: string, r: string) {
    forall b :: r !in WaitIds(s, b) && r !in SwitchIds(s, b) && (r in EntryIds(s, b) ==> b == a)
  }

  /** Where a spawn command stands: its check runs, a shutdown dropped it, a stop cancelled it,
    * or it was answered, once or twice. */
  datatype Life = Checking | Dropped | Cancelled | Answered | AnsweredTwice

  predicate Filed(replies: seq<(nat, SpawnReply)>, k: nat, id: Option<string>) {
    exists i :: 0 <= i < |replies| && replies[i].0 == k && replies[i].1.requestId == id
  }

  ghost predicate LifeOk(s: State, a: string, k: nat, r: string, life: Life) {
    match life
    case Checking =>
      && OnlyWaits(s, a, r) && Waiting(s, a, k) && r in WaitIds(s, a)
      && CountId(s.world.results, r) == 0
    case Dropped => Nowhere(s, r) && k in s.world.spawns.dropped && CountId(s.world.results, r) == 0
    case Cancelled => Nowhere(s, r) && Filed(s.world.spawns.replies, k, None) && CountId(s.world.results, r) == 0
    case Answered => OnlyAt(s, a, r) && Filed(s.world.spawns.replies, k, Some(r)) && CountId(s.world.results, r) == 1
    case AnsweredTwice => Nowhere(s, r) && Filed(s.world.spawns.replies, k, Some(r)) && CountId(s.world.results, r) == 2
  }

  function NextLife(s: State, ev: Event, a: string, k: nat, r: string, life: Life): Life {
    match life
    case Checking =>
      if ev.SpawnCheck? && ev.a == a && ev.ticket == k then Answered
      else if ev == Stop(a) then Cancelled
      else if ev == StopEverything then Dropped
      else Checking
    case Answered => if Echoes(s, ev, r) then AnsweredTwice else Answered
    case _ => life
  }

  lemma IdsElsewhere(s: State, ev: Event, a: string, b: string)
    requires Inv(s) && Coordinated(s, ev) && Subject(ev) == Some(a) && a != b
    ensures var t := Step(s, ev);
            EntryIds(t, b) == EntryIds(s, b) && WaitIds(t, b) == WaitIds(s, b) && SwitchIds(t, b) == SwitchIds(s, b)
  {
    hide Inv, Step, Coordinated, LaunchesOne, DropsOwn, KeptOrNew;
    StepIsAbout(s, ev);
    var t := Step(s, ev);
    Elsewhere(s.children, t.children, a, b);
    Elsewhere(s.pendingSpawns, t.pendingSpawns, a, b);
    Elsewhere(s.pendingSwitches, t.pendingSwitches, a, b);
  }

  lemma NoSubjectSees(s: State, ev: Event, r: string)
    requires Subject(ev).None?
    ensures var t := Step(s, ev);
            && Silent(s, t) && !Echoes(s, ev, r) && !Resolves(s, ev, r)
            && (forall b :: EntryIds(t, b) == EntryIds(s, b))
            && (forall b :: WaitIds(t, b) <= WaitIds(s, b) && SwitchIds(t, b) <= SwitchIds(s, b))
            && (!ev.StopEverything? ==> t.pendingSpawns == s.pendingSpawns)
  {
    hide AcceptedSpawn, SpawnChecked, HandleStop, HandleRestart, HandleSwitch, SwitchChecked, HandleReset, Exited,
         TimerFired;
  }

  lemma RepliesGrow(s: State, ev: Event)
    requires Inv(s) && Coordinated(s, ev)
    ensures s.world.spawns.replies <= Step(s, ev).world.spawns.replies
    ensures s.world.spawns.dropped <= Step(s, ev).world.spawns.dropped
  {
    hide Inv, Touches, Unstopped, RollbackIsOwn, NotForeign, EntryOk, SameElsewhere, LaunchesOne, DropsOwn, TicketStep,
         HandleSpawn, SpawnChecked, HandleStop, HandleRestart, HandleSwitch, SwitchChecked, HandleReset, Exited,
         TimerFired;
    if Subject(ev).None? {
      NoSubjectDrops(s, ev);
    } else {
      var a := Subject(ev).value;
      PendingSwitchRests(s, a);
      StepIsAbout(s, ev);
      TouchesDropped(s, Step(s, ev), a);
      match ev
      case Spawn(_, requestId, parsed, check, env) => HandleSpawnSays(s, a, requestId, parsed, check, env);
      case SpawnCheck(_, k, outcome, env) => SpawnCheckedSays(s, a, k, outcome, env);
      case Stop(_) => HandleStopSays(s, a);
      case Restart(_, requestId, env) => HandleRestartSays(s, a, requestId, env);
      case Switch(_, payload, check, env) => HandleSwitchSays(s, a, payload, check, env);
      case SwitchCheck(_, k, outcome, env) => SwitchCheckedSays(s, a, k, outcome, env);
      case Reset(_, payload, env) => HandleResetSays(s, a, payload, env);
      case Exit(_, child, env) => ExitedSays(s, a, child, env);
      case Timer(_, env) => TimerFiredSays(s, a, env);
    }
  }

  lemma NoSubjectDrops(s: State, ev: Event)
    requires Subject(ev).None?
    ensures var t := Step(s, ev);
            t.world.spawns.replies == s.world.spawns.replies && s.world.spawns.dropped <= t.world.spawns.dropped
  {
  }

  lemma TouchesDropped(s: State, t: State, a: string)
    requires Touches(s, t, a)
    ensures t.world.spawns.dropped == s.world.spawns.dropped
  {
  }

  lemma FiledLater(replies: seq<(nat, SpawnReply)>, later: seq<(nat, SpawnReply)>, k: nat, id: Option<string>)
    requires Filed(replies, k, id) && replies <= later
    ensures Filed(later, k, id)
  {
    var i :| 0 <= i < |replies| && replies[i].0 == k && replies[i].1.requestId == id;
    assert later[i] == replies[i];
  }

  /** An id nothing remembers stays forgotten and is not answered. */
  lemma ForgottenStep(s: State, ev: Event, r: string)
    requires Inv(s) && Coordinated(s, ev) && Carried(ev) != Some(r) && Nowhere(s, r)
    ensures Nowhere(Step(s, ev), r) && CountId(Step(s, ev).world.results, r) == CountId(s.world.results, r)
    ensures !Echoes(s, ev, r)
  {
    hide Inv, Step, Coordinated, EntryIds, WaitIds, SwitchIds, CycleFails, Due;
    NoEchoOf(s, ev, r);
    if Subject(ev).Some? {
      var a := Subject(ev).value;
      StepSees(s, ev, a, r);
      forall b
        ensures r !in EntryIds(Step(s, ev), b) && r !in WaitIds(Step(s, ev), b) && r !in SwitchIds(Step(s, ev), b)
      {
        if b != a { IdsElsewhere(s, ev, a, b); }
      }
    } else {
      NoSubjectSees(s, ev, r);
    }
  }

  lemma EchoRemembers(s: State, ev: Event, r: string)
    ensures Echoes(s, ev, r) ==> r in EntryIds(s, ev.a)
    ensures Resolves(s, ev, r) ==> r in WaitIds(s, ev.a)
  {
  }

  lemma NoEchoOf(s: State, ev: Event, r: string)
    requires Nowhere(s, r)
    ensures !Echoes(s, ev, r) && !Resolves(s, ev, r)
  {
    hide EntryIds, WaitIds, CycleFails, Due;
    EchoRemembers(s, ev, r);
  }

  // ---- While the check runs -------------------------------------------------

  lemma OwnCheckDone(s: State, ev: Event, a: string, k: nat, r: string)
    requires Inv(s) && Coordinated(s, ev) && LifeOk(s, a, k, r, Checking)
    requires ev.SpawnCheck? && ev.a == a && ev.ticket == k
    ensures LifeOk(Step(s, ev), a, k, r, Answered)
  {
    hide Inv, Step, Coordinated, EntryIds, SwitchIds, SpawnChecked;
    PendingSwitchRests(s, a);
    PendingCheckResumes(s, a);
    SpawnCheckedSays(s, a, k, ev.outcome, ev.env);
    CheckStep(s, ev);
    StepSees(s, ev, a, r);
    WaitsWithIt(s, a, r);
    var t := Step(s, ev);
    var n := |s.world.spawns.replies|;
    assert t.world.spawns.replies[n].0 == k && t.world.spawns.replies[n].1.requestId == Some(r);
    forall b ensures r !in WaitIds(t, b) && r !in SwitchIds(t, b) && (r in EntryIds(t, b) ==> b == a) {
      if b != a { IdsElsewhere(s, ev, a, b); }
    }
  }

  lemma CheckStep(s: State, ev: Event)
    requires ev.SpawnCheck?
    ensures Step(s, ev) == SpawnChecked(s, ev.a, ev.ticket, ev.outcome, ev.env)
  {
  }

  lemma WaitsWithIt(s: State, a: string, r: string)
    ensures r in WaitIds(s, a) <==> a in s.pendingSpawns && s.pendingSpawns[a].parsed.requestId == Some(r)
  {
  }

  lemma OwnCheckStopped(s: State, a: string, k: nat, r: string)
    requires Inv(s) && LifeOk(s, a, k, r, Checking)
    ensures LifeOk(HandleStop(s, a), a, k, r, Cancelled)
  {
    hide Inv, HandleStop, Answers;
    HandleStopSays(s, a);
    var t := HandleStop(s, a);
    AnswersCount(s, t, k, a, None, r);
    StoppedIds(s, t, a, r);
    AnswersFile(s, t, k, a, None);
  }

  lemma AnswersFile(s: State, t: State, k: nat, a: string, id: Option<string>)
    requires Answers(s, t, k, a, id)
    ensures Filed(t.world.spawns.replies, k, id)
  {
    var n := |s.world.spawns.replies|;
    assert t.world.spawns.replies[n].0 == k && t.world.spawns.replies[n].1.requestId == id;
  }

  lemma StoppedIds(s: State, t: State, a: string, r: string)
    requires OnlyWaits(s, a, r)
    requires t.children == s.children && t.pendingSwitches == s.pendingSwitches
    requires t.pendingSpawns == s.pendingSpawns - {a}
    ensures Nowhere(t, r)
  {
    forall b ensures EntryIds(t, b) == EntryIds(s, b) && SwitchIds(t, b) == SwitchIds(s, b) {}
    forall b ensures WaitIds(t, b) == if b == a then {} else WaitIds(s, b) {}
  }

  lemma AllStopped(s: State, a: string, k: nat, r: string)
    requires Inv(s) && LifeOk(s, a, k, r, Checking)
    ensures LifeOk(StopAll(s), a, k, r, Dropped)
  {
    hide Inv, EntryIds, SwitchIds;
    NoSubjectSees(s, StopEverything, r);
    assert s.pendingSpawns[a].ticket in Tickets(s.pendingSpawns);
    forall b ensures r !in EntryIds(StopAll(s), b) && r !in SwitchIds(StopAll(s), b) {}
  }

  /** Any other event leaves the check running. */
  lemma OthersLeaveTheCheck(s: State, ev: Event, a: string, k: nat)
    requires Inv(s) && Coordinated(s, ev) && Waiting(s, a, k) && ev != Stop(a) && ev != StopEverything
    requires !(ev.SpawnCheck? && ev.a == a && ev.ticket == k)
    ensures var t := Step(s, ev); a in t.pendingSpawns && t.pendingSpawns[a] == s.pendingSpawns[a]
  {
    hide Inv, Touches, Unstopped, RollbackIsOwn, NotForeign, EntryOk, SameElsewhere, LaunchesOne, DropsOwn, KeptOrNew,
         HandleSpawn, SpawnChecked, HandleStop, HandleRestart, HandleSwitch, SwitchChecked, HandleReset, Exited,
         TimerFired;
    if Subject(ev).None? {
      NoSubjectCheckKept(s, ev);
    } else {
      var b := Subject(ev).value;
      if b != a {
        CheckElsewhere(s, ev, b, a);
      } else {
        PendingSwitchRests(s, a);
        match ev
        case Spawn(_, requestId, parsed, check, env) => HandleSpawnSays(s, a, requestId, parsed, check, env);
        case SpawnCheck(_, j, outcome, env) => SpawnCheckedSays(s, a, j, outcome, env);
        case Restart(_, requestId, env) => HandleRestartSays(s, a, requestId, env);
        case Switch(_, payload, check, env) => HandleSwitchSays(s, a, payload, check, env);
        case SwitchCheck(_, j, outcome, env) => SwitchCheckedSays(s, a, j, outcome, env);
        case Reset(_, payload, env) => HandleResetSays(s, a, payload, env);
        case Exit(_, child, env) => ExitedSays(s, a, child, env);
        case Timer(_, env) => TimerFiredSays(s, a, env);
      }
    }
  }

  lemma NoSubjectCheckKept(s: State, ev: Event)
    requires Subject(ev).None? && ev != StopEverything
    ensures Step(s, ev).pendingSpawns == s.pendingSpawns
  {
  }

  lemma CheckElsewhere(s: State, ev: Event, b: string, a: string)
    requires Inv(s) && Coordinated(s, ev) && Subject(ev) == Some(b) && a != b
    ensures var t := Step(s, ev);
            (a in t.pendingSpawns <==> a in s.pendingSpawns)
            && (a in s.pendingSpawns ==> t.pendingSpawns[a] == s.pendingSpawns[a])
  {
    hide Inv, Step, Coordinated, LaunchesOne, DropsOwn, KeptOrNew;
    StepIsAbout(s, ev);
    Elsewhere(s.pendingSpawns, Step(s, ev).pendingSpawns, b, a);
  }

  lemma CheckingStep(s: State, ev: Event, a: string, k: nat, r: string)
    requires Inv(s) && Coordinated(s, ev) && Carried(ev) != Some(r) && LifeOk(s, a, k, r, Checking)
    ensures LifeOk(Step(s, ev), a, k, r, NextLife(s, ev, a, k, r, Checking))
  {
    hide Inv, Step, Coordinated, EntryIds, SwitchIds, WaitIds, Echoes, Resolves, LifeOk, HandleStop, StopAll;
    var t := Step(s, ev);
    if ev.SpawnCheck? && ev.a == a && ev.ticket == k {
      OwnCheckDone(s, ev, a, k, r);
    } else if ev == Stop(a) {
      OwnCheckStopped(s, a, k, r);
      assert t == HandleStop(s, a) by { StopStep(s, a); }
    } else if ev == StopEverything {
      AllStopped(s, a, k, r);
      assert t == StopAll(s) by { ShutdownStep(s); }
    } else {
      StillChecking(s, ev, a, k, r);
    }
  }

  lemma StopStep(s: State, a: string)
    ensures Step(s, Stop(a)) == HandleStop(s, a)
  {
  }

  lemma ShutdownStep(s: State)
    ensures Step(s, StopEverything) == StopAll(s)
  {
  }

  lemma StillChecking(s: State, ev: Event, a: string, k: nat, r: string)
    requires Inv(s) && Coordinated(s, ev) && Carried(ev) != Some(r) && LifeOk(s, a, k, r, Checking)
    requires ev != Stop(a) && ev != StopEverything && !(ev.SpawnCheck? && ev.a == a && ev.ticket == k)
    ensures LifeOk(Step(s, ev), a, k, r, Checking)
  {
    hide Inv, Step, Coordinated, EntryIds, SwitchIds, Echoes, Resolves;
    var t := Step(s, ev);
    OthersLeaveTheCheck(s, ev, a, k);
    NothingSaid(s, ev, a, k, r);
    if Subject(ev).Some? {
      var c := Subject(ev).value;
      StepSees(s, ev, c, r);
      forall b ensures r !in EntryIds(t, b) && r !in SwitchIds(t, b) && (r in WaitIds(t, b) ==> b == a) {
        if b != c { IdsElsewhere(s, ev, c, b); }
      }
    } else {
      NoSubjectSees(s, ev, r);
    }
  }

  lemma NothingSaid(s: State, ev: Event, a: string, k: nat, r: string)
    requires OnlyWaits(s, a, r) && Waiting(s, a, k) && !(ev.SpawnCheck? && ev.a == a && ev.ticket == k)
    ensures !Echoes(s, ev, r) && !Resolves(s, ev, r)
  {
    hide EntryIds, SwitchIds;
    EchoRemembers(s, ev, r);
  }

  // ---- Once answered --------------------------------------------------------

  lemma AnsweredStep(s: State, ev: Event, a: string, k: nat, r: string)
    requires Inv(s) && Coordinated(s, ev) && Carried(ev) != Some(r) && LifeOk(s, a, k, r, Answered)
    ensures LifeOk(Step(s, ev), a, k, r, NextLife(s, ev, a, k, r, Answered))
  {
    hide Inv, Step, Coordinated, EntryIds, SwitchIds, WaitIds, Echoes, Resolves, Filed;
    var t := Step(s, ev);
    RepliesGrow(s, ev);
    FiledLater(s.world.spawns.replies, t.world.spawns.replies, k, Some(r));
    EchoRemembers(s, ev, r);
    if Subject(ev).Some? {
      var c := Subject(ev).value;
      EchoIsAbout(s, ev, r);
      StepSees(s, ev, c, r);
      forall b ensures r !in WaitIds(t, b) && r !in SwitchIds(t, b)
               ensures r in EntryIds(t, b) ==> b == a && !Echoes(s, ev, r)
      {
        if b != c { IdsElsewhere(s, ev, c, b); }
      }
    } else {
      NoSubjectSees(s, ev, r);
    }
  }

  lemma EchoIsAbout(s: State, ev: Event, r: string)
    ensures Echoes(s, ev, r) ==> Subject(ev) == Some(ev.a)
    ensures Resolves(s, ev, r) ==> Subject(ev) == Some(ev.a)
  {
  }

  lemma LifeStep(s: State, ev: Event, a: string, k: nat, r: string, life: Life)
    requires Inv(s) && Coordinated(s, ev) && Carried(ev) != Some(r) && LifeOk(s, a, k, r, life)
    ensures LifeOk(Step(s, ev), a, k, r, NextLife(s, ev, a, k, r, life))
  {
    hide Inv, Step, Coordinated, Nowhere, OnlyAt, OnlyWaits, Filed, Echoes;
    match life
    case Checking => CheckingStep(s, ev, a, k, r);
    case Answered => AnsweredStep(s, ev, a, k, r);
    case _ =>
      ForgottenStep(s, ev, r);
      RepliesGrow(s, ev);
      var id := if life == Cancelled then None else Some(r);
      if life != Dropped { FiledLater(s.world.spawns.replies, Step(s, ev).world.spawns.replies, k, id); }
  }

  // ---- Whole runs -----------------------------------------------------------

  /** Some exit of the run answered the id a second time. */
  ghost predicate EchoedIn(s: State, evs: seq<Event>, r: string) {
    exists j :: 0 <= j < |evs| && Echoes(After(s, evs[..j]), evs[j], r)
  }

  /** Some stop of the agent came while the check of the command with this ticket ran. */
  ghost predicate CancelledIn(s: State, evs: seq<Event>, a: string, k: nat) {
    exists j :: 0 <= j < |evs| && CancelsAt(s, evs, a, k, j)
  }

  predicate CancelsAt(s: State, evs: seq<Event>, a: string, k: nat, j: nat)
    requires j < |evs|
  {
    evs[j] == Stop(a) && Waiting(After(s, evs[..j]), a, k)
  }

  lemma EchoedSnoc(s: State, evs: seq<Event>, r: string)
    requires evs != []
    ensures var n := |evs| - 1; EchoedIn(s, evs, r) <==>
              EchoedIn(s, evs[..n], r) || Echoes(After(s, evs[..n]), evs[n], r)
  {
    hide After, Echoes;
    var n := |evs| - 1;
    var before := evs[..n];
    assert forall j :: 0 <= j < n ==> before[..j] == evs[..j] && before[j] == evs[j];
    if EchoedIn(s, before, r) {
      var j :| 0 <= j < n && Echoes(After(s, before[..j]), before[j], r);
      assert Echoes(After(s, evs[..j]), evs[j], r);
    }
    if EchoedIn(s, evs, r) {
      var j :| 0 <= j < |evs| && Echoes(After(s, evs[..j]), evs[j], r);
      if j < n { assert Echoes(After(s, before[..j]), before[j], r); }
    }
  }

  lemma CancelledSnoc(s: State, evs: seq<Event>, a: string, k: nat)
    requires evs != []
    ensures var n := |evs| - 1;
            CancelledIn(s, evs, a, k) <==> CancelledIn(s, evs[..n], a, k) || CancelsAt(s, evs, a, k, n)
  {
    hide After, Waiting;
    var n := |evs| - 1;
    var before := evs[..n];
    assert forall j :: 0 <= j < n ==> before[..j] == evs[..j] && before[j] == evs[j];
    if CancelledIn(s, before, a, k) {
      var j :| 0 <= j < n && CancelsAt(s, before, a, k, j);
      assert CancelsAt(s, evs, a, k, j);
    }
    if CancelledIn(s, evs, a, k) {
      var j :| 0 <= j < |evs| && CancelsAt(s, evs, a, k, j);
      if j < n { assert CancelsAt(s, before, a, k, j); }
    }
  }

  /** The run brings the id once, with the spawn of `a` at position `i`. */
  ghost predicate BroughtOnce(evs: seq<Event>, i: nat, a: string, r: string) {
    && i < |evs| && evs[i].Spawn? && evs[i].agent == Some(a) && evs[i].requestId == Some(r)
    && forall j :: 0 <= j < |evs| && j != i ==> Carried(evs[j]) != Some(r)
  }

  lemma {:induction false} NotYetBrought(config: Config, evs: seq<Event>, a: string, r: string)
    requires Allowed(Init(config), evs) && forall j :: 0 <= j < |evs| ==> Carried(evs[j]) != Some(r)
    ensures var s := After(Init(config), evs);
            Nowhere(s, r) && CountId(s.world.results, r) == 0 && !EchoedIn(Init(config), evs, r)
  {
    hide Inv, Step, Enabled, Coordinated, Nowhere, Echoes;
    if evs == [] {
      InitForgets(config, r);
    } else {
      var n := |evs| - 1;
      NotYetBrought(config, evs[..n], a, r);
      RunIsSafe(config, evs[..n]);
      ForgottenStep(After(Init(config), evs[..n]), evs[n], r);
      EchoedSnoc(Init(config), evs, r);
    }
  }

  lemma InitForgets(config: Config, r: string)
    ensures Nowhere(Init(config), r) && CountId(Init(config).world.results, r) == 0
  {
  }

  /** The life of the command right after it arrives. */
  function FirstLife(t: State, a: string, k: nat): Life { if Waiting(t, a, k) then Checking else Answered }

  lemma Arrives(s: State, ev: Event, a: string, r: string)
    requires Inv(s) && Coordinated(s, ev) && Nowhere(s, r) && CountId(s.world.results, r) == 0
    requires ev.Spawn? && ev.agent == Some(a) && ev.requestId == Some(r)
    ensures LifeOk(Step(s, ev), a, s.world.tickets, r, FirstLife(Step(s, ev), a, s.world.tickets))
    ensures !Echoes(s, ev, r)
  {
    hide Inv, EntryIds, SwitchIds, HandleSpawn, Answers;
    var t, k := Step(s, ev), s.world.tickets;
    HandleSpawnSays(s, a, Some(r), ev.parsed, ev.check, ev.env);
    SpawnIds(s, t, a, r);
    NewTicket(s, a);
    forall b | b != a ensures r !in EntryIds(t, b) && r !in WaitIds(t, b) && r !in SwitchIds(t, b) {
      IdsElsewhere(s, ev, a, b);
    }
    if t.pendingSpawns == s.pendingSpawns && Answers(s, t, k, a, Some(r)) {
      AnswersCount(s, t, k, a, Some(r), r);
      AnswersFile(s, t, k, a, Some(r));
    }
  }

  lemma SpawnIds(s: State, t: State, a: string, r: string)
    requires Accepted(s, t, a, Some(r)) && Nowhere(s, r)
    ensures r !in SwitchIds(t, a) && (a !in t.children || a in s.children ==> r !in EntryIds(t, a))
    ensures t.pendingSpawns == s.pendingSpawns ==> r !in WaitIds(t, a)
    ensures t.pendingSpawns != s.pendingSpawns ==>
              a !in t.children && r in WaitIds(t, a) && Waiting(t, a, s.world.tickets)
  {
    assert r !in EntryIds(s, a) && r !in WaitIds(s, a) && r !in SwitchIds(s, a);
  }

  /** No check that waits carries a ticket still to be handed out. */
  lemma NewTicket(s: State, a: string)
    requires Inv(s)
    ensures !Waiting(s, a, s.world.tickets)
  {
    if a in s.pendingSpawns { PendingSpawnTicket(s, a); }
  }

  lemma PendingSpawnTicket(s: State, a: string)
    requires Inv(s) && a in s.pendingSpawns
    ensures s.pendingSpawns[a].ticket < s.world.tickets
  {
    hide Locks, Processes, Entries, Pendings, ResetsTracked, LaunchesOk, Published, PendingIds, Tidy;
  }

  /** A command that was answered no longer waits and was not dropped. */
  lemma FiledIsClosed(s: State, a: string, k: nat, id: Option<string>)
    requires Inv(s) && Filed(s.world.spawns.replies, k, id)
    ensures !Waiting(s, a, k) && k !in s.world.spawns.dropped
  {
    hide Locks, Processes, Entries, Pendings, ResetsTracked, LaunchesOk, Published, PendingIds, Tidy, ResetReplyOk;
    var d := s.world.spawns;
    var i :| 0 <= i < |d.replies| && d.replies[i].0 == k && d.replies[i].1.requestId == id;
    assert SpawnReplyOk(d.asked, d.replies[i]);
    CountedOnce(d.replies, k, i, i);
  }

  lemma {:induction false} CountedOnce(replies: seq<(nat, SpawnReply)>, k: nat, i: nat, j: nat)
    requires i <= j < |replies| && replies[i].0 == k && replies[j].0 == k
    ensures Count(replies, k) >= if i < j then 2 else 1
  {
    var n := |replies| - 1;
    if j < n {
      CountedOnce(replies[..n], k, i, j);
    } else if i < n {
      CountedOnce(replies[..n], k, i, i);
    }
  }

  lemma {:induction false} NoneCancelledYet(config: Config, evs: seq<Event>, a: string, k: nat)
    requires Allowed(Init(config), evs) && After(Init(config), evs).world.tickets <= k
    ensures !CancelledIn(Init(config), evs, a, k)
  {
    hide Inv, Step, Enabled, Coordinated, Waiting;
    if evs != [] {
      var n := |evs| - 1;
      var s := After(Init(config), evs[..n]);
      RunIsSafe(config, evs[..n]);
      TicketsGrow(s, evs[n]);
      NoneCancelledYet(config, evs[..n], a, k);
      NotWaitingYet(s, a, k);
      CancelledSnoc(Init(config), evs, a, k);
    }
  }

  lemma NotWaitingYet(s: State, a: string, k: nat)
    requires Inv(s) && s.world.tickets <= k
    ensures !Waiting(s, a, k)
  {
    hide Inv;
    if a in s.pendingSpawns { PendingSpawnTicket(s, a); }
  }

  /** The ticket of the spawn command at position `i`. */
  function TicketAt(s: State, evs: seq<Event>, i: nat): nat
    requires i <= |evs|
  {
    After(s, evs[..i]).world.tickets
  }

  /** Where the command stands, told from the events. */
  ghost predicate Told(s: State, evs: seq<Event>, a: string, k: nat, r: string, life: Life) {
    && LifeOk(After(s, evs), a, k, r, life)
    && (life == AnsweredTwice <==> EchoedIn(s, evs, r))
    && (life == Cancelled <==> CancelledIn(s, evs, a, k))
  }

  lemma {:induction false} RunTells(config: Config, evs: seq<Event>, i: nat, a: string, r: string) returns (life: Life)
    requires Allowed(Init(config), evs) && BroughtOnce(evs, i, a, r)
    ensures Told(Init(config), evs, a, TicketAt(Init(config), evs, i), r, life)
    decreases |evs|
  {
    hide Inv, Step, Enabled, Coordinated, LifeOk, Echoes, EchoedIn, CancelledIn, Nowhere, Waiting;
    var n, start := |evs| - 1, Init(config);
    var k := TicketAt(start, evs, i);
    var s := After(start, evs[..n]);
    RunIsSafe(config, evs[..n]);
    EchoedSnoc(start, evs, r);
    CancelledSnoc(start, evs, a, k);
    if n == i {
      NotYetBrought(config, evs[..n], a, r);
      NoneCancelledYet(config, evs[..n], a, k);
      Arrives(s, evs[n], a, r);
      life := FirstLife(Step(s, evs[n]), a, k);
      assert !CancelsAt(start, evs, a, k, n);
    } else {
      assert evs[..n][..i] == evs[..i];
      BroughtBefore(evs, i, a, r);
      var before := RunTells(config, evs[..n], i, a, r);
      LifeStep(s, evs[n], a, k, r, before);
      life := NextLife(s, evs[n], a, k, r, before);
      LifeEvents(s, evs[n], a, k, r, before);
    }
  }

  lemma BroughtBefore(evs: seq<Event>, i: nat, a: string, r: string)
    requires BroughtOnce(evs, i, a, r) && i < |evs| - 1
    ensures BroughtOnce(evs[..|evs| - 1], i, a, r) && Carried(evs[|evs| - 1]) != Some(r)
  {
  }

  /** A life moves on exactly at an echo, a cancelling stop, and the like. */
  lemma LifeEvents(s: State, ev: Event, a: string, k: nat, r: string, life: Life)
    requires Inv(s) && LifeOk(s, a, k, r, life)
    ensures Echoes(s, ev, r) ==> life == Answered
    ensures ev == Stop(a) && Waiting(s, a, k) ==> life == Checking
    ensures life == Checking ==> Waiting(s, a, k)
  {
    hide Inv, EntryIds, WaitIds, SwitchIds, CycleFails, Due;
    EchoRemembers(s, ev, r);
    match life
    case Checking =>
    case Dropped => DroppedIsNotWaiting(s, a, k);
    case Cancelled => FiledIsClosed(s, a, k, None);
    case Answered => FiledIsClosed(s, a, k, Some(r));
    case AnsweredTwice => FiledIsClosed(s, a, k, Some(r));
  }

  lemma DroppedIsNotWaiting(s: State, a: string, k: nat)
    requires Inv(s) && k in s.world.spawns.dropped
    ensures !Waiting(s, a, k)
  {
    hide Locks, Processes, Entries, Pendings, ResetsTracked, LaunchesOk, Published, PendingIds, Tidy;
  }

  /** Main result: over every run in which the id is used once, the results that carry it are
    * the spawn's own answer (none while its check runs, after a shutdown dropped it, or when a
    * stop cancelled the check) and one more exactly when an exit echoes it. The one answer
    * filed for the command leaves the id out exactly when a stop cancelled its check. */
  lemma SpawnIdIsAnswered(config: Config, evs: seq<Event>, i: nat, a: string, r: string, j: nat)
    requires Allowed(Init(config), evs) && BroughtOnce(evs, i, a, r)
    ensures var start := Init(config);
            var s, k := After(start, evs), TicketAt(start, evs, i);
            var silent := Waiting(s, a, k) || k in s.world.spawns.dropped || CancelledIn(start, evs, a, k);
            var first := if silent then 0 else 1;
            && CountId(s.world.results, r) == first + (if EchoedIn(start, evs, r) then 1 else 0)
            && (EchoedIn(start, evs, r) ==> first == 1)
            && (j < |s.world.spawns.replies| && s.world.spawns.replies[j].0 == k ==>
                  s.world.spawns.replies[j].1.requestId == if CancelledIn(start, evs, a, k) then None else Some(r))
  {
    hide Inv, Step, Allowed, EchoedIn, CancelledIn, Nowhere, OnlyAt, OnlyWaits, Waiting, Filed;
    var life := RunTells(config, evs, i, a, r);
    var s, k := After(Init(config), evs), TicketAt(Init(config), evs, i);
    RunIsSafe(config, evs);
    match life {
      case Checking =>
        WaitingIsUnanswered(s, a, k, j);
      case Dropped =>
        DroppedIsNotWaiting(s, a, k);
        DroppedIsUnanswered(s, a, k, j);
      case Cancelled => OneReply(s, a, k, None, j);
      case Answered => OneReply(s, a, k, Some(r), j);
      case AnsweredTwice => OneReply(s, a, k, Some(r), j);
    }
  }

  lemma OneReply(s: State, a: string, k: nat, id: Option<string>, j: nat)
    requires Inv(s) && Filed(s.world.spawns.replies, k, id)
    ensures !Waiting(s, a, k) && k !in s.world.spawns.dropped
    ensures j < |s.world.spawns.replies| && s.world.spawns.replies[j].0 == k ==>
              s.world.spawns.replies[j].1.requestId == id
  {
    hide Inv, Fair;
    FiledIsClosed(s, a, k, id);
    AtMostOne(s, k);
    var replies := s.world.spawns.replies;
    var i :| 0 <= i < |replies| && replies[i].0 == k && replies[i].1.requestId == id;
    if j < |replies| && replies[j].0 == k {
      CountedOnce(replies, k, if i < j then i else j, if i < j then j else i);
    }
  }

  lemma AtMostOne(s: State, k: nat)
    requires Inv(s)
    ensures Count(s.world.spawns.replies, k) <= 1
    ensures k in s.world.spawns.dropped || k in s.world.spawns.open ==> Count(s.world.spawns.replies, k) == 0
  {
    hide Locks, Processes, Entries, Pendings, ResetsTracked, SpawnsTracked, LaunchesOk, Published, PendingIds, Tidy;
  }

  lemma DroppedIsUnanswered(s: State, a: string, k: nat, j: nat)
    requires Inv(s) && k in s.world.spawns.dropped
    ensures j < |s.world.spawns.replies| ==> s.world.spawns.replies[j].0 != k
  {
    hide Inv;
    AtMostOne(s, k);
    if j < |s.world.spawns.replies| && s.world.spawns.replies[j].0 == k {
      CountedOnce(s.world.spawns.replies, k, j, j);
    }
  }

  lemma WaitingIsUnanswered(s: State, a: string, k: nat, j: nat)
    requires Inv(s) && Waiting(s, a, k)
    ensures j < |s.world.spawns.replies| ==> s.world.spawns.replies[j].0 != k
    ensures k !in s.world.spawns.dropped
  {
    hide Inv;
    WaitingIsOpen(s, a, k);
    AtMostOne(s, k);
    if j < |s.world.spawns.replies| && s.world.spawns.replies[j].0 == k {
      CountedOnce(s.world.spawns.replies, k, j, j);
    }
  }

  lemma WaitingIsOpen(s: State, a: string, k: nat)
    requires Inv(s) && Waiting(s, a, k)
    ensures k in s.world.spawns.open && k !in s.world.spawns.dropped
  {
    hide Locks, Processes, Entries, Pendings, ResetsTracked, LaunchesOk, Published, PendingIds, Tidy;
  }

  // ---- Where a second answer comes from -------------------------------------

  /** An agent in a deliberate cycle carries the id of the command that began it. */
  predicate Steady(s: State, a: string, r: string) {
    a in s.children && s.children[a].restarting ==> s.children[a].parsed.requestId != Some(r)
  }

  predicate WithoutId(ev: Event) { ev.Restart? && ev.requestId.None? }

  lemma SwitchIsSteady(s: State, a: string, payload: SwitchPayload, found: bool, env: Env, r: string)
    requires Steady(s, a, r) && payload.resume.Some? && payload.requestId != Some(r)
    ensures Steady(CompleteSwitch(s, a, payload, found, env), a, r)
  {
    hide ApplyResumeSnapshot, ExceedsCeiling;
  }

  lemma LateSwitchIsSteady(s: State, a: string, k: nat, outcome: CheckOutcome, env: Env, r: string)
    requires Steady(s, a, r) && r !in SwitchIds(s, a)
    ensures Steady(SwitchChecked(s, a, k, outcome, env), a, r)
  {
    hide CompleteSwitch;
    if a in s.pendingSwitches && s.pendingSwitches[a].payload.resume.Some? && outcome.Found? {
      SwitchIsSteady(s.(pendingSwitches := s.pendingSwitches - {a}), a, s.pendingSwitches[a].payload, outcome.found,
                     env, r);
    }
  }

  lemma NewSwitchIsSteady(s: State, a: string, payload: SwitchPayload, check: Check, env: Env, r: string)
    requires Steady(s, a, r) && payload.requestId != Some(r)
    ensures Steady(HandleSwitch(s, a, payload, check, env), a, r)
  {
    hide CompleteSwitch;
    if payload.resume.Some? && check.AtOnce? {
      SwitchIsSteady(s.(pendingSwitches := s.pendingSwitches - {a}, world := s.world.(tickets := s.world.tickets + 1)),
                     a, payload, check.found, env, r);
    }
  }

  lemma RestartIsSteady(s: State, a: string, requestId: Option<string>, env: Env, r: string)
    requires Steady(s, a, r) && requestId.Some? && requestId != Some(r)
    ensures Steady(HandleRestart(s, a, requestId, env), a, r)
  {
  }

  lemma TerminateIsSteady(s: State, a: string, env: Env, r: string)
    requires a in s.children && Steady(s, a, r)
    ensures Steady(TerminateForReset(s, a, env), a, r)
  {
    hide OnExit;
    if !env.killed { OnExitSays(s, a, env); }
  }

  lemma ResetIsSteady(s: State, a: string, payload: ResetPayload, env: Env, r: string)
    requires Steady(s, a, r) && payload.requestId != Some(r)
    ensures Steady(HandleReset(s, a, payload, env), a, r)
  {
    hide TerminateForReset, ApplyResumeSnapshot, ExceedsCeiling, DropReset;
    if a in s.children && payload.requestId.Some? && payload.requestId.value != "" && payload.mode.Some?
       && env.launchable {
      var e := s.children[a];
      var p := PendingReset(s.world.tickets, payload.requestId.value, payload.mode.value, payload.previousSessionId,
                            e.parsed.resume, e.parsed);
      var asked := AskedReset(s, ResetAsk(a, p.requestId, p.mode));
      var next := ResetParsed(e.parsed, payload);
      var cancelled := DropReset(asked.(pendingSwitches := s.pendingSwitches - {a}), e);
      DropKeepsChildren(asked.(pendingSwitches := s.pendingSwitches - {a}), e);
      if !ExceedsCeiling(e, next) { TerminateIsSteady(Begun(cancelled, a, p, next, env.now), a, env, r); }
    }
  }

  lemma DropKeepsChildren(s: State, e: Entry)
    ensures DropReset(s, e).children == s.children
  {
  }

  lemma TimerIsSteady(s: State, a: string, env: Env, r: string)
    requires Steady(s, a, r)
    ensures Steady(TimerFired(s, a, env), a, r)
  {
    hide TerminateForReset;
    if a in s.children && s.children[a].timer && s.children[a].pendingReset.Some? && !s.children[a].escalated {
      TerminateIsSteady(Put(s, a, Expired(s.children[a])), a, env, r);
    }
  }

  lemma ExitIsSteady(s: State, a: string, child: nat, env: Env, r: string)
    requires Steady(s, a, r)
    ensures Steady(Exited(s, a, child, env), a, r)
  {
    hide OnExit;
    if a in s.children && s.children[a].child == child { OnExitSays(s, a, env); }
  }

  lemma StepIsSteady(s: State, ev: Event, a: string, r: string)
    requires Inv(s) && Coordinated(s, ev) && Subject(ev) == Some(a) && Steady(s, a, r) && r !in SwitchIds(s, a)
    requires Carried(ev) != Some(r) && !WithoutId(ev)
    ensures Steady(Step(s, ev), a, r)
  {
    hide Inv, NotForeign, RollbackIsOwn, EntryOk, Answers, HandleSpawn, SpawnChecked, HandleStop, HandleRestart,
         HandleSwitch, SwitchChecked, HandleReset, Exited, TimerFired;
    PendingSwitchRests(s, a);
    match ev
    case Spawn(_, requestId, parsed, check, env) => HandleSpawnSays(s, a, requestId, parsed, check, env);
    case SpawnCheck(_, k, outcome, env) => SpawnCheckedSays(s, a, k, outcome, env);
    case Stop(_) => HandleStopSays(s, a);
    case Restart(_, requestId, env) => RestartIsSteady(s, a, requestId, env, r);
    case Switch(_, payload, check, env) => NewSwitchIsSteady(s, a, payload, check, env, r);
    case SwitchCheck(_, k, outcome, env) => LateSwitchIsSteady(s, a, k, outcome, env, r);
    case Reset(_, payload, env) => ResetIsSteady(s, a, payload, env, r);
    case Exit(_, child, env) => ExitIsSteady(s, a, child, env, r);
    case Timer(_, env) => TimerIsSteady(s, a, env, r);
  }

  lemma SteadyElsewhere(s: State, ev: Event, a: string, r: string)
    requires Inv(s) && Coordinated(s, ev) && Subject(ev) != Some(a) && Steady(s, a, r)
    ensures Steady(Step(s, ev), a, r)
  {
    hide Inv, Step, Coordinated;
    StepIsIsolated(s, ev, a);
    if ev.StopEverything? { NoSubject(s, ev); }
  }

  ghost predicate Knows(s: State, r: string) {
    (forall b :: Steady(s, b, r)) && (forall b :: r !in SwitchIds(s, b))
  }

  lemma StepKnows(s: State, ev: Event, r: string)
    requires Inv(s) && Coordinated(s, ev) && Knows(s, r) && Carried(ev) != Some(r) && !WithoutId(ev)
    ensures Knows(Step(s, ev), r) && !Echoes(s, ev, r)
  {
    hide Inv, Step, Coordinated, Steady, SwitchIds, EntryIds, WaitIds, Echoes;
    SteadyIsSilent(s, ev, r);
    forall b ensures Steady(Step(s, ev), b, r) && r !in SwitchIds(Step(s, ev), b) {
      if Subject(ev) == Some(b) {
        StepIsSteady(s, ev, b, r);
        StepSees(s, ev, b, r);
      } else {
        SteadyElsewhere(s, ev, b, r);
        if Subject(ev).Some? { IdsElsewhere(s, ev, Subject(ev).value, b); } else { NoSubjectSees(s, ev, r); }
      }
    }
  }

  lemma SteadyIsSilent(s: State, ev: Event, r: string)
    requires forall b :: Steady(s, b, r)
    ensures !Echoes(s, ev, r)
  {
    hide Steady, CycleFails;
    EchoIsUnsteady(s, ev, r);
  }

  lemma EchoIsUnsteady(s: State, ev: Event, r: string)
    ensures Echoes(s, ev, r) ==> !Steady(s, ev.a, r)
  {
    hide RecoveryRefused;
  }

  /** The spawn that brings the id leaves no cycle carrying it. */
  lemma ArrivesSteady(s: State, ev: Event, a: string, r: string)
    requires Inv(s) && Coordinated(s, ev) && Knows(s, r) && Nowhere(s, r)
    requires ev.Spawn? && ev.agent == Some(a) && ev.requestId == Some(r)
    ensures Knows(Step(s, ev), r) && !Echoes(s, ev, r)
  {
    hide Inv, EntryIds, WaitIds, HandleSpawn, Answers;
    HandleSpawnSays(s, a, Some(r), ev.parsed, ev.check, ev.env);
    forall b ensures Steady(Step(s, ev), b, r) && r !in SwitchIds(Step(s, ev), b) {
      assert Steady(s, b, r) && r !in SwitchIds(s, b);
      if b != a {
        SteadyElsewhere(s, ev, b, r);
        IdsElsewhere(s, ev, a, b);
      }
    }
  }

  /** A second answer needs a restart that brings no id, as only servers of the older protocol
    * send it: where every restart brings one, each id is answered at most once. */
  lemma {:induction false} EchoNeedsRestartWithoutId(config: Config, evs: seq<Event>, i: nat, a: string, r: string)
    requires Allowed(Init(config), evs) && BroughtOnce(evs, i, a, r)
    requires forall j :: 0 <= j < |evs| ==> !WithoutId(evs[j])
    ensures Knows(After(Init(config), evs), r) && !EchoedIn(Init(config), evs, r)
    decreases |evs|
  {
    hide Inv, Step, Enabled, Coordinated, Nowhere, Knows, Echoes, EchoedIn;
    var n := |evs| - 1;
    RunIsSafe(config, evs[..n]);
    EchoedSnoc(Init(config), evs, r);
    if n == i {
      NotYetBrought(config, evs[..n], a, r);
      KnewBefore(config, evs[..n], r);
      ArrivesSteady(After(Init(config), evs[..n]), evs[n], a, r);
    } else {
      BroughtBefore(evs, i, a, r);
      EchoNeedsRestartWithoutId(config, evs[..n], i, a, r);
      StepKnows(After(Init(config), evs[..n]), evs[n], r);
    }
  }

  lemma {:induction false} KnewBefore(config: Config, evs: seq<Event>, r: string)
    requires Allowed(Init(config), evs)
    requires forall j :: 0 <= j < |evs| ==> Carried(evs[j]) != Some(r) && !WithoutId(evs[j])
    ensures Knows(After(Init(config), evs), r)
  {
    hide Inv, Step, Enabled, Coordinated, Knows;
    if evs == [] {
      InitKnows(config, r);
    } else {
      KnewBefore(config, evs[..|evs| - 1], r);
      RunIsSafe(config, evs[..|evs| - 1]);
      StepKnows(After(Init(config), evs[..|evs| - 1]), evs[|evs| - 1], r);
    }
  }

  lemma InitKnows(config: Config, r: string)
    ensures Knows(Init(config), r)
  {
  }

  // ---- A witness ------------------------------------------------------------

  lemma AfterSnoc(s: State, evs: seq<Event>, ev: Event)
    ensures After(s, evs + [ev]) == Step(After(s, evs), ev)
    ensures Allowed(s, evs) && Enabled(After(s, evs), ev) && Coordinated(After(s, evs), ev) ==> Allowed(s, evs + [ev])
  {
    assert (evs + [ev])[..|evs|] == evs;
  }

  /** A spawn, a restart without id, and a relaunch that fails. */
  function TwiceAnswered(a: string, r: string, p: Parsed, ok: Env, failing: Env): seq<Event> {
    [] + [Spawn(Some(a), Some(r), Some(p), AtOnce(true), ok)] + [Restart(a, None, ok)] + [Died(0)]
    + [Exit(a, 0, failing)]
  }

  /** The environment in which a launch works, and the one in which the relaunch throws. */
  predicate Plain(p: Parsed, ok: Env, failing: Env, config: Config) {
    && p.cwd in config.allowlist && p.engine == ClaudeCode && p.resume.None? && !p.restore
    && ok == Env(true, true, Launches, Launches, Absent, false, 0)
    && failing == Env(true, true, Throws, Throws, Absent, false, 0)
  }

  function Spawned(config: Config, a: string, r: string, p: Parsed): State {
    var q := p.(requestId := Some(r));
    var asked := AskedSpawn(Init(config), a, Some(r));
    SpawnAnswer(Put(Started(asked, a, None, p.settings.axes, None), a, NewEntry(0, q, None, 0)), 0,
                SpawnReply(a, None, Some(r)))
  }

  lemma FirstIsSpawned(config: Config, a: string, r: string, p: Parsed, ok: Env, failing: Env)
    requires Plain(p, ok, failing, config)
    ensures Step(Init(config), Spawn(Some(a), Some(r), Some(p), AtOnce(true), ok)) == Spawned(config, a, r, p)
  {
    hide Resolve, ApplyResumeSnapshot;
  }

  /** An entry whose process is gone and whose id-less restart cannot relaunch it. */
  lemma RestartThenFail(s: State, a: string, r: string, p: Parsed, ok: Env, failing: Env, config: Config)
    requires Plain(p, ok, failing, config) && a in s.children && !s.children[a].stopping
    requires s.children[a].pendingReset.None?
    requires s.children[a].child == 0 && s.children[a].parsed.requestId == Some(r)
    ensures var u := Step(s, Restart(a, None, ok));
            var d := Step(u, Died(0));
            && u.world == s.world && a in d.children && d.children == u.children && d.children[a].child == 0
            && d.children[a].pendingReset.None? && 0 !in d.world.live && d.world.clock == s.world.clock
            && Step(d, Exit(a, 0, failing)).world.results
               == s.world.results + [SpawnReply(a, Some(OtherError), Some(r))]
  {
    hide OnExit;
    var u := Step(s, Restart(a, None, ok));
    var d := Step(u, Died(0));
    OnExitSays(d, a, failing);
  }

  /** One id, two results, the first ok and the second not, with every promise of the outside
    * kept. */
  lemma RestartWithoutIdAnswersTwice(config: Config, a: string, r: string, p: Parsed, ok: Env, failing: Env)
    requires Plain(p, ok, failing, config)
    ensures var evs := TwiceAnswered(a, r, p, ok, failing);
            && Allowed(Init(config), evs)
            && After(Init(config), evs).world.results == [SpawnReply(a, None, Some(r)),
                                                          SpawnReply(a, Some(OtherError), Some(r))]
  {
    hide Step, OnExit;
    var start := Init(config);
    var e1, e2 := Spawn(Some(a), Some(r), Some(p), AtOnce(true), ok), Restart(a, None, ok);
    var e3, e4 := Died(0), Exit(a, 0, failing);
    var s1 := Spawned(config, a, r, p);
    FirstIsSpawned(config, a, r, p, ok, failing);
    AfterSnoc(start, [], e1);
    AfterSnoc(start, [] + [e1], e2);
    AfterSnoc(start, [] + [e1] + [e2], e3);
    AfterSnoc(start, [] + [e1] + [e2] + [e3], e4);
    RestartThenFail(s1, a, r, p, ok, failing, config);
    assert s1.world.live == map[0 := a] && s1.world.clock == 0;
  }

  // ---- Verdicts -------------------------------------------------------------

  lemma StepAnswers(s: State, ev: Event)
    requires Inv(s) && Coordinated(s, ev)
    ensures var t := Step(s, ev);
            || t.world.spawns.replies == s.world.spawns.replies
            || (|t.world.spawns.replies| == |s.world.spawns.replies| + 1
                && var (k, x) := t.world.spawns.replies[|s.world.spawns.replies|];
                   Answers(s, t, k, x.agent, x.requestId))
  {
    hide Inv, RollbackIsOwn, NotForeign, EntryOk, Truthful, HandleSpawn, SpawnChecked, HandleStop, HandleRestart,
         HandleSwitch, SwitchChecked, HandleReset, Exited, TimerFired;
    if Subject(ev).None? {
      NoSubjectDrops(s, ev);
    } else {
      var a := Subject(ev).value;
      PendingSwitchRests(s, a);
      match ev
      case Spawn(_, requestId, parsed, check, env) => HandleSpawnSays(s, a, requestId, parsed, check, env);
      case SpawnCheck(_, k, outcome, env) => SpawnCheckedSays(s, a, k, outcome, env);
      case Stop(_) => HandleStopSays(s, a);
      case Restart(_, requestId, env) => HandleRestartSays(s, a, requestId, env);
      case Switch(_, payload, check, env) => HandleSwitchSays(s, a, payload, check, env);
      case SwitchCheck(_, k, outcome, env) => SwitchCheckedSays(s, a, k, outcome, env);
      case Reset(_, payload, env) => HandleResetSays(s, a, payload, env);
      case Exit(_, child, env) => ExitedSays(s, a, child, env);
      case Timer(_, env) => TimerFiredSays(s, a, env);
    }
  }

  /** A spawn is answered ok exactly when the step that answers it started a process for that
    * agent. */
  lemma VerdictsAreTrue(config: Config, evs: seq<Event>, ev: Event)
    requires Allowed(Init(config), evs) && Enabled(After(Init(config), evs), ev)
    requires Coordinated(After(Init(config), evs), ev)
    ensures var s := After(Init(config), evs);
            var t, n := Step(s, ev), |s.world.spawns.replies|;
            |t.world.spawns.replies| > n ==>
              var x := t.world.spawns.replies[n].1;
              && t.world.spawns.replies == s.world.spawns.replies + [t.world.spawns.replies[n]]
              && t.world.results == s.world.results + [x]
              && (x.reason.None? <==> |NewLaunches(s, ev)| == 1)
              && (x.reason.None? ==> NewLaunches(s, ev)[0].agent == x.agent)
  {
    hide Inv, Step, Enabled, Coordinated, Allowed;
    RunIsSafe(config, evs);
    StepAnswers(After(Init(config), evs), ev);
  }
}
