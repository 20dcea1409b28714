/** Every spawn result put on the wire: what each step says, and how often a spawn's request
  * id is answered over a whole run. */
module SupervisorResults {
  import opened Wrappers
  import opened Permissions
  import opened CrashBudget
  import opened Desks
  import opened SupervisorSpec
  import opened SupervisorSafety
  import opened SupervisorSteps
  import opened SupervisorFrames
  import opened SupervisorRuns
  import opened SupervisorTheorems

  // ---- Where a request id is remembered -------------------------------------

  function IdOf(id: Option<string>): set<string> { if id.Some? then {id.value} else {} }

  /** The ids an entry could still answer with: its launch state's, and the one a reset that
    * is given up restores. */
  function EntryIds(s: State, a: string): set<string> {
    if a !in s.children then {}
    else
      var e := s.children[a];
      IdOf(e.parsed.requestId)
      + if e.pendingReset.Some? then IdOf(e.pendingReset.value.previousParsed.requestId) else {}
  }

  function WaitIds(s: State, a: string): set<string> {
    if a in s.pendingSpawns then IdOf(s.pendingSpawns[a].parsed.requestId) else {}
  }

  function SwitchIds(s: State, a: string): set<string> {
    if a in s.pendingSwitches then IdOf(s.pendingSwitches[a].payload.requestId) else {}
  }

  /** The request id a command brings. */
  function Carried(ev: Event): Option<string> {
    match ev
    case Spawn(agent, requestId, _, _, _) => if agent.Some? then requestId else None
    case Restart(_, requestId, _) => requestId
    case Switch(_, payload, _, _) => payload.requestId
    case Reset(_, payload, _) => payload.requestId
    case _ => None
  }

  predicate IdsKept(s: State, t: State, a: string, carried: Option<string>) {
    && EntryIds(t, a) <= EntryIds(s, a) + SwitchIds(s, a) + IdOf(carried)
    && WaitIds(t, a) <= WaitIds(s, a) + IdOf(carried)
    && SwitchIds(t, a) <= SwitchIds(s, a) + IdOf(carried)
  }

  // ---- What a step says -----------------------------------------------------

  predicate Silent(s: State, t: State) {
    t.world.results == s.world.results && t.world.spawns.replies == s.world.spawns.replies
  }

  /** One result, which answers the spawn command with ticket `k`; it is ok exactly when the
    * step started a process for the agent. */
  predicate Answers(s: State, t: State, k: nat, a: string, id: Option<string>) {
    && |t.world.results| == |s.world.results| + 1
    && var x := t.world.results[|s.world.results|];
       && x.agent == a && x.requestId == id
       && t.world.results == s.world.results + [x]
       && t.world.spawns.replies == s.world.spawns.replies + [(k, x)]
       && Truthful(s, t, x)
  }

  predicate Truthful(s: State, t: State, x: SpawnReply) {
    if x.reason.Some? then t.world.launches == s.world.launches
    else
      && |t.world.launches| == |s.world.launches| + 1
      && t.world.launches == s.world.launches + [t.world.launches[|s.world.launches|]]
      && t.world.launches[|s.world.launches|].agent == x.agent
  }

  /** At most one failed result, which answers no spawn command. */
  predicate Fails(s: State, t: State, a: string, id: Option<string>) {
    && t.world.spawns.replies == s.world.spawns.replies
    && (|| t.world.results == s.world.results
        || (exists reason :: t.world.results == s.world.results + [SpawnReply(a, Some(reason), id)]))
  }

  // ---- Exits ----------------------------------------------------------------

  /** What an exit leaves of the entry, if anything. */
  predicate Quieted(s: State, t: State, a: string) {
    && t.pendingSpawns == s.pendingSpawns
    && (t.pendingSwitches == s.pendingSwitches || t.pendingSwitches == s.pendingSwitches - {a})
    && (a in t.children ==>
          && a in s.children && t.children[a].pendingReset.None? && !t.children[a].restarting
          && t.children[a].parsed.requestId == s.children[a].parsed.requestId)
  }

  lemma RemoveStoppedIsQuiet(s: State, a: string)
    requires a in s.children
    ensures var t := RemoveStopped(s, a); Silent(s, t) && Quieted(s, t, a)
  {
  }

  lemma RollbackIsQuiet(s: State, a: string, env: Env)
    requires a in s.children && s.children[a].pendingReset.Some? && !s.children[a].restarting
    ensures var t := Rollback(s, a, env); Silent(s, t) && Quieted(s, t, a)
  {
  }

  lemma RelaunchForResetIsQuiet(s: State, a: string, env: Env)
    requires a in s.children && s.children[a].pendingReset.Some? && !s.children[a].restarting
    ensures var t := RelaunchForReset(s, a, env); Silent(s, t) && Quieted(s, t, a)
  {
    hide Rollback;
    RollbackIsQuiet(s, a, env);
  }

  predicate Calm(s: State, a: string) {
    a in s.children && s.children[a].pendingReset.None? && !s.children[a].restarting
  }

  lemma RelaunchIsQuiet(s: State, a: string, requestId: Option<string>, env: Env)
    requires Calm(s, a)
    ensures var t := Relaunch(s, a, requestId, env);
            && Quieted(s, t, a) && t.world.spawns.replies == s.world.spawns.replies
            && (a in t.children <==> env.first == Launches)
            && t.world.results == s.world.results
                 + if env.first != Launches && requestId.Some? then [SpawnReply(a, Some(OtherError), requestId)] else []
  {
  }

  lemma SelectRecoveryIsQuiet(s: State, a: string, r: Recovery)
    requires Calm(s, a)
    ensures var (ok, t) := SelectRecovery(s, a, r);
            && Calm(t, a) && Silent(s, t) && Quieted(s, t, a) && (ok <==> !RecoveryRefused(s, a, r))
  {
  }

  /** The checkpoint forbids a relaunch, or names a session another agent holds. */
  predicate RecoveryRefused(s: State, a: string, r: Recovery) {
    || r.Refused?
    || (a in s.children && !r.Absent?
        && var target := RecoveryTarget(s.children[a], r).0;
           target != s.children[a].locked && target.Some? && target.value in s.active)
  }

  lemma ExitOfCrashIsQuiet(s: State, a: string, env: Env)
    requires Calm(s, a)
    ensures var t := ExitOfCrash(s, a, env); Silent(s, t) && Quieted(s, t, a)
  {
    hide SelectRecovery, Relaunch, ChargeCrash;
    SelectRecoveryIsQuiet(s, a, env.recovery);
    var (ok, t) := SelectRecovery(s, a, env.recovery);
    if ok {
      var (e, up) := ChargeCrash(t.children[a], env.now);
      ChargeKeepsId(t.children[a], env.now);
      RelaunchIsQuiet(Put(t, a, e), a, None, env);
    }
  }

  lemma ChargeKeepsId(e: Entry, now: int)
    ensures var f := ChargeCrash(e, now).0;
            f.parsed == e.parsed && f.pendingReset == e.pendingReset && f.restarting == e.restarting
  {
  }

  /** A deliberate cycle ends badly: recovery is refused or the relaunch fails. */
  predicate CycleFails(s: State, a: string, env: Env) {
    && a in s.children && !s.children[a].stopping && s.children[a].pendingReset.None? && s.children[a].restarting
    && (|| (s.children[a].cycle != Some(SwitchCycle) && RecoveryRefused(s, a, env.recovery))
        || env.first != Launches)
  }

  lemma ExitOfCycleSays(s: State, a: string, cycle: Option<Cycle>, env: Env)
    requires Calm(s, a)
    ensures var t := ExitOfCycle(s, a, cycle, env);
            var bad := (cycle != Some(SwitchCycle) && RecoveryRefused(s, a, env.recovery)) || env.first != Launches;
            var id := s.children[a].parsed.requestId;
            && Quieted(s, t, a) && t.world.spawns.replies == s.world.spawns.replies && (a in t.children <==> !bad)
            && (!bad ==> t.world.results == s.world.results)
            && (bad && id.Some? ==> t.world.results == s.world.results + [SpawnReply(a, Some(OtherError), id)])
            && Fails(s, t, a, id)
  {
    hide SelectRecovery, Relaunch, RecoveryRefused;
    var id := s.children[a].parsed.requestId;
    if cycle == Some(SwitchCycle) {
      RelaunchIsQuiet(s, a, id, env);
    } else {
      SelectRecoveryIsQuiet(s, a, env.recovery);
      var (ok, t) := SelectRecovery(s, a, env.recovery);
      if ok { RelaunchIsQuiet(t, a, id, env); }
    }
  }

  lemma OnExitSays(s: State, a: string, env: Env)
    requires a in s.children
    ensures var t, id := OnExit(s, a, env), s.children[a].parsed.requestId;
            && Quieted(s, t, a) && Fails(s, t, a, id)
            && (!CycleFails(s, a, env) ==> t.world.results == s.world.results)
            && (CycleFails(s, a, env) ==> a !in t.children)
            && (CycleFails(s, a, env) && id.Some? ==>
                  t.world.results == s.world.results + [SpawnReply(a, Some(OtherError), id)])
  {
    hide RemoveStopped, RelaunchForReset, ExitOfCycle, ExitOfCrash, RecoveryRefused;
    var e := s.children[a];
    var u := Put(s, a, Exiting(e));
    if e.stopping {
      RemoveStoppedIsQuiet(u, a);
    } else if e.pendingReset.Some? {
      RelaunchForResetIsQuiet(u, a, env);
    } else if e.restarting {
      ExitOfCycleSays(u, a, e.cycle, env);
      SameRefusal(s, u, a, env.recovery);
    } else {
      ExitOfCrashIsQuiet(u, a, env);
    }
  }

  lemma SameRefusal(s: State, u: State, a: string, r: Recovery)
    requires a in s.children && a in u.children && u.active == s.active
    requires u.children[a].locked == s.children[a].locked && u.children[a].candidate == s.children[a].candidate
    requires u.children[a].parsed == s.children[a].parsed
    ensures RecoveryRefused(u, a, r) <==> RecoveryRefused(s, a, r)
  {
  }

  // ---- Commands -------------------------------------------------------------

  /** A new entry remembers its command's id and nothing else. */
  predicate NewHere(t: State, a: string, id: Option<string>) {
    a in t.children ==>
      t.children[a].parsed.requestId == id && t.children[a].pendingReset.None? && !t.children[a].restarting
  }

  lemma LaunchSays(s: State, a: string, p: Parsed, k: nat, env: Env)
    requires a !in s.children
    ensures var t := LaunchSpawn(s, a, p, k, env);
            && Answers(s, t, k, a, p.requestId) && NewHere(t, a, p.requestId)
            && t.pendingSpawns == s.pendingSpawns && t.pendingSwitches == s.pendingSwitches
  {
    hide Resolve;
  }

  lemma ResumeSays(s: State, a: string, p: Parsed, k: nat, found: bool, env: Env)
    requires a !in s.children && p.resume.Some?
    ensures var t := CompleteResumeSpawn(s, a, p, k, found, env);
            && Answers(s, t, k, a, p.requestId) && NewHere(t, a, p.requestId)
            && t.pendingSpawns == s.pendingSpawns && t.pendingSwitches == s.pendingSwitches
  {
    hide LaunchSpawn;
    LaunchSays(s.(active := Claim(s.active, p.resume)), a, p, k, env);
  }

  /** The answer of a spawn command, now or once its check is done. */
  predicate Accepted(s: State, t: State, a: string, id: Option<string>) {
    && (a in s.children ==> a in t.children && t.children[a] == s.children[a])
    && (a !in s.children ==> NewHere(t, a, id))
    && t.pendingSwitches == s.pendingSwitches
    && (|| (t.pendingSpawns == s.pendingSpawns && Answers(s, t, s.world.tickets, a, id))
        || (a !in s.children && a !in s.pendingSpawns && a !in t.children && Silent(s, t)
            && t.world.launches == s.world.launches
            && a in t.pendingSpawns && t.pendingSpawns == s.pendingSpawns[a := t.pendingSpawns[a]]
            && t.pendingSpawns[a].ticket == s.world.tickets && t.pendingSpawns[a].parsed.requestId == id))
  }

  lemma AcceptedSpawnSays(s: State, a: string, p: Parsed, check: Check, env: Env)
    ensures Accepted(s, AcceptedSpawn(s, a, p, check, env), a, p.requestId)
  {
    hide LaunchSpawn, CompleteResumeSpawn, ApplyResumeSnapshot;
    if a !in s.children && a !in s.pendingSpawns {
      var asked := AskedSpawn(s, a, p.requestId);
      if p.resume.None? {
        LaunchSays(asked, a, if p.restore then WithSnapshot(p, p.snapshot) else p, s.world.tickets, env);
      } else if check.AtOnce? {
        ResumeSays(asked, a, WithSnapshot(p, p.snapshot), s.world.tickets, check.found, env);
      }
    }
  }

  lemma HandleSpawnSays(s: State, a: string, requestId: Option<string>, parsed: Option<Parsed>, check: Check, env: Env)
    ensures Accepted(s, HandleSpawn(s, Some(a), requestId, parsed, check, env), a, requestId)
  {
    hide AcceptedSpawn;
    if parsed.Some? { AcceptedSpawnSays(s, a, parsed.value.(requestId := requestId), check, env); }
  }

  /** The check of this very command is the one that waits. */
  predicate Due(s: State, a: string, k: nat) {
    Waiting(s, a, k) && s.pendingSpawns[a].parsed.resume.Some?
  }

  lemma SpawnCheckedSays(s: State, a: string, k: nat, outcome: CheckOutcome, env: Env)
    requires a in s.pendingSpawns ==> a !in s.children
    ensures var t := SpawnChecked(s, a, k, outcome, env);
            if Due(s, a, k) then
              var id := s.pendingSpawns[a].parsed.requestId;
              && Answers(s, t, k, a, id) && NewHere(t, a, id)
              && t.pendingSpawns == s.pendingSpawns - {a} && t.pendingSwitches == s.pendingSwitches
            else t == s
  {
    hide CompleteResumeSpawn;
    if Due(s, a, k) && outcome.Found? {
      ResumeSays(s.(pendingSpawns := s.pendingSpawns - {a}), a, s.pendingSpawns[a].parsed, k, outcome.found, env);
    }
  }

  /** A stop answers the spawn it cancels, without the id. */
  lemma HandleStopSays(s: State, a: string)
    ensures var t := HandleStop(s, a);
            && (a in s.pendingSpawns ==>
                  && Answers(s, t, s.pendingSpawns[a].ticket, a, None)
                  && t == SpawnAnswer(s.(pendingSpawns := s.pendingSpawns - {a}), s.pendingSpawns[a].ticket,
                                      SpawnReply(a, Some(OtherError), None)))
            && (a !in s.pendingSpawns ==>
                  && Silent(s, t) && t.world.launches == s.world.launches && t.pendingSpawns == s.pendingSpawns
                  && (t.pendingSwitches == s.pendingSwitches || t.pendingSwitches == s.pendingSwitches - {a})
                  && (a in t.children ==> a in s.children && t.children[a] == s.children[a].(stopping := true)))
  {
  }

  lemma HandleRestartSays(s: State, a: string, requestId: Option<string>, env: Env)
    ensures var t := HandleRestart(s, a, requestId, env);
            && Fails(s, t, a, requestId) && IdsKept(s, t, a, requestId) && t.pendingSpawns == s.pendingSpawns
  {
    var t := HandleRestart(s, a, requestId, env);
    if a in s.children && (env.preflightRefused || !env.launchable) {
      assert t.world.results == s.world.results + [SpawnReply(a, Some(OtherError), requestId)];
    }
  }

  lemma FailsWith(s: State, t: State, a: string, reason: Reason, id: Option<string>)
    requires t.world.spawns.replies == s.world.spawns.replies
    requires t.world.results == s.world.results + [SpawnReply(a, Some(reason), id)]
    ensures Fails(s, t, a, id)
  {
  }

  lemma SwitchedIds(s: State, a: string, e: Entry, active: set<string>, id: Option<string>)
    requires a in s.children && e.pendingReset.None? && e.parsed.requestId == id
    ensures IdsKept(s, Put(s.(active := active), a, e), a, id)
  {
  }

  lemma CompleteSwitchSays(s: State, a: string, payload: SwitchPayload, found: bool, env: Env)
    requires payload.resume.Some? && (a in s.children ==> s.children[a].pendingReset.None?)
    ensures var t := CompleteSwitch(s, a, payload, found, env);
            && Fails(s, t, a, payload.requestId) && IdsKept(s, t, a, payload.requestId)
            && t.pendingSpawns == s.pendingSpawns
  {
    hide ApplyResumeSnapshot, ExceedsCeiling, Fails, IdsKept;
    SameIds(s, a, payload.requestId);
    if a in s.children && !s.children[a].stopping {
      var e, resume := s.children[a], payload.resume.value;
      forall reason ensures Fails(s, Notice(s, a, reason, payload.requestId), a, payload.requestId)
                    ensures IdsKept(s, Notice(s, a, reason, payload.requestId), a, payload.requestId)
      {
        FailsWith(s, Notice(s, a, reason, payload.requestId), a, reason, payload.requestId);
        NoticeIds(s, a, reason, payload.requestId);
      }
      var next := FreshBudget(e.(locked := Some(resume), cycle := Some(SwitchCycle), candidate := false,
                                 parsed := SwitchedParsed(e.parsed, payload, resume), restarting := true), env.now);
      var table := Claim(Release(s.active, e.locked), Some(resume));
      SwitchedIds(s, a, next, table, payload.requestId);
      SilentFails(s, Put(s.(active := table), a, next), a, payload.requestId);
    }
  }

  lemma SilentFails(s: State, t: State, a: string, id: Option<string>)
    requires Silent(s, t)
    ensures Fails(s, t, a, id)
  {
  }

  lemma SameIds(s: State, a: string, id: Option<string>)
    ensures IdsKept(s, s, a, id) && Fails(s, s, a, id)
  {
  }

  lemma NoticeIds(s: State, a: string, reason: Reason, id: Option<string>)
    ensures IdsKept(s, Notice(s, a, reason, id), a, id)
  {
  }

  lemma HandleSwitchSays(s: State, a: string, payload: SwitchPayload, check: Check, env: Env)
    requires a in s.children ==> s.children[a].pendingReset.None?
    ensures var t := HandleSwitch(s, a, payload, check, env);
            && Fails(s, t, a, payload.requestId) && IdsKept(s, t, a, payload.requestId)
            && t.pendingSpawns == s.pendingSpawns
  {
    hide CompleteSwitch;
    var t := HandleSwitch(s, a, payload, check, env);
    if a in s.children && (payload.resume.None? || payload.resume.value == "") {
      assert t.world.results == s.world.results + [SpawnReply(a, Some(OtherError), payload.requestId)];
    } else if a in s.children && check.AtOnce? {
      CompleteSwitchSays(s.(pendingSwitches := s.pendingSwitches - {a},
                            world := s.world.(tickets := s.world.tickets + 1)),
                         a, payload, check.found, env);
    }
  }

  lemma SwitchCheckedSays(s: State, a: string, k: nat, outcome: CheckOutcome, env: Env)
    requires a in s.children ==> s.children[a].pendingReset.None? || a !in s.pendingSwitches
    ensures var t := SwitchChecked(s, a, k, outcome, env);
            && IdsKept(s, t, a, None) && t.pendingSpawns == s.pendingSpawns
            && (if a in s.pendingSwitches then Fails(s, t, a, s.pendingSwitches[a].payload.requestId) else t == s)
  {
    hide CompleteSwitch;
    if a in s.pendingSwitches && s.pendingSwitches[a].payload.resume.Some? {
      var payload := s.pendingSwitches[a].payload;
      var taken := s.(pendingSwitches := s.pendingSwitches - {a});
      if outcome.Found? {
        if s.pendingSwitches[a].ticket == k { CompleteSwitchSays(taken, a, payload, outcome.found, env); }
      } else {
        assert Notice(taken, a, OtherError, payload.requestId).world.results
            == s.world.results + [SpawnReply(a, Some(OtherError), payload.requestId)];
      }
    }
  }

  lemma TerminateSays(s: State, a: string, env: Env)
    requires a in s.children && s.children[a].pendingReset.Some?
    ensures var t := TerminateForReset(s, a, env);
            && Silent(s, t) && t.pendingSpawns == s.pendingSpawns
            && (t.pendingSwitches == s.pendingSwitches || t.pendingSwitches == s.pendingSwitches - {a})
            && EntryIds(t, a) <= EntryIds(s, a)
  {
    hide OnExit;
    if !env.killed { OnExitSays(s, a, env); }
  }

  lemma BegunIds(s: State, a: string, p: PendingReset, next: Parsed, id: Option<string>, now: int)
    requires a in s.children && p.previousParsed.requestId == s.children[a].parsed.requestId && next.requestId == id
    ensures var u := Begun(s, a, p, next, now);
            EntryIds(u, a) <= EntryIds(s, a) + IdOf(id) && u.children[a].pendingReset.Some?
  {
  }

  lemma AcceptedResetSays(s: State, a: string, p: PendingReset, next: Parsed, id: Option<string>, env: Env)
    requires a in s.children && s.children[a].pendingReset.None?
    requires p.previousParsed == s.children[a].parsed && next.requestId == id
    ensures var t := AcceptedReset(s, a, p, next, env);
            Silent(s, t) && IdsKept(s, t, a, id) && t.pendingSpawns == s.pendingSpawns
  {
    hide TerminateForReset, ExceedsCeiling, Begun, EntryIds, IdsKept;
    var cancelled := s.(pendingSwitches := s.pendingSwitches - {a});
    assert DropReset(cancelled, s.children[a]) == cancelled;
    if ExceedsCeiling(s.children[a], next) {
      RefusedIds(s, a, p, id);
    } else {
      var u := Begun(cancelled, a, p, next, env.now);
      BegunIds(cancelled, a, p, next, id, env.now);
      BegunFrame(cancelled, a, p, next, env.now);
      TerminateSays(u, a, env);
      IdsThrough(s, u, TerminateForReset(u, a, env), a, id);
    }
  }

  lemma RefusedIds(s: State, a: string, p: PendingReset, id: Option<string>)
    requires a in s.children && s.children[a].pendingReset.None?
    ensures var cancelled := s.(pendingSwitches := s.pendingSwitches - {a});
            var t := ResetAnswer(Put(cancelled, a, s.children[a].(pendingReset := None)), a, p, ResetCeilingConflict);
            IdsKept(s, t, a, id)
  {
  }

  lemma IdsThrough(s: State, u: State, t: State, a: string, id: Option<string>)
    requires EntryIds(u, a) <= EntryIds(s.(pendingSwitches := s.pendingSwitches - {a}), a) + IdOf(id)
    requires EntryIds(t, a) <= EntryIds(u, a)
    requires t.pendingSpawns == s.pendingSpawns && a !in t.pendingSwitches
    ensures IdsKept(s, t, a, id)
  {
  }

  lemma BegunFrame(s: State, a: string, p: PendingReset, next: Parsed, now: int)
    requires a in s.children
    ensures var u := Begun(s, a, p, next, now);
            u == s.(children := u.children) && a in u.children && u.children[a].pendingReset.Some?
  {
  }

  lemma HandleResetSays(s: State, a: string, payload: ResetPayload, env: Env)
    requires a in s.children ==> s.children[a].pendingReset.None?
    ensures var t := HandleReset(s, a, payload, env);
            Silent(s, t) && IdsKept(s, t, a, payload.requestId) && t.pendingSpawns == s.pendingSpawns
  {
    hide AcceptedReset, ApplyResumeSnapshot;
    if a in s.children && payload.requestId.Some? && payload.requestId.value != "" && payload.mode.Some?
       && env.launchable {
      var e := s.children[a];
      var p := PendingReset(s.world.tickets, payload.requestId.value, payload.mode.value, payload.previousSessionId,
                            e.parsed.resume, e.parsed);
      AcceptedResetSays(AskedReset(s, ResetAsk(a, p.requestId, p.mode)), a, p, ResetParsed(e.parsed, payload),
                        payload.requestId, env);
    }
  }

  lemma TimerFiredSays(s: State, a: string, env: Env)
    ensures var t := TimerFired(s, a, env); Silent(s, t) && IdsKept(s, t, a, None) && t.pendingSpawns == s.pendingSpawns
  {
    hide TerminateForReset;
    if a in s.children && s.children[a].timer && s.children[a].pendingReset.Some? && !s.children[a].escalated {
      TerminateSays(Put(s, a, Expired(s.children[a])), a, env);
    }
  }

  lemma ExitedSays(s: State, a: string, child: nat, env: Env)
    ensures var t := Exited(s, a, child, env);
            && IdsKept(s, t, a, None) && t.pendingSpawns == s.pendingSpawns
            && (if a in s.children && s.children[a].child == child
                then Fails(s, t, a, s.children[a].parsed.requestId) else t == s)
  {
    hide OnExit;
    if a in s.children && s.children[a].child == child { OnExitSays(s, a, env); }
  }

  // ---- One step, seen by one request id -------------------------------------

  function CountId(results: seq<SpawnReply>, r: string): nat {
    if results == [] then 0
    else CountId(results[..|results| - 1], r) + if results[|results| - 1].requestId == Some(r) then 1 else 0
  }

  lemma CountIdSnoc(results: seq<SpawnReply>, x: SpawnReply, r: string)
    ensures CountId(results + [x], r) == CountId(results, r) + if x.requestId == Some(r) then 1 else 0
  {
    assert (results + [x])[..|results|] == results;
  }

  /** A second answer: the current process of an agent has exited in a deliberate cycle that
    * ends badly, and its entry still carries the id. */
  predicate Echoes(s: State, ev: Event, r: string) {
    && ev.Exit? && CycleFails(s, ev.a, ev.env)
    && s.children[ev.a].child == ev.child && s.children[ev.a].parsed.requestId == Some(r)
  }

  /** The check a spawn with this id waits for is done. */
  predicate Resolves(s: State, ev: Event, r: string) {
    ev.SpawnCheck? && Due(s, ev.a, ev.ticket) && s.pendingSpawns[ev.a].parsed.requestId == Some(r)
  }

  lemma FailsCount(s: State, t: State, a: string, id: Option<string>, r: string)
    requires Fails(s, t, a, id) && id != Some(r)
    ensures CountId(t.world.results, r) == CountId(s.world.results, r)
  {
    if t.world.results != s.world.results {
      var reason :| t.world.results == s.world.results + [SpawnReply(a, Some(reason), id)];
      CountIdSnoc(s.world.results, SpawnReply(a, Some(reason), id), r);
    }
  }

  lemma AnswersCount(s: State, t: State, k: nat, a: string, id: Option<string>, r: string)
    requires Answers(s, t, k, a, id)
    ensures CountId(t.world.results, r) == CountId(s.world.results, r) + if id == Some(r) then 1 else 0
  {
    CountIdSnoc(s.world.results, t.world.results[|s.world.results|], r);
  }

  /** What a command or event that does not bring the id can do to it. */
  predicate Sees(s: State, t: State, ev: Event, a: string, r: string) {
    && (r in EntryIds(t, a) ==> r in EntryIds(s, a) || (r in WaitIds(s, a) && Resolves(s, ev, r)))
    && (r in WaitIds(t, a) ==> r in WaitIds(s, a) && t.pendingSpawns[a] == s.pendingSpawns[a] && !Resolves(s, ev, r))
    && r !in SwitchIds(t, a)
    && CountId(t.world.results, r) == CountId(s.world.results, r)
         + (if Echoes(s, ev, r) then 1 else 0) + (if Resolves(s, ev, r) then 1 else 0)
    && (Echoes(s, ev, r) ==> EntryIds(t, a) == {})
  }

  lemma ExitSees(s: State, ev: Event, r: string)
    requires ev.Exit? && r !in SwitchIds(s, ev.a) && (ev.a in s.pendingSpawns ==> ev.a !in s.children)
    ensures Sees(s, Exited(s, ev.a, ev.child, ev.env), ev, ev.a, r)
  {
    hide OnExit, RecoveryRefused, Fails;
    var a, t := ev.a, Exited(s, ev.a, ev.child, ev.env);
    ExitedSays(s, a, ev.child, ev.env);
    if a in s.children && s.children[a].child == ev.child {
      OnExitSays(s, a, ev.env);
      var id := s.children[a].parsed.requestId;
      if Echoes(s, ev, r) {
        CountIdSnoc(s.world.results, SpawnReply(a, Some(OtherError), id), r);
      } else if id == Some(r) {
        assert t.world.results == s.world.results;
      } else {
        FailsCount(s, t, a, id, r);
      }
    }
  }

  lemma SpawnSees(s: State, ev: Event, a: string, r: string)
    requires ev.Spawn? && ev.agent == Some(a) && ev.requestId != Some(r) && r !in SwitchIds(s, a)
    requires a in s.pendingSpawns ==> a !in s.children
    ensures Sees(s, HandleSpawn(s, Some(a), ev.requestId, ev.parsed, ev.check, ev.env), ev, a, r)
  {
    hide HandleSpawn, Answers;
    var t := HandleSpawn(s, Some(a), ev.requestId, ev.parsed, ev.check, ev.env);
    HandleSpawnSays(s, a, ev.requestId, ev.parsed, ev.check, ev.env);
    if t.pendingSpawns == s.pendingSpawns && Answers(s, t, s.world.tickets, a, ev.requestId) {
      AnswersCount(s, t, s.world.tickets, a, ev.requestId, r);
    }
  }

  lemma CheckSees(s: State, ev: Event, r: string)
    requires ev.SpawnCheck? && r !in SwitchIds(s, ev.a)
    requires ev.a in s.pendingSpawns ==> ev.a !in s.children && s.pendingSpawns[ev.a].parsed.resume.Some?
    ensures Sees(s, SpawnChecked(s, ev.a, ev.ticket, ev.outcome, ev.env), ev, ev.a, r)
  {
    hide SpawnChecked, Answers;
    var a, t := ev.a, SpawnChecked(s, ev.a, ev.ticket, ev.outcome, ev.env);
    SpawnCheckedSays(s, a, ev.ticket, ev.outcome, ev.env);
    if Due(s, a, ev.ticket) { AnswersCount(s, t, ev.ticket, a, s.pendingSpawns[a].parsed.requestId, r); }
  }

  lemma StopSees(s: State, ev: Event, r: string)
    requires ev.Stop? && r !in SwitchIds(s, ev.a) && (ev.a in s.pendingSpawns ==> ev.a !in s.children)
    ensures Sees(s, HandleStop(s, ev.a), ev, ev.a, r)
  {
    hide HandleStop, Answers;
    HandleStopSays(s, ev.a);
    if ev.a in s.pendingSpawns {
      AnswersCount(s, HandleStop(s, ev.a), s.pendingSpawns[ev.a].ticket, ev.a, None, r);
    }
  }
}
