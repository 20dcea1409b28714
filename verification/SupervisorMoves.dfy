/** Where locks and sessions go: what a switch, a recovery, a rollback and a crash leave. */
module SupervisorMoves {
  import opened Wrappers
  import opened Permissions
  import opened CrashBudget
  import opened Desks
  import opened SupervisorSpec
  import opened SupervisorSafety
  import opened SupervisorSteps
  import opened SupervisorFrames
  import opened SupervisorTheorems
  import opened SupervisorResults

  /** The lock table after one agent's lock moved from `from` to `target`. */
  ghost predicate LockMovedTo(before: set<string>, after: set<string>, from: Option<string>, target: Option<string>) {
    forall x :: x in after <==> Some(x) == target || (x in before && Some(x) != from)
  }

  /** Nobody but `a` holds `target`. */
  ghost predicate HeldByNoOther(children: map<string, Entry>, a: string, target: Option<string>) {
    target.Some? ==> forall b :: b in children && b != a ==> children[b].locked != target
  }

  lemma OwnLockListed(s: State, a: string)
    requires Core(s) && a in s.children
    ensures s.children[a].locked.Some? ==> s.children[a].locked.value in s.active
    ensures forall target: Option<string> ::
              target == s.children[a].locked || (target.Some? && target.value !in s.active) ==>
                HeldByNoOther(s.children, a, target)
  {
    hide Processes, Entries, Pendings, SpawnsTracked, ResetsTracked, DesksOk, LaunchesOk, Published, PendingIds;
  }

  /** What a switch needs: a session that exists, an agent that can be launched, a snapshot that
    * parses, values within the ceiling, and a session no other agent holds. */
  predicate SwitchAllowed(s: State, a: string, payload: SwitchPayload, found: bool, env: Env)
    requires a in s.children && payload.resume.Some?
  {
    && found && env.launchable && !payload.snapshot.MalformedSnapshot?
    && !ExceedsCeiling(s.children[a], SwitchedParsed(s.children[a].parsed, payload, payload.resume.value))
    && (payload.resume == s.children[a].locked || payload.resume.value !in s.active)
  }

  /** An allowed switch leaves the agent on the new session, which it alone holds, with the old
    * one free and the process still running; a refused one only reports its failure. */
  lemma SwitchMovesTheLock(s: State, a: string, payload: SwitchPayload, found: bool, env: Env)
    requires Core(s) && a in s.children && !s.children[a].stopping && payload.resume.Some?
    ensures var e, t := s.children[a], CompleteSwitch(s, a, payload, found, env);
            if SwitchAllowed(s, a, payload, found, env) then
              && a in t.children && t.children[a].locked == t.children[a].parsed.resume == payload.resume
              && t.children[a].child == e.child && t.children[a].restarting && t.world == s.world
              && LockMovedTo(s.active, t.active, e.locked, payload.resume)
              && HeldByNoOther(t.children, a, payload.resume)
            else
              && t == s.(world := s.world.(results := t.world.results)) && |t.world.results| == |s.world.results| + 1
              && var x := t.world.results[|s.world.results|]; x.reason.Some? && x.requestId == payload.requestId
  {
    hide Core, ApplyResumeSnapshot, ExceedsCeiling;
    OwnLockListed(s, a);
  }

  /** A recovery is refused exactly by its checkpoint or by another holder, and then changes
    * nothing; otherwise lock and session are the checkpoint's, held by this agent alone. */
  lemma RecoveryMovesTheLock(s: State, a: string, r: Recovery)
    requires Core(s) && a in s.children && s.children[a].pendingReset.None?
    ensures var (ok, t) := SelectRecovery(s, a, r);
            && (ok <==> !RecoveryRefused(s, a, r)) && (!ok || r.Absent? ==> t == s)
            && (ok && !r.Absent? ==>
                  var e, target := s.children[a], RecoveryTarget(s.children[a], r).0;
                  && t.children[a].locked == t.children[a].parsed.resume == target
                  && LockMovedTo(s.active, t.active, e.locked, target) && HeldByNoOther(t.children, a, target))
  {
    hide Core;
    OwnLockListed(s, a);
  }

  lemma OldResumeIsLock(s: State, a: string)
    requires Core(s) && a in s.children && s.children[a].pendingReset.Some?
    ensures s.children[a].pendingReset.value.oldResume == s.children[a].locked
  {
    hide Locks, Processes, Pendings, SpawnsTracked, ResetsTracked, DesksOk, LaunchesOk, Published, PendingIds,
         BudgetOk, CeilingOk;
  }

  /** The agent runs again, on a session it alone holds, with the reset's settings, snapshot and
    * request id: of the launch state from before the reset only the session comes back. */
  ghost predicate TakenOver(s: State, t: State, a: string, back: Option<string>)
    requires a in s.children
  {
    && a in t.children && t.children[a].locked == back
    && t.children[a].parsed == s.children[a].parsed.(resume := back)
    && t.world.launches == s.world.launches + [Launch(a, s.world.nextChild, back, s.children[a].parsed.settings.axes,
                                                      s.children[a].ceiling)]
    && t.children[a].child == s.world.nextChild && t.world.live == s.world.live[s.world.nextChild := a]
    && LockMovedTo(s.active, t.active, s.children[a].locked, back) && HeldByNoOther(t.children, a, back)
  }

  ghost predicate LetGo(s: State, t: State, a: string)
    requires a in s.children
  {
    && t.children == s.children - {a} && t.world.live == s.world.live
    && LockMovedTo(s.active, t.active, s.children[a].locked, None)
  }

  predicate RollbackWorks(p: PendingReset, env: Env) {
    p.previousSessionId.Some? && p.previousSessionId.value != "" && env.second == Launches
  }

  lemma RollbackLetsGo(s: State, a: string, env: Env)
    requires a in s.children && s.children[a].pendingReset.Some?
    requires !RollbackWorks(s.children[a].pendingReset.value, env)
    ensures LetGo(s, Rollback(s, a, env), a)
  {
    assert Rollback(s, a, env).children == s.children - {a};
  }

  lemma RollbackWorked(s: State, a: string, env: Env)
    requires a in s.children && s.children[a].pendingReset.Some? && RollbackWorks(s.children[a].pendingReset.value, env)
    requires s.children[a].pendingReset.value.oldResume == s.children[a].locked
    requires s.children[a].locked.Some? ==> s.children[a].locked.value in s.active
    requires HeldByNoOther(s.children, a, s.children[a].pendingReset.value.previousSessionId)
    ensures TakenOver(s, Rollback(s, a, env), a, s.children[a].pendingReset.value.previousSessionId)
  {
  }

  lemma RollbackReplies(s: State, a: string, env: Env)
    requires a in s.children && s.children[a].pendingReset.Some?
    ensures var p, t := s.children[a].pendingReset.value, Rollback(s, a, env);
            var outcome := if RollbackWorks(p, env) then SpawnFailed else RollbackFailed;
            t.world.resets == Reply(s.world.resets, p.ticket, ResetReply(a, p.requestId, p.mode, outcome))
  {
  }

  /** A rollback to a named session that launches leaves the agent on it, with its lock and a
    * new process that runs under the settings the reset brought, not those from before it; any
    * other drops the agent and frees its lock. The reset is answered either way. */
  lemma RollbackTakesOver(s: State, a: string, env: Env)
    requires Core(s) && a in s.children && s.children[a].pendingReset.Some? && RollbackIsOwn(s, a)
    ensures var p, t := s.children[a].pendingReset.value, Rollback(s, a, env);
            var outcome := if RollbackWorks(p, env) then SpawnFailed else RollbackFailed;
            && t.world.resets == Reply(s.world.resets, p.ticket, ResetReply(a, p.requestId, p.mode, outcome))
            && (if RollbackWorks(p, env) then TakenOver(s, t, a, p.previousSessionId) else LetGo(s, t, a))
  {
    hide Core, Rollback, TakenOver, LetGo, RollbackWorks;
    OwnLockListed(s, a);
    OldResumeIsLock(s, a);
    RollbackReplies(s, a, env);
    if RollbackWorks(s.children[a].pendingReset.value, env) {
      RollbackWorked(s, a, env);
    } else {
      RollbackLetsGo(s, a, env);
    }
  }

  lemma ChargeIsCrash(e: Entry, now: int)
    requires e.windows != [] && e.windowStart == Current(e.windows).start
    requires e.restarts == |Current(e.windows).relaunches|
    ensures ChargeCrash(e, now).1 == Crash(e.windows, now).1 && ChargeCrash(e, now).0.windows == Crash(e.windows, now).0
    ensures ChargeCrash(e, now).0.locked == e.locked
  {
  }

  /** After a crash the agent comes back exactly when its budget has room and the launch works;
    * the crash is then on record. Otherwise the agent and its lock are gone. */
  lemma CrashIsCharged(s: State, a: string, env: Env)
    requires Core(s) && a in s.children && env.now == s.world.clock
    ensures s.children[a].windows != []
    ensures var e, t := s.children[a], Charge(s, a, env);
            var (after, up) := Crash(e.windows, env.now);
            if up && env.first == Launches then
              && a in t.children && t.children[a].windows == after && t.children[a].child == s.world.nextChild
              && t.active == s.active
            else a !in t.children && LockMovedTo(s.active, t.active, e.locked, None)
  {
    hide Core, Crash, ChargeCrash;
    CoreBudget(s, a);
    ChargeIsCrash(s.children[a], env.now);
  }

  lemma CoreBudget(s: State, a: string)
    requires Core(s) && a in s.children
    ensures var e := s.children[a];
            && e.windows != [] && e.windowStart == Current(e.windows).start
            && e.restarts == |Current(e.windows).relaunches|
  {
    hide Locks, Processes, Pendings, SpawnsTracked, ResetsTracked, DesksOk, LaunchesOk, Published, PendingIds,
         LockIsResume, CeilingOk;
  }
}
