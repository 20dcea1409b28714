# Verified models of the agent runner and wrapper

This project models, in Dafny, the stateful logic of a system that runs coding agents on a
host and shows them on a dashboard, and proves properties of that model over every input and
every run. Where the program is an object that changes in place, the model has a class with
the same fields, whose methods are proved to take the steps of a step function over values;
the promises are then proved about runs of that step function.

| files | what they model |
|---|---|
| `SupervisorSpec`, `SupervisorSafety`, `SupervisorSteps`, `SupervisorFrames`, `SupervisorCommands`, `SupervisorRuns`, `SupervisorTheorems`, `SupervisorResets`, `SupervisorResults`, `SupervisorAnswers`, `SupervisorMoves`, `SupervisorOutcomes`, `Supervisor`, with `CrashBudget`, `Desks`, `Permissions` | the runner's process supervisor: same-session locks, existence checks, crash budget, resets with rollback, permission ceilings and resume snapshots |
| `Stamps`, `SidecarFile`, `SidecarRuns`, `IaSidecar` | the inter-agent sidecar log: an append-only file with compaction, markers and merges |
| `AckLedger`, `AckSpec`, `AckRuns`, `AckComplete`, `DeliveryAck` | the contiguous-prefix acknowledger and its join identities |
| `StageSpec`, `StageSafety`, `StageLife`, `DeliveryStages` | the per-delivery stage reports |
| `StatusDisplay` | the dashboard's status queue |
| `PermissionBroker`, `PermissionVerdicts` | the permission broker over the registry of pending requests |
| `CatalogRefresh` | the single-flight catalog refresh |
| `AgyTimestamp` | the session timestamp parser |

`dafny verify dfyconfig.toml` checks the whole project.

## What is assumed of the outside

- Supervisor (`SupervisorSafety.Enabled`, `SupervisorSafety.Coordinated`): an exit is reported, and
  `kill` answers false, only for a process that is gone; the clock does not run backwards; the
  server's reset lock (protocol/src/index.ts:914-919) keeps a switch and a second reset from an agent
  whose reset is pending; the session a rollback would resume is not another agent's. Three
  lemmas (`SwitchDuringResetLeaksALock`, `SecondResetLeaksALock`, `ForeignRollbackSharesALock`) show that each of
  the last three is needed.
- The lock invariant is over the lock table, not over which process still reads a session: a
  switch releases the old session when it is requested, a reset holds it until the relaunch.
- Delivery stages and acknowledgement: the join identity does not change within one call. Status queue, broker and
  reporter: callbacks do not call back in.
- Broker: an id is not used again while its request waits (`ReusedIdLosesARequest` shows why).
- Spawn ids: `SpawnIdIsAnswered` is about an id that one command of the run brings. A restart without an
  id, which only a server of the older protocol sends, keeps the id its entry carries, and is the only
  way one id is answered twice.
- Catalog refresh: a probe that throws before it returns a promise is an event of the model, and
  `StuckOnlyByAThrow` gives the exact condition under which refreshing ends. The default probe is an
  async function and cannot throw that way; only an injected one can.
- A reset whose `kill` answers false goes on, in the program, in a microtask; that no other message is
  handled in the same turn before it is assumed.

## Where the code and its comments disagree

- runner/src/permission_ceiling.ts:104-107 says a launch approval of `on-failure` counts as absent. The
  code gives it a rank below every other one, so under an explicit `untrusted` ceiling an absent
  approval conflicts and `on-failure` passes; `Permissions.OnFailureIsNotAbsent` says the two agree exactly
  otherwise. The spawn parser and the snapshot validator both reject `on-failure`, so only a direct call
  reaches this.
- runner/src/supervisor.ts:1934-1935 says the rollback restores the launch state from before the reset.
  The code restores only the session: settings, snapshot and request id stay those of the reset, and
  `SupervisorMoves.RollbackTakesOver` states so.
- The restart cap reads as a cap per window length; `CrashBudget.TwiceTheCapIsReached` shows an interval
  of one window length with twice as many relaunches, which is the true bound.
- The retained cap is described as an incomplete history; `SidecarFile.BeyondRetainedCanBeStale` shows that
  past it a read can also show a superseded record.

## Model

| member | source | states |
|---|---|---|
| `SupervisorTheorems.LockTableIsExact` | runner/src/supervisor.ts:1748-1790 | In every state any run reaches, the same-session lock table lists exactly the sessions of the agents present, no two agents hold one session, and each agent holds the session it would resume, or the one its pending reset gives up |
| `SupervisorTheorems.OneProcessPerAgent` | runner/src/supervisor.ts:1692-1694 | In every reachable state at most one process of an agent runs, and it is the one its entry names |
| `SupervisorTheorems.LaunchesAreSafe` | runner/src/supervisor.ts:1792-1866 | A step launches at most one process, only when none of that agent runs, resuming the session the agent then holds locked, within the ceiling it was first given |
| `SupervisorTheorems.CeilingIsForLife` | runner/src/supervisor.ts:1220-1254 | However long an agent stays, through crashes, switches, resets, rollbacks and timeouts, engine, directory and ceiling are those of its first launch and its privileges are within the ceiling |
| `SupervisorTheorems.SwitchesDecideAlone` | runner/src/supervisor.ts:1036-1104 | After a switch that carries a snapshot the privilege axes depend on the snapshot alone, whatever the agent ran with before |
| `SupervisorTheorems.ResetsDecideAlone` | runner/src/supervisor.ts:1185-1277 | The same for every agent still there after an accepted reset, also when its old child was already gone and the exit path relaunched or rolled it back; a malformed snapshot counts as the empty one, so no earlier privilege survives |
| `SupervisorTheorems.RelaunchesAreBounded` | runner/src/supervisor.ts:1729-1745 | In any run without a deliberate cycle, any interval of one window length holds at most twice the restart cap of automatic relaunches of one agent |
| `SupervisorTheorems.SpawnsAreAnsweredOnce` | runner/src/supervisor.ts:797-878 | Each spawn command with an agent id has exactly one answer of its own, unless its existence check still runs or a shutdown dropped it; the answer names the agent and carries the id of the command or, after a cancelling stop, none |
| `SupervisorTheorems.OnlyAShutdownDropsASpawn` | runner/src/supervisor.ts:1335-1347 | In a run without a shutdown no spawn command is dropped without an answer |
| `SupervisorTheorems.ResetsAreAnsweredOnce` | runner/src/supervisor.ts:1838-2005 | Every accepted reset has exactly one result with its request id, unless it is still pending or was given up |
| `SupervisorTheorems.OnlyAStopDropsAReset` | runner/src/supervisor.ts:1698-1701 | A reset of an agent is given up only in a run that stops that agent or shuts down |
| `SupervisorAnswers.SpawnIdIsAnswered` | runner/src/supervisor.ts:1411-1484 | Over every result sent in a run that uses a spawn's request id once: the results carrying the id are its own answer (none while the check runs, after a shutdown, or when a stop cancelled the check) and one more exactly when an exit echoes it, so never more than two; the own answer leaves the id out exactly when a stop came while the check ran |
| `SupervisorAnswers.EchoNeedsRestartWithoutId` | runner/src/supervisor.ts:919-933 | A second answer needs a restart that brings no id: where every restart brings one, each spawn id is answered at most once |
| `SupervisorAnswers.RestartWithoutIdAnswersTwice` | runner/src/supervisor.ts:1713-1726 | Witness: a spawn, a restart without id and a relaunch that throws put two results on the wire under one id, ok and then failed, with every assumption kept |
| `SupervisorAnswers.VerdictsAreTrue` | runner/src/supervisor.ts:1411-1463 | A spawn is answered ok exactly when the step that answers it started a process for that agent |
| `SupervisorResults.OnExitSays` | runner/src/supervisor.ts:1713-1726 | An exit sends a spawn result only when a deliberate cycle ends badly, recovery refused or relaunch failed, and then drops the agent and answers with the id its entry carries |
| `SupervisorMoves.SwitchMovesTheLock` | runner/src/supervisor.ts:1002-1120 | An allowed switch puts the agent on the new session, which it alone holds, and frees the old one; a refused one changes nothing but the failed result it sends |
| `SupervisorMoves.RecoveryMovesTheLock` | runner/src/supervisor.ts:1764-1790 | A recovery is refused exactly by its checkpoint or by another holder of the session, and then changes nothing; otherwise lock and session are the checkpoint's, held by this agent alone |
| `SupervisorMoves.RollbackTakesOver` | runner/src/supervisor.ts:1907-2005 | A rollback that launches puts the agent on the server's session with its lock and a new process under the reset's settings, snapshot and request id, not those from before it; any other drops the agent and frees its lock; the reset is answered either way |
| `SupervisorMoves.CrashIsCharged` | runner/src/supervisor.ts:1729-1745 | After a crash the agent comes back exactly when its budget has room and the launch works, with the crash on record; otherwise agent and lock are gone |
| `SupervisorOutcomes.StoppedIsGone` | runner/src/supervisor.ts:1692-1701 | The exit of a stopped agent's process removes it: nothing is started or reported, exactly its lock is freed, and a pending reset is given up |
| `SupervisorOutcomes.StopIsFinal` | runner/src/supervisor.ts:881-899 | After a stop of an agent, or of everything, no process of it is ever started again, through any restart, switch, reset, timer or exit, until a spawn asks for it |
| `SupervisorOutcomes.CrashOutcome` | runner/src/supervisor.ts:1729-1745 | After a crash the agent is brought back exactly when its checkpoint allows, its budget has room and the launch works, on the session the checkpoint names and with the privileges it had; otherwise it is gone and its lock is free |
| `SupervisorOutcomes.CycleOutcome` | runner/src/supervisor.ts:1703-1727 | The exit of a deliberate cycle resumes the session switched to, or after a restart the checkpoint's, without charging the budget; refused or failing it drops the agent and answers the command's id |
| `SupervisorOutcomes.ResetOutcomeIs` | runner/src/supervisor.ts:1838-2005 | The exit a reset waits for starts the agent without a session, or takes it back to the session named, under the reset's settings and with a full budget, or drops it; each with its own answer |
| `SupervisorOutcomes.SpawnOutcome` | runner/src/supervisor.ts:797-878 | Every spawn command: which refusal it gets, or whether it waits or starts at once, and then its session, lock, settings, ceiling and answer; a directory outside the allowlist or a missing session never starts |
| `SupervisorOutcomes.SpawnCheckOutcome` | runner/src/supervisor.ts:858-878 | The same for the answer to an existence check; one that was overtaken changes nothing |
| `SupervisorOutcomes.SpawnTakesTheSnapshot` | runner/src/supervisor.ts:828-848 | A resumed or restored spawn is launched with its snapshot's privileges, any other with its own |
| `SupervisorOutcomes.StopOutcome` | runner/src/supervisor.ts:881-899 | A stop answers and cancels a spawn that waits on its check, and of an agent that is there cancels the waiting switch and marks it |
| `SupervisorOutcomes.RestartBringsBack` | runner/src/supervisor.ts:903-937 | An accepted restart brings the agent back at its next exit whatever its crash budget, on the checkpoint's session, with its privileges and the id the restart brought |
| `SupervisorOutcomes.RestartRefused` | runner/src/supervisor.ts:903-919 | A refused restart only says so |
| `SupervisorOutcomes.SwitchOutcome` | runner/src/supervisor.ts:947-1000 | A switch command is refused, waits on its check in place of an earlier one, or is settled at once |
| `SupervisorOutcomes.SwitchMovesTheAgent` | runner/src/supervisor.ts:1002-1120 | A settled switch is refused for a stated reason without touching the agent, or the next exit brings it back on the new session with the snapshot's privileges, the command's id and a full budget |
| `SupervisorOutcomes.SwitchCheckOutcome` | runner/src/supervisor.ts:981-1000 | The answer to a switch's check settles it; a failed scan refuses it |
| `SupervisorOutcomes.LateSwitchSaysNothing` | runner/src/supervisor.ts:981-1000 | For an agent that is stopping or gone the answer to a switch's check only ends the wait |
| `SupervisorOutcomes.ResetStartsAfresh` | runner/src/supervisor.ts:1141-1277 | A reset is refused with its answer and the agent as it was, or accepted, and the exit then starts the agent without a session, with the snapshot's privileges, and answers the reset |
| `SupervisorOutcomes.TimerOutcome` | runner/src/supervisor.ts:1641-1690 | The first grace signals again, by the exit path when the process is gone; the second gives up with a timeout and the launch state of before |
| `SupervisorOutcomes.NewestListIsPublished` | runner/src/supervisor.ts:1282-1332 | A list nothing newer was asked for is published; one overtaken is not |
| `SupervisorOutcomes.ReloadIsInForce` | runner/src/supervisor.ts:777-792 | After a reload spawns are judged by the new configuration and nothing else changed |
| `SupervisorResets.ResetsEndInTwoGraces` | runner/src/supervisor.ts:1617-1658 | After its agent's termination timer has fired twice, whatever else happens, a reset is no longer pending |
| `SupervisorResets.StepSpendsSignals` | runner/src/supervisor.ts:1641-1657 | The signals left to a pending reset never grow, and its timer strictly spends one |
| `SupervisorResets.GiveUpRestores` | runner/src/supervisor.ts:1672-1690 | A reset pending through any run and then given up leaves the launch state, lock and process from before the command and is answered with a timeout |
| `SupervisorResets.LateChecksDoNothing` | runner/src/supervisor.ts:978-1000 | An existence check that was answered, superseded or cancelled stays dead: its completion changes nothing in any later state |
| `SupervisorResets.OnlyTheLatestListPublishes` | runner/src/supervisor.ts:1312-1332 | Enumerations publish in request order, each at most once, and one overtaken by a newer request or a shutdown does not publish |
| `SupervisorResets.SwitchDuringResetLeaksALock` | runner/src/supervisor.ts:1081-1083 | The server's reset lock is needed: a switch during a pending reset leaves a session locked by nobody |
| `SupervisorResets.SecondResetLeaksALock` | runner/src/supervisor.ts:1168-1184 | The server's reset lock is needed: a second reset leaves the first unanswered and the old session locked by nobody |
| `SupervisorResets.ForeignRollbackSharesALock` | runner/src/supervisor.ts:1986-1992 | A rollback id must not be another agent's: otherwise two agents hold one session |
| `SupervisorRuns.StepKeepsInv` | runner/src/supervisor.ts:797-2005 | Every command and every event of the outside keeps the whole invariant of the tables, entries, timers, tickets and processes |
| `SupervisorRuns.RunKeepsInv` | runner/src/supervisor.ts:670-2006 | Hence every run does |
| `SupervisorRuns.StepIsIsolated` | runner/src/supervisor.ts:1692-1746 | A step about one agent leaves every other agent's entry as it was, and no step changes an agent's engine, directory or ceiling |
| `SupervisorCommands.LaunchKeeps` | runner/src/supervisor.ts:1411-1463 | A launch that is refused, fails or succeeds leaves no stranded slot or lock and its command answered |
| `SupervisorCommands.CompleteSwitchKeeps` | runner/src/supervisor.ts:1002-1120 | A completed switch check, whatever its outcome, keeps the invariant of tables, entries and tickets |
| `SupervisorCommands.HandleResetKeeps` | runner/src/supervisor.ts:1141-1277 | A reset command, whatever its outcome, keeps the invariant of tables, entries and tickets |
| `SupervisorSteps.RollbackKeeps` | runner/src/supervisor.ts:1907-2005 | A rollback, whatever its outcome, keeps the invariant |
| `SupervisorSteps.SelectRecoveryKeeps` | runner/src/supervisor.ts:1764-1790 | A recovery, taken or refused, keeps the invariant |
| `SupervisorSteps.ChargeKeeps` | runner/src/supervisor.ts:1729-1745 | A charged crash, relaunched or not, keeps the invariant |
| `SupervisorFrames.OnExitIsAbout` | runner/src/supervisor.ts:1692-1746 | An exit touches its own agent only, starts at most one process for it, and leaves no reset pending |
| `SupervisorClass.ChildEntry.ChargeCrash` | runner/src/supervisor.ts:1732-1744 | The entry's window rolls over when it is past and refuses once the cap is spent |
| `SupervisorClass.Supervisor.Remove` | runner/src/supervisor.ts:1750-1756 | Drops the entry and its lock: the object's tables and entries, edited in place, end as the model's step from the old state |
| `SupervisorClass.Supervisor.SelectRecovery` | runner/src/supervisor.ts:1764-1790 | Takes the recovery step of the model in place: the object's tables and entries, edited in place, end as the model's step from the old state |
| `SupervisorClass.Supervisor.Relaunch` | runner/src/supervisor.ts:1792-1825 | Takes the relaunch step: the object's tables and entries, edited in place, end as the model's step from the old state |
| `SupervisorClass.Supervisor.RelaunchForReset` | runner/src/supervisor.ts:1838-1897 | Takes the fresh-session step of a reset: the object's tables and entries, edited in place, end as the model's step from the old state |
| `SupervisorClass.Supervisor.Rollback` | runner/src/supervisor.ts:1907-2005 | Takes the rollback step: the object's tables and entries, edited in place, end as the model's step from the old state |
| `SupervisorClass.Supervisor.OnExit` | runner/src/supervisor.ts:1692-1746 | Takes the exit step in its order of branches: the object's tables and entries, edited in place, end as the model's step from the old state |
| `SupervisorClass.Supervisor.HandleExit` | runner/src/supervisor.ts:1692-1694 | An exit of a replaced process changes nothing: the object's tables and entries, edited in place, end as the model's step from the old state |
| `SupervisorClass.Supervisor.LaunchSpawn` | runner/src/supervisor.ts:1411-1463 | Takes the launch step, ceiling resolved by the loop of the program: the object's tables and entries, edited in place, end as the model's step from the old state |
| `SupervisorClass.Supervisor.CompleteResumeSpawn` | runner/src/supervisor.ts:1386-1409 | Takes the resume step: the object's tables and entries, edited in place, end as the model's step from the old state |
| `SupervisorClass.Supervisor.HandleSpawn` | runner/src/supervisor.ts:797-878 | Takes the spawn step: the object's tables and entries, edited in place, end as the model's step from the old state |
| `SupervisorClass.Supervisor.SpawnCheckDone` | runner/src/supervisor.ts:858-878 | Takes the late-answer step of a spawn: the object's tables and entries, edited in place, end as the model's step from the old state |
| `SupervisorClass.Supervisor.HandleStop` | runner/src/supervisor.ts:881-899 | Takes the stop step: the object's tables and entries, edited in place, end as the model's step from the old state |
| `SupervisorClass.Supervisor.HandleRestart` | runner/src/supervisor.ts:903-937 | Takes the restart step: the object's tables and entries, edited in place, end as the model's step from the old state |
| `SupervisorClass.Supervisor.HandleSwitchSession` | runner/src/supervisor.ts:947-1000 | Takes the switch step: the object's tables and entries, edited in place, end as the model's step from the old state |
| `SupervisorClass.Supervisor.CompleteSwitch` | runner/src/supervisor.ts:1002-1120 | Takes the switch completion step: the object's tables and entries, edited in place, end as the model's step from the old state |
| `SupervisorClass.Supervisor.SwitchCheckDone` | runner/src/supervisor.ts:981-1000 | Takes the late-answer step of a switch: the object's tables and entries, edited in place, end as the model's step from the old state |
| `SupervisorClass.Supervisor.HandleResetSession` | runner/src/supervisor.ts:1141-1277 | Takes the reset step: the object's tables and entries, edited in place, end as the model's step from the old state |
| `SupervisorClass.Supervisor.TerminateForReset` | runner/src/supervisor.ts:1617-1658 | Takes the signalling step: the object's tables and entries, edited in place, end as the model's step from the old state |
| `SupervisorClass.Supervisor.HandleTimer` | runner/src/supervisor.ts:1641-1657 | Takes the timer step: the object's tables and entries, edited in place, end as the model's step from the old state |
| `SupervisorClass.Supervisor.FailResetTermination` | runner/src/supervisor.ts:1672-1690 | Takes the give-up step: the object's tables and entries, edited in place, end as the model's step from the old state |
| `SupervisorClass.Supervisor.StopAll` | runner/src/supervisor.ts:1335-1347 | The shutdown loop marks every child whatever the order: the object's tables and entries, edited in place, end as the model's step from the old state |
| `SupervisorClass.Supervisor.HandleEnumerate` | runner/src/supervisor.ts:1282-1332 | Takes the enumeration step: the object's tables and entries, edited in place, end as the model's step from the old state |
| `SupervisorClass.Supervisor.EnumerationDone` | runner/src/supervisor.ts:1319-1331 | Takes the late-answer step of an enumeration: the object's tables and entries, edited in place, end as the model's step from the old state |
| `SupervisorClass.Supervisor.UpdateRuntimeConfig` | runner/src/supervisor.ts:777-792 | Takes the reload step: the object's tables and entries, edited in place, end as the model's step from the old state |
| `CrashBudget.AtMostTwoWindows` | runner/src/supervisor.ts:57-62 | An interval one window long meets at most two budget windows, so at most twice the cap of relaunches |
| `CrashBudget.TwiceTheCapIsReached` | runner/src/supervisor.ts:1730-1744 | That bound is reached: the cap does not cap an interval |
| `CrashBudget.CrashIsRecorded` | runner/src/supervisor.ts:1729-1745 | The record behind the bound counts exactly the relaunches made |
| `Permissions.ResolveAntigravityCeiling` | runner/src/permission_ceiling.ts:108-183 | The loop over the axes ends at the resolution of the model, conflicts in their order |
| `Permissions.ResolvedLaunchIsWithin` | runner/src/permission_ceiling.ts:108-183 | A launch with no conflict is within the ceiling it gets, effective network access included |
| `Permissions.ConflictAgainstIsExact` | runner/src/supervisor.ts:1560-1581 | The check of a snapshot finds no conflict exactly when the values are within the ceiling |
| `Permissions.PinnedApprovalIsRanked` | runner/src/permission_ceiling.ts:98-106 | A resolved ceiling never carries an approval outside the permissive order |
| `Permissions.EffectiveNetworkIsMonotone` | wrapper/antigravity/src/network_access.ts:3-15 | Effective network access is monotone in sandbox and configured access |
| `Permissions.OnFailureIsNotAbsent` | runner/src/permission_ceiling.ts:104-107 | The code and its comment disagree: an `on-failure` launch resolves like an absent one exactly when the explicit approval ceiling is not `untrusted` |
| `Permissions.ValidateResolvedSnapshot` | runner/src/resume_snapshot.ts:119-144 | The loop over the raw entries admits exactly what the model admits |
| `Permissions.SandboxIsSpelledOut` | runner/src/resume_snapshot.ts:87-109 | An admitted sandbox was spelled out in the raw snapshot, and is of the closed vocabulary |
| `Permissions.ApprovalIsSpelledOut` | runner/src/resume_snapshot.ts:87-109 | The same for the approval, never `on-failure` |
| `Permissions.NetworkIsSpelledOut` | runner/src/resume_snapshot.ts:87-109 | Network access comes only from a boolean in the raw snapshot |
| `Permissions.ApplySnapshotToCopy` | runner/src/resume_snapshot.ts:222-288 | The field loop over a copy ends at the model's application |
| `Permissions.SnapshotDecidesAlone` | runner/src/resume_snapshot.ts:222-288 | After applying a snapshot the engine's privilege axes and the model and effort pairs are functions of the snapshot alone |
| `Permissions.ApplyIsIdempotent` | runner/src/resume_snapshot.ts:222-288 | Applying a snapshot twice is applying it once |
| `Permissions.EmptySnapshotIsSafe` | runner/src/resume_snapshot.ts:227-264 | An empty snapshot gives the safe defaults whatever ran before |
| `Permissions.PairsAreHonest` | runner/src/resume_snapshot.ts:191-210 | A source is present exactly when its value is, and never labels a default as a choice |
| `Permissions.SnapshotValuesAreApplied` | runner/src/resume_snapshot.ts:222-288 | Engine by engine, each axis of the engine carries the snapshot's own value, or the named safe default when it has none, every other axis stays, and model and effort come with their source |
| `Permissions.SpelledIsAdmitted` | runner/src/resume_snapshot.ts:87-144 | A well-formed entry of the raw object is in the sanitized snapshot |
| `Permissions.WireDecidesTheAxes` | runner/src/resume_snapshot.ts:119-264 | From the raw object to the axes the agent runs with: each text of the closed vocabulary moves its axis, anything else leaves the safe default |
| `Permissions.WireDecidesThePairs` | runner/src/resume_snapshot.ts:119-210 | From the raw object to the model and the effort: the value spelled out with the source spelled out, config by default, and neither when the source is the engine's default |
| `Permissions.WithinSpelledOut` | runner/src/supervisor.ts:1560-1581 | Being within a ceiling, spelled out as the values each ceiling allows |
| `Permissions.CeilingSpelledOut` | runner/src/permission_ceiling.ts:108-183 | The ceiling a launch is pinned to and the axes in conflict, spelled out axis by axis |
| `Stamps.CapNewestByStamp` | wrapper/agent-common/src/ia_sidecar.ts:609-623 | The map, sort and slice of the program return the newest records by stamp, last writer winning |
| `Stamps.CapIs` | wrapper/agent-common/src/ia_sidecar.ts:594-623 | The cap is sorted, deduplicated, and its entries are exactly those with fewer than `max` newer stamps |
| `Stamps.CapAbsorbsCap` | wrapper/agent-common/src/ia_sidecar.ts:324-336 | Capping a prefix first loses nothing: cap(cap(a) + b) = cap(a + b) |
| `Stamps.LastWriterWins` | wrapper/agent-common/src/ia_sidecar.ts:594-623 | Of equal stamps the last one written is read |
| `Stamps.TopCongruence` | wrapper/agent-common/src/ia_sidecar.ts:502-543 | Logs that agree on their newest n still agree after both are extended by logs that agree on theirs |
| `SidecarFile.ScanSidecar` | wrapper/agent-common/src/ia_sidecar.ts:502-543 | The scanning loop returns records, canonical form, markers and counts of the file |
| `SidecarFile.OneBuildReadsTheWholeLog` | wrapper/agent-common/src/ia_sidecar.ts:240-250 | Over any interleaving of appends, terminated garbage lines, rewrites and merges by one build, a scan reads the newest 200 of everything ever appended |
| `SidecarFile.NewestRetainedAreExact` | wrapper/agent-common/src/ia_sidecar.ts:396-406 | With markers of any caps merged in any order, the newest r records of the file are the newest r of the history, r the retained cap its markers report |
| `SidecarFile.RetainedIsSmallestCap` | wrapper/agent-common/src/ia_sidecar.ts:324-336 | The markers report exactly the smallest cap anything was rewritten under |
| `SidecarFile.RetainedNeverGrows` | wrapper/agent-common/src/ia_sidecar.ts:502-543 | The retained cap never grows across appends, rewrites and merges |
| `SidecarFile.BeyondRetainedCanBeStale` | wrapper/agent-common/src/ia_sidecar.ts:396-406 | Beyond the retained cap a read can show a message the history had already replaced |
| `SidecarFile.RewriteIsFixpoint` | wrapper/agent-common/src/ia_sidecar.ts:324-361 | A rewrite is a fixpoint: same records, trusted marker, nothing left to rewrite, the same bytes again |
| `SidecarFile.AppendGrowsExcess` | wrapper/agent-common/src/ia_sidecar.ts:171-203 | An append grows the excess over the baseline by exactly its line |
| `SidecarRuns.RunRefines` | wrapper/agent-common/src/ia_sidecar.ts:141-322 | Every run of starts, appends, binds, reads and compactions refines the same calls on a log that never compacts: each file of the disk came about by recording exactly what the log holds under its path |
| `SidecarRuns.ReadsTheWholeLog` | wrapper/agent-common/src/ia_sidecar.ts:240-250 | Over every run of this build from an empty disk, failed writes, rewrites and moves included, a read returns the newest 200 of everything recorded under the current path |
| `SidecarRuns.ReadsWhatMarkersVouchFor` | wrapper/agent-common/src/ia_sidecar.ts:396-406 | Over every run on a disk other builds wrote to as well, the newest r records of a read are the newest r recorded, r the cap the file's markers report |
| `SidecarRuns.StaysWithinBudget` | wrapper/agent-common/src/ia_sidecar.ts:171-203 | While rewrites succeed, the current file of a generation is after every step less than the growth budget past a baseline it carries, whatever disk the generation started on |
| `SidecarFile.DigitsAreDecimal` | wrapper/agent-common/src/ia_sidecar.ts:324-336 | The length counted for a marker's numbers is that of their decimal form |
| `SidecarRuns.AppendRewritesOnlyWhenSpent` | wrapper/agent-common/src/ia_sidecar.ts:171-203 | An append adds its line and nothing else until the growth past the baseline spends the budget; then, and only then, the file is rewritten |
| `SidecarRuns.BindRewritesTheUnusable` | wrapper/agent-common/src/ia_sidecar.ts:209-312 | A session's file that is usable when the sidecar moves onto it stays as it is, any other is rewritten, and a merged one always is |
| `SidecarRuns.ReadTidiesUp` | wrapper/agent-common/src/ia_sidecar.ts:240-250 | A read rewrites exactly a file with something superseded, over the cap, garbage, foreign or an unbelievable baseline, leaves a file without any of them, and reads the same before and after |
| `IaSidecarModel.IaSidecar.constructor` | wrapper/agent-common/src/ia_sidecar.ts:141-163 | A generation starts on its pending journal, drops the journals of earlier ones and activates the path: the object's disk, path, session and counter end as the model's step from the old state |
| `IaSidecarModel.IaSidecar.Rewrite` | wrapper/agent-common/src/ia_sidecar.ts:324-374 | The file becomes its canonical form or stays, and the growth counter is zero: the object's disk, path, session and counter end as the model's step from the old state |
| `IaSidecarModel.IaSidecar.ActivatePath` | wrapper/agent-common/src/ia_sidecar.ts:284-312 | The file is rewritten exactly when it is untrusted or spent, and the growth is measured: the object's disk, path, session and counter end as the model's step from the old state |
| `IaSidecarModel.IaSidecar.CompactCurrent` | wrapper/agent-common/src/ia_sidecar.ts:314-322 | The current file is rewritten if it is there: the object's disk, path, session and counter end as the model's step from the old state |
| `IaSidecarModel.IaSidecar.Append` | wrapper/agent-common/src/ia_sidecar.ts:171-203 | The record's line is appended and the growth counted, then compacted once the budget is spent; a write that fails outright changes nothing: the object's disk, path, session and counter end as the model's step from the old state |
| `IaSidecarModel.IaSidecar.Bind` | wrapper/agent-common/src/ia_sidecar.ts:209-235 | The path moves to the session's file and is compacted after a merge and activated otherwise; an unresolved or malformed session changes nothing: the object's disk, path, session and counter end as the model's step from the old state |
| `IaSidecarModel.IaSidecar.Move` | wrapper/agent-common/src/ia_sidecar.ts:252-282 | The files after a rename, an append, an append whose source stays, or a failure, and whether it merged: the object's disk, path, session and counter end as the model's step from the old state |
| `IaSidecarModel.IaSidecar.Read` | wrapper/agent-common/src/ia_sidecar.ts:240-250 | The canonical records are returned and the file is rewritten exactly when it is not canonical: the object's disk, path, session and counter end as the model's step from the old state |
| `AckLedger.RunIsExact` | wrapper/agent-common/src/delivery_ack.ts:9-50 | Without overflow the watermark is the end of the contiguous run of completions above the highest accepted baseline |
| `AckLedger.OrderIndependent` | wrapper/agent-common/src/delivery_ack.ts:9-50 | The same calls in any order and repeated any number of times end at the same watermark |
| `AckLedger.NeverPastAGap` | wrapper/agent-common/src/delivery_ack.ts:42-50 | Overflow included, every number up to the watermark was completed or covered by a baseline |
| `AckLedger.ApplyKeepsWellFormed` | wrapper/agent-common/src/delivery_ack.ts:16-50 | The number after the watermark never waits, and at most 1000 numbers do |
| `AckLedger.OvertakenEntriesKeepTheirSlots` | wrapper/agent-common/src/delivery_ack.ts:16-40 | Numbers a baseline overtakes keep their slots, so a full set makes the order of two completions matter |
| `AckLedger.DeliveryAcknowledger.Bind` | wrapper/agent-common/src/delivery_ack.ts:16-20 | The ledger in place takes the model's step |
| `AckLedger.DeliveryAcknowledger.Complete` | wrapper/agent-common/src/delivery_ack.ts:22-40 | The ledger in place takes the model's step |
| `AckRuns.NothingIsBorrowed` | wrapper/agent-common/src/delivery_ack.ts:93-138 | In every run each number up to a value sent under the current join is at most a watermark reported since that join opened, or was skipped by such a report, or is that of an envelope acknowledged since and captured first under that join's identity; all of it read off the events |
| `AckRuns.EverySendIsJustified` | wrapper/agent-common/src/delivery_ack.ts:93-216 | The same of every value ever sent, under its own join, at a point of the run at which that join was current |
| `AckRuns.NothingIsLost` | wrapper/agent-common/src/delivery_ack.ts:93-216 | In every run the watermark is the highest of what was sent under the current join, what the server reported since it opened, and what is deferred |
| `AckRuns.StateAgrees` | wrapper/agent-common/src/delivery_ack.ts:93-124 | The join the object believes in and the identities it captured are those the events determine: the report that opened the join, and the first capture of each envelope |
| `AckComplete.EveryFinishIsAcknowledged` | wrapper/agent-common/src/delivery_ack.ts:93-176 | While the waiting set does not overflow the watermark is exactly the end of the contiguous run, above the highest watermark reported under the join, of numbers skipped since it opened or finished under its identity while that was live or absent; all of it read off the events |
| `AckComplete.LedgerIsRun` | wrapper/agent-common/src/delivery_ack.ts:93-152 | The ledger of the current join is the one fed by exactly the events of that join |
| `AckComplete.AdvanceIsTold` | wrapper/agent-common/src/delivery_ack.ts:127-152 | An advance by a finished delivery is sent under the join at once, or kept while the join's identity is away; without an advance nothing is sent |
| `AckComplete.ReportIsAnswered` | wrapper/agent-common/src/delivery_ack.ts:108-116 | A report that carries the watermark past what it reports sends the new one; one that brings only the server's own, or none, sends nothing |
| `AckComplete.DeferredIsReplayed` | wrapper/agent-common/src/delivery_ack.ts:193-216 | What a disconnect kept is sent under the join once the tasks queued by the next report have run with its identity live, unless that report covers it |
| `AckComplete.SendsOnlyWhileLive` | wrapper/agent-common/src/delivery_ack.ts:127-216 | Whatever is sent is sent while the identity of its join is live; a replay sends only the watermark kept, past what the report behind it covered |
| `AckComplete.ReplaysAreNotDoubled` | wrapper/agent-common/src/delivery_ack.ts:193-204 | While a replay waits a further report of the same join queues no other |
| `DeliveryAck.DeliveryAcknowledgement.Observe` | wrapper/agent-common/src/delivery_ack.ts:93-117 | A report opens a new join exactly when the identity says so, then adopts watermark and skipped ranges and settles a deferred watermark: ledger, sends and deferral end as the model's step from the old state |
| `DeliveryAck.DeliveryAcknowledgement.SkipRanges` | wrapper/agent-common/src/delivery_ack.ts:111-115 | The two loops over the skipped ranges complete every number of each, in order, and send each advance: ledger, sends and deferral end as the model's step from the old state |
| `DeliveryAck.DeliveryAcknowledgement.CaptureEnvelope` | wrapper/agent-common/src/delivery_ack.ts:121-124 | An envelope keeps the identity of its first capture: ledger, sends and deferral end as the model's step from the old state |
| `DeliveryAck.DeliveryAcknowledgement.AcknowledgeEnvelope` | wrapper/agent-common/src/delivery_ack.ts:127-138 | A completion counts only under its own join, and a disconnected one is deferred: ledger, sends and deferral end as the model's step from the old state |
| `DeliveryAck.DeliveryAcknowledgement.AcknowledgeTurnStart` | wrapper/agent-common/src/delivery_ack.ts:141-152 | A turn completes its envelopes one by one; bare numbers only where no identities are in use: ledger, sends and deferral end as the model's step from the old state |
| `DeliveryAck.DeliveryAcknowledgement.IdentityAllows` | wrapper/agent-common/src/delivery_ack.ts:154-176 | Whether an envelope counts, and whether its watermark waits: ledger, sends and deferral end as the model's step from the old state |
| `DeliveryAck.DeliveryAcknowledgement.ReconcilePendingAck` | wrapper/agent-common/src/delivery_ack.ts:193-204 | A deferred watermark is dropped once covered and otherwise queued for replay: ledger, sends and deferral end as the model's step from the old state |
| `DeliveryAck.DeliveryAcknowledgement.ReplayDeferred` | wrapper/agent-common/src/delivery_ack.ts:205-216 | The queued task sends exactly the deferred watermark, and only under the join it was queued in: ledger, sends and deferral end as the model's step from the old state |
| `StageSafety.ReportsAreOrderly` | wrapper/agent-common/src/delivery_stages.ts:327-350 | In every run each tracked delivery has at most one `submitted` report and nothing after a terminal one, and every report carries the identity and sequence of first receipt |
| `StageSafety.WireOrderBreaksOnlyOnReceiptAgain` | wrapper/agent-common/src/delivery_stages.ts:270-296 | Per (identity, sequence) on the wire: a second `submitted`, or anything after a terminal report, is about two trackings of the message: the earlier report about the earlier tracking, which had ended |
| `StageSafety.TrackedAgainAfterItsEnd` | wrapper/agent-common/src/delivery_stages.ts:270-296 | A message is tracked again only after its earlier tracking ended |
| `StageSafety.ReceiptAgainReportsAgain` | wrapper/agent-common/src/delivery_stages.ts:78-86 | There the order does break: a message received again after its terminal report is reported as queued once more, unless the cap is reached |
| `StageSafety.TurnEndTellsTheTruth` | wrapper/agent-common/src/delivery_stages.ts:198-231 | A turn closes a delivery with `turn_end` exactly when the server was told of its handoff |
| `StageSafety.TurnClosesItsDeliveries` | wrapper/agent-common/src/delivery_stages.ts:198-231 | The end of a turn closes exactly the listed deliveries that were not steered, once each, in order |
| `StageSafety.IndexesAgree` | wrapper/agent-common/src/delivery_stages.ts:256-325 | Tracked means not retired, under the identity last seen; a turn lists only tracked deliveries that are its own; at most 512 are tracked |
| `StageSafety.StepKeeps` | wrapper/agent-common/src/delivery_stages.ts:78-254 | Every call keeps the agreement of indexes, flags and reports |
| `StageSafety.EndKeeps` | wrapper/agent-common/src/delivery_stages.ts:141-151 | A terminal report and its retirement together keep the invariant |
| `StageSafety.SubmitOneKeeps` | wrapper/agent-common/src/delivery_stages.ts:241-254 | A submission reports once per delivery |
| `StageLife.EveryDeliveryLives` | wrapper/agent-common/src/delivery_stages.ts:78-254 | Every event moves each tracked delivery as a machine that knows one delivery only: when it joins a turn, is handed over, disabled, closed or ended, and exactly which reports the server hears of it |
| `StageLife.OverIsOver` | wrapper/agent-common/src/delivery_stages.ts:316-350 | Once over a delivery stays over, and nothing more is heard of it |
| `StageLife.NewJoinEndsAll` | wrapper/agent-common/src/delivery_stages.ts:256-268 | A new join identity ends every delivery in silence |
| `StageLife.FirstReceiptLives` | wrapper/agent-common/src/delivery_stages.ts:78-112 | A message received for the first time is tracked with its identity, number and mode and reported as queued; at the limit it is neither |
| `StageLife.OneTurnTellsThree` | wrapper/agent-common/src/delivery_stages.ts:78-231 | A message received, handed over with a turn and closed with it is reported as queued, submitted and settled and nothing else |
| `DeliveryStages.DeliveryStageReporter.ObserveIdentity` | wrapper/agent-common/src/delivery_stages.ts:256-268 | A new identity retires every delivery of the old one, as the model's step on the object's own fields |
| `DeliveryStages.DeliveryStageReporter.CaptureEnvelope` | wrapper/agent-common/src/delivery_stages.ts:103-112 | First receipt decides the identity, as the model's step on the object's own fields |
| `DeliveryStages.DeliveryStageReporter.TrackDelivery` | wrapper/agent-common/src/delivery_stages.ts:270-296 | Tracking finds, refuses or adds, as the model's step on the object's own fields |
| `DeliveryStages.DeliveryStageReporter.RecordTurnEnvelope` | wrapper/agent-common/src/delivery_stages.ts:298-314 | The first turn keeps a delivery, as the model's step on the object's own fields |
| `DeliveryStages.DeliveryStageReporter.RemoveDelivery` | wrapper/agent-common/src/delivery_stages.ts:316-325 | Removal sweeps both indexes, as the model's step on the object's own fields |
| `DeliveryStages.DeliveryStageReporter.SendReport` | wrapper/agent-common/src/delivery_stages.ts:327-350 | A report goes out only for a tracked delivery with an identity, as the model's step on the object's own fields |
| `DeliveryStages.DeliveryStageReporter.Queued` | wrapper/agent-common/src/delivery_stages.ts:78-86 | The receipt operation, as the model's step on the object's own fields |
| `DeliveryStages.DeliveryStageReporter.LocalPolicyDisabled` | wrapper/agent-common/src/delivery_stages.ts:88-101 | The downgrade operation, as the model's step on the object's own fields |
| `DeliveryStages.DeliveryStageReporter.SubmittedTurn` | wrapper/agent-common/src/delivery_stages.ts:114-126 | The handoff of a turn, as the model's step on the object's own fields |
| `DeliveryStages.DeliveryStageReporter.SteerSubmitted` | wrapper/agent-common/src/delivery_stages.ts:128-139 | The handoff of a steer, as the model's step on the object's own fields |
| `DeliveryStages.DeliveryStageReporter.EndEnvelopes` | wrapper/agent-common/src/delivery_stages.ts:141-240 | The endings by envelope, as the model's step on the object's own fields |
| `DeliveryStages.DeliveryStageReporter.NoteEnvelopes` | wrapper/agent-common/src/delivery_stages.ts:164-189 | Notes that end nothing, as the model's step on the object's own fields |
| `DeliveryStages.DeliveryStageReporter.RetireEnvelopes` | wrapper/agent-common/src/delivery_stages.ts:191-196 | Silent retirement, as the model's step on the object's own fields |
| `DeliveryStages.DeliveryStageReporter.TurnClosed` | wrapper/agent-common/src/delivery_stages.ts:198-231 | The end of a turn, as the model's step on the object's own fields |
| `StatusDisplay.NothingIsSkipped` | dashboard/src/lib/statusDisplay.svelte.ts:57-101 | With ordinary states and timers, what was on screen followed by what waits is the pushes without consecutive repeats |
| `StatusDisplay.EndsAtTheLiveState` | dashboard/src/lib/statusDisplay.svelte.ts:57-170 | Over every run the last of screen and queue is the latest effective input, no two neighbours are equal, and an idle display is up to date |
| `StatusDisplay.DrainsToTheLatest` | dashboard/src/lib/statusDisplay.svelte.ts:153-157 | Left alone, the display shows what waits one by one and ends at the latest |
| `StatusDisplay.EveryStateIsReadable` | dashboard/src/lib/statusDisplay.svelte.ts:147-157 | Each state stays for its minimum time, save a terminal one interrupted by new activity, never by its natural follow-up |
| `StatusDisplay.TerminalJumpsTheQueue` | dashboard/src/lib/statusDisplay.svelte.ts:66-83 | A terminal state that arrives while another is on screen drops what waits and is shown next; any other waits its turn |
| `StatusDisplay.ActivityInterrupts` | dashboard/src/lib/statusDisplay.svelte.ts:84-101 | While a terminal state is on screen anything but its follow-up replaces it at once |
| `StatusDisplay.HoldPinsTheScreen` | dashboard/src/lib/statusDisplay.svelte.ts:108-129 | A hold shows its state at once, no push changes the screen while it lasts, and its end shows the last state pushed if that is another |
| `StatusDisplay.ResetShowsAtOnce` | dashboard/src/lib/statusDisplay.svelte.ts:136-145 | A reset shows its state at once, without queue, hold or timer |
| `StatusDisplay.DisposalIsFinal` | dashboard/src/lib/statusDisplay.svelte.ts:162-170 | After disposal nothing changes the screen |
| `StatusDisplay.StatusQueue.PushState` | dashboard/src/lib/statusDisplay.svelte.ts:57-101 | Takes the model's step on the object's own fields, every change of the screen recorded |
| `StatusDisplay.StatusQueue.HoldState` | dashboard/src/lib/statusDisplay.svelte.ts:108-118 | Takes the model's step on the object's own fields, every change of the screen recorded |
| `StatusDisplay.StatusQueue.UnholdState` | dashboard/src/lib/statusDisplay.svelte.ts:122-129 | Takes the model's step on the object's own fields, every change of the screen recorded |
| `StatusDisplay.StatusQueue.ResetState` | dashboard/src/lib/statusDisplay.svelte.ts:136-145 | Takes the model's step on the object's own fields, every change of the screen recorded |
| `StatusDisplay.StatusQueue.ReleaseWindow` | dashboard/src/lib/statusDisplay.svelte.ts:153-157 | Takes the model's step on the object's own fields, every change of the screen recorded |
| `StatusDisplay.StatusQueue.DisposeQueue` | dashboard/src/lib/statusDisplay.svelte.ts:162-170 | Takes the model's step on the object's own fields, every change of the screen recorded |
| `PermissionBroking.RequestsSettleOnce` | wrapper/agent-common/src/permission.ts:120-212 | With ids unused while they wait: both maps hold the same requests, each settles exactly once or still waits, and the slot shows the newest unsettled |
| `PermissionBroking.CloseLeavesNone` | wrapper/agent-common/src/permission.ts:215-221 | A shutdown settles everything and whatever comes late finds nothing |
| `PermissionBroking.OnlyTheOperatorAllows` | wrapper/agent-common/src/permission.ts:120-221 | Only an operator's answer allows; deadline, abort and shutdown refuse |
| `PermissionBroking.ReusedIdLosesARequest` | wrapper/agent-common/src/pending.ts:27-48 | An id used again while a request without a deadline waits under it: in every run from there the earlier request is never settled, even by a shutdown |
| `PermissionBroking.ReusedIdTakesThePlace` | wrapper/agent-common/src/pending.ts:27-48 | The later request takes exactly the earlier one's place in both maps, and no other request notices |
| `PermissionBroking.StepKeeps` | wrapper/agent-common/src/permission.ts:120-221 | Every event keeps maps, timers, listeners, slot and settlements in step |
| `PermissionVerdicts.VerdictIsDelivered` | wrapper/agent-common/src/permission.ts:120-221 | Over every run each request gets exactly the verdict the events give it: the operator's own word, its deadline, its signal or a shutdown, whichever reached it first; and while none did it waits |
| `PermissionVerdicts.AnswerIsDelivered` | wrapper/agent-common/src/permission.ts:205-212 | The operator's answer settles the request waiting under its id with that answer and nothing else |
| `PermissionVerdicts.DeadlineRefuses` | wrapper/agent-common/src/pending.ts:41-44 | A deadline refuses its own request while it waits |
| `PermissionVerdicts.AbortRefuses` | wrapper/agent-common/src/permission.ts:170-176 | An abort refuses the request whose signal it is |
| `PermissionVerdicts.CloseRefusesAll` | wrapper/agent-common/src/permission.ts:215-221 | A shutdown refuses every waiting request, the oldest first |
| `PermissionBroking.PendingRegistry.Add` | wrapper/agent-common/src/pending.ts:27-48 | The registry's map and timers after the call |
| `PermissionBroking.PendingRegistry.Take` | wrapper/agent-common/src/pending.ts:52-58 | The registry's map and timers after the call |
| `PermissionBroking.PendingRegistry.Expire` | wrapper/agent-common/src/pending.ts:41-44 | The registry's map and timers after the call |
| `PermissionBroking.PermissionBroker.DecidePermission` | wrapper/agent-common/src/permission.ts:120-193 | Takes the model's step over both objects |
| `PermissionBroking.PermissionBroker.SettleRequest` | wrapper/agent-common/src/permission.ts:179-185 | Takes the model's step over both objects |
| `PermissionBroking.PermissionBroker.ResolveRequest` | wrapper/agent-common/src/permission.ts:205-212 | Takes the model's step over both objects |
| `PermissionBroking.PermissionBroker.DeadlinePassed` | wrapper/agent-common/src/permission.ts:186-190 | Takes the model's step over both objects |
| `PermissionBroking.PermissionBroker.SignalAborted` | wrapper/agent-common/src/permission.ts:170-176 | Takes the model's step over both objects |
| `PermissionBroking.PermissionBroker.Close` | wrapper/agent-common/src/permission.ts:215-221 | Takes the model's step over both objects |
| `CatalogRefresh.OneProbeOneAnswer` | runner/src/claude_catalog_cache.ts:76-139 | At most one probe is in flight, and each valid request is answered exactly once |
| `CatalogRefresh.PushesAreProbes` | runner/src/engine_catalog_refresh.ts:120-139 | Register pushes are the successful probes in order exactly when every successful probe's register was built, and then the register carries what the cache holds; otherwise there are fewer |
| `CatalogRefresh.StuckOnlyByAThrow` | runner/src/claude_catalog_cache.ts:116-138 | The in-flight promise stays in place forever exactly when some probe threw before returning a promise |
| `CatalogRefresh.AThrowEndsRefreshing` | runner/src/claude_catalog_cache.ts:103-110 | From then on no probe ever starts and every request without a fresh entry fails |
| `CatalogRefresh.RequestOutcome` | runner/src/engine_catalog_refresh.ts:89-118 | A request is answered at once for another engine, from a fresh entry with its size, or from a stuck flight; otherwise it waits for the probe in flight or one it starts |
| `CatalogRefresh.WaitersHearTheProbe` | runner/src/engine_catalog_refresh.ts:118-154 | Whoever waits hears the size of the catalog the probe brought or why it failed, and a good catalog is what the cache then holds |
| `CatalogRefresh.ClaudeCatalogCache.GetIfFresh` | runner/src/claude_catalog_cache.ts:52-57 | The entry exactly while it is fresh |
| `CatalogRefresh.ClaudeCatalogCache.Settle` | runner/src/claude_catalog_cache.ts:117-135 | Success replaces the entry, failure leaves it, and the flight is over |
| `CatalogRefresh.RefreshHandler.HandleRequest` | runner/src/engine_catalog_refresh.ts:89-118 | Takes the model's step for a request |
| `CatalogRefresh.RefreshHandler.HandleProbe` | runner/src/engine_catalog_refresh.ts:118-154 | Takes the model's step for a settled probe, every waiter answered |
| `AgyTimestamp.ParseAgyTimestamp` | runner/src/sessions.ts:268-324 | Accepts exactly the texts of the layout that name a real date, time and offset, and returns the model's reading of the civil calendar |
| `AgyTimestamp.RealDatesComeBack` | runner/src/sessions.ts:309-318 | Setting and reading back a UTC date returns what was put in exactly for dates of the calendar |
| `AgyTimestamp.ReadIsNearest` | runner/src/sessions.ts:320-323 | The reading is within 500000 ns of the exact instant |
| `AgyTimestamp.OffsetShiftsTheInstant` | runner/src/sessions.ts:268-324 | A text and the same one at offset zero are apart by exactly the hours and minutes it spells, east earlier and west later |
| `AgyTimestamp.FieldsSpelledOut` | runner/src/sessions.ts:268-300 | Every field is the decimal number its own digits spell |
| `AgyTimestamp.TextOrderIsTimeOrder` | runner/src/sessions.ts:358-362 | For one offset, string order of accepted texts is the order of their instants |
| `AgyTimestamp.DayFromYearCounts` | runner/src/sessions.ts:309-311 | The closed day formula of section 21.4.1.8 of ECMA-262 counts the years of the calendar one by one |

## Left out

- Real processes, signals, sockets, files, SQLite and timers are events: a launch succeeds or throws, a rewrite succeeds or fails, `kill` answers a boolean, an availability check answers a boolean.
- JSON text, regular expressions other than the timestamp's and byte encodings: a sidecar line is a record, a marker or garbage with a length; the round trip of a record through its line is assumed.
- The fields of a wrapper configuration the supervisor only passes on, `initialPrompt`, persona and display names, and the detail text of conflicts.
- The overflow callback of the delivery reporter: the flag that keeps it from repeating is modelled, the call is not.
- `handoff`, `evidence`, `at` and yield dispositions of a stage report: constants passed through.
- Tool input and its size limit in a permission request, and the envelopes the broker sends: only the request's number, id and slot matter here.
- The microtask that handles a process already gone when a reset signals it runs, in the model, at the end of the same step. A message handled in the same turn before it, such as a stop, is assumed away.
- Source-change checks around a sidecar rewrite and the clean-up of temporary files: part of whether a rewrite succeeds. A rename that finds its target created in between is not modelled.
- TrackedDelivery objects are numbered records of the reporter rather than objects of their own, so sharing of one object between the indexes is sharing of its number.
- SidecarFile.OneBuildReadsTheWholeLog: every line of a story ends in its newline. An unterminated tail, left by a partial write, is not in it: the next record appended is glued to that tail and both are read as one malformed line, so a partial write costs two messages.
- SidecarRuns.ReadsTheWholeLog: a write of its runs happens whole or not at all, for the same reason; a merge onto an unterminated tail, which would swallow the first line of the source, is left out with it.
- SupervisorTheorems.RelaunchesAreBounded: speaks of one stay of an agent; a new spawn starts a new record.
- StatusDisplay.EndsAtTheLiveState: does not say that a state behind a terminal one is shown promptly, because it waits out the terminal hold.
- StageSafety.ReportsAreOrderly: does not say that `queued` never follows `submitted`, because `queued` has no such guard.
- StageLife.FirstReceiptLives: is about a message received through `queued`; that a message another call sees first is tracked the same way is said by the step function only.
- Claims about two processes reading one session across a switch: the program does not keep them.
- Markdown rendering, config parsing, register building, transport, benches and the user interface; small pure helpers whose properties are true but easy.
- The ISO text `parseAgyTimestamp` returns: the model returns its instant in milliseconds.
