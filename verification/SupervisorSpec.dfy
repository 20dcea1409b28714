/** The runner's process supervisor as a step function over values: what every command and
  * every event of the outside world does to the five tables and to each child's entry. */
module SupervisorSpec {
  import opened Wrappers
  import opened Permissions
  import opened CrashBudget
  import opened Desks

  // ---- Data -----------------------------------------------------------------

  /** The fields of a spawn message the supervisor acts on. */
  datatype Parsed = Parsed(
    cwd: string, engine: Engine, resume: Option<string>, settings: Settings,
    snapshot: Option<Snapshot>, requestId: Option<string>, restore: bool)

  datatype Mode = NewSession | ClearSession

  /** A reset in flight. `ticket` numbers the command it answers. */
  datatype PendingReset = PendingReset(
    ticket: nat, requestId: string, mode: Mode,
    previousSessionId: Option<string>, oldResume: Option<string>, previousParsed: Parsed)

  datatype Cycle = RestartCycle | SwitchCycle

  /** One supervised agent. `windows` is the history of its crash budget. */
  datatype Entry = Entry(
    child: nat, parsed: Parsed, restarts: nat, windowStart: int, windows: seq<Window>,
    stopping: bool, restarting: bool, cycle: Option<Cycle>, candidate: bool,
    locked: Option<string>, pendingReset: Option<PendingReset>,
    timer: bool, escalated: bool, ceiling: Option<Ceiling>)

  datatype SnapshotArg = NoSnapshot | MalformedSnapshot | Given(snapshot: Snapshot)

  datatype SwitchPayload = SwitchPayload(resume: Option<string>, requestId: Option<string>, snapshot: SnapshotArg)

  datatype ResetPayload = ResetPayload(
    requestId: Option<string>, mode: Option<Mode>, previousSessionId: Option<string>, snapshot: SnapshotArg)

  datatype PendingSpawn = PendingSpawn(ticket: nat, parsed: Parsed)
  datatype PendingSwitch = PendingSwitch(ticket: nat, payload: SwitchPayload)

  datatype Reason = OtherError | CwdNotFound | AlreadyRunning | SessionNotFound | CeilingConflict

  /** A spawn result; no reason means ok. */
  datatype SpawnReply = SpawnReply(agent: string, reason: Option<Reason>, requestId: Option<string>)

  datatype ResetOutcome = FreshSession | SpawnFailed | RollbackFailed | TimedOut | ResetCeilingConflict
  datatype ResetReply = ResetReply(agent: string, requestId: string, mode: Mode, outcome: ResetOutcome)

  datatype SpawnAsk = SpawnAsk(agent: string, requestId: Option<string>)
  datatype ResetAsk = ResetAsk(agent: string, requestId: string, mode: Mode)

  /** What a process was started with. */
  datatype Launch = Launch(agent: string, child: nat, resume: Option<string>, axes: Axes, ceiling: Option<Ceiling>)

  datatype Config = Config(allowlist: set<string>, max: MaxConfig)

  /** The outside: running processes, everything sent, and the ticket and process counters.
    * `results` is every spawn result put on the wire, whatever caused it; `spawns` files those
    * that answer a spawn command under the command's ticket. */
  datatype World = World(
    tickets: nat, nextChild: nat, live: map<nat, string>, launches: seq<Launch>,
    spawns: Desk<SpawnAsk, SpawnReply>, resets: Desk<ResetAsk, ResetReply>, results: seq<SpawnReply>,
    scanning: set<nat>, published: seq<nat>, clock: int)

  datatype State = State(
    children: map<string, Entry>, active: set<string>,
    pendingSpawns: map<string, PendingSpawn>, pendingSwitches: map<string, PendingSwitch>,
    generation: nat, config: Config, world: World)

  /** How one launch attempt ends: refused by the availability check, throwing, or running. */
  datatype Attempt = NotLaunchable | Throws | Launches

  /** What the exiting child's recovery checkpoint says; `Refused` covers an unreadable or
    * blocked checkpoint and the dedicated exit code. */
  datatype Recovery = Absent | Refused | Initial | Unbound(candidate: Option<string>) | Live(session: string)

  /** The environment's answers to whatever one step may ask. */
  datatype Env = Env(
    launchable: bool, killed: bool, first: Attempt, second: Attempt,
    recovery: Recovery, preflightRefused: bool, now: int)

  // ---- Small updates --------------------------------------------------------

  function Put(s: State, a: string, e: Entry): State { s.(children := s.children[a := e]) }

  function Release(active: set<string>, lock: Option<string>): set<string> {
    if lock.Some? then active - {lock.value} else active
  }

  function Claim(active: set<string>, lock: Option<string>): set<string> {
    if lock.Some? then active + {lock.value} else active
  }

  function SpawnAnswer(s: State, ticket: nat, r: SpawnReply): State {
    s.(world := s.world.(spawns := Reply(s.world.spawns, ticket, r), results := s.world.results + [r]))
  }

  /** A failed result for a command that is not a spawn. */
  function Notice(s: State, a: string, reason: Reason, requestId: Option<string>): State {
    s.(world := s.world.(results := s.world.results + [SpawnReply(a, Some(reason), requestId)]))
  }

  function ResetAnswer(s: State, a: string, p: PendingReset, outcome: ResetOutcome): State {
    s.(world := s.world.(resets := Reply(s.world.resets, p.ticket, ResetReply(a, p.requestId, p.mode, outcome))))
  }

  function DropReset(s: State, e: Entry): State {
    if e.pendingReset.None? then s
    else s.(world := s.world.(resets := Drop(s.world.resets, {e.pendingReset.value.ticket})))
  }

  /** A new process for `a`; its id is the counter before the step. */
  function Started(s: State, a: string, resume: Option<string>, axes: Axes, ceiling: Option<Ceiling>): State {
    var c := s.world.nextChild;
    s.(world := s.world.(nextChild := c + 1, live := s.world.live[c := a],
                         launches := s.world.launches + [Launch(a, c, resume, axes, ceiling)]))
  }

  function Remove(s: State, a: string): State
    requires a in s.children
  {
    s.(children := s.children - {a}, pendingSwitches := s.pendingSwitches - {a},
       active := Release(s.active, s.children[a].locked))
  }

  function FreshBudget(e: Entry, now: int): Entry {
    e.(restarts := 0, windowStart := now, windows := Opened(now))
  }

  function WithSnapshot(p: Parsed, snapshot: Option<Snapshot>): Parsed {
    p.(settings := ApplyResumeSnapshot(p.settings, snapshot, p.engine))
  }

  // ---- Spawning -------------------------------------------------------------

  function CeilingFor(p: Parsed, max: MaxConfig): Option<Ceiling> {
    if p.engine == Antigravity then Some(Resolve(p.settings.axes, max).ceiling) else None
  }

  function NewEntry(child: nat, p: Parsed, ceiling: Option<Ceiling>, now: int): Entry {
    Entry(child, p, 0, now, Opened(now), false, false, None, false, p.resume, None, false, false, ceiling)
  }

  function LaunchSpawn(s: State, a: string, p: Parsed, ticket: nat, env: Env): State {
    if p.engine == Antigravity && Resolve(p.settings.axes, s.config.max).conflicts != [] then
      SpawnAnswer(s.(active := Release(s.active, p.resume)), ticket, SpawnReply(a, Some(CeilingConflict), p.requestId))
    else if env.first != Launches then
      SpawnAnswer(s.(active := Release(s.active, p.resume), children := s.children - {a}), ticket,
                  SpawnReply(a, Some(OtherError), p.requestId))
    else
      var ceiling := CeilingFor(p, s.config.max);
      var started := Started(s, a, p.resume, p.settings.axes, ceiling);
      SpawnAnswer(Put(started, a, NewEntry(s.world.nextChild, p, ceiling, env.now)), ticket,
                  SpawnReply(a, None, p.requestId))
  }

  function CompleteResumeSpawn(s: State, a: string, p: Parsed, ticket: nat, found: bool, env: Env): State
    requires p.resume.Some?
  {
    if !found then SpawnAnswer(s, ticket, SpawnReply(a, Some(SessionNotFound), p.requestId))
    else if p.resume.value in s.active then SpawnAnswer(s, ticket, SpawnReply(a, Some(AlreadyRunning), p.requestId))
    else LaunchSpawn(s.(active := Claim(s.active, p.resume)), a, p, ticket, env)
  }

  /** Whether an existence check answers at once or later. */
  datatype Check = AtOnce(found: bool) | Later

  datatype CheckOutcome = Found(found: bool) | ScanFailed

  /** The command as it arrives: ticketed, not yet answered. */
  function AskedSpawn(s: State, a: string, requestId: Option<string>): State {
    var t := s.world.tickets;
    s.(world := s.world.(tickets := t + 1, spawns := Ask(s.world.spawns, t, SpawnAsk(a, requestId))))
  }

  /** `parsed` is None for a payload the parser rejects. */
  function HandleSpawn(s: State, agent: Option<string>, requestId: Option<string>, parsed: Option<Parsed>,
                       check: Check, env: Env): State
  {
    if agent.None? then s
    else
      var a, t := agent.value, s.world.tickets;
      if parsed.None? then SpawnAnswer(AskedSpawn(s, a, requestId), t, SpawnReply(a, Some(OtherError), requestId))
      else AcceptedSpawn(s, a, parsed.value.(requestId := requestId), check, env)
  }

  /** A spawn command whose payload is well formed. */
  function AcceptedSpawn(s: State, a: string, p: Parsed, check: Check, env: Env): State {
    var t := s.world.tickets;
    var asked := AskedSpawn(s, a, p.requestId);
    if p.cwd !in s.config.allowlist then SpawnAnswer(asked, t, SpawnReply(a, Some(CwdNotFound), p.requestId))
    else if a in s.children || a in s.pendingSpawns then
      SpawnAnswer(asked, t, SpawnReply(a, Some(AlreadyRunning), p.requestId))
    else if p.resume.None? then
      LaunchSpawn(asked, a, if p.restore then WithSnapshot(p, p.snapshot) else p, t, env)
    else
      var resumed := WithSnapshot(p, p.snapshot);
      if check.AtOnce? then CompleteResumeSpawn(asked, a, resumed, t, check.found, env)
      else asked.(pendingSpawns := s.pendingSpawns[a := PendingSpawn(t, resumed)])
  }

  /** An existence check for a spawn answers; one that was superseded or cancelled is a no-op. */
  function SpawnChecked(s: State, a: string, ticket: nat, outcome: CheckOutcome, env: Env): State {
    if a !in s.pendingSpawns || s.pendingSpawns[a].ticket != ticket || s.pendingSpawns[a].parsed.resume.None? then s
    else
      var p := s.pendingSpawns[a].parsed;
      var taken := s.(pendingSpawns := s.pendingSpawns - {a});
      if outcome.Found? then CompleteResumeSpawn(taken, a, p, ticket, outcome.found, env)
      else SpawnAnswer(taken, ticket, SpawnReply(a, Some(OtherError), p.requestId))
  }

  function HandleStop(s: State, a: string): State {
    if a in s.pendingSpawns then
      SpawnAnswer(s.(pendingSpawns := s.pendingSpawns - {a}), s.pendingSpawns[a].ticket,
                  SpawnReply(a, Some(OtherError), None))
    else if a !in s.children then s
    else Put(s.(pendingSwitches := s.pendingSwitches - {a}), a, s.children[a].(stopping := true))
  }

  function HandleRestart(s: State, a: string, requestId: Option<string>, env: Env): State {
    if a !in s.children then s
    else if env.preflightRefused || !env.launchable then Notice(s, a, OtherError, requestId)
    else
      var e := s.children[a];
      var p := if requestId.Some? then e.parsed.(requestId := requestId) else e.parsed;
      Put(s.(pendingSwitches := s.pendingSwitches - {a}), a,
          FreshBudget(e.(parsed := p, cycle := Some(RestartCycle), restarting := true), env.now))
  }

  // ---- Switching sessions ---------------------------------------------------

  /** The snapshot in force after a switch: the payload's, else the one already carried. */
  function NextSnapshot(p: Parsed, arg: SnapshotArg): Option<Snapshot> {
    match arg
    case NoSnapshot => p.snapshot
    case MalformedSnapshot => Some(EmptySnapshot)
    case Given(x) => Some(x)
  }

  function SwitchedParsed(p: Parsed, payload: SwitchPayload, resume: string): Parsed {
    var next := NextSnapshot(p, payload.snapshot);
    WithSnapshot(p, next).(resume := Some(resume), snapshot := next, requestId := payload.requestId)
  }

  predicate ExceedsCeiling(e: Entry, p: Parsed) {
    e.ceiling.Some? && ConflictAgainst(p.settings.axes, e.ceiling.value) != []
  }

  function CompleteSwitch(s: State, a: string, payload: SwitchPayload, found: bool, env: Env): State
    requires payload.resume.Some?
  {
    if a !in s.children || s.children[a].stopping then s
    else
      var e, resume := s.children[a], payload.resume.value;
      var next := SwitchedParsed(e.parsed, payload, resume);
      if !found then Notice(s, a, SessionNotFound, payload.requestId)
      else if !env.launchable || payload.snapshot.MalformedSnapshot? then Notice(s, a, OtherError, payload.requestId)
      else if ExceedsCeiling(e, next) then Notice(s, a, CeilingConflict, payload.requestId)
      else if Some(resume) != e.locked && resume in s.active then Notice(s, a, AlreadyRunning, payload.requestId)
      else
        Put(s.(active := Claim(Release(s.active, e.locked), Some(resume))), a,
            FreshBudget(e.(locked := Some(resume), cycle := Some(SwitchCycle), candidate := false,
                           parsed := next, restarting := true), env.now))
  }

  function HandleSwitch(s: State, a: string, payload: SwitchPayload, check: Check, env: Env): State {
    if a !in s.children then s
    else if payload.resume.None? || payload.resume.value == "" then Notice(s, a, OtherError, payload.requestId)
    else
      var t := s.world.tickets;
      var cancelled := s.(pendingSwitches := s.pendingSwitches - {a}, world := s.world.(tickets := t + 1));
      if check.AtOnce? then CompleteSwitch(cancelled, a, payload, check.found, env)
      else cancelled.(pendingSwitches := s.pendingSwitches[a := PendingSwitch(t, payload)])
  }

  function SwitchChecked(s: State, a: string, ticket: nat, outcome: CheckOutcome, env: Env): State {
    if a !in s.pendingSwitches || s.pendingSwitches[a].ticket != ticket
       || s.pendingSwitches[a].payload.resume.None? then s
    else
      var payload := s.pendingSwitches[a].payload;
      var taken := s.(pendingSwitches := s.pendingSwitches - {a});
      if outcome.Found? then CompleteSwitch(taken, a, payload, outcome.found, env)
      else if a in s.children && !s.children[a].stopping then Notice(taken, a, OtherError, payload.requestId)
      else taken
  }

  // ---- Resetting ------------------------------------------------------------

  function ResetParsed(p: Parsed, payload: ResetPayload): Parsed {
    var next := NextSnapshot(p, payload.snapshot);
    WithSnapshot(p, next).(resume := None, snapshot := next, requestId := payload.requestId)
  }

  function AskedReset(s: State, ask: ResetAsk): State {
    var t := s.world.tickets;
    s.(world := s.world.(tickets := t + 1, resets := Ask(s.world.resets, t, ask)))
  }

  function HandleReset(s: State, a: string, payload: ResetPayload, env: Env): State {
    if a !in s.children || payload.requestId.None? || payload.requestId.value == "" || payload.mode.None? then s
    else
      var e, t := s.children[a], s.world.tickets;
      var id, mode := payload.requestId.value, payload.mode.value;
      var pending := PendingReset(t, id, mode, payload.previousSessionId, e.parsed.resume, e.parsed);
      var asked := AskedReset(s, ResetAsk(a, id, mode));
      if !env.launchable then ResetAnswer(asked, a, pending, SpawnFailed)
      else AcceptedReset(asked, a, pending, ResetParsed(e.parsed, payload), env)
  }

  /** A reset whose target can be launched: refused by the ceiling, or begun. */
  function AcceptedReset(s: State, a: string, p: PendingReset, next: Parsed, env: Env): State
    requires a in s.children
  {
    var e := s.children[a];
    var cancelled := DropReset(s.(pendingSwitches := s.pendingSwitches - {a}), e);
    if ExceedsCeiling(e, next) then ResetAnswer(Put(cancelled, a, e.(pendingReset := None)), a, p, ResetCeilingConflict)
    else TerminateForReset(Begun(cancelled, a, p, next, env.now), a, env)
  }

  /** The entry of a reset that was accepted, before its process is signalled. */
  function Begun(s: State, a: string, p: PendingReset, next: Parsed, now: int): State
    requires a in s.children
  {
    var e := s.children[a].(pendingReset := Some(p), parsed := next, restarting := true, escalated := false);
    Put(s, a, FreshBudget(e, now))
  }

  /** Signals the old child. One that is already gone takes the exit path at once: the
    * microtask the code queues for it runs before any other event. */
  function TerminateForReset(s: State, a: string, env: Env): State
    requires a in s.children
  {
    if env.killed then Put(s, a, s.children[a].(timer := true)) else OnExit(s, a, env)
  }

  /** The entry once its grace ran out: a pending reset goes on to the second signal. */
  function Expired(e: Entry): Entry {
    e.(timer := false, escalated := if e.pendingReset.Some? then true else e.escalated)
  }

  function TimerFired(s: State, a: string, env: Env): State {
    if a !in s.children || !s.children[a].timer then s
    else
      var e := s.children[a];
      var u := Put(s, a, Expired(e));
      if e.pendingReset.None? then u
      else if !e.escalated then TerminateForReset(u, a, env)
      else FailResetTermination(u, a)
  }

  function FailResetTermination(s: State, a: string): State
    requires a in s.children && s.children[a].pendingReset.Some?
  {
    var e := s.children[a];
    var p := e.pendingReset.value;
    ResetAnswer(Put(s, a, e.(parsed := p.previousParsed, restarting := false, pendingReset := None)), a, p, TimedOut)
  }

  // ---- Exits ----------------------------------------------------------------

  /** An exit event; one from any child but the current one changes nothing. */
  function Exited(s: State, a: string, child: nat, env: Env): State {
    if a !in s.children || s.children[a].child != child then s else OnExit(s, a, env)
  }

  /** The entry once its exit is being handled: no termination timer, no flag left over. */
  function Exiting(e: Entry): Entry {
    var f := e.(timer := false, escalated := false);
    if e.stopping then f
    else if e.pendingReset.Some? then f.(restarting := false)
    else if e.restarting then f.(restarting := false, cycle := None)
    else f
  }

  function OnExit(s: State, a: string, env: Env): State
    requires a in s.children
  {
    var e := s.children[a];
    var u := Put(s, a, Exiting(e));
    if e.stopping then RemoveStopped(u, a)
    else if e.pendingReset.Some? then RelaunchForReset(u, a, env)
    else if e.restarting then ExitOfCycle(u, a, e.cycle, env)
    else ExitOfCrash(u, a, env)
  }

  /** A stop that finds a reset pending leaves it unanswered. */
  function RemoveStopped(s: State, a: string): State
    requires a in s.children
  {
    var e := s.children[a];
    Remove(DropReset(Put(s, a, e.(pendingReset := None)), e), a)
  }

  function ExitOfCycle(s: State, a: string, cycle: Option<Cycle>, env: Env): State
    requires a in s.children
  {
    var requestId := s.children[a].parsed.requestId;
    if cycle == Some(SwitchCycle) then Relaunch(s, a, requestId, env)
    else
      var (ok, recovered) := SelectRecovery(s, a, env.recovery);
      if !ok then Remove(Notice(s, a, OtherError, requestId), a)
      else Relaunch(recovered, a, requestId, env)
  }

  function ExitOfCrash(s: State, a: string, env: Env): State
    requires a in s.children
  {
    var (ok, recovered) := SelectRecovery(s, a, env.recovery);
    if !ok then Remove(s, a) else Charge(recovered, a, env)
  }

  /** The crash budget: past its window it starts over, and once spent it refuses. */
  function ChargeCrash(e: Entry, now: int): (Entry, bool) {
    var rolled := if now - e.windowStart > RESTART_WINDOW_MS
                  then e.(windowStart := now, restarts := 0, windows := e.windows + Opened(now)) else e;
    if rolled.restarts >= MAX_RESTARTS then (rolled, false)
    else (rolled.(restarts := rolled.restarts + 1,
                  windows := if rolled.windows == [] then [] else Charged(rolled.windows, now)), true)
  }

  function Charge(s: State, a: string, env: Env): State
    requires a in s.children
  {
    var (e, up) := ChargeCrash(s.children[a], env.now);
    if up then Relaunch(Put(s, a, e), a, None, env) else Remove(Put(s, a, e), a)
  }

  /** The session and kind a checkpoint asks to resume. */
  function RecoveryTarget(e: Entry, r: Recovery): (Option<string>, bool) {
    match r
    case Live(id) => (Some(id), false)
    case Unbound(Some(id)) => (Some(id), true)
    case Unbound(None) => if e.candidate then (None, false) else (e.parsed.resume, e.candidate)
    case _ => (e.parsed.resume, e.candidate)
  }

  /** Moves the lock to the session the checkpoint names; false refuses the relaunch. */
  function SelectRecovery(s: State, a: string, r: Recovery): (res: (bool, State))
    requires a in s.children
    ensures a in res.1.children
  {
    if r.Refused? then (false, s)
    else if r.Absent? then (true, s)
    else
      var e := s.children[a];
      var (target, candidate) := RecoveryTarget(e, r);
      if target != e.locked && target.Some? && target.value in s.active then (false, s)
      else (true, MoveLock(s, a, target, candidate))
  }

  function MoveLock(s: State, a: string, target: Option<string>, candidate: bool): State
    requires a in s.children
  {
    var e := s.children[a];
    Put(s.(active := Claim(if e.locked != target then Release(s.active, e.locked) else s.active, target)), a,
        e.(parsed := e.parsed.(resume := target), locked := target, candidate := candidate))
  }

  function Relaunch(s: State, a: string, requestId: Option<string>, env: Env): State
    requires a in s.children
  {
    var e := s.children[a];
    if env.first != Launches then
      Remove(if requestId.Some? then Notice(s, a, OtherError, requestId) else s, a)
    else
      Put(Started(s, a, e.parsed.resume, e.parsed.settings.axes, e.ceiling), a, e.(child := s.world.nextChild))
  }

  function RelaunchForReset(s: State, a: string, env: Env): State
    requires a in s.children && s.children[a].pendingReset.Some?
  {
    var e := s.children[a];
    var p := e.pendingReset.value;
    if env.first != Launches then Rollback(s, a, env)
    else ResetAnswer(Renewed(s, a, None, e.parsed, env.now).(active := Release(s.active, p.oldResume)), a, p,
                     FreshSession)
  }

  /** A new process for an entry, resuming `session`, with its reset over. */
  function Renewed(s: State, a: string, session: Option<string>, p: Parsed, now: int): State
    requires a in s.children
  {
    var e := s.children[a];
    Put(Started(s, a, session, p.settings.axes, e.ceiling), a,
        FreshBudget(e.(child := s.world.nextChild, candidate := false, locked := session,
                       pendingReset := None, parsed := p), now))
  }

  function Rollback(s: State, a: string, env: Env): State
    requires a in s.children && s.children[a].pendingReset.Some?
  {
    var e := s.children[a];
    var p := e.pendingReset.value;
    if p.previousSessionId.None? || p.previousSessionId.value == "" || env.second != Launches then
      Remove(ResetAnswer(Put(s, a, e.(pendingReset := None)), a, p, RollbackFailed), a)
    else
      var back := p.previousSessionId;
      var active := if p.oldResume != back then Claim(Release(s.active, p.oldResume), back) else s.active;
      ResetAnswer(Renewed(s, a, back, e.parsed.(resume := back), env.now).(active := active), a, p, SpawnFailed)
  }

  // ---- Enumeration, shutdown, reload ----------------------------------------

  /** `answeredAtOnce` covers an unknown engine, a disallowed directory and a synchronous scan. */
  function HandleEnumerate(s: State, answeredAtOnce: bool): State {
    var g := s.generation + 1;
    if answeredAtOnce then s.(generation := g, world := s.world.(published := s.world.published + [g]))
    else s.(generation := g, world := s.world.(scanning := s.world.scanning + {g}))
  }

  function Enumerated(s: State, g: nat): State {
    var done := s.(world := s.world.(scanning := s.world.scanning - {g}));
    if g == s.generation then done.(world := done.world.(published := s.world.published + [g])) else done
  }

  function Tickets(pending: map<string, PendingSpawn>): set<nat> {
    set a | a in pending :: pending[a].ticket
  }

  function StopAll(s: State): State {
    State(map a | a in s.children :: s.children[a].(stopping := true),
          s.active, map[], map[], s.generation + 1, s.config,
          s.world.(spawns := Drop(s.world.spawns, Tickets(s.pendingSpawns))))
  }

  // ---- Events ---------------------------------------------------------------

  datatype Event =
    | Spawn(agent: Option<string>, requestId: Option<string>, parsed: Option<Parsed>, check: Check, env: Env)
    | SpawnCheck(a: string, ticket: nat, outcome: CheckOutcome, env: Env)
    | Stop(a: string)
    | Restart(a: string, requestId: Option<string>, env: Env)
    | Switch(a: string, switch: SwitchPayload, check: Check, env: Env)
    | SwitchCheck(a: string, ticket: nat, outcome: CheckOutcome, env: Env)
    | Reset(a: string, reset: ResetPayload, env: Env)
    | Exit(a: string, child: nat, env: Env)
    | Timer(a: string, env: Env)
    | Died(child: nat)
    | Enumerate(answeredAtOnce: bool)
    | ScanDone(generation: nat)
    | StopEverything
    | Reload(config: Config)
    | Tick(now: int)

  function Step(s: State, ev: Event): State {
    match ev
    case Spawn(agent, requestId, parsed, check, env) => HandleSpawn(s, agent, requestId, parsed, check, env)
    case SpawnCheck(a, ticket, outcome, env) => SpawnChecked(s, a, ticket, outcome, env)
    case Stop(a) => HandleStop(s, a)
    case Restart(a, requestId, env) => HandleRestart(s, a, requestId, env)
    case Switch(a, payload, check, env) => HandleSwitch(s, a, payload, check, env)
    case SwitchCheck(a, ticket, outcome, env) => SwitchChecked(s, a, ticket, outcome, env)
    case Reset(a, payload, env) => HandleReset(s, a, payload, env)
    case Exit(a, child, env) => Exited(s, a, child, env)
    case Timer(a, env) => TimerFired(s, a, env)
    case Died(c) => s.(world := s.world.(live := s.world.live - {c}))
    case Enumerate(answeredAtOnce) => HandleEnumerate(s, answeredAtOnce)
    case ScanDone(g) => Enumerated(s, g)
    case StopEverything => StopAll(s)
    case Reload(config) => s.(config := config)
    case Tick(now) => s.(world := s.world.(clock := now))
  }

  function Init(config: Config): State {
    State(map[], {}, map[], map[], 0, config,
          World(0, 0, map[], [], Desk(map[], {}, [], {}), Desk(map[], {}, [], {}), [], {}, [], 0))
  }
}
