/** What every reachable state of the supervisor satisfies, and the assumptions about the
  * server it rests on. */
module SupervisorSafety {
  import opened Wrappers
  import opened Permissions
  import opened CrashBudget
  import opened Desks
  import opened SupervisorSpec

  // ---- The environment ------------------------------------------------------

  /** What the outside may do: an exit is reported only for a process that is gone, a `kill`
    * answers false only then, time does not run backwards. */
  ghost predicate Enabled(s: State, ev: Event) {
    match ev
    case Spawn(_, _, _, _, env) => env.now == s.world.clock
    case SpawnCheck(_, _, _, env) => env.now == s.world.clock
    case Restart(_, _, env) => env.now == s.world.clock
    case Switch(_, _, _, env) => env.now == s.world.clock
    case SwitchCheck(_, _, _, env) => env.now == s.world.clock
    case Reset(a, _, env) => env.now == s.world.clock && (env.killed || Gone(s, a))
    case Exit(a, c, env) => env.now == s.world.clock && c !in s.world.live
    case Timer(a, env) => env.now == s.world.clock && (env.killed || Gone(s, a))
    case Died(c) => c in s.world.live
    case ScanDone(g) => g in s.world.scanning
    case Tick(now) => now >= s.world.clock
    case _ => true
  }

  predicate Gone(s: State, a: string) {
    a in s.children ==> s.children[a].child !in s.world.live
  }

  /** The server's reset lock: no switch and no second reset reaches an agent whose reset is
    * pending, and the session a rollback would resume is not another agent's. */
  ghost predicate Coordinated(s: State, ev: Event) {
    match ev
    case Switch(a, _, _, _) => Resting(s, a)
    case Reset(a, payload, _) => Resting(s, a) && NotForeign(s.children, a, payload.previousSessionId)
    case Exit(a, _, _) => RollbackIsOwn(s, a)
    case Timer(a, _) => RollbackIsOwn(s, a)
    case _ => true
  }

  predicate Resting(s: State, a: string) {
    a in s.children ==> s.children[a].pendingReset.None?
  }

  ghost predicate NotForeign(children: map<string, Entry>, a: string, id: Option<string>) {
    id.Some? ==> forall b :: b in children && b != a ==> children[b].locked != id
  }

  ghost predicate RollbackIsOwn(s: State, a: string) {
    a in s.children && s.children[a].pendingReset.Some? ==>
      NotForeign(s.children, a, s.children[a].pendingReset.value.previousSessionId)
  }

  // ---- The invariant --------------------------------------------------------

  /** The lock table is exactly the sessions the entries hold, each held once. */
  ghost predicate Locks(children: map<string, Entry>, active: set<string>) {
    && (forall a :: a in children && children[a].locked.Some? ==> children[a].locked.value in active)
    && (forall x :: x in active ==> exists a :: a in children && children[a].locked == Some(x))
    && (forall a, b :: a in children && b in children && a != b && children[a].locked.Some? ==>
          children[a].locked != children[b].locked)
  }

  /** A running process belongs to the entry that lists it, so an agent has at most one. */
  ghost predicate Processes(children: map<string, Entry>, live: map<nat, string>, next: nat) {
    && (forall c :: c in live ==> c < next && live[c] in children && children[live[c]].child == c)
    && (forall a :: a in children ==> children[a].child < next)
    && (forall a, b :: a in children && b in children && a != b ==> children[a].child != children[b].child)
  }

  /** An antigravity agent has a ceiling and its launch values are within it. */
  predicate CeilingOk(engine: Engine, axes: Axes, c: Option<Ceiling>) {
    && (engine == Antigravity <==> c.Some?)
    && (c.Some? ==> c.value.approval != OnFailure && Within(axes, c.value))
  }

  /** The lock is the session the next launch resumes, or the one a pending reset gives up. */
  predicate LockIsResume(e: Entry) {
    if e.pendingReset.None? then e.locked == e.parsed.resume
    else
      var p := e.pendingReset.value;
      && e.parsed.resume.None?
      && e.locked == p.oldResume == p.previousParsed.resume
      && p.previousParsed.engine == e.parsed.engine && p.previousParsed.cwd == e.parsed.cwd
      && CeilingOk(p.previousParsed.engine, p.previousParsed.settings.axes, e.ceiling)
  }

  ghost predicate BudgetOk(windows: seq<Window>, windowStart: int, restarts: nat, clock: int) {
    && Budgeted(windows, clock)
    && windowStart == Current(windows).start
    && restarts == |Current(windows).relaunches|
  }

  ghost predicate EntryOk(e: Entry, clock: int) {
    && LockIsResume(e)
    && CeilingOk(e.parsed.engine, e.parsed.settings.axes, e.ceiling)
    && BudgetOk(e.windows, e.windowStart, e.restarts, clock)
  }

  ghost predicate Entries(children: map<string, Entry>, clock: int) {
    forall a :: a in children ==> EntryOk(children[a], clock)
  }

  /** Pending checks: spawns only for absent agents, switches only for present ones. */
  ghost predicate Pendings(children: map<string, Entry>, spawns: map<string, PendingSpawn>,
                           switches: map<string, PendingSwitch>) {
    && spawns.Keys !! children.Keys
    && switches.Keys <= children.Keys
    && (forall a :: a in spawns ==> spawns[a].parsed.resume.Some?)
    && (forall a :: a in switches ==> switches[a].payload.resume.Some?)
  }

  ghost predicate SpawnsTracked(pending: map<string, PendingSpawn>, d: Desk<SpawnAsk, SpawnReply>) {
    && (forall a :: a in pending ==>
          var t := pending[a].ticket; t in d.open && t in d.asked && d.asked[t].agent == a)
    && (forall t :: t in d.open ==>
          t in d.asked && d.asked[t].agent in pending && pending[d.asked[t].agent].ticket == t)
  }

  ghost predicate ResetsTracked(children: map<string, Entry>, d: Desk<ResetAsk, ResetReply>) {
    && (forall a :: a in children && children[a].pendingReset.Some? ==>
          var p := children[a].pendingReset.value;
          p.ticket in d.open && p.ticket in d.asked && d.asked[p.ticket] == ResetAsk(a, p.requestId, p.mode))
    && (forall t :: t in d.open ==>
          && t in d.asked && d.asked[t].agent in children
          && children[d.asked[t].agent].pendingReset.Some?
          && children[d.asked[t].agent].pendingReset.value.ticket == t)
  }

  /** Both desks are fair, every reply names its own request, and unused tickets are fresh. */
  ghost predicate DesksOk(w: World) {
    && Fair(w.spawns) && Fair(w.resets)
    && (forall t :: t in w.spawns.asked || t in w.resets.asked ==> t < w.tickets)
    && (forall i :: 0 <= i < |w.spawns.replies| ==> SpawnReplyOk(w.spawns.asked, w.spawns.replies[i]))
    && (forall i :: 0 <= i < |w.resets.replies| ==> ResetReplyOk(w.resets.asked, w.resets.replies[i]))
  }

  /** A spawn result carries its command's id; only a cancelling `stop` leaves it out. */
  predicate SpawnReplyOk(asked: map<nat, SpawnAsk>, r: (nat, SpawnReply)) {
    && r.0 in asked && r.1.agent == asked[r.0].agent
    && (r.1.requestId == asked[r.0].requestId || (r.1.requestId.None? && r.1.reason == Some(OtherError)))
  }

  predicate ResetReplyOk(asked: map<nat, ResetAsk>, r: (nat, ResetReply)) {
    r.0 in asked && asked[r.0] == ResetAsk(r.1.agent, r.1.requestId, r.1.mode)
  }

  ghost predicate PendingIds(pending: map<string, PendingSpawn>, asked: map<nat, SpawnAsk>) {
    forall a :: a in pending && pending[a].ticket in asked ==>
      pending[a].parsed.requestId == asked[pending[a].ticket].requestId
  }

  /** No process ever started above the ceiling it was given. */
  ghost predicate LaunchesOk(launches: seq<Launch>) {
    forall i :: 0 <= i < |launches| ==>
      launches[i].ceiling.Some? ==> Within(launches[i].axes, launches[i].ceiling.value)
  }

  /** Published enumerations are in request order, each at most once. */
  ghost predicate Published(generation: nat, scanning: set<nat>, published: seq<nat>) {
    && (forall i, j :: 0 <= i < j < |published| ==> published[i] < published[j])
    && (forall i :: 0 <= i < |published| ==> published[i] <= generation)
    && (forall g :: g in scanning ==> g <= generation && g !in published)
  }

  /** Everything but the timers, which are out of step inside a handler. */
  ghost predicate Core(s: State) {
    && Locks(s.children, s.active)
    && Processes(s.children, s.world.live, s.world.nextChild)
    && Entries(s.children, s.world.clock)
    && Pendings(s.children, s.pendingSpawns, s.pendingSwitches)
    && SpawnsTracked(s.pendingSpawns, s.world.spawns)
    && PendingIds(s.pendingSpawns, s.world.spawns.asked)
    && ResetsTracked(s.children, s.world.resets)
    && DesksOk(s.world)
    && LaunchesOk(s.world.launches)
    && Published(s.generation, s.world.scanning, s.world.published)
  }

  /** Between events a termination timer runs exactly while a reset is pending, and no switch
    * waits on a check then. */
  predicate Neat(e: Entry, switching: bool) {
    (e.timer <==> e.pendingReset.Some?) && (switching ==> e.pendingReset.None?)
  }

  ghost predicate Tidy(s: State) {
    forall b :: b in s.children ==> Neat(s.children[b], b in s.pendingSwitches)
  }

  ghost predicate Inv(s: State) { Core(s) && Tidy(s) }

  lemma CoreParts(s: State)
    requires Core(s)
    ensures Locks(s.children, s.active)
    ensures Processes(s.children, s.world.live, s.world.nextChild)
    ensures Entries(s.children, s.world.clock)
    ensures Pendings(s.children, s.pendingSpawns, s.pendingSwitches)
    ensures SpawnsTracked(s.pendingSpawns, s.world.spawns) && PendingIds(s.pendingSpawns, s.world.spawns.asked)
    ensures ResetsTracked(s.children, s.world.resets)
    ensures DesksOk(s.world) && LaunchesOk(s.world.launches)
    ensures Published(s.generation, s.world.scanning, s.world.published)
  {
  }

  lemma CoreEntry(s: State, a: string)
    requires Core(s) && a in s.children
    ensures EntryOk(s.children[a], s.world.clock)
  {
  }

  // ---- Pieces: locks --------------------------------------------------------

  lemma LocksMove(children: map<string, Entry>, active: set<string>, a: string, e: Entry)
    requires Locks(children, active) && a in children
    requires NotForeign(children, a, e.locked)
    ensures Locks(children[a := e], Claim(Release(active, children[a].locked), e.locked))
  {
    var now := children[a := e];
    var table := Claim(Release(active, children[a].locked), e.locked);
    forall x | x in table ensures exists b :: b in now && now[b].locked == Some(x) {
      if e.locked == Some(x) {
        assert now[a].locked == Some(x);
      } else {
        var b :| b in children && children[b].locked == Some(x);
        assert now[b].locked == Some(x);
      }
    }
  }

  lemma LocksKept(children: map<string, Entry>, active: set<string>, a: string, e: Entry)
    requires Locks(children, active) && a in children && e.locked == children[a].locked
    ensures Locks(children[a := e], active)
  {
    LocksMove(children, active, a, e);
    assert Claim(Release(active, e.locked), e.locked) == active;
  }

  lemma LocksDrop(children: map<string, Entry>, active: set<string>, a: string)
    requires Locks(children, active) && a in children
    ensures Locks(children - {a}, Release(active, children[a].locked))
  {
    forall x | x in Release(active, children[a].locked)
      ensures exists b :: b in children - {a} && (children - {a})[b].locked == Some(x)
    {
      var b :| b in children && children[b].locked == Some(x);
      assert b in children - {a};
    }
  }

  lemma LocksAdd(children: map<string, Entry>, active: set<string>, a: string, e: Entry)
    requires Locks(children, active) && a !in children
    requires e.locked.Some? ==> e.locked.value !in active
    ensures Locks(children[a := e], Claim(active, e.locked))
  {
    var now := children[a := e];
    forall x | x in Claim(active, e.locked) ensures exists b :: b in now && now[b].locked == Some(x) {
      if e.locked == Some(x) {
        assert now[a].locked == Some(x);
      } else {
        var b :| b in children && children[b].locked == Some(x);
        assert now[b].locked == Some(x);
      }
    }
  }

  lemma FreeIsNotForeign(children: map<string, Entry>, active: set<string>, a: string, id: Option<string>)
    requires Locks(children, active)
    requires id.Some? && id.value in active ==> a in children && children[a].locked == id
    ensures NotForeign(children, a, id)
  {
  }

  // ---- Pieces: desks --------------------------------------------------------

  lemma SpawnReplied(w: World, ticket: nat, r: SpawnReply)
    requires DesksOk(w) && ticket in w.spawns.open && SpawnReplyOk(w.spawns.asked, (ticket, r))
    ensures DesksOk(w.(spawns := Reply(w.spawns, ticket, r), results := w.results + [r]))
  {
    ReplyIsFair(w.spawns, ticket, r);
  }

  lemma ResetReplied(w: World, ticket: nat, r: ResetReply)
    requires DesksOk(w) && ticket in w.resets.open && ResetReplyOk(w.resets.asked, (ticket, r))
    ensures DesksOk(w.(resets := Reply(w.resets, ticket, r)))
  {
    ReplyIsFair(w.resets, ticket, r);
  }

  lemma ResetDropped(w: World, ticket: nat)
    requires DesksOk(w) && ticket in w.resets.open
    ensures DesksOk(w.(resets := Drop(w.resets, {ticket})))
  {
    DropIsFair(w.resets, {ticket});
  }

  lemma SpawnsDropped(w: World, tickets: set<nat>)
    requires DesksOk(w) && tickets <= w.spawns.open
    ensures DesksOk(w.(spawns := Drop(w.spawns, tickets)))
  {
    DropIsFair(w.spawns, tickets);
  }

  lemma SpawnAsked(w: World, ask: SpawnAsk)
    requires DesksOk(w)
    ensures DesksOk(w.(tickets := w.tickets + 1, spawns := Ask(w.spawns, w.tickets, ask)))
  {
    AskIsFair(w.spawns, w.tickets, ask);
  }

  lemma ResetAsked(w: World, ask: ResetAsk)
    requires DesksOk(w)
    ensures DesksOk(w.(tickets := w.tickets + 1, resets := Ask(w.resets, w.tickets, ask)))
  {
    AskIsFair(w.resets, w.tickets, ask);
  }

  /** Closing a reset ticket goes with clearing the entry's pending reset. */
  lemma ResetClosed(children: map<string, Entry>, d: Desk<ResetAsk, ResetReply>, a: string, e: Entry,
                    d': Desk<ResetAsk, ResetReply>)
    requires ResetsTracked(children, d) && a in children && children[a].pendingReset.Some?
    requires e.pendingReset.None? && d'.asked == d.asked
    requires d'.open == d.open - {children[a].pendingReset.value.ticket}
    ensures ResetsTracked(children[a := e], d')
  {
  }

  lemma ResetKept(children: map<string, Entry>, d: Desk<ResetAsk, ResetReply>, a: string, e: Entry)
    requires ResetsTracked(children, d) && a in children && e.pendingReset == children[a].pendingReset
    ensures ResetsTracked(children[a := e], d)
  {
  }

  lemma ResetGone(children: map<string, Entry>, d: Desk<ResetAsk, ResetReply>, a: string)
    requires ResetsTracked(children, d) && a in children && children[a].pendingReset.None?
    ensures ResetsTracked(children - {a}, d)
  {
  }

  // ---- Pieces: processes ----------------------------------------------------

  lemma SameProcess(children: map<string, Entry>, live: map<nat, string>, next: nat, a: string, e: Entry)
    requires Processes(children, live, next) && a in children && e.child == children[a].child
    ensures Processes(children[a := e], live, next)
  {
  }

  lemma NewProcess(children: map<string, Entry>, live: map<nat, string>, next: nat, a: string, e: Entry)
    requires Processes(children, live, next) && e.child == next
    requires forall c :: c in live ==> live[c] != a
    ensures Processes(children[a := e], live[next := a], next + 1)
  {
  }

  lemma NoProcess(children: map<string, Entry>, live: map<nat, string>, next: nat, a: string)
    requires Processes(children, live, next)
    requires forall c :: c in live ==> live[c] != a
    ensures Processes(children - {a}, live, next)
  {
  }

  // ---- Pieces: entries ------------------------------------------------------

  lemma FreshBudgetOk(clock: int)
    ensures BudgetOk(Opened(clock), clock, 0, clock)
  {
    OpenedIsBudgeted(clock, clock);
  }

  lemma EntryPut(children: map<string, Entry>, clock: int, a: string, e: Entry)
    requires Entries(children, clock) && EntryOk(e, clock)
    ensures Entries(children[a := e], clock)
  {
  }

  lemma PendingsPut(children: map<string, Entry>, spawns: map<string, PendingSpawn>,
                    switches: map<string, PendingSwitch>,
                    a: string, e: Entry)
    requires Pendings(children, spawns, switches) && (a in children || a !in spawns)
    ensures Pendings(children[a := e], spawns, switches)
  {
  }

  /** Replacing one entry without touching its lock, process or reset keeps the core. */
  lemma Touched(s: State, a: string, e: Entry)
    requires Core(s) && a in s.children
    requires e.locked == s.children[a].locked && e.child == s.children[a].child
    requires e.pendingReset == s.children[a].pendingReset && EntryOk(e, s.world.clock)
    ensures Core(Put(s, a, e))
  {
    LocksKept(s.children, s.active, a, e);
    SameProcess(s.children, s.world.live, s.world.nextChild, a, e);
    EntryPut(s.children, s.world.clock, a, e);
    PendingsPut(s.children, s.pendingSpawns, s.pendingSwitches, a, e);
    ResetKept(s.children, s.world.resets, a, e);
  }

  lemma CancelSwitch(s: State, a: string)
    requires Core(s)
    ensures Core(s.(pendingSwitches := s.pendingSwitches - {a}))
  {
  }

  lemma NoticeKeeps(s: State, a: string, reason: Reason, requestId: Option<string>)
    requires Core(s)
    ensures Core(Notice(s, a, reason, requestId))
  {
  }

  /** Nothing of `a` is running. */
  ghost predicate Idle(s: State, a: string) {
    forall c :: c in s.world.live ==> s.world.live[c] != a
  }

  lemma GoneIsIdle(s: State, a: string)
    requires Core(s) && Gone(s, a)
    ensures Idle(s, a)
  {
  }

  lemma RemoveKeeps(s: State, a: string)
    requires Core(s) && a in s.children && Idle(s, a) && s.children[a].pendingReset.None?
    ensures Core(Remove(s, a))
  {
    LocksDrop(s.children, s.active, a);
    NoProcess(s.children, s.world.live, s.world.nextChild, a);
    ResetGone(s.children, s.world.resets, a);
  }
}
