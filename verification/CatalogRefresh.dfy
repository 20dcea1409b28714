/** Single-flight catalog refresh: concurrent requests share one probe of the engine, and only
  * a probe that really ran pushes a new register. */
module CatalogRefresh {
  import opened Wrappers
  import opened Desks

  type Models = seq<string>

  const DEFAULT_TTL_MS: int := 3_600_000

  datatype Entry = Entry(models: Models, fetchedAt: int)

  /** What a probe came to. A probe may call itself ok and still carry no models. */
  datatype Outcome = Outcome(ok: bool, models: Option<Models>, reason: Option<string>)

  datatype Result = Refreshed(count: nat) | Failed(reason: string)

  /** The in-flight promise: none, one still pending with the requests that share it, or one
    * already settled and never cleared. */
  datatype Flight = Idle | Running(prober: nat, sharers: seq<nat>) | Stuck(outcome: Outcome)

  datatype State = State(
    cached: Option<Entry>, flight: Flight, ttl: int,
    tickets: nat, desk: Desk<string, Result>,
    started: nat, finished: nat, successes: seq<Models>, pushes: seq<Models>)

  function Init(ttl: int): State { State(None, Idle, ttl, 0, Desk(map[], {}, [], {}), 0, 0, [], []) }

  const CliError: Outcome := Outcome(false, None, Some("cli_error"))

  predicate Good(o: Outcome) { o.ok && o.models.Some? }

  /** The reply a request gets from an outcome it did not probe for itself. */
  function ReplyOf(o: Outcome): Result {
    if Good(o) then Refreshed(|o.models.value|) else Failed(if o.reason.Some? then o.reason.value else "cli_error")
  }

  predicate Fresh(s: State, now: int) { s.cached.Some? && now - s.cached.value.fetchedAt <= s.ttl }

  function Answer(s: State, ticket: nat, r: Result): State { s.(desk := Reply(s.desk, ticket, r)) }

  function AnswerAll(s: State, tickets: seq<nat>, r: Result): State {
    if tickets == [] then s else Answer(AnswerAll(s, tickets[..|tickets| - 1], r), tickets[|tickets| - 1], r)
  }

  /** How the environment behaves while a request is handled: `throws` when the probe fails
    * before it returns a promise, `built` when the register can be rebuilt and pushed. */
  datatype Request = Request(id: string, live: bool, force: bool, now: int, throws: bool)

  /** The prober's own reply: it pushes the register first, and fails if it cannot. */
  function ProberReply(s: State, ticket: nat, o: Outcome, built: bool): State {
    if !Good(o) then Answer(s, ticket, ReplyOf(o))
    else if built then Answer(s.(pushes := s.pushes + [o.models.value]), ticket, ReplyOf(o))
    else Answer(s, ticket, Failed("cli_error"))
  }

  function Handle(s: State, r: Request): State {
    var t := s.tickets;
    var asked := s.(tickets := t + 1, desk := Ask(s.desk, t, r.id));
    if !r.live then Answer(asked, t, Failed("unsupported_engine"))
    else if !r.force && Fresh(s, r.now) then Answer(asked, t, Refreshed(|s.cached.value.models|))
    else
      match s.flight
      case Running(p, sharers) => asked.(flight := Running(p, sharers + [t]))
      case Stuck(o) => Answer(asked, t, ReplyOf(o))
      case Idle =>
        if r.throws then Answer(asked.(flight := Stuck(CliError)), t, ReplyOf(CliError))
        else asked.(flight := Running(t, []), started := s.started + 1)
  }

  /** The probe settles; a rejection counts as `CliError`. Everyone who waited is answered
    * before any other event. */
  function ProbeDone(s: State, o: Outcome, now: int, built: bool): State {
    if !s.flight.Running? then s
    else
      var done := s.(flight := Idle, finished := s.finished + 1,
                     cached := if Good(o) then Some(Entry(o.models.value, now)) else s.cached,
                     successes := if Good(o) then s.successes + [o.models.value] else s.successes);
      AnswerAll(ProberReply(done, s.flight.prober, o, built), s.flight.sharers, ReplyOf(o))
  }

  /** A malformed payload is no event: it is dropped without a reply. */
  datatype Event = OnRequest(r: Request) | OnProbe(o: Outcome, now: int, built: bool)

  function Step(s: State, ev: Event): State {
    match ev
    case OnRequest(r) => Handle(s, r)
    case OnProbe(o, now, built) => ProbeDone(s, o, now, built)
  }

  function After(s: State, evs: seq<Event>): State {
    if evs == [] then s else Step(After(s, evs[..|evs| - 1]), evs[|evs| - 1])
  }

  // ---- Invariant ------------------------------------------------------------

  function Waiting(f: Flight): set<nat> {
    if f.Running? then {f.prober} + (set x | x in f.sharers) else {}
  }

  ghost predicate NoTwice(f: Flight) {
    f.Running? ==>
      f.prober !in f.sharers && forall i, j :: 0 <= i < j < |f.sharers| ==> f.sharers[i] != f.sharers[j]
  }

  ghost predicate Inv(s: State) {
    && Fair(s.desk) && s.desk.dropped == {} && s.desk.open == Waiting(s.flight) && NoTwice(s.flight)
    && (forall t :: t in s.desk.asked ==> t < s.tickets)
    && s.started == s.finished + (if s.flight.Running? then 1 else 0)
    && (s.cached.Some? <==> s.successes != [])
    && (s.cached.Some? ==> s.cached.value.models == s.successes[|s.successes| - 1])
  }

  lemma {:induction false} AnswerAllKeeps(s: State, tickets: seq<nat>, r: Result)
    requires Fair(s.desk) && (forall t :: t in tickets ==> t in s.desk.open)
    requires forall i, j :: 0 <= i < j < |tickets| ==> tickets[i] != tickets[j]
    ensures var u := AnswerAll(s, tickets, r);
            && u == s.(desk := u.desk) && Fair(u.desk)
            && u.desk.asked == s.desk.asked && u.desk.dropped == s.desk.dropped
            && (forall t :: t in u.desk.open <==> t in s.desk.open && t !in tickets)
  {
    if tickets != [] {
      var n := |tickets| - 1;
      assert tickets == tickets[..n] + [tickets[n]];
      AnswerAllKeeps(s, tickets[..n], r);
      assert tickets[n] !in tickets[..n];
      ReplyIsFair(AnswerAll(s, tickets[..n], r).desk, tickets[n], r);
    }
  }

  lemma ProberKeeps(s: State, ticket: nat, o: Outcome, built: bool)
    requires Fair(s.desk) && ticket in s.desk.open
    ensures var u := ProberReply(s, ticket, o, built);
            && u == s.(desk := u.desk, pushes := u.pushes)
            && u.pushes == s.pushes + (if Good(o) && built then [o.models.value] else [])
            && Fair(u.desk) && u.desk.open == s.desk.open - {ticket}
            && u.desk.asked == s.desk.asked && u.desk.dropped == s.desk.dropped
  {
    ReplyIsFair(s.desk, ticket, ReplyOf(o));
    ReplyIsFair(s.desk, ticket, Failed("cli_error"));
  }

  lemma HandleKeeps(s: State, r: Request)
    requires Inv(s)
    ensures Inv(Handle(s, r)) && Handle(s, r).pushes == s.pushes && Handle(s, r).successes == s.successes
  {
    var t := s.tickets;
    assert s.desk.open <= s.desk.asked.Keys;
    hide Fair;
    AskIsFair(s.desk, t, r.id);
    var asked := Ask(s.desk, t, r.id);
    forall a: Result ensures Fair(Reply(asked, t, a)) { ReplyIsFair(asked, t, a); }
  }

  lemma ProbeDoneKeeps(s: State, o: Outcome, now: int, built: bool)
    requires Inv(s)
    ensures Inv(ProbeDone(s, o, now, built))
    ensures s.flight.Running? ==>
              ProbeDone(s, o, now, built).pushes == s.pushes + (if Good(o) && built then [o.models.value] else [])
    ensures s.flight.Running? ==>
              ProbeDone(s, o, now, built).successes == s.successes + (if Good(o) then [o.models.value] else [])
    ensures s.flight.Running? ==> ProbeDone(s, o, now, built).desk.open == {}
  {
    hide ProberReply, AnswerAll, Fair;
    if s.flight.Running? {
      var done := s.(flight := Idle, finished := s.finished + 1,
                     cached := if Good(o) then Some(Entry(o.models.value, now)) else s.cached,
                     successes := if Good(o) then s.successes + [o.models.value] else s.successes);
      ProberKeeps(done, s.flight.prober, o, built);
      AnswerAllKeeps(ProberReply(done, s.flight.prober, o, built), s.flight.sharers, ReplyOf(o));
    }
  }

  lemma {:induction false} RunKeeps(ttl: int, evs: seq<Event>)
    ensures Inv(After(Init(ttl), evs))
  {
    if evs != [] {
      RunKeeps(ttl, evs[..|evs| - 1]);
      var s := After(Init(ttl), evs[..|evs| - 1]);
      match evs[|evs| - 1]
      case OnRequest(r) => HandleKeeps(s, r);
      case OnProbe(o, now, built) => ProbeDoneKeeps(s, o, now, built);
    }
  }

  // ---- Promises -------------------------------------------------------------

  /** In every run at most one probe is in flight, and each valid request is answered exactly
    * once: at once, or when the probe it waits for settles. */
  lemma OneProbeOneAnswer(ttl: int, evs: seq<Event>, ticket: nat)
    ensures var s := After(Init(ttl), evs);
            && s.finished <= s.started <= s.finished + 1
            && (ticket in s.desk.asked ==>
                  Count(s.desk.replies, ticket) == if ticket in Waiting(s.flight) then 0 else 1)
            && (Waiting(s.flight) != {} ==> s.started == s.finished + 1)
  {
    RunKeeps(ttl, evs);
  }

  /** The probe that settles here was good, and its register could not be built or pushed. */
  predicate Unbuilt(s: State, ev: Event) { ev.OnProbe? && s.flight.Running? && Good(ev.o) && !ev.built }

  /** Every successful probe's register was built. */
  predicate AllBuilt(s: State, evs: seq<Event>) {
    evs == [] || (AllBuilt(s, evs[..|evs| - 1]) && !Unbuilt(After(s, evs[..|evs| - 1]), evs[|evs| - 1]))
  }

  /** The register is pushed once for each successful probe, never for a cached or shared
    * reply, exactly when every successful probe's register was built; then it always carries
    * what the cache holds. Otherwise there are fewer pushes than successes. */
  lemma {:induction false} PushesAreProbes(ttl: int, evs: seq<Event>)
    ensures var s := After(Init(ttl), evs);
            && (s.pushes == s.successes <==> AllBuilt(Init(ttl), evs))
            && (|s.pushes| < |s.successes| <==> !AllBuilt(Init(ttl), evs))
            && (AllBuilt(Init(ttl), evs) && s.cached.Some? ==>
                  s.pushes != [] && s.cached.value.models == s.pushes[|s.pushes| - 1])
  {
    hide Inv, Handle, ProbeDone, Unbuilt;
    RunKeeps(ttl, evs);
    CacheIsLastSuccess(After(Init(ttl), evs));
    if evs != [] {
      var n := |evs| - 1;
      PushesAreProbes(ttl, evs[..n]);
      RunKeeps(ttl, evs[..n]);
      StepPushes(After(Init(ttl), evs[..n]), evs[n]);
    }
  }

  lemma CacheIsLastSuccess(s: State)
    requires Inv(s)
    ensures s.cached.Some? ==> s.successes != [] && s.cached.value.models == s.successes[|s.successes| - 1]
  {
  }

  lemma StepPushes(s: State, ev: Event)
    requires Inv(s)
    ensures var t := Step(s, ev);
            if Unbuilt(s, ev) then t.pushes == s.pushes && |t.successes| == |s.successes| + 1
            else
              || (t.pushes == s.pushes && t.successes == s.successes)
              || (exists models :: t.pushes == s.pushes + [models] && t.successes == s.successes + [models])
  {
    hide Inv, Handle, AnswerAll;
    match ev
    case OnRequest(r) => HandleKeeps(s, r);
    case OnProbe(o, now, built) =>
      ProbeDoneKeeps(s, o, now, built);
      if s.flight.Running? && Good(o) && built {
        assert ProbeDone(s, o, now, built).pushes == s.pushes + [o.models.value];
      }
  }

  // ---- What is answered -----------------------------------------------------

  /** A request is answered at once when it names another engine, when the entry is fresh and no probe
    * is forced, and when the flight is stuck or throws; otherwise it waits for the probe in flight, or
    * for one that it starts. */
  lemma RequestOutcome(ttl: int, evs: seq<Event>, r: Request)
    ensures var s, t := After(Init(ttl), evs), After(Init(ttl), evs + [OnRequest(r)]);
            var k := s.tickets;
            && t.cached == s.cached && t.pushes == s.pushes
            && (if !r.live then t.desk.replies == s.desk.replies + [(k, Failed("unsupported_engine"))]
                else if !r.force && s.cached.Some? && r.now - s.cached.value.fetchedAt <= ttl then
                  t.desk.replies == s.desk.replies + [(k, Refreshed(|s.cached.value.models|))] && t.started == s.started
                else if s.flight.Stuck? || (s.flight.Idle? && r.throws) then
                  t.desk.replies == s.desk.replies + [(k, Failed("cli_error"))] && t.started == s.started
                else
                  && t.desk.replies == s.desk.replies && k in Waiting(t.flight)
                  && (s.flight.Running? ==> t.started == s.started && t.flight.prober == s.flight.prober)
                  && (s.flight.Idle? ==> t.started == s.started + 1 && t.flight.prober == k))
  {
    assert (evs + [OnRequest(r)])[..|evs|] == evs;
    StuckOnError(ttl, evs);
    TtlIsFixed(ttl, evs);
  }

  lemma {:induction false} StuckOnError(ttl: int, evs: seq<Event>)
    ensures After(Init(ttl), evs).flight.Stuck? ==> After(Init(ttl), evs).flight == Stuck(CliError)
  {
    if evs != [] {
      StuckOnError(ttl, evs[..|evs| - 1]);
      FlightStep(After(Init(ttl), evs[..|evs| - 1]), evs[|evs| - 1]);
    }
  }

  lemma {:induction false} TtlIsFixed(ttl: int, evs: seq<Event>)
    ensures After(Init(ttl), evs).ttl == ttl
  {
    if evs != [] {
      var s, ev := After(Init(ttl), evs[..|evs| - 1]), evs[|evs| - 1];
      TtlIsFixed(ttl, evs[..|evs| - 1]);
      if ev.OnProbe? && s.flight.Running? { ProbeAnswers(s, ev.o, ev.now, ev.built); }
    }
  }

  /** What a waiting request hears when the probe settles. */
  predicate Hears(o: Outcome, probing: bool, built: bool, heard: Result) {
    if o.ok && o.models.Some? then
      heard == if probing && !built then Failed("cli_error") else Refreshed(|o.models.value|)
    else heard == Failed(match o.reason case Some(reason) => reason case None => "cli_error")
  }

  function Told(tickets: seq<nat>, r: Result): seq<(nat, Result)> {
    if tickets == [] then [] else Told(tickets[..|tickets| - 1], r) + [(tickets[|tickets| - 1], r)]
  }

  lemma {:induction false} AnswerAllTells(s: State, tickets: seq<nat>, r: Result)
    ensures AnswerAll(s, tickets, r) == s.(desk := AnswerAll(s, tickets, r).desk)
    ensures AnswerAll(s, tickets, r).desk.replies == s.desk.replies + Told(tickets, r)
    ensures AnswerAll(s, tickets, r).desk.asked == s.desk.asked
  {
    if tickets != [] { AnswerAllTells(s, tickets[..|tickets| - 1], r); }
  }

  lemma {:induction false} ToldHas(tickets: seq<nat>, r: Result)
    ensures forall k :: k in tickets ==> (k, r) in Told(tickets, r)
    ensures forall x :: x in Told(tickets, r) ==> x.0 in tickets && x.1 == r
  {
    if tickets != [] {
      ToldHas(tickets[..|tickets| - 1], r);
      assert tickets == tickets[..|tickets| - 1] + [tickets[|tickets| - 1]];
    }
  }

  lemma ProbeAnswers(s: State, o: Outcome, now: int, built: bool)
    requires s.flight.Running?
    ensures var t := ProbeDone(s, o, now, built);
            && t.ttl == s.ttl && t.flight.Idle? && t.tickets == s.tickets && t.desk.asked == s.desk.asked
            && t.cached == (if o.ok && o.models.Some? then Some(Entry(o.models.value, now)) else s.cached)
            && exists own, shared ::
                 && Hears(o, true, built, own) && Hears(o, false, built, shared)
                 && t.desk.replies == s.desk.replies + [(s.flight.prober, own)] + Told(s.flight.sharers, shared)
  {
    hide AnswerAll;
    var done := s.(flight := Idle, finished := s.finished + 1,
                   cached := if Good(o) then Some(Entry(o.models.value, now)) else s.cached,
                   successes := if Good(o) then s.successes + [o.models.value] else s.successes);
    var own := if Good(o) && !built then Failed("cli_error") else ReplyOf(o);
    AnswerAllTells(ProberReply(done, s.flight.prober, o, built), s.flight.sharers, ReplyOf(o));
    assert Hears(o, true, built, own) && Hears(o, false, built, ReplyOf(o));
  }

  /** Whoever waits hears how the probe ended: the size of the catalog it brought, or why it failed; only
    * the request that probed fails when its register cannot be built. A good catalog is what the cache
    * then holds, from this moment on. */
  lemma WaitersHearTheProbe(ttl: int, evs: seq<Event>, o: Outcome, now: int, built: bool, k: nat)
    requires k in Waiting(After(Init(ttl), evs).flight)
    ensures var s, t := After(Init(ttl), evs), After(Init(ttl), evs + [OnProbe(o, now, built)]);
            && t.cached == (if o.ok && o.models.Some? then Some(Entry(o.models.value, now)) else s.cached)
            && Count(s.desk.replies, k) == 0 && Count(t.desk.replies, k) == 1
            && exists heard :: Hears(o, k == s.flight.prober, built, heard) && (k, heard) in t.desk.replies
  {
    hide ProbeDone, Hears, Told;
    var s := After(Init(ttl), evs);
    assert (evs + [OnProbe(o, now, built)])[..|evs|] == evs;
    RunKeeps(ttl, evs);
    RunKeeps(ttl, evs + [OnProbe(o, now, built)]);
    ProbeDoneKeeps(s, o, now, built);
    ProbeAnswers(s, o, now, built);
    WaitsAlone(s, k);
    var t := ProbeDone(s, o, now, built);
    var own, shared :| Hears(o, true, built, own) && Hears(o, false, built, shared)
                       && t.desk.replies == s.desk.replies + [(s.flight.prober, own)] + Told(s.flight.sharers, shared);
    ToldHas(s.flight.sharers, shared);
    if k == s.flight.prober {
      assert (k, own) in t.desk.replies;
    } else {
      assert (k, shared) in t.desk.replies;
    }
    Answered(s, t, k);
  }

  lemma WaitsAlone(s: State, k: nat)
    requires Inv(s) && k in Waiting(s.flight)
    ensures s.flight.Running? && (k == s.flight.prober || k in s.flight.sharers)
    ensures k in s.desk.open && k in s.desk.asked && k !in s.desk.dropped
  {
  }

  lemma Answered(s: State, t: State, k: nat)
    requires Inv(s) && Inv(t) && k in s.desk.open && t.desk.open == {} && k in t.desk.asked
    ensures Count(s.desk.replies, k) == 0 && Count(t.desk.replies, k) == 1
  {
  }

  // ---- A probe that throws --------------------------------------------------

  /** A request that finds neither a fresh entry nor a probe to share, and whose own probe
    * throws before it returns a promise. */
  predicate ThrowsAtOnce(s: State, ev: Event) {
    ev.OnRequest? && ev.r.live && (ev.r.force || !Fresh(s, ev.r.now)) && s.flight.Idle? && ev.r.throws
  }

  /** The promise stays in place forever exactly when some probe threw at once. */
  lemma {:induction false} StuckOnlyByAThrow(ttl: int, evs: seq<Event>)
    ensures After(Init(ttl), evs).flight.Stuck? <==> ThrownBy(Init(ttl), evs)
  {
    hide Step, ThrowsAtOnce;
    if evs == [] {
      assert !Init(ttl).flight.Stuck?;
    } else {
      var n, init := |evs| - 1, Init(ttl);
      StuckOnlyByAThrow(ttl, evs[..n]);
      FlightStep(After(init, evs[..n]), evs[n]);
      ThrownLater(init, evs);
    }
  }

  predicate ThrownBy(s: State, evs: seq<Event>) {
    exists k :: 0 <= k < |evs| && ThrowsAtOnce(After(s, evs[..k]), evs[k])
  }

  lemma ThrownLater(s: State, evs: seq<Event>)
    requires evs != []
    ensures var n := |evs| - 1; ThrownBy(s, evs) <==> ThrownBy(s, evs[..n]) || ThrowsAtOnce(After(s, evs[..n]), evs[n])
  {
    hide ThrowsAtOnce, After;
    var n := |evs| - 1;
    var before := evs[..n];
    assert forall k :: 0 <= k < n ==> before[..k] == evs[..k] && before[k] == evs[k];
    if ThrownBy(s, before) {
      var k :| 0 <= k < n && ThrowsAtOnce(After(s, before[..k]), before[k]);
      assert ThrowsAtOnce(After(s, evs[..k]), evs[k]);
    }
    if ThrownBy(s, evs) {
      var k :| 0 <= k < |evs| && ThrowsAtOnce(After(s, evs[..k]), evs[k]);
      if k < n { assert ThrowsAtOnce(After(s, before[..k]), before[k]); }
    }
  }

  lemma FlightStep(s: State, ev: Event)
    ensures Step(s, ev).flight.Stuck? <==> s.flight.Stuck? || ThrowsAtOnce(s, ev)
    ensures s.flight.Stuck? ==>
              Step(s, ev).flight == s.flight && Step(s, ev).started == s.started && Step(s, ev).cached == s.cached
  {
    if ev.OnProbe? && s.flight.Running? {
      FlightKept(ProberReply(s.(flight := Idle, finished := s.finished + 1,
                     cached := if Good(ev.o) then Some(Entry(ev.o.models.value, ev.now)) else s.cached,
                     successes := if Good(ev.o) then s.successes + [ev.o.models.value] else s.successes),
                     s.flight.prober, ev.o, ev.built), s.flight.sharers, ReplyOf(ev.o));
    }
  }

  lemma {:induction false} FlightKept(s: State, tickets: seq<nat>, r: Result)
    ensures AnswerAll(s, tickets, r).flight == s.flight
  {
    if tickets != [] { FlightKept(s, tickets[..|tickets| - 1], r); }
  }

  /** From then on no probe ever starts again, and every request for the engine that finds no
    * fresh entry fails: the promise a probe returns is what the single flight rests on. */
  lemma {:induction false} AThrowEndsRefreshing(s: State, evs: seq<Event>, r: Request)
    requires s.flight == Stuck(CliError) && r.live
    ensures var t := After(s, evs);
            && t.flight == Stuck(CliError) && t.started == s.started && t.cached == s.cached
            && (r.force || !Fresh(t, r.now) ==>
                  Handle(t, r).desk.replies == t.desk.replies + [(t.tickets, Failed("cli_error"))])
  {
    if evs != [] {
      AThrowEndsRefreshing(s, evs[..|evs| - 1], r);
      FlightStep(After(s, evs[..|evs| - 1]), evs[|evs| - 1]);
    }
  }

  // ---- The program's objects ------------------------------------------------

  /** The cache: the last catalog and the shared probe. */
  class ClaudeCatalogCache {
    const ttl: int
    var cached: Option<Entry>
    var inFlight: Flight

    constructor (ttl: int := DEFAULT_TTL_MS)
      ensures this.ttl == ttl && cached.None? && inFlight == Idle
    {
      this.ttl, cached, inFlight := ttl, None, Idle;
    }

    /** The entry while it is fresh. */
    method GetIfFresh(now: int) returns (models: Option<Models>)
      ensures models.Some? <==> cached.Some? && now - cached.value.fetchedAt <= ttl
      ensures models.Some? ==> models.value == cached.value.models
    {
      if cached.None? { return None; }
      if now - cached.value.fetchedAt > ttl { return None; }
      return Some(cached.value.models);
    }

    /** The probe settles: a good outcome replaces the entry, any other leaves it. */
    method Settle(o: Outcome, now: int)
      modifies this
      ensures inFlight == Idle
      ensures cached == if Good(o) then Some(Entry(o.models.value, now)) else old(cached)
    {
      if o.ok && o.models.Some? { cached := Some(Entry(o.models.value, now)); }
      inFlight := Idle;
    }
  }

  /** The handler of refresh requests over one cache. */
  class RefreshHandler {
    const cache: ClaudeCatalogCache
    var tickets: nat
    ghost var desk: Desk<string, Result>
    ghost var started: nat
    ghost var finished: nat
    ghost var successes: seq<Models>
    ghost var pushes: seq<Models>

    ghost function View(): State
      reads this, cache
    {
      State(cache.cached, cache.inFlight, cache.ttl, tickets, desk, started, finished, successes, pushes)
    }

    constructor (ttl: int := DEFAULT_TTL_MS)
      ensures View() == Init(ttl) && fresh(cache)
    {
      cache := new ClaudeCatalogCache(ttl);
      tickets, desk := 0, Desk(map[], {}, [], {});
      started, finished, successes, pushes := 0, 0, [], [];
    }

    method SendResult(ticket: nat, r: Result)
      modifies this
      ensures View() == Answer(old(View()), ticket, r)
    {
      desk := Reply(desk, ticket, r);
    }

    method HandleRequest(r: Request)
      modifies this, cache
      ensures View() == Handle(old(View()), r)
    {
      var t := tickets;
      tickets := tickets + 1;
      desk := Ask(desk, t, r.id);
      if !r.live {
        SendResult(t, Failed("unsupported_engine"));
        return;
      }
      if !r.force {
        var models := cache.GetIfFresh(r.now);
        if models.Some? {
          SendResult(t, Refreshed(|models.value|));
          return;
        }
      }
      match cache.inFlight {
        case Running(p, sharers) => cache.inFlight := Running(p, sharers + [t]);
        case Stuck(o) => SendResult(t, ReplyOf(o));
        case Idle =>
          if r.throws {
            // The probe's own cleanup runs before the promise is stored, so it stays.
            cache.inFlight := Stuck(CliError);
            SendResult(t, ReplyOf(CliError));
          } else {
            cache.inFlight := Running(t, []);
            started := started + 1;
          }
      }
    }

    method HandleProbe(o: Outcome, now: int, built: bool)
      requires cache.inFlight.Running?
      modifies this, cache
      ensures View() == ProbeDone(old(View()), o, now, built)
    {
      var prober, sharers := cache.inFlight.prober, cache.inFlight.sharers;
      cache.Settle(o, now);
      finished := finished + 1;
      if Good(o) {
        successes := successes + [o.models.value];
        if built { pushes := pushes + [o.models.value]; }
      }
      SendResult(prober, if Good(o) && !built then Failed("cli_error") else ReplyOf(o));
      ghost var s := View();
      for i := 0 to |sharers|
        invariant View() == AnswerAll(s, sharers[..i], ReplyOf(o))
      {
        assert sharers[..i + 1][..i] == sharers[..i];
        SendResult(sharers[i], ReplyOf(o));
      }
      assert sharers[..|sharers|] == sharers;
    }
  }
}
