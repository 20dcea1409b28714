/** Delivery acknowledgement across joins and disconnects, as a step function over values:
  * which completions move the watermark, when a new watermark is sent at once and when it is
  * kept for replay. */
module AckSpec {
  import opened Wrappers
  import opened AckLedger

  datatype Identity = Identity(incarnation: string, generation: string)

  /** `id` is the object the weak map of captured identities is keyed by. */
  datatype Envelope = Envelope(id: nat, deliverySeq: Option<int>)

  datatype Status = Status(ackedSeq: int, skippedRanges: seq<(int, int)>)

  /** A queued microtask and what its closure captured. */
  datatype Replay = Replay(joinAcked: int, identity: Identity)

  /** A watermark handed to the transport, and the number of the join it was sent under. */
  datatype Send = Send(value: nat, join: nat)

  /** `joins` counts the joins opened so far; `sent` is everything ever sent. */
  datatype State = State(
    hasIdentity: bool, ledger: Ledger, captured: map<nat, Option<Identity>>,
    active: Option<Identity>, observed: bool, pending: Option<nat>,
    scheduled: bool, replays: seq<Replay>, joins: nat, sent: seq<Send>)

  function Init(hasIdentity: bool): State {
    State(hasIdentity, Empty, map[], None, false, None, false, [], 0, [])
  }

  function Max(a: int, b: int): int { if a >= b then a else b }

  function OrZero(v: Option<nat>): nat { if v.Some? then v.value else 0 }

  // ---- The ledger and what it makes the object send -------------------------

  /** What one call of the ledger answers: the watermark, when the call carried it past what
    * it was told. */
  function Answer(l: Ledger, op: Op): Option<nat> {
    var acked := Apply(l, op).acked;
    var told := if op.Bind? then op.baseline else l.acked;
    if l.acked <= told < acked then Some(acked) else None
  }

  /** One call of the ledger; its answer is sent, or kept while disconnected. */
  function Feed(s: State, op: Op, defer: bool): State {
    var out, t := Answer(s.ledger, op), s.(ledger := Apply(s.ledger, op));
    if out.None? then t
    else if defer then t.(pending := Some(Max(OrZero(s.pending), out.value)))
    else t.(sent := s.sent + [Send(out.value, s.joins)])
  }

  function FeedAll(s: State, ops: seq<Op>, defer: bool): State {
    if ops == [] then s else Feed(FeedAll(s, ops[..|ops| - 1], defer), ops[|ops| - 1], defer)
  }

  /** A missing or ill-typed number completes nothing, like a number below the watermark. */
  function OpOf(number: Option<int>): Op { Complete(if number.Some? then number.value else 0) }

  function RangeOps(first: int, last: int): seq<Op>
    decreases last - first
  {
    if last < first then [] else RangeOps(first, last - 1) + [Complete(last)]
  }

  function SkipOps(ranges: seq<(int, int)>): seq<Op> {
    if ranges == [] then []
    else SkipOps(ranges[..|ranges| - 1]) + RangeOps(ranges[|ranges| - 1].0, ranges[|ranges| - 1].1)
  }

  function CompleteOps(numbers: seq<int>): seq<Op> {
    if numbers == [] then [] else CompleteOps(numbers[..|numbers| - 1]) + [Complete(numbers[|numbers| - 1])]
  }

  // ---- Steps ----------------------------------------------------------------

  /** Whether a report under this live identity opens a new join. */
  predicate Opens(s: State, live: Option<Identity>) {
    && s.hasIdentity
    && (!s.observed || (live.None? && s.active.Some?) || (live.Some? && live != s.active))
  }

  /** A fresh ledger; whatever was deferred belonged to the old join. */
  function OpenJoin(s: State, live: Option<Identity>): State {
    s.(ledger := Empty, active := live, observed := true, pending := None, scheduled := false, joins := s.joins + 1)
  }

  /** The server reported a watermark: a deferred one is covered by it, or due for replay. */
  function Reconcile(s: State, joinAcked: int): State {
    if !IsSafe(joinAcked) || joinAcked < 0 || s.pending.None? then s
    else if s.pending.value <= joinAcked then s.(pending := None, scheduled := false)
    else if !s.hasIdentity || s.scheduled || s.active.None? then s
    else s.(scheduled := true, replays := s.replays + [Replay(joinAcked, s.active.value)])
  }

  function Observe(s: State, status: Option<Status>, live: Option<Identity>): State {
    var j := if Opens(s, live) then OpenJoin(s, live) else s;
    if status.None? then j
    else
      var bound := Feed(j, Bind(status.value.ackedSeq), false);
      Reconcile(FeedAll(bound, SkipOps(status.value.skippedRanges), false), status.value.ackedSeq)
  }

  function Capture(s: State, e: Envelope, live: Option<Identity>): State {
    if !s.hasIdentity || e.id in s.captured then s else s.(captured := s.captured[e.id := live])
  }

  /** Whether an envelope may count now, and whether its watermark has to wait. */
  function Allows(s: State, e: Envelope, live: Option<Identity>): (bool, bool) {
    if !s.hasIdentity then (true, false)
    else if e.id !in s.captured || !s.observed then (false, false)
    else if s.active.None? then (s.captured[e.id].None? && live.None?, false)
    else if s.captured[e.id] != s.active then (false, false)
    else if live.None? then (true, true)
    else (live == s.active, false)
  }

  function Acknowledge(s: State, e: Envelope, live: Option<Identity>): State {
    var (allowed, disconnected) := Allows(s, e, live);
    if allowed then Feed(s, OpOf(e.deliverySeq), disconnected) else s
  }

  function AcknowledgeAll(s: State, es: seq<Envelope>, live: Option<Identity>): State {
    if es == [] then s else Acknowledge(AcknowledgeAll(s, es[..|es| - 1], live), es[|es| - 1], live)
  }

  /** The engine took a turn: its envelopes are done; without envelopes the bare numbers count
    * only when no join identity is in use. */
  function TurnStart(s: State, es: Option<seq<Envelope>>, numbers: seq<int>, live: Option<Identity>): State {
    if es.Some? then AcknowledgeAll(s, es.value, live)
    else if s.hasIdentity then s
    else FeedAll(s, CompleteOps(numbers), false)
  }

  /** The first queued microtask: replays the deferred watermark if its join is still live. */
  function RunReplay(s: State, live: Option<Identity>): State {
    if s.replays == [] then s
    else
      var task := s.replays[0];
      var t := s.(replays := s.replays[1..], scheduled := false);
      if s.pending.None? || s.pending.value <= task.joinAcked
         || live != Some(task.identity) || s.active != Some(task.identity) then t
      else t.(sent := s.sent + [Send(s.pending.value, s.joins)])
  }

  datatype Event =
    | OnStatus(status: Option<Status>, live: Option<Identity>)
    | OnCapture(e: Envelope, live: Option<Identity>)
    | OnAcknowledge(e: Envelope, live: Option<Identity>)
    | OnTurn(es: Option<seq<Envelope>>, numbers: seq<int>, live: Option<Identity>)
    | OnReplay(live: Option<Identity>)

  function Step(s: State, ev: Event): State {
    match ev
    case OnStatus(status, live) => Observe(s, status, live)
    case OnCapture(e, live) => Capture(s, e, live)
    case OnAcknowledge(e, live) => Acknowledge(s, e, live)
    case OnTurn(es, numbers, live) => TurnStart(s, es, numbers, live)
    case OnReplay(live) => RunReplay(s, live)
  }

  function After(h: bool, evs: seq<Event>): State {
    if evs == [] then Init(h) else Step(After(h, evs[..|evs| - 1]), evs[|evs| - 1])
  }
}
