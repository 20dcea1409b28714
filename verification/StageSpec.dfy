/** Delivery stages: what the wrapper reports to the server about each message it was given,
  * from receipt to the end of the turn that consumed it. */
module StageSpec {
  import opened Wrappers

  datatype Identity = Identity(incarnation: string, generation: string)
  datatype Mode = Normal | Early | Yield

  /** A received message. `id` tells apart two objects with the same content. */
  datatype Envelope = Envelope(id: nat, sequence: Option<nat>, granted: Option<Mode>)

  datatype Stage = Queued | Submitted | Included | Settled | Unknown
  datatype Reason = TurnEnd | FailedBeforeHandoff | LocalPolicyDisabled | Other(text: string)

  /** A report as sent; `delivery` tells which tracked delivery it is about. */
  datatype Report = Report(delivery: nat, identity: Identity, sequence: nat, stage: Stage, reason: Option<Reason>,
                           mode: Option<Mode>)

  /** What is known of one delivery. Deliveries are numbered in the order they were tracked. */
  datatype Delivery = Delivery(
    identity: Option<Identity>, sequence: nat, mode: Option<Mode>,
    submitted: bool, disabled: bool, steer: bool, turn: Option<string>)

  datatype Key = Key(identity: Option<Identity>, sequence: nat)

  const MAX_TRACKED_DELIVERIES: nat := 512

  datatype State = State(
    deliveries: map<Key, nat>, info: seq<Delivery>, retired: set<nat>,
    byTurn: map<string, seq<nat>>,
    captured: map<Envelope, Option<Identity>>, ofEnvelope: map<Envelope, nat>,
    last: Option<Identity>, warned: bool, sent: seq<Report>)

  function Init(): State { State(map[], [], {}, map[], map[], map[], None, false, []) }

  function KeyOf(d: Delivery): Key { Key(d.identity, d.sequence) }

  predicate Tracked(s: State, d: nat) {
    d < |s.info| && KeyOf(s.info[d]) in s.deliveries && s.deliveries[KeyOf(s.info[d])] == d
  }

  function Without(xs: seq<nat>, d: nat): seq<nat> {
    if xs == [] then [] else Without(xs[..|xs| - 1], d) + if xs[|xs| - 1] == d then [] else [xs[|xs| - 1]]
  }

  // ---- Steps every operation is made of -------------------------------------

  /** A new join identity ends every delivery of the one before. */
  function Observe(s: State, current: Option<Identity>): State {
    if current.None? || current == s.last then s
    else s.(deliveries := map[], byTurn := map[], retired := s.retired + s.deliveries.Values, last := current,
            warned := if s.deliveries == map[] then s.warned else false)
  }

  function Track(s: State, sequence: nat, mode: Option<Mode>, identity: Option<Identity>): (State, Option<nat>) {
    var key := Key(identity, sequence);
    if key in s.deliveries then (s, Some(s.deliveries[key]))
    else if |s.deliveries| >= MAX_TRACKED_DELIVERIES then (s.(warned := true), None)
    else (s.(deliveries := s.deliveries[key := |s.info|], warned := false,
             info := s.info + [Delivery(identity, sequence, mode, false, false, false, None)]), Some(|s.info|))
  }

  /** First receipt: the envelope keeps the identity it arrived under, tracked or not. */
  function Capture(s: State, e: Envelope, current: Option<Identity>): State {
    if e.sequence.None? || e in s.captured then s
    else
      var o := Observe(s, current);
      var (t, d) := Track(o.(captured := o.captured[e := o.last]), e.sequence.value, e.granted, o.last);
      if d.Some? then t.(ofEnvelope := t.ofEnvelope[e := d.value]) else t
  }

  function Remove(s: State, d: nat): State {
    if !Tracked(s, d) then s
    else
      s.(deliveries := s.deliveries - {KeyOf(s.info[d])}, retired := s.retired + {d}, warned := false,
         byTurn := WithoutDelivery(s.byTurn, s.info[d].turn, d))
  }

  function WithoutDelivery(byTurn: map<string, seq<nat>>, turn: Option<string>, d: nat): map<string, seq<nat>> {
    if turn.None? || turn.value !in byTurn then byTurn
    else
      var rest := Without(byTurn[turn.value], d);
      if rest == [] then byTurn - {turn.value} else byTurn[turn.value := rest]
  }

  /** Sends a report, unless the delivery is over or has no identity to report under. */
  function Send(s: State, d: nat, stage: Stage, reason: Option<Reason>, mode: Option<Mode>,
                current: Option<Identity>): State {
    var o := Observe(s, current);
    if d in o.retired || !Tracked(o, d) || o.info[d].identity.None? then o
    else if o.last.Some? && o.last != o.info[d].identity then Remove(o, d)
    else o.(sent := o.sent + [Report(d, o.info[d].identity.value, o.info[d].sequence, stage, reason, mode)])
  }

  /** The delivery of an envelope joins the turn that consumes it; the first turn keeps it. */
  function Record(s: State, turn: string, e: Envelope, current: Option<Identity>): State {
    var c := Capture(s, e, current);
    if e !in c.ofEnvelope then c
    else
      var d := c.ofEnvelope[e];
      if d in c.retired || !Tracked(c, d) || (c.info[d].turn.Some? && c.info[d].turn != Some(turn)) then c
      else
        var listed := if turn in c.byTurn then c.byTurn[turn] else [];
        c.(info := c.info[d := c.info[d].(turn := Some(turn))],
           byTurn := c.byTurn[turn := if d in listed then listed else listed + [d]])
  }

  function RecordAll(s: State, turn: string, es: seq<Envelope>, current: Option<Identity>): State {
    if es == [] then s else Record(RecordAll(s, turn, es[..|es| - 1], current), turn, es[|es| - 1], current)
  }

  /** Takes the delivery of the envelope to its end. */
  function End(s: State, d: nat, stage: Stage, reason: Option<Reason>, mode: Option<Mode>,
               current: Option<Identity>): State {
    Remove(Send(s, d, stage, reason, mode, current), d)
  }

  function Turn(s: State, turn: string): seq<nat> { if turn in s.byTurn then s.byTurn[turn] else [] }

  // ---- Operations -----------------------------------------------------------

  function QueuedOp(s: State, e: Envelope, current: Option<Identity>): State {
    var o := Observe(s, current);
    if e.sequence.None? then o
    else
      var c := Capture(o, e, current);
      if e in c.ofEnvelope && c.ofEnvelope[e] < |c.info| then
        Send(c, c.ofEnvelope[e], Queued, None, c.info[c.ofEnvelope[e]].mode, current)
      else c
  }

  function Disable(s: State, e: Envelope, current: Option<Identity>): State {
    var c := Capture(s, e, current);
    if e !in c.ofEnvelope || c.ofEnvelope[e] >= |c.info| then c
    else
      var d := c.ofEnvelope[e];
      if d in c.retired || c.info[d].submitted || c.info[d].disabled then c
      else Send(c.(info := c.info[d := c.info[d].(disabled := true, mode := Some(Normal))]), d, Queued,
                Some(LocalPolicyDisabled), Some(Normal), current)
  }

  function DisableAll(s: State, es: seq<Envelope>, current: Option<Identity>): State {
    if es == [] then Observe(s, current) else Disable(DisableAll(s, es[..|es| - 1], current), es[|es| - 1], current)
  }

  function SubmitOne(s: State, d: nat, steer: bool, current: Option<Identity>): State {
    if d >= |s.info| || s.info[d].submitted then s
    else
      var x := s.info[d].(submitted := true, steer := s.info[d].steer || steer);
      Send(s.(info := s.info[d := x]), d, Submitted, None, s.info[d].mode, current)
  }

  function SubmitEach(s: State, ds: seq<nat>, current: Option<Identity>): State {
    if ds == [] then s else SubmitOne(SubmitEach(s, ds[..|ds| - 1], current), ds[|ds| - 1], false, current)
  }

  /** Every message the turn consumes has joined it. */
  function Gathered(s: State, turn: string, es: seq<Envelope>, current: Option<Identity>): State {
    RecordAll(Observe(s, current), turn, es, current)
  }

  function SubmittedOp(s: State, turn: string, es: seq<Envelope>, current: Option<Identity>): State {
    var r := Gathered(s, turn, es, current);
    SubmitEach(r, Turn(r, turn), current)
  }

  function SteerEach(s: State, turn: string, es: seq<Envelope>, current: Option<Identity>): State {
    if es == [] then Observe(s, current)
    else
      var r := Record(SteerEach(s, turn, es[..|es| - 1], current), turn, es[|es| - 1], current);
      if es[|es| - 1] in r.ofEnvelope then SubmitOne(r, r.ofEnvelope[es[|es| - 1]], true, current) else r
  }

  /** Whether an end reports that the outcome is unknown, that the turn ended or that the
    * message was skipped. */
  datatype Ending = Ending(stage: Stage, reason: Reason, mode: Option<Mode>)

  function EndEach(s: State, es: seq<Envelope>, end: Ending, current: Option<Identity>): State {
    if es == [] then Observe(s, current)
    else
      var c := Capture(EndEach(s, es[..|es| - 1], end, current), es[|es| - 1], current);
      if es[|es| - 1] !in c.ofEnvelope then c
      else End(c, c.ofEnvelope[es[|es| - 1]], end.stage, Some(end.reason), end.mode, current)
  }

  function NoteEach(s: State, es: seq<Envelope>, stage: Stage, current: Option<Identity>): State {
    if es == [] then Observe(s, current)
    else
      var c := Capture(NoteEach(s, es[..|es| - 1], stage, current), es[|es| - 1], current);
      if es[|es| - 1] in c.ofEnvelope then Send(c, c.ofEnvelope[es[|es| - 1]], stage, None, None, current) else c
  }

  function RetireEach(s: State, es: seq<Envelope>): State {
    if es == [] then s
    else
      var r := RetireEach(s, es[..|es| - 1]);
      if es[|es| - 1] in r.ofEnvelope then Remove(r, r.ofEnvelope[es[|es| - 1]]) else r
  }

  /** How a turn closes one of its deliveries; steered ones are left to their own answer. */
  function CloseOne(s: State, d: nat, unknown: Option<Reason>, current: Option<Identity>): State {
    if d >= |s.info| || s.info[d].steer then s
    else if s.info[d].submitted then End(s, d, Settled, Some(TurnEnd), None, current)
    else if unknown.Some? then End(s, d, Unknown, unknown, None, current)
    else End(s, d, Settled, Some(FailedBeforeHandoff), None, current)
  }

  function CloseEach(s: State, ds: seq<nat>, unknown: Option<Reason>, current: Option<Identity>): State {
    if ds == [] then s else CloseOne(CloseEach(s, ds[..|ds| - 1], unknown, current), ds[|ds| - 1], unknown, current)
  }

  /** The end of a turn; `unknown` is set when its outcome cannot be established. */
  function CloseTurn(s: State, turn: string, es: seq<Envelope>, unknown: Option<Reason>,
                     current: Option<Identity>): State {
    var r := Gathered(s, turn, es, current);
    var closed := CloseEach(r, Turn(r, turn), unknown, current);
    closed.(byTurn := closed.byTurn - {turn})
  }

  // ---- Runs -----------------------------------------------------------------

  /** The identity every operation is given is the one in force while it runs. */
  datatype Event =
    | OnCapture(e: Envelope, current: Option<Identity>)
    | OnQueued(e: Envelope, current: Option<Identity>)
    | OnLocalPolicyDisabled(es: seq<Envelope>, current: Option<Identity>)
    | OnSubmitted(turn: string, es: seq<Envelope>, current: Option<Identity>)
    | OnSteerSubmitted(turn: string, es: seq<Envelope>, current: Option<Identity>)
    | OnEnded(es: seq<Envelope>, end: Ending, current: Option<Identity>)
    | OnNoted(es: seq<Envelope>, stage: Stage, current: Option<Identity>)
    | OnRetired(es: seq<Envelope>)
    | OnTurnClosed(turn: string, es: seq<Envelope>, unknown: Option<Reason>, current: Option<Identity>)

  predicate Terminal(stage: Stage) { stage == Settled || stage == Unknown }

  /** The endings and notes the reporter has. */
  predicate Proper(ev: Event) {
    match ev
    case OnEnded(_, end, _) => Terminal(end.stage)
    case OnNoted(_, stage, _) => stage == Included || stage == Queued
    case _ => true
  }

  function Step(s: State, ev: Event): State {
    match ev
    case OnCapture(e, current) => Capture(s, e, current)
    case OnQueued(e, current) => QueuedOp(s, e, current)
    case OnLocalPolicyDisabled(es, current) => DisableAll(s, es, current)
    case OnSubmitted(turn, es, current) => SubmittedOp(s, turn, es, current)
    case OnSteerSubmitted(turn, es, current) => SteerEach(s, turn, es, current)
    case OnEnded(es, end, current) => EndEach(s, es, end, current)
    case OnNoted(es, stage, current) => NoteEach(s, es, stage, current)
    case OnRetired(es) => RetireEach(s, es)
    case OnTurnClosed(turn, es, unknown, current) => CloseTurn(s, turn, es, unknown, current)
  }

  function After(evs: seq<Event>): State {
    if evs == [] then Init() else Step(After(evs[..|evs| - 1]), evs[|evs| - 1])
  }
}
