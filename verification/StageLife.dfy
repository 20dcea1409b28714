/** One delivery's life: a small machine that knows a single delivery, and the proof that the
  * reporter runs it, report for report, on every delivery it tracks. */
module StageLife {
  import opened Wrappers
  import opened StageSpec
  import opened StageSafety

  // ---- The machine ----------------------------------------------------------

  /** `listed` says that the turn the delivery belongs to will submit and close it. */
  datatype Life = Life(info: Delivery, alive: bool, listed: bool)

  /** A report about this delivery; none without an identity to report under. */
  function Tell(d: nat, x: Delivery, stage: Stage, reason: Option<Reason>, mode: Option<Mode>): seq<Report> {
    if x.identity.None? then [] else [Report(d, x.identity.value, x.sequence, stage, reason, mode)]
  }

  function Times(n: nat, rs: seq<Report>): seq<Report> { if n == 0 then [] else Times(n - 1, rs) + rs }

  /** A turn consumes the message: the delivery joins it unless it belongs to another. */
  function Join(l: Life, turn: string): Life {
    if l.info.turn.None? || l.info.turn == Some(turn) then l.(info := l.info.(turn := Some(turn)), listed := true)
    else l
  }

  predicate InTurn(l: Life, turn: string) { l.listed && l.info.turn == Some(turn) }

  function Joined(l: Life, turn: string, named: nat): Life { if named > 0 then Join(l, turn) else l }

  function HandOver(l: Life, steer: bool): Life {
    l.(info := l.info.(submitted := true, steer := l.info.steer || steer))
  }

  /** What becomes of a delivery that an event names `named` times. */
  function Next(l: Life, named: nat, ev: Event): Life {
    match ev
    case OnCapture(_, _) => l
    case OnQueued(_, _) => l
    case OnLocalPolicyDisabled(_, _) =>
      if named > 0 && !l.info.submitted && !l.info.disabled
      then l.(info := l.info.(disabled := true, mode := Some(Normal))) else l
    case OnSubmitted(turn, _, _) =>
      var j := Joined(l, turn, named);
      if InTurn(j, turn) && !j.info.submitted then HandOver(j, false) else j
    case OnSteerSubmitted(turn, _, _) =>
      var j := Joined(l, turn, named);
      if named > 0 && !j.info.submitted then HandOver(j, true) else j
    case OnEnded(_, _, _) => if named > 0 then l.(alive := false) else l
    case OnNoted(_, _, _) => l
    case OnRetired(_) => if named > 0 then l.(alive := false) else l
    case OnTurnClosed(turn, _, _, _) =>
      var j := Joined(l, turn, named);
      if !InTurn(j, turn) then j else if j.info.steer then j.(listed := false) else j.(alive := false)
  }

  /** What the server is told of it meanwhile. */
  function Says(d: nat, l: Life, named: nat, ev: Event): seq<Report> {
    match ev
    case OnCapture(_, _) => []
    case OnQueued(_, _) => if named > 0 then Tell(d, l.info, Queued, None, l.info.mode) else []
    case OnLocalPolicyDisabled(_, _) =>
      if named > 0 && !l.info.submitted && !l.info.disabled
      then Tell(d, l.info, Queued, Some(LocalPolicyDisabled), Some(Normal)) else []
    case OnSubmitted(turn, _, _) =>
      if InTurn(Joined(l, turn, named), turn) && !l.info.submitted
      then Tell(d, l.info, Submitted, None, l.info.mode) else []
    case OnSteerSubmitted(_, _, _) =>
      if named > 0 && !l.info.submitted then Tell(d, l.info, Submitted, None, l.info.mode) else []
    case OnEnded(_, end, _) => if named > 0 then Tell(d, l.info, end.stage, Some(end.reason), end.mode) else []
    case OnNoted(_, stage, _) => Times(named, Tell(d, l.info, stage, None, None))
    case OnRetired(_) => []
    case OnTurnClosed(turn, _, unknown, _) =>
      if !InTurn(Joined(l, turn, named), turn) || l.info.steer then []
      else if l.info.submitted then Tell(d, l.info, Settled, Some(TurnEnd), None)
      else if unknown.Some? then Tell(d, l.info, Unknown, unknown, None)
      else Tell(d, l.info, Settled, Some(FailedBeforeHandoff), None)
  }

  // ---- A delivery of the reporter -------------------------------------------

  predicate Lists(byTurn: map<string, seq<nat>>, turn: Option<string>, d: nat) {
    turn.Some? && turn.value in byTurn && d in byTurn[turn.value]
  }

  function LifeOf(s: State, d: nat): Life
    requires d < |s.info|
  {
    Life(s.info[d], d !in s.retired, Lists(s.byTurn, s.info[d].turn, d))
  }

  /** The reports about one delivery, in order. */
  function About(sent: seq<Report>, d: nat): seq<Report> {
    if sent == [] then []
    else About(sent[..|sent| - 1], d) + if sent[|sent| - 1].delivery == d then [sent[|sent| - 1]] else []
  }

  /** The envelope is this delivery's: it was received as such, or is received now with its
    * number. */
  predicate Names(s: State, e: Envelope, d: nat)
    requires d < |s.info|
  {
    if e in s.captured then Holds(s, e, d) else e.sequence == Some(s.info[d].sequence)
  }

  predicate Holds(s: State, e: Envelope, d: nat) { e in s.ofEnvelope && s.ofEnvelope[e] == d }

  function Mentions(s: State, es: seq<Envelope>, d: nat): nat
    requires d < |s.info|
  {
    if es == [] then 0 else Mentions(s, es[..|es| - 1], d) + if Names(s, es[|es| - 1], d) then 1 else 0
  }

  function Holdings(s: State, es: seq<Envelope>, d: nat): nat {
    if es == [] then 0 else Holdings(s, es[..|es| - 1], d) + if Holds(s, es[|es| - 1], d) then 1 else 0
  }

  function Named(s: State, ev: Event, d: nat): nat
    requires d < |s.info|
  {
    match ev
    case OnCapture(e, _) => 0
    case OnQueued(e, _) => if Names(s, e, d) then 1 else 0
    case OnLocalPolicyDisabled(es, _) => Mentions(s, es, d)
    case OnSubmitted(_, es, _) => Mentions(s, es, d)
    case OnSteerSubmitted(_, es, _) => Mentions(s, es, d)
    case OnEnded(es, _, _) => Mentions(s, es, d)
    case OnNoted(es, _, _) => Mentions(s, es, d)
    case OnRetired(es) => Holdings(s, es, d)
    case OnTurnClosed(_, es, _, _) => Mentions(s, es, d)
  }

  /** The event brings a new join identity. */
  predicate NewJoin(s: State, ev: Event) {
    && !ev.OnRetired? && ev.current.Some? && ev.current != s.last
    && (ev.OnCapture? ==> ev.e.sequence.Some? && ev.e !in s.captured)
  }

  /** From `s` to `t` the delivery came to `l`, and the server heard `rs` about it. */
  ghost predicate Moves(s: State, t: State, d: nat, l: Life, rs: seq<Report>) {
    && d < |s.info| <= |t.info| && About(t.sent, d) == About(s.sent, d) + rs
    && (if l.alive then LifeOf(t, d) == l else d in t.retired)
  }

  /** The same envelopes are the delivery's. */
  ghost predicate NamesKept(s: State, t: State, d: nat) {
    d < |s.info| <= |t.info| && forall e :: Names(t, e, d) == Names(s, e, d) && (Holds(s, e, d) ==> Holds(t, e, d))
  }

  lemma AboutSnoc(sent: seq<Report>, r: Report, d: nat)
    ensures About(sent + [r], d) == About(sent, d) + if r.delivery == d then [r] else []
  {
    assert (sent + [r])[..|sent|] == sent;
  }

  // ---- One call at a time ---------------------------------------------------

  lemma CaptureMoves(s: State, e: Envelope, current: Option<Identity>, d: nat)
    requires Inv(s) && Current(s, current) && d < |s.info| && d !in s.retired
    ensures var t := Capture(s, e, current);
            && Inv(t) && Current(t, current) && t.last == s.last
            && Moves(s, t, d, LifeOf(s, d), []) && NamesKept(s, t, d)
            && (Names(s, e, d) <==> Holds(t, e, d))
  {
    hide Inv, Track, About;
    CaptureKeeps(s, e, current);
    if e.sequence.Some? && e !in s.captured {
      FirstMoves(s, e, d);
    } else {
      HeldIsCaptured(s);
      Unmoved(s, d);
    }
  }

  lemma FirstMoves(s: State, e: Envelope, d: nat)
    requires Inv(s) && d < |s.info| && d !in s.retired && e.sequence.Some? && e !in s.captured
    ensures var (t, k) := Track(s.(captured := s.captured[e := s.last]), e.sequence.value, e.granted, s.last);
            var u := if k.Some? then t.(ofEnvelope := t.ofEnvelope[e := k.value]) else t;
            && Moves(s, u, d, LifeOf(s, d), []) && NamesKept(s, u, d)
            && (Names(s, e, d) <==> Holds(u, e, d))
  {
    hide Inv, Track, About;
    var p := s.(captured := s.captured[e := s.last]);
    StampKeeps(s, e);
    TrackFinds(p, e.sequence.value, e.granted, d);
    FirstHeld(s, e, d);
    HeldIsCaptured(s);
  }

  /** Tracking a number finds a live delivery exactly when the number is its own. */
  lemma TrackFinds(s: State, sequence: nat, mode: Option<Mode>, d: nat)
    requires Inv(s) && d < |s.info| && d !in s.retired
    ensures var (t, k) := Track(s, sequence, mode, s.last);
            && t == s.(deliveries := t.deliveries, warned := t.warned, info := t.info)
            && |s.info| <= |t.info| && t.info[d] == s.info[d]
            && (k == Some(d) <==> sequence == s.info[d].sequence)
  {
    hide Captures, Orderly, Authentic, Closed, FlagsTell, Turns, Successive;
    TrackedIsUnretired(s, d);
  }

  lemma HeldIsCaptured(s: State)
    requires Inv(s)
    ensures forall e :: e in s.ofEnvelope ==> e in s.captured && e.sequence.Some?
  {
    hide Orderly, Authentic, Closed, FlagsTell, Indexed;
  }

  lemma FirstHeld(s: State, e: Envelope, d: nat)
    requires Inv(s) && e !in s.captured
    ensures !Holds(s, e, d)
  {
    HeldIsCaptured(s);
  }

  lemma SendMoves(s: State, k: nat, stage: Stage, reason: Option<Reason>, mode: Option<Mode>, current: Option<Identity>,
                  d: nat)
    requires Inv(s) && Current(s, current) && d < |s.info|
    ensures var t := Send(s, k, stage, reason, mode, current);
            && t == s.(sent := t.sent)
            && About(t.sent, d) == About(s.sent, d)
                 + if k == d && d !in s.retired then Tell(d, s.info[d], stage, reason, mode) else []
  {
    hide Inv, Send;
    SendIs(s, k, stage, reason, mode, current);
    TrackedIsUnretired(s, d);
    if Tracked(s, k) && s.info[k].identity.Some? {
      AboutSnoc(s.sent, Report(k, s.info[k].identity.value, s.info[k].sequence, stage, reason, mode), d);
    }
  }

  lemma RemoveMoves(s: State, k: nat, d: nat)
    requires Indexed(s) && d < |s.info|
    ensures var t := Remove(s, k);
            && t.info == s.info && t.sent == s.sent && t.captured == s.captured && t.ofEnvelope == s.ofEnvelope
            && t.last == s.last && s.retired <= t.retired
            && (if k == d then d in t.retired
                else (d in t.retired <==> d in s.retired) && LifeOf(t, d).listed == LifeOf(s, d).listed)
  {
    hide Successive;
    if Tracked(s, k) && s.info[k].turn.Some? && s.info[k].turn.value in s.byTurn {
      WithoutKeeps(s.byTurn[s.info[k].turn.value], k);
    }
  }

  /** Flags of one delivery change and the server hears of it. */
  lemma MarkMoves(s: State, k: nat, x: Delivery, sent: seq<Report>, rs: seq<Report>, d: nat)
    requires k < |s.info| && d < |s.info| && d !in s.retired
    requires x.sequence == s.info[k].sequence && x.turn == s.info[k].turn && About(sent, d) == About(s.sent, d) + rs
    ensures var t := s.(info := s.info[k := x], sent := sent);
            && NamesKept(s, t, d)
            && Moves(s, t, d, if k == d then LifeOf(s, d).(info := x) else LifeOf(s, d), rs)
  {
    hide About;
  }

  lemma SubmitOneMoves(s: State, k: nat, steer: bool, current: Option<Identity>, d: nat)
    requires Inv(s) && Current(s, current) && d < |s.info| && d !in s.retired
    ensures var t, l := SubmitOne(s, k, steer, current), LifeOf(s, d);
            && NamesKept(s, t, d)
            && (if k == d && !l.info.submitted
                then Moves(s, t, d, HandOver(l, steer), Tell(d, l.info, Submitted, None, l.info.mode))
                else Moves(s, t, d, l, []))
  {
    hide Inv, Send, About, Moves, NamesKept, Tracked;
    if k < |s.info| && !s.info[k].submitted {
      var x := s.info[k].(submitted := true, steer := s.info[k].steer || steer);
      SubmitIs(s, k, x, s.info[k].mode, current);
      TrackedIsUnretired(s, k);
      var t := SubmitOne(s, k, steer, current);
      var rs := if k == d then Tell(d, x, Submitted, None, x.mode) else [];
      assert About(t.sent, d) == About(s.sent, d) + rs by {
        if Tracked(s, k) && x.identity.Some? {
          AboutSnoc(s.sent, Report(k, x.identity.value, x.sequence, Submitted, None, s.info[k].mode), d);
        }
      }
      MarkMoves(s, k, x, t.sent, rs, d);
    } else {
      Unmoved(s, d);
    }
  }

  lemma Unmoved(s: State, d: nat)
    requires d < |s.info| && d !in s.retired
    ensures Moves(s, s, d, LifeOf(s, d), []) && NamesKept(s, s, d)
  {
    hide About;
  }

  lemma RecordMoves(s: State, turn: string, e: Envelope, current: Option<Identity>, d: nat)
    requires Inv(s) && Current(s, current) && d < |s.info| && d !in s.retired
    ensures var t, l := Record(s, turn, e, current), LifeOf(s, d);
            && Inv(t) && Current(t, current) && NamesKept(s, t, d) && (Names(s, e, d) <==> Holds(t, e, d))
            && Moves(s, t, d, if Names(s, e, d) then Join(l, turn) else l, [])
  {
    hide Inv, Capture;
    RecordKeeps(s, turn, e, current);
    CaptureMoves(s, e, current, d);
    TrackedIsUnretired(Capture(s, e, current), d);
  }

  // ---- Every envelope of a call ---------------------------------------------

  lemma MovesThrough(s: State, t: State, u: State, d: nat, l: Life, rs: seq<Report>, l': Life, rs': seq<Report>)
    requires Moves(s, t, d, l, rs) && Moves(t, u, d, l', rs')
    ensures Moves(s, u, d, l', rs + rs')
  {
  }

  lemma NamesThrough(s: State, t: State, u: State, d: nat)
    requires NamesKept(s, t, d) && NamesKept(t, u, d)
    ensures NamesKept(s, u, d)
  {
  }

  lemma {:induction false} RecordAllMoves(s: State, turn: string, es: seq<Envelope>, current: Option<Identity>, d: nat)
    requires Inv(s) && Current(s, current) && d < |s.info| && d !in s.retired
    ensures var t := RecordAll(s, turn, es, current);
            && Inv(t) && Current(t, current) && NamesKept(s, t, d)
            && Moves(s, t, d, Joined(LifeOf(s, d), turn, Mentions(s, es, d)), [])
  {
    hide Inv, Record;
    if es != [] {
      var n := |es| - 1;
      var b := RecordAll(s, turn, es[..n], current);
      RecordAllMoves(s, turn, es[..n], current, d);
      RecordMoves(b, turn, es[n], current, d);
      MovesThrough(s, b, Record(b, turn, es[n], current), d, LifeOf(b, d), [],
                   if Names(b, es[n], d) then Join(LifeOf(b, d), turn) else LifeOf(b, d), []);
      NamesThrough(s, b, Record(b, turn, es[n], current), d);
    }
  }

  lemma {:induction false} SubmitEachMoves(s: State, ds: seq<nat>, current: Option<Identity>, d: nat)
    requires Inv(s) && Current(s, current) && d < |s.info| && d !in s.retired
    ensures var t, l := SubmitEach(s, ds, current), LifeOf(s, d);
            if d in ds && !l.info.submitted
            then Moves(s, t, d, HandOver(l, false), Tell(d, l.info, Submitted, None, l.info.mode))
            else Moves(s, t, d, l, [])
  {
    hide Inv, SubmitOne, Tell, NamesKept;
    if ds != [] {
      var n, l := |ds| - 1, LifeOf(s, d);
      var b, now := SubmitEach(s, ds[..n], current), d in ds[..n] && !l.info.submitted;
      SubmitEachMoves(s, ds[..n], current, d);
      SubmitEachKeeps(s, ds[..n], current);
      SubmitOneMoves(b, ds[n], false, current, d);
      assert ds == ds[..n] + [ds[n]];
    }
  }

  lemma {:induction false} NoteEachMoves(s: State, es: seq<Envelope>, stage: Stage, current: Option<Identity>, d: nat)
    requires Inv(s) && Current(s, current) && d < |s.info| && d !in s.retired && !Terminal(stage) && stage != Submitted
    ensures var t := NoteEach(s, es, stage, current);
            && NamesKept(s, t, d)
            && Moves(s, t, d, LifeOf(s, d), Times(Mentions(s, es, d), Tell(d, s.info[d], stage, None, None)))
  {
    hide Inv, Capture, Send, Tell, About, Moves, NamesKept;
    Unmoved(s, d);
    assert Observe(s, current) == s;
    if es != [] {
      var n := |es| - 1;
      var b := NoteEach(s, es[..n], stage, current);
      NoteEachMoves(s, es[..n], stage, current, d);
      NoteEachKeeps(s, es[..n], stage, current);
      var rs := Times(Mentions(s, es[..n], d), Tell(d, s.info[d], stage, None, None));
      NoteMoves(s, b, es[n], stage, current, d, rs);
      assert rs + [] == rs;
    } else {
      assert NoteEach(s, es, stage, current) == s;
    }
  }

  lemma NoteMoves(s: State, b: State, e: Envelope, stage: Stage, current: Option<Identity>, d: nat, rs: seq<Report>)
    requires Inv(b) && Current(b, current) && d < |s.info| && d !in s.retired && NamesKept(s, b, d)
    requires Moves(s, b, d, LifeOf(s, d), rs)
    ensures var c := Capture(b, e, current);
            var t := if e in c.ofEnvelope then Send(c, c.ofEnvelope[e], stage, None, None, current) else c;
            && NamesKept(s, t, d)
            && Moves(s, t, d, LifeOf(s, d), rs + if Names(s, e, d) then Tell(d, s.info[d], stage, None, None) else [])
  {
    hide Inv, Capture, Send, Tell, About;
    CaptureMoves(b, e, current, d);
    var c := Capture(b, e, current);
    if e in c.ofEnvelope { SendMoves(c, c.ofEnvelope[e], stage, None, None, current, d); }
    assert About(c.sent, d) == About(s.sent, d) + rs;
  }

  lemma {:induction false} DisableAllMoves(s: State, es: seq<Envelope>, current: Option<Identity>, d: nat)
    requires Inv(s) && Current(s, current) && d < |s.info| && d !in s.retired
    ensures var t, ev := DisableAll(s, es, current), OnLocalPolicyDisabled(es, current);
            && NamesKept(s, t, d)
            && Moves(s, t, d, Next(LifeOf(s, d), Mentions(s, es, d), ev), Says(d, LifeOf(s, d), Mentions(s, es, d), ev))
  {
    hide Inv, Disable, Tell, About, Moves, NamesKept;
    Unmoved(s, d);
    assert Observe(s, current) == s;
    if es != [] {
      var n := |es| - 1;
      var b, m, ev := DisableAll(s, es[..n], current), Mentions(s, es[..n], d), OnLocalPolicyDisabled(es, current);
      DisableAllMoves(s, es[..n], current, d);
      DisableAllKeeps(s, es[..n], current);
      var l, rs := Next(LifeOf(s, d), m, ev), Says(d, LifeOf(s, d), m, ev);
      DisableMoves(s, b, es[n], current, d, l, rs);
      NothingBefore(Tell(d, l.info, Queued, Some(LocalPolicyDisabled), Some(Normal)));
    } else {
      assert DisableAll(s, es, current) == s;
    }
  }

  lemma DisableMoves(s: State, b: State, e: Envelope, current: Option<Identity>, d: nat, l: Life, rs: seq<Report>)
    requires Inv(b) && Current(b, current) && d < |s.info| && d !in s.retired && NamesKept(s, b, d)
    requires Moves(s, b, d, l, rs) && l.alive
    ensures var t, off := Disable(b, e, current), Names(s, e, d) && !l.info.submitted && !l.info.disabled;
            && NamesKept(s, t, d)
            && (if off then Moves(s, t, d, l.(info := l.info.(disabled := true, mode := Some(Normal))),
                                  rs + Tell(d, l.info, Queued, Some(LocalPolicyDisabled), Some(Normal)))
                else Moves(s, t, d, l, rs))
  {
    hide Inv, Capture, Send, About;
    CaptureMoves(b, e, current, d);
    var c := Capture(b, e, current);
    assert About(c.sent, d) == About(s.sent, d) + rs;
    if e in c.ofEnvelope && c.ofEnvelope[e] < |c.info| {
      var k := c.ofEnvelope[e];
      if k !in c.retired && !c.info[k].submitted && !c.info[k].disabled {
        var x := c.info[k].(disabled := true, mode := Some(Normal));
        MarkKeeps(c, k, x);
        SendMoves(c.(info := c.info[k := x]), k, Queued, Some(LocalPolicyDisabled), Some(Normal), current, d);
      }
    }
  }

  lemma {:induction false} SteerEachMoves(s: State, turn: string, es: seq<Envelope>, current: Option<Identity>, d: nat)
    requires Inv(s) && Current(s, current) && d < |s.info| && d !in s.retired
    ensures var t, ev := SteerEach(s, turn, es, current), OnSteerSubmitted(turn, es, current);
            && NamesKept(s, t, d)
            && Moves(s, t, d, Next(LifeOf(s, d), Mentions(s, es, d), ev), Says(d, LifeOf(s, d), Mentions(s, es, d), ev))
  {
    hide Inv, Record, SubmitOne, Tell, About, Moves, NamesKept;
    Unmoved(s, d);
    assert Observe(s, current) == s;
    if es != [] {
      var n := |es| - 1;
      var b, m := SteerEach(s, turn, es[..n], current), Mentions(s, es[..n], d);
      var ev := OnSteerSubmitted(turn, es, current);
      SteerEachMoves(s, turn, es[..n], current, d);
      SteerEachKeeps(s, turn, es[..n], current);
      var l, rs := Next(LifeOf(s, d), m, ev), Says(d, LifeOf(s, d), m, ev);
      SteerMoves(s, b, turn, es[n], current, d, l, rs);
      var x := Join(l, turn).info;
      NothingBefore(Tell(d, x, Submitted, None, x.mode));
      SameTell(d, x, l.info);
      SteeredMore(LifeOf(s, d), m, turn, ev);
    } else {
      assert SteerEach(s, turn, es, current) == s;
    }
  }

  lemma NothingBefore(rs: seq<Report>)
    ensures [] + rs == rs
  {
  }

  /** Steering a delivery it steered already changes nothing. */
  lemma SteeredMore(l: Life, m: nat, turn: string, ev: Event)
    requires ev.OnSteerSubmitted? && ev.turn == turn
    ensures var b := Next(l, m, ev);
            Next(l, m + 1, ev) == if b.info.submitted then Join(b, turn) else HandOver(Join(b, turn), true)
  {
  }

  /** A report names the identity and number of a delivery and nothing else of it. */
  lemma SameTell(d: nat, x: Delivery, y: Delivery)
    requires x.identity == y.identity && x.sequence == y.sequence
    ensures forall stage, reason, mode :: Tell(d, x, stage, reason, mode) == Tell(d, y, stage, reason, mode)
  {
  }

  lemma SteerMoves(s: State, b: State, turn: string, e: Envelope, current: Option<Identity>, d: nat, l: Life,
                   rs: seq<Report>)
    requires Inv(b) && Current(b, current) && d < |s.info| && d !in s.retired && NamesKept(s, b, d)
    requires Moves(s, b, d, l, rs) && l.alive
    ensures var r := Record(b, turn, e, current);
            var t := if e in r.ofEnvelope then SubmitOne(r, r.ofEnvelope[e], true, current) else r;
            var j := Join(l, turn);
            && NamesKept(s, t, d)
            && (if !Names(s, e, d) then Moves(s, t, d, l, rs)
                else if l.info.submitted then Moves(s, t, d, j, rs)
                else Moves(s, t, d, HandOver(j, true), rs + Tell(d, j.info, Submitted, None, j.info.mode)))
  {
    hide Inv, Record, SubmitOne, About;
    RecordMoves(b, turn, e, current, d);
    var r := Record(b, turn, e, current);
    assert About(r.sent, d) == About(s.sent, d) + rs;
    if e in r.ofEnvelope { SubmitOneMoves(r, r.ofEnvelope[e], true, current, d); }
  }

  // ---- Endings --------------------------------------------------------------

  /** A delivery that is over stays over, and nothing more is said of it. */
  predicate Over(s: State, t: State, d: nat) {
    d in t.retired && About(t.sent, d) == About(s.sent, d)
  }

  lemma EndMoves(s: State, k: nat, stage: Stage, reason: Option<Reason>, mode: Option<Mode>, current: Option<Identity>,
                 d: nat)
    requires Inv(s) && Current(s, current) && d < |s.info|
    ensures var t := End(s, k, stage, reason, mode, current);
            && |t.info| == |s.info| && NamesKept(s, t, d)
            && (if d in s.retired then Over(s, t, d)
                else if k == d then
                  Moves(s, t, d, LifeOf(s, d).(alive := false), Tell(d, s.info[d], stage, reason, mode))
                else Moves(s, t, d, LifeOf(s, d), []))
  {
    hide Inv, Send, Remove, Tell, About;
    SendMoves(s, k, stage, reason, mode, current, d);
    var u := Send(s, k, stage, reason, mode, current);
    SendKeepsOthers(s, k, stage, reason, mode, current);
    RemoveMoves(u, k, d);
  }

  lemma SendKeepsOthers(s: State, k: nat, stage: Stage, reason: Option<Reason>, mode: Option<Mode>,
                        current: Option<Identity>)
    requires Inv(s) && Current(s, current)
    ensures Indexed(Send(s, k, stage, reason, mode, current))
  {
    hide Orderly, Authentic, Closed, FlagsTell, Captures, Listed, Turns;
    SendIs(s, k, stage, reason, mode, current);
  }

  lemma {:induction false} EndEachMoves(s: State, es: seq<Envelope>, end: Ending, current: Option<Identity>, d: nat)
    requires Inv(s) && Current(s, current) && d < |s.info| && d !in s.retired && Terminal(end.stage)
    ensures var t, m := EndEach(s, es, end, current), Mentions(s, es, d);
            if m > 0 then
              Moves(s, t, d, LifeOf(s, d).(alive := false), Tell(d, s.info[d], end.stage, Some(end.reason), end.mode))
            else Moves(s, t, d, LifeOf(s, d), []) && NamesKept(s, t, d)
  {
    hide Inv, Capture, End, Tell, About, Moves, NamesKept;
    Unmoved(s, d);
    assert Observe(s, current) == s;
    if es != [] {
      var n := |es| - 1;
      var b := EndEach(s, es[..n], end, current);
      EndEachMoves(s, es[..n], end, current, d);
      EndEachKeeps(s, es[..n], end, current);
      if Mentions(s, es[..n], d) > 0 {
        EndAfter(s, b, es[n], end, current, d, Tell(d, s.info[d], end.stage, Some(end.reason), end.mode));
      } else {
        EndNow(s, b, es[n], end, current, d);
      }
    } else {
      assert EndEach(s, es, end, current) == s;
    }
  }

  function EndIn(b: State, e: Envelope, end: Ending, current: Option<Identity>): State {
    var c := Capture(b, e, current);
    if e !in c.ofEnvelope then c else End(c, c.ofEnvelope[e], end.stage, Some(end.reason), end.mode, current)
  }

  lemma EndNow(s: State, b: State, e: Envelope, end: Ending, current: Option<Identity>, d: nat)
    requires Inv(b) && Current(b, current) && d < |s.info| && d !in s.retired && NamesKept(s, b, d)
    requires Moves(s, b, d, LifeOf(s, d), [])
    ensures var t := EndIn(b, e, end, current);
            if Names(s, e, d) then
              Moves(s, t, d, LifeOf(s, d).(alive := false), Tell(d, s.info[d], end.stage, Some(end.reason), end.mode))
            else Moves(s, t, d, LifeOf(s, d), []) && NamesKept(s, t, d)
  {
    hide Inv, Capture, End, Tell, About;
    CaptureMoves(b, e, current, d);
    var c := Capture(b, e, current);
    assert About(c.sent, d) == About(s.sent, d) + [];
    if e in c.ofEnvelope { EndMoves(c, c.ofEnvelope[e], end.stage, Some(end.reason), end.mode, current, d); }
  }

  lemma EndAfter(s: State, b: State, e: Envelope, end: Ending, current: Option<Identity>, d: nat, rs: seq<Report>)
    requires Inv(b) && Current(b, current) && d < |s.info|
    requires Moves(s, b, d, LifeOf(s, d).(alive := false), rs)
    ensures Moves(s, EndIn(b, e, end, current), d, LifeOf(s, d).(alive := false), rs)
  {
    hide Inv, Capture, End, About;
    CaptureKeeps(b, e, current);
    var c := Capture(b, e, current);
    CaptureKeepsOver(b, e, current);
    if e in c.ofEnvelope { EndMoves(c, c.ofEnvelope[e], end.stage, Some(end.reason), end.mode, current, d); }
  }

  lemma CaptureKeepsOver(b: State, e: Envelope, current: Option<Identity>)
    requires Current(b, current)
    ensures Capture(b, e, current).retired == b.retired && |b.info| <= |Capture(b, e, current).info|
  {
  }

  lemma {:induction false} RetireEachMoves(s: State, es: seq<Envelope>, d: nat)
    requires Inv(s) && d < |s.info| && d !in s.retired
    ensures var t := RetireEach(s, es);
            && t.ofEnvelope == s.ofEnvelope && t.info == s.info
            && Moves(s, t, d, LifeOf(s, d).(alive := Holdings(s, es, d) == 0), [])
  {
    hide Inv, Remove, About;
    if es != [] {
      var n := |es| - 1;
      var b := RetireEach(s, es[..n]);
      RetireEachMoves(s, es[..n], d);
      RetireEachKeeps(s, es[..n]);
      InvIsIndexed(b);
      if es[n] in b.ofEnvelope { RemoveMoves(b, b.ofEnvelope[es[n]], d); }
    }
  }

  lemma InvIsIndexed(s: State)
    requires Inv(s)
    ensures Indexed(s)
  {
  }

  lemma {:induction false} CloseEachMoves(s: State, ds: seq<nat>, unknown: Option<Reason>, current: Option<Identity>,
                                          d: nat)
    requires Inv(s) && Current(s, current) && d < |s.info| && d !in s.retired
    ensures var t, l := CloseEach(s, ds, unknown, current), LifeOf(s, d);
            && |t.info| == |s.info|
            && (if d in ds && !l.info.steer then Moves(s, t, d, l.(alive := false), ClosingOf(d, l.info, unknown))
                else Moves(s, t, d, l, []))
  {
    hide Inv, CloseOne, ClosingOf, About, Moves;
    Unmoved(s, d);
    if ds != [] {
      var n, l := |ds| - 1, LifeOf(s, d);
      var b := CloseEach(s, ds[..n], unknown, current);
      CloseEachMoves(s, ds[..n], unknown, current, d);
      CloseEachKeeps(s, ds[..n], unknown, current);
      assert ds == ds[..n] + [ds[n]];
      if d in ds[..n] && !l.info.steer {
        CloseAfter(s, b, ds[n], unknown, current, d, ClosingOf(d, l.info, unknown));
      } else {
        CloseNow(s, b, ds[n], unknown, current, d);
      }
    }
  }

  /** What a closing turn says of one of its deliveries. */
  function ClosingOf(d: nat, x: Delivery, unknown: Option<Reason>): seq<Report> {
    if x.submitted then Tell(d, x, Settled, Some(TurnEnd), None)
    else if unknown.Some? then Tell(d, x, Unknown, unknown, None)
    else Tell(d, x, Settled, Some(FailedBeforeHandoff), None)
  }

  lemma CloseNow(s: State, b: State, k: nat, unknown: Option<Reason>, current: Option<Identity>, d: nat)
    requires Inv(b) && Current(b, current) && d < |s.info| && d !in s.retired && Moves(s, b, d, LifeOf(s, d), [])
    ensures var t, l := CloseOne(b, k, unknown, current), LifeOf(s, d);
            && |t.info| == |b.info|
            && (if k == d && !l.info.steer then Moves(s, t, d, l.(alive := false), ClosingOf(d, l.info, unknown))
                else Moves(s, t, d, l, []))
  {
    hide Inv, End, Tell, About;
    assert About(b.sent, d) == About(s.sent, d);
    EndMoves(b, k, Settled, Some(TurnEnd), None, current, d);
    EndMoves(b, k, Settled, Some(FailedBeforeHandoff), None, current, d);
    EndMoves(b, k, Unknown, unknown, None, current, d);
  }

  lemma CloseAfter(s: State, b: State, k: nat, unknown: Option<Reason>, current: Option<Identity>, d: nat,
                   rs: seq<Report>)
    requires Inv(b) && Current(b, current) && d < |s.info| && Moves(s, b, d, LifeOf(s, d).(alive := false), rs)
    ensures var t := CloseOne(b, k, unknown, current);
            |t.info| == |b.info| && Moves(s, t, d, LifeOf(s, d).(alive := false), rs)
  {
    hide Inv, End, Tell, About;
    EndMoves(b, k, Settled, Some(TurnEnd), None, current, d);
    EndMoves(b, k, Settled, Some(FailedBeforeHandoff), None, current, d);
    EndMoves(b, k, Unknown, unknown, None, current, d);
  }

  // ---- Every event ----------------------------------------------------------

  lemma {:induction false} MentionsIn(s: State, es: seq<Envelope>, d: nat)
    requires d < |s.info|
    ensures Mentions(s, es, d) > 0 <==> exists i :: 0 <= i < |es| && Names(s, es[i], d)
  {
    hide Names;
    if es != [] {
      var n := |es| - 1;
      MentionsIn(s, es[..n], d);
      if i :| 0 <= i < |es| && Names(s, es[i], d) && i < n { assert Names(s, es[..n][i], d); }
      if i :| 0 <= i < n && Names(s, es[..n][i], d) { assert Names(s, es[i], d); }
    }
  }

  lemma ListedIs(s: State, turn: string, d: nat)
    requires Inv(s) && d < |s.info| && d !in s.retired
    ensures d in Turn(s, turn) <==> InTurn(LifeOf(s, d), turn)
  {
    hide Captures, Orderly, Authentic, Closed, FlagsTell, Listed;
    if d in Turn(s, turn) {
      var i :| 0 <= i < |s.byTurn[turn]| && s.byTurn[turn][i] == d;
    }
  }

  lemma SubmittedMoves(s: State, turn: string, es: seq<Envelope>, current: Option<Identity>, d: nat)
    requires Inv(s) && Current(s, current) && d < |s.info| && d !in s.retired
    ensures var ev, m := OnSubmitted(turn, es, current), Mentions(s, es, d);
            Moves(s, SubmittedOp(s, turn, es, current), d, Next(LifeOf(s, d), m, ev), Says(d, LifeOf(s, d), m, ev))
  {
    hide Inv, RecordAll, SubmitEach, About;
    var r := RecordAll(s, turn, es, current);
    assert Observe(s, current) == s;
    RecordAllMoves(s, turn, es, current, d);
    ListedIs(r, turn, d);
    SubmitEachMoves(r, Turn(r, turn), current, d);
  }

  lemma TurnClosedMoves(s: State, turn: string, es: seq<Envelope>, unknown: Option<Reason>, current: Option<Identity>,
                        d: nat)
    requires Inv(s) && Current(s, current) && d < |s.info| && d !in s.retired
    ensures var ev, m := OnTurnClosed(turn, es, unknown, current), Mentions(s, es, d);
            Moves(s, CloseTurn(s, turn, es, unknown, current), d, Next(LifeOf(s, d), m, ev),
                  Says(d, LifeOf(s, d), m, ev))
  {
    hide Inv, RecordAll, CloseEach, About, Moves;
    var r := RecordAll(s, turn, es, current);
    assert Observe(s, current) == s;
    RecordAllMoves(s, turn, es, current, d);
    MovesIs(s, r, d, Joined(LifeOf(s, d), turn, Mentions(s, es, d)), []);
    ListedIs(r, turn, d);
    CloseEachMoves(r, Turn(r, turn), unknown, current, d);
    var j := Joined(LifeOf(s, d), turn, Mentions(s, es, d));
    var over := InTurn(j, turn) && !j.info.steer;
    MovesThrough(s, r, CloseEach(r, Turn(r, turn), unknown, current), d, j, [], if over then j.(alive := false) else j,
                 if over then ClosingOf(d, j.info, unknown) else []);
    TurnGone(s, CloseEach(r, Turn(r, turn), unknown, current), turn, d, if over then j.(alive := false) else j,
             [] + if over then ClosingOf(d, j.info, unknown) else []);
    SameTell(d, j.info, s.info[d]);
    NothingBefore(ClosingOf(d, j.info, unknown));
  }

  lemma MovesIs(s: State, t: State, d: nat, l: Life, rs: seq<Report>)
    requires Moves(s, t, d, l, rs) && l.alive
    ensures d < |t.info| && LifeOf(t, d) == l
  {
  }

  /** The turn's list is dropped with the turn. */
  lemma TurnGone(s: State, c: State, turn: string, d: nat, l: Life, rs: seq<Report>)
    requires Moves(s, c, d, l, rs)
    ensures Moves(s, c.(byTurn := c.byTurn - {turn}), d, if InTurn(l, turn) && l.alive then l.(listed := false) else l,
                  rs)
  {
  }

  /** The reporter runs every delivery's life: whatever the event, each live delivery moves as the
    * machine says for the number of times the event names it, and the server hears exactly what
    * the machine says, unless the event brings a new join identity. */
  lemma EveryDeliveryLives(s: State, ev: Event, d: nat)
    requires Inv(s) && Proper(ev) && d < |s.info| && d !in s.retired && !NewJoin(s, ev)
    ensures var l, m := LifeOf(s, d), Named(s, ev, d); Moves(s, Step(s, ev), d, Next(l, m, ev), Says(d, l, m, ev))
  {
    hide Inv, Capture, QueuedOp, DisableAll, SubmittedOp, SteerEach, EndEach, NoteEach, RetireEach, CloseTurn, About,
         Moves, Tell;
    match ev
    case OnCapture(e, current) => CapturedLives(s, e, current, d);
    case OnQueued(e, current) => QueuedLives(s, e, current, d);
    case OnLocalPolicyDisabled(es, current) => DisableAllMoves(s, es, current, d);
    case OnSubmitted(turn, es, current) => SubmittedMoves(s, turn, es, current, d);
    case OnSteerSubmitted(turn, es, current) => SteerEachMoves(s, turn, es, current, d);
    case OnEnded(es, end, current) => EndEachMoves(s, es, end, current, d);
    case OnNoted(es, stage, current) => NoteEachMoves(s, es, stage, current, d);
    case OnRetired(es) => RetireEachMoves(s, es, d);
    case OnTurnClosed(turn, es, unknown, current) => TurnClosedMoves(s, turn, es, unknown, current, d);
  }

  lemma CapturedLives(s: State, e: Envelope, current: Option<Identity>, d: nat)
    requires Inv(s) && d < |s.info| && d !in s.retired && !NewJoin(s, OnCapture(e, current))
    ensures Moves(s, Capture(s, e, current), d, LifeOf(s, d), [])
  {
    hide Inv, About;
    if e.sequence.Some? && e !in s.captured { CaptureMoves(s, e, current, d); }
  }

  lemma QueuedLives(s: State, e: Envelope, current: Option<Identity>, d: nat)
    requires Inv(s) && Current(s, current) && d < |s.info| && d !in s.retired
    ensures Moves(s, QueuedOp(s, e, current), d, LifeOf(s, d),
                  if Names(s, e, d) then Tell(d, s.info[d], Queued, None, s.info[d].mode) else [])
  {
    hide Inv, About, Capture, Send, Tell;
    assert Observe(s, current) == s;
    CaptureMoves(s, e, current, d);
    var c := Capture(s, e, current);
    if e.sequence.None? { UnnumberedIsNobodys(s, e, d); }
    if e in c.ofEnvelope && c.ofEnvelope[e] < |c.info| {
      SendMoves(c, c.ofEnvelope[e], Queued, None, c.info[c.ofEnvelope[e]].mode, current, d);
    }
  }

  lemma UnnumberedIsNobodys(s: State, e: Envelope, d: nat)
    requires Inv(s) && e.sequence.None? && d < |s.info|
    ensures !Names(s, e, d)
  {
    HeldIsCaptured(s);
  }

  // ---- Over is over ---------------------------------------------------------

  lemma CaptureOver(s: State, e: Envelope, current: Option<Identity>, d: nat)
    requires Inv(s) && Current(s, current) && d in s.retired
    ensures var t := Capture(s, e, current); Inv(t) && Current(t, current) && Over(s, t, d)
  {
    hide Inv, Capture, About;
    CaptureKeeps(s, e, current);
    CaptureKeepsOver(s, e, current);
  }

  lemma RecordOver(s: State, turn: string, e: Envelope, current: Option<Identity>, d: nat)
    requires Inv(s) && Current(s, current) && d in s.retired
    ensures var t := Record(s, turn, e, current); Inv(t) && Current(t, current) && Over(s, t, d)
  {
    hide Inv, Capture, About;
    RecordKeeps(s, turn, e, current);
    CaptureKeepsOver(s, e, current);
  }

  lemma RetiredIsKnown(s: State, d: nat)
    requires Inv(s) && d in s.retired
    ensures d < |s.info|
  {
  }

  lemma SubmitOneOver(s: State, k: nat, steer: bool, current: Option<Identity>, d: nat)
    requires Inv(s) && Current(s, current) && d in s.retired
    ensures Over(s, SubmitOne(s, k, steer, current), d)
  {
    hide Inv, Send, About, Tracked;
    if k < |s.info| && !s.info[k].submitted {
      var x := s.info[k].(submitted := true, steer := s.info[k].steer || steer);
      SubmitIs(s, k, x, s.info[k].mode, current);
      TrackedIsUnretired(s, k);
      if Tracked(s, k) && x.identity.Some? {
        AboutSnoc(s.sent, Report(k, x.identity.value, x.sequence, Submitted, None, s.info[k].mode), d);
      }
    }
  }

  lemma SendOver(s: State, k: nat, stage: Stage, reason: Option<Reason>, mode: Option<Mode>, current: Option<Identity>,
                 d: nat)
    requires Inv(s) && Current(s, current) && d in s.retired
    ensures Over(s, Send(s, k, stage, reason, mode, current), d)
  {
    hide Inv, Send, About;
    RetiredIsKnown(s, d);
    SendMoves(s, k, stage, reason, mode, current, d);
  }

  lemma EndOver(s: State, k: nat, stage: Stage, reason: Option<Reason>, mode: Option<Mode>, current: Option<Identity>,
                d: nat)
    requires Inv(s) && Current(s, current) && d in s.retired
    ensures Over(s, End(s, k, stage, reason, mode, current), d)
  {
    hide Inv, End, About;
    RetiredIsKnown(s, d);
    EndMoves(s, k, stage, reason, mode, current, d);
  }

  lemma {:induction false} RecordAllOver(s: State, turn: string, es: seq<Envelope>, current: Option<Identity>, d: nat)
    requires Inv(s) && Current(s, current) && d in s.retired
    ensures var t := RecordAll(s, turn, es, current); Inv(t) && Current(t, current) && Over(s, t, d)
  {
    hide Inv, Record, About;
    if es != [] {
      RecordAllOver(s, turn, es[..|es| - 1], current, d);
      RecordOver(RecordAll(s, turn, es[..|es| - 1], current), turn, es[|es| - 1], current, d);
    }
  }

  lemma {:induction false} SubmitEachOver(s: State, ds: seq<nat>, current: Option<Identity>, d: nat)
    requires Inv(s) && Current(s, current) && d in s.retired
    ensures Over(s, SubmitEach(s, ds, current), d)
  {
    hide Inv, SubmitOne, About;
    if ds != [] {
      SubmitEachOver(s, ds[..|ds| - 1], current, d);
      SubmitEachKeeps(s, ds[..|ds| - 1], current);
      SubmitOneOver(SubmitEach(s, ds[..|ds| - 1], current), ds[|ds| - 1], false, current, d);
    }
  }

  lemma {:induction false} CloseEachOver(s: State, ds: seq<nat>, unknown: Option<Reason>, current: Option<Identity>,
                                         d: nat)
    requires Inv(s) && Current(s, current) && d in s.retired
    ensures Over(s, CloseEach(s, ds, unknown, current), d)
  {
    hide Inv, End, About;
    if ds != [] {
      var b, k := CloseEach(s, ds[..|ds| - 1], unknown, current), ds[|ds| - 1];
      CloseEachOver(s, ds[..|ds| - 1], unknown, current, d);
      CloseEachKeeps(s, ds[..|ds| - 1], unknown, current);
      EndOver(b, k, Settled, Some(TurnEnd), None, current, d);
      EndOver(b, k, Settled, Some(FailedBeforeHandoff), None, current, d);
      EndOver(b, k, Unknown, unknown, None, current, d);
    }
  }

  lemma {:induction false} EndEachOver(s: State, es: seq<Envelope>, end: Ending, current: Option<Identity>, d: nat)
    requires Inv(s) && Current(s, current) && d in s.retired && Terminal(end.stage)
    ensures Over(s, EndEach(s, es, end, current), d)
  {
    hide Inv, Capture, End, About;
    if es != [] {
      var b, e := EndEach(s, es[..|es| - 1], end, current), es[|es| - 1];
      EndEachOver(s, es[..|es| - 1], end, current, d);
      EndEachKeeps(s, es[..|es| - 1], end, current);
      CaptureOver(b, e, current, d);
      var c := Capture(b, e, current);
      if e in c.ofEnvelope { EndOver(c, c.ofEnvelope[e], end.stage, Some(end.reason), end.mode, current, d); }
    }
  }

  lemma {:induction false} NoteEachOver(s: State, es: seq<Envelope>, stage: Stage, current: Option<Identity>, d: nat)
    requires Inv(s) && Current(s, current) && d in s.retired && !Terminal(stage) && stage != Submitted
    ensures Over(s, NoteEach(s, es, stage, current), d)
  {
    hide Inv, Capture, Send, About;
    if es != [] {
      var b, e := NoteEach(s, es[..|es| - 1], stage, current), es[|es| - 1];
      NoteEachOver(s, es[..|es| - 1], stage, current, d);
      NoteEachKeeps(s, es[..|es| - 1], stage, current);
      CaptureOver(b, e, current, d);
      var c := Capture(b, e, current);
      if e in c.ofEnvelope { SendOver(c, c.ofEnvelope[e], stage, None, None, current, d); }
    }
  }

  lemma {:induction false} SteerEachOver(s: State, turn: string, es: seq<Envelope>, current: Option<Identity>, d: nat)
    requires Inv(s) && Current(s, current) && d in s.retired
    ensures Over(s, SteerEach(s, turn, es, current), d)
  {
    hide Inv, Record, SubmitOne, About;
    if es != [] {
      var b, e := SteerEach(s, turn, es[..|es| - 1], current), es[|es| - 1];
      SteerEachOver(s, turn, es[..|es| - 1], current, d);
      SteerEachKeeps(s, turn, es[..|es| - 1], current);
      RecordOver(b, turn, e, current, d);
      var r := Record(b, turn, e, current);
      if e in r.ofEnvelope { SubmitOneOver(r, r.ofEnvelope[e], true, current, d); }
    }
  }

  lemma {:induction false} DisableAllOver(s: State, es: seq<Envelope>, current: Option<Identity>, d: nat)
    requires Inv(s) && Current(s, current) && d in s.retired
    ensures Over(s, DisableAll(s, es, current), d)
  {
    hide Inv, Disable, About;
    if es != [] {
      DisableAllOver(s, es[..|es| - 1], current, d);
      DisableAllKeeps(s, es[..|es| - 1], current);
      DisableOver(DisableAll(s, es[..|es| - 1], current), es[|es| - 1], current, d);
    }
  }

  lemma DisableOver(s: State, e: Envelope, current: Option<Identity>, d: nat)
    requires Inv(s) && Current(s, current) && d in s.retired
    ensures Over(s, Disable(s, e, current), d)
  {
    hide Inv, Capture, Send, About;
    CaptureOver(s, e, current, d);
    var c := Capture(s, e, current);
    if e in c.ofEnvelope && c.ofEnvelope[e] < |c.info| {
      var k := c.ofEnvelope[e];
      var x := c.info[k].(disabled := true, mode := Some(Normal));
      MarkKeeps(c, k, x);
      SendOver(c.(info := c.info[k := x]), k, Queued, Some(LocalPolicyDisabled), Some(Normal), current, d);
    }
  }

  lemma {:induction false} RetireEachOver(s: State, es: seq<Envelope>, d: nat)
    requires Inv(s) && d in s.retired
    ensures Over(s, RetireEach(s, es), d)
  {
    hide Inv, Remove, About;
    if es != [] {
      var b := RetireEach(s, es[..|es| - 1]);
      RetireEachOver(s, es[..|es| - 1], d);
      RetireEachKeeps(s, es[..|es| - 1]);
      RetiredIsKnown(b, d);
      InvIsIndexed(b);
      if es[|es| - 1] in b.ofEnvelope { RemoveMoves(b, b.ofEnvelope[es[|es| - 1]], d); }
    }
  }

  /** Once over, a delivery stays over and the server hears nothing more of it, whatever happens. */
  lemma OverIsOver(s: State, ev: Event, d: nat)
    requires Inv(s) && Proper(ev) && d in s.retired
    ensures Over(s, Step(s, ev), d)
  {
    hide Inv, Observe, About;
    if ev.OnRetired? {
      RetireEachOver(s, ev.es, d);
    } else {
      ObserveKeeps(s, ev.current);
      ObservedIsCurrent(s, ev.current);
      ObserveOver(s, ev.current, d);
      SeenOver(Observe(s, ev.current), ev, d);
      SeenFirst(s, ev);
    }
  }

  lemma ObserveOver(s: State, current: Option<Identity>, d: nat)
    requires d in s.retired
    ensures Over(s, Observe(s, current), d)
  {
  }

  lemma SeenOver(s: State, ev: Event, d: nat)
    requires Inv(s) && Proper(ev) && d in s.retired && !ev.OnRetired? && Current(s, ev.current)
    ensures Over(s, Step(s, ev), d)
  {
    hide Inv, Capture, Send, Record, DisableAll, RecordAll, SubmitEach, SteerEach, EndEach, NoteEach, CloseEach, About;
    assert Observe(s, ev.current) == s;
    match ev
    case OnCapture(e, current) => CaptureOver(s, e, current, d);
    case OnQueued(e, current) =>
      CaptureOver(s, e, current, d);
      var c := Capture(s, e, current);
      if e in c.ofEnvelope && c.ofEnvelope[e] < |c.info| {
        SendOver(c, c.ofEnvelope[e], Queued, None, c.info[c.ofEnvelope[e]].mode, current, d);
      }
    case OnLocalPolicyDisabled(es, current) => DisableAllOver(s, es, current, d);
    case OnSubmitted(turn, es, current) =>
      RecordAllOver(s, turn, es, current, d);
      SubmitEachOver(Gathered(s, turn, es, current), Turn(Gathered(s, turn, es, current), turn), current, d);
    case OnSteerSubmitted(turn, es, current) => SteerEachOver(s, turn, es, current, d);
    case OnEnded(es, end, current) => EndEachOver(s, es, end, current, d);
    case OnNoted(es, stage, current) => NoteEachOver(s, es, stage, current, d);
    case OnTurnClosed(turn, es, unknown, current) =>
      RecordAllOver(s, turn, es, current, d);
      CloseEachOver(Gathered(s, turn, es, current), Turn(Gathered(s, turn, es, current), turn), unknown, current, d);
  }

  /** Every call looks at the join identity first, if it looks at all. */
  lemma SeenFirst(s: State, ev: Event)
    requires !ev.OnRetired?
    ensures Step(s, ev) == Step(Observe(s, ev.current), ev)
            || (ev.OnCapture? && (ev.e.sequence.None? || ev.e in s.captured) && Step(s, ev) == s)
  {
    hide Track, Send, Record, Disable, SubmitOne, End, CloseOne;
    var o := Observe(s, ev.current);
    assert Observe(o, ev.current) == o && o.captured == s.captured;
    match ev
    case OnCapture(e, current) =>
    case OnQueued(e, current) =>
    case OnLocalPolicyDisabled(es, current) => DisableAllSeen(s, es, current);
    case OnSubmitted(turn, es, current) =>
    case OnSteerSubmitted(turn, es, current) => SteerEachSeen(s, turn, es, current);
    case OnEnded(es, end, current) => EndEachSeen(s, es, end, current);
    case OnNoted(es, stage, current) => NoteEachSeen(s, es, stage, current);
    case OnTurnClosed(turn, es, unknown, current) =>
  }

  lemma {:induction false} DisableAllSeen(s: State, es: seq<Envelope>, current: Option<Identity>)
    ensures DisableAll(s, es, current) == DisableAll(Observe(s, current), es, current)
  {
    hide Disable;
    if es != [] { DisableAllSeen(s, es[..|es| - 1], current); }
  }

  lemma {:induction false} SteerEachSeen(s: State, turn: string, es: seq<Envelope>, current: Option<Identity>)
    ensures SteerEach(s, turn, es, current) == SteerEach(Observe(s, current), turn, es, current)
  {
    hide Record, SubmitOne;
    if es != [] { SteerEachSeen(s, turn, es[..|es| - 1], current); }
  }

  lemma {:induction false} EndEachSeen(s: State, es: seq<Envelope>, end: Ending, current: Option<Identity>)
    ensures EndEach(s, es, end, current) == EndEach(Observe(s, current), es, end, current)
  {
    hide Capture, End;
    if es != [] { EndEachSeen(s, es[..|es| - 1], end, current); }
  }

  lemma {:induction false} NoteEachSeen(s: State, es: seq<Envelope>, stage: Stage, current: Option<Identity>)
    ensures NoteEach(s, es, stage, current) == NoteEach(Observe(s, current), es, stage, current)
  {
    hide Capture, Send;
    if es != [] { NoteEachSeen(s, es[..|es| - 1], stage, current); }
  }

  /** A new join identity ends every delivery in silence. */
  lemma NewJoinEndsAll(s: State, ev: Event, d: nat)
    requires Inv(s) && Proper(ev) && d < |s.info| && NewJoin(s, ev)
    ensures Over(s, Step(s, ev), d)
  {
    hide Inv, About, Step;
    var o := Observe(s, ev.current);
    ObserveKeeps(s, ev.current);
    AllRetired(s, ev.current, d);
    OverIsOver(o, ev, d);
    SeenFirst(s, ev);
    OpensAt(s, ev);
    assert o.sent == s.sent;
  }

  lemma OpensAt(s: State, ev: Event)
    requires NewJoin(s, ev)
    ensures !(ev.OnCapture? && (ev.e.sequence.None? || ev.e in s.captured))
  {
  }

  lemma AllRetired(s: State, current: Option<Identity>, d: nat)
    requires Inv(s) && d < |s.info| && current.Some? && current != s.last
    ensures d in Observe(s, current).retired
  {
    hide Captures, Orderly, Authentic, Closed, FlagsTell, Turns, Successive;
    if d !in s.retired { assert s.deliveries[KeyOf(s.info[d])] == d; }
  }

  // ---- From receipt to the end of the turn ----------------------------------

  function Born(s: State, e: Envelope): Life
    requires e.sequence.Some?
  {
    Life(Delivery(s.last, e.sequence.value, e.granted, false, false, false, None), true, false)
  }

  /** A message received for the first time, under a number not tracked, begins a life of its own
    * and is reported as queued; at the limit it begins none, nothing is reported, and the flag of the
    * warning is set. */
  lemma FirstReceiptLives(s: State, e: Envelope, current: Option<Identity>)
    requires Inv(s) && Current(s, current) && e.sequence.Some? && e !in s.captured
    requires Key(s.last, e.sequence.value) !in s.deliveries
    ensures var t, d := QueuedOp(s, e, current), |s.info|;
            if |s.deliveries| < MAX_TRACKED_DELIVERIES then
              && Inv(t) && t.last == s.last && |t.info| == d + 1 && LifeOf(t, d) == Born(s, e) && Holds(t, e, d)
              && About(t.sent, d) == Tell(d, Born(s, e).info, Queued, None, e.granted)
            else t.info == s.info && t.sent == s.sent && e !in t.ofEnvelope && t.warned
  {
    hide Inv, Capture, Send, About;
    var c, d := Capture(s, e, current), |s.info|;
    CaptureKeeps(s, e, current);
    assert Observe(s, current) == s;
    QueuedKeeps(s, e, current);
    Received(s, e, current);
    if |s.deliveries| < MAX_TRACKED_DELIVERIES {
      SendMoves(c, d, Queued, None, e.granted, current, d);
      NothingYet(s, d);
    }
  }

  lemma Received(s: State, e: Envelope, current: Option<Identity>)
    requires Inv(s) && Current(s, current) && e.sequence.Some? && e !in s.captured
    requires Key(s.last, e.sequence.value) !in s.deliveries
    ensures var c, d := Capture(s, e, current), |s.info|;
            if |s.deliveries| < MAX_TRACKED_DELIVERIES then
              && |c.info| == d + 1 && d !in c.retired && LifeOf(c, d) == Born(s, e) && Holds(c, e, d)
              && c.sent == s.sent && c.last == s.last
            else c.info == s.info && c.sent == s.sent && e !in c.ofEnvelope && c.warned
  {
    hide Orderly, Authentic, Closed, FlagsTell, Turns, Successive;
    assert e !in s.ofEnvelope;
  }

  lemma {:induction false} NothingAbout(sent: seq<Report>, d: nat)
    requires forall i :: 0 <= i < |sent| ==> sent[i].delivery != d
    ensures About(sent, d) == []
  {
    if sent != [] { NothingAbout(sent[..|sent| - 1], d); }
  }

  lemma NothingYet(s: State, d: nat)
    requires Inv(s) && d >= |s.info|
    ensures About(s.sent, d) == []
  {
    NothingAbout(s.sent, d);
  }

  /** The whole story of a message on its own wire: received, handed over with a turn that names it
    * and closed with that turn, it is reported as queued, submitted and settled, and nothing else,
    * whatever other messages the turn consumed. */
  lemma OneTurnTellsThree(s: State, e: Envelope, current: Identity, turn: string, es: seq<Envelope>,
                          more: seq<Envelope>, unknown: Option<Reason>)
    requires Inv(s) && s.last == Some(current) && e.sequence.Some? && e !in s.captured
    requires Key(s.last, e.sequence.value) !in s.deliveries && |s.deliveries| < MAX_TRACKED_DELIVERIES
    requires e in es
    ensures var d, x := |s.info|, Born(s, e).info;
            var q := Step(s, OnQueued(e, Some(current)));
            var u := Step(q, OnSubmitted(turn, es, Some(current)));
            var t := Step(u, OnTurnClosed(turn, more, unknown, Some(current)));
            && d in t.retired
            && About(t.sent, d) == [Report(d, current, x.sequence, Queued, None, e.granted),
                                    Report(d, current, x.sequence, Submitted, None, e.granted),
                                    Report(d, current, x.sequence, Settled, Some(TurnEnd), None)]
  {
    hide Inv, About, Step;
    var d, live := |s.info|, Some(current);
    var submit, close := OnSubmitted(turn, es, live), OnTurnClosed(turn, more, unknown, live);
    var q := Step(s, OnQueued(e, live));
    assert q == QueuedOp(s, e, live) by { StepIsQueued(s, e, live); }
    FirstReceiptLives(s, e, live);
    var i :| 0 <= i < |es| && es[i] == e;
    HeldIsCaptured(q);
    assert Names(q, es[i], d);
    MentionsIn(q, es, d);
    EveryDeliveryLives(q, submit, d);
    var u := Step(q, submit);
    assert InTurn(LifeOf(u, d), turn) && LifeOf(u, d).info.submitted;
    StepKeeps(q, submit);
    StillLast(q, submit);
    EveryDeliveryLives(u, close, d);
  }

  lemma StepIsQueued(s: State, e: Envelope, live: Option<Identity>)
    ensures Step(s, OnQueued(e, live)) == QueuedOp(s, e, live)
  {
  }

  lemma StillLast(s: State, ev: Event)
    requires Inv(s) && ev.OnSubmitted? && Current(s, ev.current)
    ensures Step(s, ev).last == s.last
  {
    hide Inv, RecordAll, SubmitEach;
    assert Observe(s, ev.current) == s;
    RecordAllKeeps(s, ev.turn, ev.es, ev.current);
    SubmitEachKeeps(Gathered(s, ev.turn, ev.es, ev.current), Turn(Gathered(s, ev.turn, ev.es, ev.current), ev.turn),
                    ev.current);
  }
}
