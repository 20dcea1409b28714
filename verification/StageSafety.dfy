/** What holds in every reachable state of the delivery reporter, and of everything it sent. */
module StageSafety {
  import opened Wrappers
  import opened StageSpec

  // ---- Invariant ------------------------------------------------------------

  /** The tracked deliveries are exactly the ones not retired, each under its own key and the
    * identity last seen. */
  ghost predicate Listed(deliveries: map<Key, nat>, info: seq<Delivery>, retired: set<nat>, last: Option<Identity>) {
    && (forall k :: k in deliveries ==>
          var d := deliveries[k];
          d < |info| && KeyOf(info[d]) == k && d !in retired && info[d].identity == last)
    && (forall d :: 0 <= d < |info| && d !in retired ==>
          KeyOf(info[d]) in deliveries && deliveries[KeyOf(info[d])] == d)
    && (forall d :: d in retired ==> d < |info|)
    && |deliveries| <= MAX_TRACKED_DELIVERIES
    && Successive(info, retired)
  }

  /** A message is tracked a second time only after its first tracking ended. */
  ghost predicate Successive(info: seq<Delivery>, retired: set<nat>) {
    forall c, d :: 0 <= c < d < |info| && KeyOf(info[c]) == KeyOf(info[d]) ==> c in retired
  }

  predicate NoTwice(xs: seq<nat>) {
    forall i, j :: 0 <= i < j < |xs| ==> xs[i] != xs[j]
  }

  /** A delivery listed for a turn is tracked and belongs to exactly that turn. */
  ghost predicate Turns(byTurn: map<string, seq<nat>>, info: seq<Delivery>, retired: set<nat>) {
    forall t :: t in byTurn ==>
      && byTurn[t] != [] && NoTwice(byTurn[t])
      && forall i :: 0 <= i < |byTurn[t]| ==>
           byTurn[t][i] < |info| && byTurn[t][i] !in retired && info[byTurn[t][i]].turn == Some(t)
  }

  /** An envelope's delivery carries the identity it was captured under, and its sequence. */
  ghost predicate Captures(ofEnvelope: map<Envelope, nat>, captured: map<Envelope, Option<Identity>>,
                           info: seq<Delivery>) {
    forall e :: e in ofEnvelope ==>
      && e in captured && e.sequence.Some? && ofEnvelope[e] < |info|
      && info[ofEnvelope[e]].identity == captured[e] && info[ofEnvelope[e]].sequence == e.sequence.value
  }

  /** The deliveries whose handoff the server was told of. */
  function HandedOver(sent: seq<Report>): set<nat> {
    if sent == [] then {}
    else
      var r := sent[|sent| - 1];
      HandedOver(sent[..|sent| - 1]) + if r.stage == Submitted then {r.delivery} else {}
  }

  /** A delivery has at most one `submitted` and nothing after a terminal report, and reports
    * under one identity and sequence are about ever later trackings. */
  ghost predicate Orderly(sent: seq<Report>) { NoRepeats(sent) && Ascending(sent) }

  ghost predicate NoRepeats(sent: seq<Report>) {
    forall i, j :: 0 <= i < j < |sent| && sent[i].delivery == sent[j].delivery ==>
      !Terminal(sent[i].stage) && !(sent[i].stage == Submitted && sent[j].stage == Submitted)
  }

  ghost predicate Ascending(sent: seq<Report>) {
    forall i, j :: 0 <= i < j < |sent|
                   && sent[i].identity == sent[j].identity && sent[i].sequence == sent[j].sequence ==>
      sent[i].delivery <= sent[j].delivery
  }

  /** Reports carry the delivery's own identity. */
  ghost predicate Authentic(sent: seq<Report>, info: seq<Delivery>) {
    forall i :: 0 <= i < |sent| ==>
      && sent[i].delivery < |info| && info[sent[i].delivery].identity == Some(sent[i].identity)
      && info[sent[i].delivery].sequence == sent[i].sequence
  }

  ghost predicate Closed(sent: seq<Report>, retired: set<nat>) {
    forall i :: 0 <= i < |sent| && Terminal(sent[i].stage) ==> sent[i].delivery in retired
  }

  ghost predicate FlagsTell(sent: seq<Report>, info: seq<Delivery>, retired: set<nat>) {
    && (forall d :: d in HandedOver(sent) ==> d < |info| && info[d].submitted)
    && (forall d :: 0 <= d < |info| && d !in retired && info[d].identity.Some? && info[d].submitted ==>
          d in HandedOver(sent))
  }

  ghost predicate Indexed(s: State) {
    Listed(s.deliveries, s.info, s.retired, s.last) && Turns(s.byTurn, s.info, s.retired)
  }

  ghost predicate Inv(s: State) {
    && Indexed(s)
    && Captures(s.ofEnvelope, s.captured, s.info)
    && Orderly(s.sent) && Authentic(s.sent, s.info) && Closed(s.sent, s.retired)
    && FlagsTell(s.sent, s.info, s.retired)
  }

  lemma TrackedIsUnretired(s: State, d: nat)
    requires Inv(s) && d < |s.info|
    ensures Tracked(s, d) <==> d !in s.retired
    ensures Tracked(s, d) ==> s.info[d].identity == s.last
  {
  }

  // ---- The steps keep it ----------------------------------------------------

  lemma ObserveKeepsIndexed(s: State, current: Option<Identity>)
    requires Indexed(s)
    ensures Indexed(Observe(s, current))
  {
    var o := Observe(s, current);
    if o != s {
      forall d | 0 <= d < |s.info| ensures d in o.retired {
        if d !in s.retired { assert s.deliveries[KeyOf(s.info[d])] == d; }
      }
    }
  }

  lemma ObserveKeeps(s: State, current: Option<Identity>)
    requires Inv(s)
    ensures Inv(Observe(s, current))
  {
    hide Indexed, Orderly, Authentic;
    ObserveKeepsIndexed(s, current);
    var o := Observe(s, current);
    FlagsKept(s.sent, s.info, s.info, s.retired, o.retired);
  }

  /** Once observed, the identity in force is the one the tracked deliveries carry. */
  predicate Current(s: State, current: Option<Identity>) { current.None? || s.last == current }

  lemma {:induction false} HandedOverSnoc(sent: seq<Report>, r: Report)
    ensures HandedOver(sent + [r]) == HandedOver(sent) + if r.stage == Submitted then {r.delivery} else {}
  {
    assert (sent + [r])[..|sent|] == sent;
  }

  lemma {:induction false} HandedOverIsSent(sent: seq<Report>, d: nat)
    ensures d in HandedOver(sent) <==>
              exists i :: 0 <= i < |sent| && sent[i].delivery == d && sent[i].stage == Submitted
  {
    if sent != [] {
      var n := |sent| - 1;
      HandedOverIsSent(sent[..n], d);
      if d in HandedOver(sent[..n]) {
        var i :| 0 <= i < n && sent[..n][i].delivery == d && sent[..n][i].stage == Submitted;
        assert sent[i].delivery == d;
      } else if d in HandedOver(sent) {
        assert sent[n].delivery == d;
      }
      if i :| 0 <= i < |sent| && sent[i].delivery == d && sent[i].stage == Submitted {
        if i < n { assert sent[..n][i] == sent[i]; }
      }
    }
  }

  lemma TrackKeeps(s: State, sequence: nat, mode: Option<Mode>)
    requires Inv(s)
    ensures var (t, d) := Track(s, sequence, mode, s.last);
            && Inv(t) && t.last == s.last && t.sent == s.sent
            && t.captured == s.captured && t.ofEnvelope == s.ofEnvelope
            && (d.Some? ==>
                  d.value < |t.info| && t.info[d.value].identity == s.last && t.info[d.value].sequence == sequence)
  {
    var key := Key(s.last, sequence);
    if key !in s.deliveries && |s.deliveries| < MAX_TRACKED_DELIVERIES {
      NewDeliveryIsListed(s.deliveries, s.info, s.retired, s.last, key,
                          Delivery(s.last, sequence, mode, false, false, false, None));
    }
  }

  lemma NewDeliveryIsListed(deliveries: map<Key, nat>, info: seq<Delivery>, retired: set<nat>, last: Option<Identity>,
                            key: Key, x: Delivery)
    requires Listed(deliveries, info, retired, last) && key !in deliveries && |deliveries| < MAX_TRACKED_DELIVERIES
    requires KeyOf(x) == key && x.identity == last
    ensures Listed(deliveries[key := |info|], info + [x], retired, last)
  {
    hide Successive;
    assert deliveries[key := |info|].Keys == deliveries.Keys + {key};
    assert Successive(info + [x], retired) by {
      NewDeliverySucceeds(deliveries, info, retired, x);
    }
  }

  lemma NewDeliverySucceeds(deliveries: map<Key, nat>, info: seq<Delivery>, retired: set<nat>, x: Delivery)
    requires Successive(info, retired) && KeyOf(x) !in deliveries
    requires forall d :: 0 <= d < |info| && d !in retired ==> KeyOf(info[d]) in deliveries
    ensures Successive(info + [x], retired)
  {
  }

  lemma StampKeeps(s: State, e: Envelope)
    requires Inv(s) && e !in s.captured
    ensures Inv(s.(captured := s.captured[e := s.last]))
  {
    hide Listed, Turns, Orderly, Authentic, Closed, FlagsTell;
  }

  lemma FileKeeps(s: State, e: Envelope, d: nat)
    requires Inv(s) && e in s.captured && d < |s.info| && s.info[d].identity == s.captured[e]
    requires Some(s.info[d].sequence) == e.sequence
    ensures Inv(s.(ofEnvelope := s.ofEnvelope[e := d]))
  {
    hide Listed, Turns, Orderly, Authentic, Closed, FlagsTell;
  }

  lemma CaptureKeeps(s: State, e: Envelope, current: Option<Identity>)
    requires Inv(s)
    ensures Inv(Capture(s, e, current))
    ensures Current(s, current) ==> Capture(s, e, current).sent == s.sent && Capture(s, e, current).last == s.last
  {
    hide Inv, Track;
    if e.sequence.Some? && e !in s.captured {
      ObserveKeeps(s, current);
      var o := Observe(s, current);
      StampKeeps(o, e);
      var p := o.(captured := o.captured[e := o.last]);
      TrackKeeps(p, e.sequence.value, e.granted);
      var (t, d) := Track(p, e.sequence.value, e.granted, o.last);
      if d.Some? { FileKeeps(t, e, d.value); }
    }
  }

  lemma SendIs(s: State, d: nat, stage: Stage, reason: Option<Reason>, mode: Option<Mode>, current: Option<Identity>)
    requires Inv(s) && Current(s, current)
    ensures var t := Send(s, d, stage, reason, mode, current);
            t == if Tracked(s, d) && s.info[d].identity.Some?
                 then s.(sent := s.sent
                           + [Report(d, s.info[d].identity.value, s.info[d].sequence, stage, reason, mode)])
                 else s
  {
    if d < |s.info| { TrackedIsUnretired(s, d); }
  }

  // ---- One more report ------------------------------------------------------

  /** Nothing that identifies a delivery differs. */
  ghost predicate SameNames(info: seq<Delivery>, info': seq<Delivery>) {
    |info'| == |info| && forall k :: 0 <= k < |info| ==>
      info'[k].identity == info[k].identity && info'[k].sequence == info[k].sequence
  }

  lemma OrderlySent(s: State, r: Report)
    requires Inv(s) && r.delivery < |s.info| && r.delivery !in s.retired
    requires s.info[r.delivery].identity == Some(r.identity) && s.info[r.delivery].sequence == r.sequence
    requires r.stage == Submitted ==> !s.info[r.delivery].submitted
    ensures Orderly(s.sent + [r])
  {
    hide Turns, Captures, NoRepeats, Ascending, Successive;
    NoRepeatSent(s.sent, r, s.info, s.retired);
    AscendingSent(s.sent, r, s.info, s.retired);
  }

  lemma NoRepeatSent(sent: seq<Report>, r: Report, info: seq<Delivery>, retired: set<nat>)
    requires NoRepeats(sent) && Closed(sent, retired) && FlagsTell(sent, info, retired)
    requires r.delivery < |info| && r.delivery !in retired && (r.stage == Submitted ==> !info[r.delivery].submitted)
    ensures NoRepeats(sent + [r])
  {
    forall i | 0 <= i < |sent| && sent[i].delivery == r.delivery && r.stage == Submitted
      ensures sent[i].stage != Submitted
    {
      HandedOverIsSent(sent, r.delivery);
    }
  }

  lemma AscendingSent(sent: seq<Report>, r: Report, info: seq<Delivery>, retired: set<nat>)
    requires Ascending(sent) && Authentic(sent, info) && Successive(info, retired)
    requires r.delivery < |info| && r.delivery !in retired
    requires info[r.delivery].identity == Some(r.identity) && info[r.delivery].sequence == r.sequence
    ensures Ascending(sent + [r])
  {
    forall i | 0 <= i < |sent| && sent[i].identity == r.identity && sent[i].sequence == r.sequence
      ensures sent[i].delivery <= r.delivery
    {
      assert KeyOf(info[sent[i].delivery]) == KeyOf(info[r.delivery]);
    }
  }

  lemma AuthenticSent(sent: seq<Report>, r: Report, info: seq<Delivery>, info': seq<Delivery>)
    requires Authentic(sent, info) && SameNames(info, info')
    requires r.delivery < |info| && info[r.delivery].identity == Some(r.identity)
    requires info[r.delivery].sequence == r.sequence
    ensures Authentic(sent + [r], info')
  {
  }

  /** A submission sets the flag; an end retires the delivery. */
  lemma FlagsSent(sent: seq<Report>, r: Report, info: seq<Delivery>, info': seq<Delivery>, retired: set<nat>,
                  retired': set<nat>)
    requires FlagsTell(sent, info, retired) && |info'| == |info| && r.delivery < |info|
    requires forall k :: 0 <= k < |info| ==>
               info'[k].submitted == (info[k].submitted || (k == r.delivery && r.stage == Submitted))
    requires forall k :: 0 <= k < |info| ==> info'[k].identity == info[k].identity
    requires retired <= retired'
    ensures FlagsTell(sent + [r], info', retired')
  {
    HandedOverSnoc(sent, r);
  }

  lemma FlagsKept(sent: seq<Report>, info: seq<Delivery>, info': seq<Delivery>, retired: set<nat>, retired': set<nat>)
    requires FlagsTell(sent, info, retired) && |info'| == |info| && retired <= retired'
    requires forall k :: 0 <= k < |info| ==>
               info'[k].submitted == info[k].submitted && info'[k].identity == info[k].identity
    ensures FlagsTell(sent, info', retired')
  {
  }

  // ---- Changing or ending one delivery --------------------------------------

  /** Flags and mode may change where identity, sequence and turn do not. */
  lemma ListedKept(s: State, d: nat, x: Delivery)
    requires Listed(s.deliveries, s.info, s.retired, s.last) && d < |s.info|
    requires x.identity == s.info[d].identity && x.sequence == s.info[d].sequence
    ensures Listed(s.deliveries, s.info[d := x], s.retired, s.last)
  {
  }

  lemma TurnsKept(s: State, d: nat, x: Delivery)
    requires Turns(s.byTurn, s.info, s.retired) && d < |s.info| && x.turn == s.info[d].turn
    ensures Turns(s.byTurn, s.info[d := x], s.retired)
  {
  }

  lemma CapturesKept(s: State, info: seq<Delivery>)
    requires Captures(s.ofEnvelope, s.captured, s.info) && SameNames(s.info, info)
    ensures Captures(s.ofEnvelope, s.captured, info)
  {
  }

  lemma {:induction false} WithoutKeeps(xs: seq<nat>, d: nat)
    requires NoTwice(xs)
    ensures NoTwice(Without(xs, d))
    ensures forall x :: x in Without(xs, d) <==> x in xs && x != d
  {
    if xs != [] {
      var n := |xs| - 1;
      WithoutKeeps(xs[..n], d);
      assert xs == xs[..n] + [xs[n]];
      assert xs[n] !in xs[..n];
    }
  }

  lemma ListedWithout(s: State, d: nat)
    requires Listed(s.deliveries, s.info, s.retired, s.last) && Tracked(s, d)
    ensures Listed(s.deliveries - {KeyOf(s.info[d])}, s.info, s.retired + {d}, s.last)
  {
    var rest := s.deliveries - {KeyOf(s.info[d])};
    assert rest.Keys <= s.deliveries.Keys;
    SubsetSize(rest.Keys, s.deliveries.Keys);
    forall c | 0 <= c < |s.info| && c !in s.retired + {d}
      ensures KeyOf(s.info[c]) in rest && rest[KeyOf(s.info[c])] == c
    {
      assert KeyOf(s.info[c]) in s.deliveries && s.deliveries[KeyOf(s.info[c])] == c;
    }
  }

  lemma TurnsWithout(s: State, d: nat)
    requires Turns(s.byTurn, s.info, s.retired) && d < |s.info|
    ensures Turns(WithoutDelivery(s.byTurn, s.info[d].turn, d), s.info, s.retired + {d})
  {
    var byTurn := WithoutDelivery(s.byTurn, s.info[d].turn, d);
    forall t | t in byTurn
      ensures byTurn[t] != [] && NoTwice(byTurn[t])
      ensures forall i :: 0 <= i < |byTurn[t]| ==>
                byTurn[t][i] < |s.info| && byTurn[t][i] !in s.retired + {d} && s.info[byTurn[t][i]].turn == Some(t)
    {
      if s.info[d].turn == Some(t) {
        WithoutKeeps(s.byTurn[t], d);
        forall i | 0 <= i < |byTurn[t]|
          ensures byTurn[t][i] < |s.info| && byTurn[t][i] !in s.retired + {d} && s.info[byTurn[t][i]].turn == Some(t)
        {
          assert byTurn[t][i] in byTurn[t] && byTurn[t][i] in s.byTurn[t];
        }
      }
    }
  }

  lemma RemoveKeepsIndexed(s: State, d: nat)
    requires Indexed(s)
    ensures Indexed(Remove(s, d))
  {
    hide Listed, Turns;
    if Tracked(s, d) {
      ListedWithout(s, d);
      TurnsWithout(s, d);
    }
  }

  lemma RemoveKeeps(s: State, d: nat)
    requires Inv(s)
    ensures Inv(Remove(s, d)) && Remove(s, d).last == s.last && Remove(s, d).sent == s.sent
  {
    hide Indexed, Captures, Orderly, Authentic, FlagsTell;
    RemoveKeepsIndexed(s, d);
    if Tracked(s, d) {
      FlagsKept(s.sent, s.info, s.info, s.retired, s.retired + {d});
    }
  }

  lemma NoteKeeps(s: State, d: nat, stage: Stage, reason: Option<Reason>, mode: Option<Mode>, current: Option<Identity>)
    requires Inv(s) && Current(s, current) && !Terminal(stage) && stage != Submitted
    ensures Inv(Send(s, d, stage, reason, mode, current)) && Send(s, d, stage, reason, mode, current).last == s.last
  {
    hide Listed, Turns, Captures, Orderly, Authentic, FlagsTell;
    SendIs(s, d, stage, reason, mode, current);
    if Tracked(s, d) && s.info[d].identity.Some? {
      TrackedIsUnretired(s, d);
      var r := Report(d, s.info[d].identity.value, s.info[d].sequence, stage, reason, mode);
      OrderlySent(s, r);
      AuthenticSent(s.sent, r, s.info, s.info);
      FlagsSent(s.sent, r, s.info, s.info, s.retired, s.retired);
    }
  }

  /** The last report of a delivery and its retirement are one step. */
  lemma EndKeeps(s: State, d: nat, stage: Stage, reason: Option<Reason>, mode: Option<Mode>, current: Option<Identity>)
    requires Inv(s) && Current(s, current) && Terminal(stage)
    ensures Inv(End(s, d, stage, reason, mode, current)) && End(s, d, stage, reason, mode, current).last == s.last
  {
    hide Listed, Turns, Captures, Orderly, Authentic, FlagsTell;
    SendIs(s, d, stage, reason, mode, current);
    RemoveKeeps(s, d);
    if Tracked(s, d) && s.info[d].identity.Some? {
      TrackedIsUnretired(s, d);
      var r := Report(d, s.info[d].identity.value, s.info[d].sequence, stage, reason, mode);
      OrderlySent(s, r);
      AuthenticSent(s.sent, r, s.info, s.info);
      FlagsSent(s.sent, r, s.info, s.info, s.retired, s.retired + {d});
    }
  }

  lemma MarkKeeps(s: State, d: nat, x: Delivery)
    requires Inv(s) && d < |s.info|
    requires x == s.info[d].(mode := x.mode, disabled := x.disabled, steer := x.steer)
    ensures Inv(s.(info := s.info[d := x]))
  {
    hide Listed, Turns, Captures, Orderly, FlagsTell;
    ListedKept(s, d, x);
    TurnsKept(s, d, x);
    CapturesKept(s, s.info[d := x]);
    FlagsKept(s.sent, s.info, s.info[d := x], s.retired, s.retired);
  }

  /** The flag of a delivery that is over, or that nothing can be reported of, is free. */
  lemma UnreportedFlag(s: State, d: nat, x: Delivery)
    requires FlagsTell(s.sent, s.info, s.retired) && d < |s.info|
    requires x.identity == s.info[d].identity && x.submitted && (d in s.retired || x.identity.None?)
    ensures FlagsTell(s.sent, s.info[d := x], s.retired)
  {
  }

  /** The flag is set and, where a report is possible, the server is told. */
  lemma SubmitTraces(s: State, d: nat, x: Delivery, mode: Option<Mode>)
    requires Inv(s) && d < |s.info| && !s.info[d].submitted && x.submitted
    requires x.identity == s.info[d].identity && x.sequence == s.info[d].sequence
    ensures var sent := if d !in s.retired && x.identity.Some?
                        then s.sent + [Report(d, x.identity.value, x.sequence, Submitted, None, mode)] else s.sent;
            && Orderly(sent) && Authentic(sent, s.info[d := x]) && Closed(sent, s.retired)
            && FlagsTell(sent, s.info[d := x], s.retired)
  {
    hide Indexed, Captures, Orderly, Authentic, FlagsTell;
    if d !in s.retired && x.identity.Some? {
      var r := Report(d, x.identity.value, x.sequence, Submitted, None, mode);
      OrderlySent(s, r);
      AuthenticSent(s.sent, r, s.info, s.info[d := x]);
      FlagsSent(s.sent, r, s.info, s.info[d := x], s.retired, s.retired);
    } else {
      UnreportedFlag(s, d, x);
      AuthenticKept(s.sent, s.info, s.info[d := x]);
    }
  }

  lemma SubmitIndexes(s: State, d: nat, x: Delivery)
    requires Inv(s) && d < |s.info| && x == s.info[d].(submitted := x.submitted, steer := x.steer)
    ensures Indexed(s.(info := s.info[d := x])) && Captures(s.ofEnvelope, s.captured, s.info[d := x])
  {
    hide Listed, Turns, Captures, Orderly, Authentic, Closed, FlagsTell;
    ListedKept(s, d, x);
    TurnsKept(s, d, x);
    CapturesKept(s, s.info[d := x]);
  }

  lemma SubmitOneKeeps(s: State, d: nat, steer: bool, current: Option<Identity>)
    requires Inv(s) && Current(s, current)
    ensures Inv(SubmitOne(s, d, steer, current)) && SubmitOne(s, d, steer, current).last == s.last
  {
    hide Listed, Turns, Captures, Orderly, Authentic, Closed, FlagsTell, Send;
    if d < |s.info| && !s.info[d].submitted {
      var x := s.info[d].(submitted := true, steer := s.info[d].steer || steer);
      SubmitIndexes(s, d, x);
      SubmitTraces(s, d, x, s.info[d].mode);
      SubmitIs(s, d, x, s.info[d].mode, current);
      TrackedIsUnretired(s, d);
    }
  }

  lemma AuthenticKept(sent: seq<Report>, info: seq<Delivery>, info': seq<Delivery>)
    requires Authentic(sent, info) && SameNames(info, info')
    ensures Authentic(sent, info')
  {
  }

  lemma SubmitIs(s: State, d: nat, x: Delivery, mode: Option<Mode>, current: Option<Identity>)
    requires Inv(s) && Current(s, current) && d < |s.info| && x.identity == s.info[d].identity
    requires x.sequence == s.info[d].sequence
    ensures Send(s.(info := s.info[d := x]), d, Submitted, None, mode, current)
         == s.(info := s.info[d := x],
               sent := if Tracked(s, d) && x.identity.Some?
                       then s.sent + [Report(d, x.identity.value, x.sequence, Submitted, None, mode)] else s.sent)
  {
    TrackedIsUnretired(s, d);
  }

  // ---- Turns ----------------------------------------------------------------

  lemma TurnsJoined(s: State, turn: string, d: nat)
    requires Turns(s.byTurn, s.info, s.retired) && d < |s.info| && d !in s.retired
    requires s.info[d].turn.None? || s.info[d].turn == Some(turn)
    ensures var listed := Turn(s, turn);
            Turns(s.byTurn[turn := if d in listed then listed else listed + [d]],
                  s.info[d := s.info[d].(turn := Some(turn))], s.retired)
  {
  }

  lemma JoinKeeps(s: State, turn: string, d: nat)
    requires Inv(s) && d < |s.info| && d !in s.retired && (s.info[d].turn.None? || s.info[d].turn == Some(turn))
    ensures var listed := Turn(s, turn);
            Inv(s.(info := s.info[d := s.info[d].(turn := Some(turn))],
                   byTurn := s.byTurn[turn := if d in listed then listed else listed + [d]]))
  {
    hide Listed, Turns, Captures, Orderly, Authentic, Closed, FlagsTell;
    var x := s.info[d].(turn := Some(turn));
    TurnsJoined(s, turn, d);
    ListedKept(s, d, x);
    CapturesKept(s, s.info[d := x]);
    AuthenticKept(s.sent, s.info, s.info[d := x]);
    FlagsKept(s.sent, s.info, s.info[d := x], s.retired, s.retired);
  }

  lemma RecordKeeps(s: State, turn: string, e: Envelope, current: Option<Identity>)
    requires Inv(s) && Current(s, current)
    ensures Inv(Record(s, turn, e, current)) && Record(s, turn, e, current).last == s.last
    ensures Record(s, turn, e, current).sent == s.sent
  {
    hide Inv, Capture;
    CaptureKeeps(s, e, current);
    var c := Capture(s, e, current);
    if e in c.ofEnvelope {
      var d := c.ofEnvelope[e];
      if d !in c.retired && Tracked(c, d) && (c.info[d].turn.None? || c.info[d].turn == Some(turn)) {
        JoinKeeps(c, turn, d);
      }
    }
  }

  lemma {:induction false} RecordAllKeeps(s: State, turn: string, es: seq<Envelope>, current: Option<Identity>)
    requires Inv(s) && Current(s, current)
    ensures Inv(RecordAll(s, turn, es, current)) && RecordAll(s, turn, es, current).last == s.last
    ensures RecordAll(s, turn, es, current).sent == s.sent
  {
    hide Inv, Record;
    if es != [] {
      RecordAllKeeps(s, turn, es[..|es| - 1], current);
      RecordKeeps(RecordAll(s, turn, es[..|es| - 1], current), turn, es[|es| - 1], current);
    }
  }

  lemma ObservedIsCurrent(s: State, current: Option<Identity>)
    ensures Current(Observe(s, current), current)
  {
  }

  // ---- Operations -----------------------------------------------------------

  lemma {:induction false} SubmitEachKeeps(s: State, ds: seq<nat>, current: Option<Identity>)
    requires Inv(s) && Current(s, current)
    ensures Inv(SubmitEach(s, ds, current)) && SubmitEach(s, ds, current).last == s.last
  {
    hide Inv, SubmitOne;
    if ds != [] {
      SubmitEachKeeps(s, ds[..|ds| - 1], current);
      SubmitOneKeeps(SubmitEach(s, ds[..|ds| - 1], current), ds[|ds| - 1], false, current);
    }
  }

  lemma CloseOneKeeps(s: State, d: nat, unknown: Option<Reason>, current: Option<Identity>)
    requires Inv(s) && Current(s, current)
    ensures Inv(CloseOne(s, d, unknown, current)) && CloseOne(s, d, unknown, current).last == s.last
  {
    hide Inv, End;
    if d < |s.info| && !s.info[d].steer {
      EndKeeps(s, d, Settled, Some(TurnEnd), None, current);
      EndKeeps(s, d, Settled, Some(FailedBeforeHandoff), None, current);
      EndKeeps(s, d, Unknown, unknown, None, current);
    }
  }

  lemma {:induction false} CloseEachKeeps(s: State, ds: seq<nat>, unknown: Option<Reason>, current: Option<Identity>)
    requires Inv(s) && Current(s, current)
    ensures Inv(CloseEach(s, ds, unknown, current)) && CloseEach(s, ds, unknown, current).last == s.last
  {
    hide Inv, CloseOne;
    if ds != [] {
      CloseEachKeeps(s, ds[..|ds| - 1], unknown, current);
      CloseOneKeeps(CloseEach(s, ds[..|ds| - 1], unknown, current), ds[|ds| - 1], unknown, current);
    }
  }

  lemma {:induction false} EndEachKeeps(s: State, es: seq<Envelope>, end: Ending, current: Option<Identity>)
    requires Inv(s) && Terminal(end.stage)
    ensures Inv(EndEach(s, es, end, current)) && Current(EndEach(s, es, end, current), current)
  {
    hide Inv, Capture, End;
    if es == [] {
      ObserveKeeps(s, current);
    } else {
      var b, e := EndEach(s, es[..|es| - 1], end, current), es[|es| - 1];
      EndEachKeeps(s, es[..|es| - 1], end, current);
      CaptureKeeps(b, e, current);
      var c := Capture(b, e, current);
      if e in c.ofEnvelope { EndKeeps(c, c.ofEnvelope[e], end.stage, Some(end.reason), end.mode, current); }
    }
  }

  lemma {:induction false} NoteEachKeeps(s: State, es: seq<Envelope>, stage: Stage, current: Option<Identity>)
    requires Inv(s) && !Terminal(stage) && stage != Submitted
    ensures Inv(NoteEach(s, es, stage, current)) && Current(NoteEach(s, es, stage, current), current)
  {
    hide Inv, Capture, Send;
    if es == [] {
      ObserveKeeps(s, current);
    } else {
      var b, e := NoteEach(s, es[..|es| - 1], stage, current), es[|es| - 1];
      NoteEachKeeps(s, es[..|es| - 1], stage, current);
      CaptureKeeps(b, e, current);
      var c := Capture(b, e, current);
      if e in c.ofEnvelope { NoteKeeps(c, c.ofEnvelope[e], stage, None, None, current); }
    }
  }

  lemma {:induction false} SteerEachKeeps(s: State, turn: string, es: seq<Envelope>, current: Option<Identity>)
    requires Inv(s)
    ensures Inv(SteerEach(s, turn, es, current)) && Current(SteerEach(s, turn, es, current), current)
  {
    hide Inv, Record, SubmitOne;
    if es == [] {
      ObserveKeeps(s, current);
    } else {
      var b, e := SteerEach(s, turn, es[..|es| - 1], current), es[|es| - 1];
      SteerEachKeeps(s, turn, es[..|es| - 1], current);
      RecordKeeps(b, turn, e, current);
      var r := Record(b, turn, e, current);
      if e in r.ofEnvelope { SubmitOneKeeps(r, r.ofEnvelope[e], true, current); }
    }
  }

  lemma DisableKeeps(s: State, e: Envelope, current: Option<Identity>)
    requires Inv(s) && Current(s, current)
    ensures Inv(Disable(s, e, current)) && Current(Disable(s, e, current), current)
  {
    hide Inv, Capture, Send;
    CaptureKeeps(s, e, current);
    var c := Capture(s, e, current);
    if e in c.ofEnvelope && c.ofEnvelope[e] < |c.info| {
      var d := c.ofEnvelope[e];
      var x := c.info[d].(disabled := true, mode := Some(Normal));
      MarkKeeps(c, d, x);
      NoteKeeps(c.(info := c.info[d := x]), d, Queued, Some(LocalPolicyDisabled), Some(Normal), current);
    }
  }

  lemma {:induction false} DisableAllKeeps(s: State, es: seq<Envelope>, current: Option<Identity>)
    requires Inv(s)
    ensures Inv(DisableAll(s, es, current)) && Current(DisableAll(s, es, current), current)
  {
    hide Inv, Disable;
    if es == [] {
      ObserveKeeps(s, current);
    } else {
      DisableAllKeeps(s, es[..|es| - 1], current);
      DisableKeeps(DisableAll(s, es[..|es| - 1], current), es[|es| - 1], current);
    }
  }

  lemma {:induction false} RetireEachKeeps(s: State, es: seq<Envelope>)
    requires Inv(s)
    ensures Inv(RetireEach(s, es))
  {
    hide Inv, Remove;
    if es != [] {
      var r, e := RetireEach(s, es[..|es| - 1]), es[|es| - 1];
      RetireEachKeeps(s, es[..|es| - 1]);
      if e in r.ofEnvelope { RemoveKeeps(r, r.ofEnvelope[e]); }
    }
  }

  lemma TurnDropped(s: State, turn: string)
    requires Inv(s)
    ensures Inv(s.(byTurn := s.byTurn - {turn}))
  {
    hide Listed, Captures, Orderly, Authentic, Closed, FlagsTell, NoTwice;
  }

  lemma GatheredKeeps(s: State, turn: string, es: seq<Envelope>, current: Option<Identity>)
    requires Inv(s)
    ensures var r := Gathered(s, turn, es, current); Inv(r) && Current(r, current) && r.sent == s.sent
  {
    hide Inv, RecordAll;
    ObserveKeeps(s, current);
    RecordAllKeeps(Observe(s, current), turn, es, current);
  }

  lemma CloseTurnKeeps(s: State, turn: string, es: seq<Envelope>, unknown: Option<Reason>, current: Option<Identity>)
    requires Inv(s)
    ensures Inv(CloseTurn(s, turn, es, unknown, current))
  {
    hide Inv, Gathered, CloseEach;
    GatheredKeeps(s, turn, es, current);
    var r := Gathered(s, turn, es, current);
    CloseEachKeeps(r, Turn(r, turn), unknown, current);
    TurnDropped(CloseEach(r, Turn(r, turn), unknown, current), turn);
  }

  lemma SubmittedKeeps(s: State, turn: string, es: seq<Envelope>, current: Option<Identity>)
    requires Inv(s)
    ensures Inv(SubmittedOp(s, turn, es, current))
  {
    hide Inv, Gathered, SubmitEach;
    GatheredKeeps(s, turn, es, current);
    var r := Gathered(s, turn, es, current);
    SubmitEachKeeps(r, Turn(r, turn), current);
  }

  lemma QueuedKeeps(s: State, e: Envelope, current: Option<Identity>)
    requires Inv(s)
    ensures Inv(QueuedOp(s, e, current))
  {
    hide Inv, Capture, Send;
    ObserveKeeps(s, current);
    ObservedIsCurrent(s, current);
    CaptureKeeps(Observe(s, current), e, current);
    var c := Capture(Observe(s, current), e, current);
    if e.sequence.Some? && e in c.ofEnvelope && c.ofEnvelope[e] < |c.info| {
      NoteKeeps(c, c.ofEnvelope[e], Queued, None, c.info[c.ofEnvelope[e]].mode, current);
    }
  }

  lemma StepKeeps(s: State, ev: Event)
    requires Inv(s) && Proper(ev)
    ensures Inv(Step(s, ev))
  {
    hide Inv, Capture, QueuedOp, DisableAll, SubmittedOp, SteerEach, EndEach, NoteEach, RetireEach, CloseTurn;
    match ev
    case OnCapture(e, current) => CaptureKeeps(s, e, current);
    case OnQueued(e, current) => QueuedKeeps(s, e, current);
    case OnLocalPolicyDisabled(es, current) => DisableAllKeeps(s, es, current);
    case OnSubmitted(turn, es, current) => SubmittedKeeps(s, turn, es, current);
    case OnSteerSubmitted(turn, es, current) => SteerEachKeeps(s, turn, es, current);
    case OnEnded(es, end, current) => EndEachKeeps(s, es, end, current);
    case OnNoted(es, stage, current) => NoteEachKeeps(s, es, stage, current);
    case OnRetired(es) => RetireEachKeeps(s, es);
    case OnTurnClosed(turn, es, unknown, current) => CloseTurnKeeps(s, turn, es, unknown, current);
  }

  ghost predicate AllProper(evs: seq<Event>) { forall i :: 0 <= i < |evs| ==> Proper(evs[i]) }

  lemma {:induction false} RunKeeps(evs: seq<Event>)
    requires AllProper(evs)
    ensures Inv(After(evs))
  {
    hide Inv, Step, Proper;
    if evs == [] {
      InitIsSafe();
    } else {
      RunKeeps(evs[..|evs| - 1]);
      StepKeeps(After(evs[..|evs| - 1]), evs[|evs| - 1]);
    }
  }

  lemma InitIsSafe()
    ensures Inv(Init())
  {
  }

  // ---- What the server sees -------------------------------------------------

  /** For every delivery of every run: at most one `submitted`, nothing after a terminal
    * report, hence at most one of those; and each report names the identity and sequence the
    * message was first received under. */
  lemma ReportsAreOrderly(evs: seq<Event>, i: nat, j: nat, e: Envelope)
    requires AllProper(evs) && i < |After(evs).sent|
    ensures var s := After(evs);
            i < j < |s.sent| && s.sent[i].delivery == s.sent[j].delivery ==>
              !Terminal(s.sent[i].stage) && !(s.sent[i].stage == Submitted && s.sent[j].stage == Submitted)
    ensures var s := After(evs);
            e in s.ofEnvelope && s.ofEnvelope[e] == s.sent[i].delivery ==>
              e in s.captured && s.captured[e] == Some(s.sent[i].identity) && e.sequence == Some(s.sent[i].sequence)
  {
    RunKeeps(evs);
  }

  /** Two reports about one (identity, sequence) that break that order, a second `submitted` or
    * anything after a terminal one, are about two trackings of the message: the earlier report
    * about the earlier tracking, which ended before the later began. On the wire the order is
    * broken only where a message is received again after its delivery ended. */
  lemma WireOrderBreaksOnlyOnReceiptAgain(evs: seq<Event>, i: nat, j: nat)
    requires AllProper(evs) && i < j < |After(evs).sent|
    requires var (x, y) := (After(evs).sent[i], After(evs).sent[j]);
             x.identity == y.identity && x.sequence == y.sequence
             && (Terminal(x.stage) || (x.stage == Submitted && y.stage == Submitted))
    ensures var s := After(evs);
            var (x, y) := (s.sent[i], s.sent[j]);
            && x.delivery < y.delivery < |s.info| && x.delivery in s.retired
            && KeyOf(s.info[x.delivery]) == KeyOf(s.info[y.delivery]) == Key(Some(x.identity), x.sequence)
  {
    RunKeeps(evs);
  }

  /** A message tracked again had its earlier tracking ended by then. */
  lemma TrackedAgainAfterItsEnd(s: State, sequence: nat, mode: Option<Mode>, d: nat)
    requires Inv(s) && d < |s.info| && KeyOf(s.info[d]) == Key(s.last, sequence)
    ensures var (t, k) := Track(s, sequence, mode, s.last); |t.info| > |s.info| ==> d in s.retired
  {
  }

  /** And there the order does break: a message received again, under the same identity, after
    * the terminal report of its delivery, is reported as queued once more unless the cap is
    * reached. */
  lemma ReceiptAgainReportsAgain(s: State, i: nat, e: Envelope, current: Identity)
    requires Inv(s) && i < |s.sent| && Terminal(s.sent[i].stage)
    requires s.sent[i].identity == current && s.last == Some(current)
    requires e.sequence == Some(s.sent[i].sequence) && e !in s.captured
    requires Key(Some(current), e.sequence.value) !in s.deliveries
    ensures var t := QueuedOp(s, e, Some(current));
            if |s.deliveries| < MAX_TRACKED_DELIVERIES then
              && |t.sent| == |s.sent| + 1 && t.sent[..|s.sent|] == s.sent
              && t.sent[|s.sent|].stage == Queued && t.sent[|s.sent|].identity == current
              && t.sent[|s.sent|].sequence == s.sent[i].sequence
            else t.sent == s.sent
  {
    hide Inv, Capture, Send;
    FirstReceipt(s, e, current);
    var c := Capture(s, e, Some(current));
    if |s.deliveries| < MAX_TRACKED_DELIVERIES {
      CaptureKeeps(s, e, Some(current));
      SendIs(c, |s.info|, Queued, None, e.granted, Some(current));
    }
  }

  lemma FirstReceipt(s: State, e: Envelope, current: Identity)
    requires Inv(s) && s.last == Some(current) && e.sequence.Some? && e !in s.captured
    requires Key(Some(current), e.sequence.value) !in s.deliveries
    ensures Observe(s, Some(current)) == s
    ensures var c := Capture(s, e, Some(current));
            && c.sent == s.sent && (e in c.ofEnvelope <==> |s.deliveries| < MAX_TRACKED_DELIVERIES)
            && (e in c.ofEnvelope ==>
                  && c.ofEnvelope[e] == |s.info| && |c.info| == |s.info| + 1 && Tracked(c, |s.info|) && c.last == s.last
                  && c.info[|s.info|].identity == Some(current) && c.info[|s.info|].sequence == e.sequence.value
                  && c.info[|s.info|].mode == e.granted)
  {
    hide Indexed, Orderly, Authentic, Closed, FlagsTell;
    assert e !in s.ofEnvelope;
  }

  /** The reports a turn closes its deliveries with, as a function of what is known then. */
  function Closings(info: seq<Delivery>, ds: seq<nat>, unknown: Option<Reason>): seq<Report> {
    if ds == [] then []
    else Closings(info, ds[..|ds| - 1], unknown) + Closing(info, ds[|ds| - 1], unknown)
  }

  function Closing(info: seq<Delivery>, d: nat, unknown: Option<Reason>): seq<Report> {
    if d >= |info| || info[d].steer || info[d].identity.None? then []
    else
      [Report(d, info[d].identity.value, info[d].sequence,
              if !info[d].submitted && unknown.Some? then Unknown else Settled,
              Some(if info[d].submitted then TurnEnd
                   else if unknown.Some? then unknown.value else FailedBeforeHandoff), None)]
  }

  predicate Steered(info: seq<Delivery>, d: nat) { d < |info| && info[d].steer }

  ghost predicate Open(s: State, ds: seq<nat>) {
    NoTwice(ds) && forall i :: 0 <= i < |ds| ==> ds[i] < |s.info| && ds[i] !in s.retired
  }

  lemma CloseOneIs(s: State, d: nat, unknown: Option<Reason>, current: Option<Identity>)
    requires Inv(s) && Current(s, current) && d < |s.info| && d !in s.retired
    ensures var t := CloseOne(s, d, unknown, current);
            t.info == s.info && t.sent == s.sent + Closing(s.info, d, unknown)
            && t.retired == if s.info[d].steer then s.retired else s.retired + {d}
  {
    hide Listed, Turns, Captures, Orderly, Authentic, Closed, FlagsTell;
    TrackedIsUnretired(s, d);
    SendIs(s, d, Settled, Some(TurnEnd), None, current);
    SendIs(s, d, Settled, Some(FailedBeforeHandoff), None, current);
    SendIs(s, d, Unknown, unknown, None, current);
  }

  lemma {:induction false} CloseEachIs(s: State, ds: seq<nat>, unknown: Option<Reason>, current: Option<Identity>)
    requires Inv(s) && Current(s, current) && Open(s, ds)
    ensures var t := CloseEach(s, ds, unknown, current);
            && t.info == s.info && t.sent == s.sent + Closings(s.info, ds, unknown)
            && (forall d :: d in t.retired <==> d in s.retired || (d in ds && !Steered(s.info, d)))
  {
    hide Inv, CloseOne, Closing;
    if ds != [] {
      var n := |ds| - 1;
      CloseEachIs(s, ds[..n], unknown, current);
      CloseEachKeeps(s, ds[..n], unknown, current);
      assert ds == ds[..n] + [ds[n]];
      assert ds[n] !in ds[..n];
      CloseOneIs(CloseEach(s, ds[..n], unknown, current), ds[n], unknown, current);
    }
  }

  lemma TurnIsOpen(s: State, turn: string)
    requires Inv(s)
    ensures Open(s, Turn(s, turn))
  {
  }

  /** The end of a turn: exactly the deliveries listed for it that were not steered are
    * closed, in their order, each with one report. */
  lemma TurnClosesItsDeliveries(s: State, turn: string, es: seq<Envelope>, unknown: Option<Reason>,
                                current: Option<Identity>)
    requires Inv(s)
    ensures var r, t := Gathered(s, turn, es, current), CloseTurn(s, turn, es, unknown, current);
            && t.sent == s.sent + Closings(r.info, Turn(r, turn), unknown)
            && turn !in t.byTurn
            && (forall d :: d in Turn(r, turn) && !Steered(r.info, d) ==> d in t.retired)
  {
    hide Inv, Gathered, CloseEach, Closings;
    GatheredKeeps(s, turn, es, current);
    var r := Gathered(s, turn, es, current);
    TurnIsOpen(r, turn);
    CloseEachIs(r, Turn(r, turn), unknown, current);
  }

  /** What a turn's report of a delivery must say, given the deliveries handed over before. */
  predicate Truthful(r: Report, told: set<nat>, unknown: Option<Reason>) {
    if r.delivery in told then r.stage == Settled && r.reason == Some(TurnEnd)
    else if unknown.Some? then r.stage == Unknown && r.reason == unknown
    else r.stage == Settled && r.reason == Some(FailedBeforeHandoff)
  }

  /** A delivery is closed with `turn_end` exactly when the server was told of its handoff. */
  lemma TurnEndTellsTheTruth(s: State, turn: string, es: seq<Envelope>, unknown: Option<Reason>,
                             current: Option<Identity>, i: nat)
    requires Inv(s) && |s.sent| <= i < |CloseTurn(s, turn, es, unknown, current).sent|
    ensures Truthful(CloseTurn(s, turn, es, unknown, current).sent[i], HandedOver(s.sent), unknown)
  {
    hide Inv, Gathered, CloseTurn, Truthful, Closings;
    TurnClosesItsDeliveries(s, turn, es, unknown, current);
    GatheredKeeps(s, turn, es, current);
    var r := Gathered(s, turn, es, current);
    TurnIsOpen(r, turn);
    ClosingsAreTrue(r, Turn(r, turn), unknown, i - |s.sent|);
  }

  lemma {:induction false} ClosingsAreTrue(s: State, ds: seq<nat>, unknown: Option<Reason>, i: nat)
    requires Inv(s) && Open(s, ds) && i < |Closings(s.info, ds, unknown)|
    ensures Truthful(Closings(s.info, ds, unknown)[i], HandedOver(s.sent), unknown)
  {
    hide Listed, Turns, Captures, Orderly, Authentic, Closed;
    var n := |ds| - 1;
    if i < |Closings(s.info, ds[..n], unknown)| {
      ClosingsAreTrue(s, ds[..n], unknown, i);
    }
  }

  /** The two indexes agree in every reachable state: a delivery is tracked exactly while it
    * is not retired, under the identity last seen; what a turn lists is tracked and belongs
    * to that turn alone; and no more than the cap is tracked. */
  lemma IndexesAgree(evs: seq<Event>, d: nat, turn: string)
    requires AllProper(evs)
    ensures var s := After(evs);
            && |s.deliveries| <= MAX_TRACKED_DELIVERIES
            && (d < |s.info| ==> (d in s.retired <==> !Tracked(s, d)))
            && (Tracked(s, d) ==> s.info[d].identity == s.last)
            && (d in Turn(s, turn) ==> Tracked(s, d) && s.info[d].turn == Some(turn))
  {
    RunKeeps(evs);
    var s := After(evs);
    if d < |s.info| { TrackedIsUnretired(s, d); }
  }
}
