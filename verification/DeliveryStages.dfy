/** The delivery reporter as the program has it: one object whose calls update its two
  * indexes and each delivery's record in place. */
module DeliveryStages {
  import opened Wrappers
  import opened StageSpec
  import opened StageSafety

  // ---- Facts the loops need -------------------------------------------------

  lemma {:induction false} WithoutAbsent(xs: seq<nat>, d: nat)
    requires d !in xs
    ensures Without(xs, d) == xs
  {
    if xs != [] {
      var n := |xs| - 1;
      assert xs == xs[..n] + [xs[n]];
      WithoutAbsent(xs[..n], d);
    }
  }

  /** Only its own turn lists a delivery. */
  lemma OtherTurnsKeep(s: State, d: nat, t: string)
    requires Indexed(s) && Tracked(s, d) && t in s.byTurn && s.info[d].turn != Some(t)
    ensures Without(s.byTurn[t], d) == s.byTurn[t] != []
  {
    WithoutAbsent(s.byTurn[t], d);
  }

  lemma HeadIsTracked(s: State, t: string)
    requires Indexed(s) && t in s.byTurn
    ensures s.deliveries != map[]
  {
    assert s.byTurn[t][0] !in s.retired;
  }

  /** With nothing tracked, everything is retired and no turn lists anything. */
  lemma NothingTracked(s: State)
    requires Indexed(s) && s.deliveries == map[]
    ensures s.byTurn == map[] && forall d :: d in s.retired <==> 0 <= d < |s.info|
  {
    forall t | t in s.byTurn ensures false { HeadIsTracked(s, t); }
  }

  lemma TrackedUnder(s: State, k: Key)
    requires Indexed(s) && k in s.deliveries
    ensures Tracked(s, s.deliveries[k]) && KeyOf(s.info[s.deliveries[k]]) == k
    ensures s.info[s.deliveries[k]].identity == s.last
  {
  }

  lemma EverythingRetires(s: State)
    requires Indexed(s)
    ensures forall d :: d in s.retired + s.deliveries.Values <==> 0 <= d < |s.info|
  {
    forall d | 0 <= d < |s.info| ensures d in s.retired + s.deliveries.Values {
      if d !in s.retired { assert s.deliveries[KeyOf(s.info[d])] == d; }
    }
  }

  /** Which turns have been looked at while a delivery is taken out of them. */
  ghost predicate Swept(byTurn: map<string, seq<nat>>, before: map<string, seq<nat>>, left: set<string>, d: nat) {
    && left <= before.Keys && byTurn.Keys <= before.Keys
    && (forall t :: t in left ==> t in byTurn && byTurn[t] == before[t])
    && (forall t :: t in before && t !in left ==>
          if Without(before[t], d) == [] then t !in byTurn else t in byTurn && byTurn[t] == Without(before[t], d))
  }

  lemma SweptIsWithout(s: State, byTurn: map<string, seq<nat>>, d: nat)
    requires Indexed(s) && Tracked(s, d) && Swept(byTurn, s.byTurn, {}, d)
    ensures byTurn == WithoutDelivery(s.byTurn, s.info[d].turn, d)
  {
    hide Indexed, Without;
    forall t | t in s.byTurn && s.info[d].turn != Some(t) ensures t in byTurn && byTurn[t] == s.byTurn[t] {
      OtherTurnsKeep(s, d, t);
    }
    var w := WithoutDelivery(s.byTurn, s.info[d].turn, d);
    forall t ensures t in w <==> t in byTurn {
      if s.info[d].turn == Some(t) {
      }
    }
  }

  lemma MarkedIsIndexed(s: State, d: nat, x: Delivery)
    requires Indexed(s) && d < |s.info|
    requires x == s.info[d].(submitted := x.submitted, steer := x.steer, mode := x.mode, disabled := x.disabled)
    ensures Indexed(s.(info := s.info[d := x]))
  {
    hide Listed, Turns;
    ListedKept(s, d, x);
    TurnsKept(s, d, x);
  }

  class DeliveryStageReporter {
    var deliveries: map<Key, nat>
    var info: seq<Delivery>
    var retired: set<nat>
    var byTurn: map<string, seq<nat>>
    var captured: map<Envelope, Option<Identity>>
    var ofEnvelope: map<Envelope, nat>
    var last: Option<Identity>
    var warnedOverflow: bool
    ghost var sent: seq<Report>

    ghost function View(): State
      reads this
    {
      State(deliveries, info, retired, byTurn, captured, ofEnvelope, last, warnedOverflow, sent)
    }

    ghost predicate Valid()
      reads this
    {
      Inv(View())
    }

    constructor ()
      ensures Valid() && View() == Init()
    {
      deliveries, info, retired, byTurn := map[], [], {}, map[];
      captured, ofEnvelope, last, warnedOverflow, sent := map[], map[], None, false, [];
    }

    // ---- Steps ----------------------------------------------------------------

    method RemoveDelivery(d: nat)
      requires Indexed(View())
      modifies this`deliveries, this`retired, this`byTurn, this`warnedOverflow
      ensures Indexed(View()) && View() == Remove(old(View()), d)
    {
      hide Listed, Turns;
      ghost var s := View();
      RemoveKeepsIndexed(s, d);
      if d >= |info| || KeyOf(info[d]) !in deliveries || deliveries[KeyOf(info[d])] != d { return; }
      SweepTurns(d);
      SweptIsWithout(s, byTurn, d);
      deliveries := deliveries - {KeyOf(info[d])};
      retired := retired + {d};
      warnedOverflow := false;
    }

    /** Takes a delivery out of every turn's list, and out goes a list that becomes empty. */
    method SweepTurns(d: nat)
      modifies this`byTurn
      ensures Swept(byTurn, old(byTurn), {}, d)
    {
      var left := byTurn.Keys;
      while left != {}
        invariant Swept(byTurn, old(byTurn), left, d)
        decreases left
      {
        var t :| t in left;
        var rest := Without(byTurn[t], d);
        byTurn := if rest == [] then byTurn - {t} else byTurn[t := rest];
        left := left - {t};
      }
    }

    method ObserveIdentity(current: Option<Identity>)
      requires Indexed(View())
      modifies this`deliveries, this`retired, this`byTurn, this`warnedOverflow, this`last
      ensures Indexed(View()) && View() == Observe(old(View()), current)
    {
      hide Listed, Turns;
      ghost var s := View();
      ObserveKeepsIndexed(s, current);
      if current.None? { return; }
      if current != last { RetireOthers(current); }
      last := current;
      assert View() == Observe(s, current);
    }

    /** Every tracked delivery of another identity ends here, and that is all of them. */
    method RetireOthers(current: Option<Identity>)
      requires Indexed(View()) && current != last
      modifies this`deliveries, this`retired, this`byTurn, this`warnedOverflow
      ensures deliveries == map[] && byTurn == map[] && retired == old(retired) + old(deliveries).Values
      ensures warnedOverflow == if old(deliveries) == map[] then old(warnedOverflow) else false
    {
      hide Indexed;
      EverythingRetires(View());
      var left := deliveries.Keys;
      while left != {}
        invariant Indexed(View()) && left == deliveries.Keys && deliveries.Keys <= old(deliveries).Keys
        invariant warnedOverflow == if deliveries == old(deliveries) then old(warnedOverflow) else false
        decreases left
      {
        var k :| k in left;
        TrackedUnder(View(), k);
        if info[deliveries[k]].identity != current { RemoveDelivery(deliveries[k]); }
        left := left - {k};
      }
      NothingTracked(View());
    }

    method TrackDelivery(sequence: nat, mode: Option<Mode>, identity: Option<Identity>) returns (d: Option<nat>)
      modifies this`deliveries, this`info, this`warnedOverflow
      ensures (View(), d) == Track(old(View()), sequence, mode, identity)
    {
      var key := Key(identity, sequence);
      if key in deliveries { return Some(deliveries[key]); }
      if |deliveries| >= MAX_TRACKED_DELIVERIES {
        warnedOverflow := true;
        return None;
      }
      warnedOverflow := false;
      deliveries := deliveries[key := |info|];
      info := info + [Delivery(identity, sequence, mode, false, false, false, None)];
      return Some(|info| - 1);
    }

    method CaptureEnvelope(e: Envelope, current: Option<Identity>)
      requires Valid()
      modifies this
      ensures Valid() && View() == Capture(old(View()), e, current)
    {
      hide Listed, Turns, Captures, Orderly, Authentic, Closed, FlagsTell, Observe;
      ghost var s := View();
      CaptureKeeps(s, e, current);
      if e.sequence.None? || e in captured { return; }
      ObserveIdentity(current);
      captured := captured[e := last];
      var d := TrackDelivery(e.sequence.value, e.granted, last);
      if d.Some? { ofEnvelope := ofEnvelope[e := d.value]; }
    }

    method SendReport(d: nat, stage: Stage, reason: Option<Reason>, mode: Option<Mode>, current: Option<Identity>)
      requires Indexed(View())
      modifies this
      ensures Indexed(View()) && View() == Send(old(View()), d, stage, reason, mode, current)
    {
      hide Listed, Turns;
      ObserveIdentity(current);
      if d in retired || d >= |info| || KeyOf(info[d]) !in deliveries || deliveries[KeyOf(info[d])] != d { return; }
      if info[d].identity.None? { return; }
      TrackedUnder(View(), KeyOf(info[d]));
      // Whatever is still tracked now carries the identity in force, so the check of the
      // program that would end a stale delivery here finds none.
      assert last.None? || last == info[d].identity;
      sent := sent + [Report(d, info[d].identity.value, info[d].sequence, stage, reason, mode)];
    }

    method EndDelivery(d: nat, stage: Stage, reason: Option<Reason>, mode: Option<Mode>, current: Option<Identity>)
      requires Valid() && Current(View(), current) && Terminal(stage)
      modifies this
      ensures Valid() && View() == End(old(View()), d, stage, reason, mode, current)
    {
      hide Captures, Orderly, Authentic, Closed, FlagsTell, Send, Remove, Indexed;
      EndKeeps(View(), d, stage, reason, mode, current);
      SendReport(d, stage, reason, mode, current);
      RemoveDelivery(d);
    }

    method RecordTurnEnvelope(turn: string, e: Envelope, current: Option<Identity>)
      requires Valid() && Current(View(), current)
      modifies this
      ensures Valid() && View() == Record(old(View()), turn, e, current)
    {
      hide Inv, Capture;
      RecordKeeps(View(), turn, e, current);
      CaptureEnvelope(e, current);
      if e !in ofEnvelope { return; }
      var d := ofEnvelope[e];
      if d in retired || d >= |info| || KeyOf(info[d]) !in deliveries || deliveries[KeyOf(info[d])] != d { return; }
      if info[d].turn.Some? && info[d].turn != Some(turn) { return; }
      var listed := if turn in byTurn then byTurn[turn] else [];
      info := info[d := info[d].(turn := Some(turn))];
      byTurn := byTurn[turn := if d in listed then listed else listed + [d]];
    }

    method GatherTurn(turn: string, es: seq<Envelope>, current: Option<Identity>)
      requires Valid()
      modifies this
      ensures Valid() && View() == Gathered(old(View()), turn, es, current)
    {
      hide Inv, Observe, Record;
      Refresh(current);
      ghost var o := View();
      for i := 0 to |es|
        invariant Valid() && View() == RecordAll(o, turn, es[..i], current) && last == o.last
      {
        assert es[..i + 1][..i] == es[..i];
        RecordKeeps(View(), turn, es[i], current);
        RecordTurnEnvelope(turn, es[i], current);
      }
      assert es[..|es|] == es;
    }

    method SubmitDelivery(d: nat, steer: bool, current: Option<Identity>)
      requires Valid() && Current(View(), current)
      modifies this
      ensures Valid() && View() == SubmitOne(old(View()), d, steer, current)
    {
      hide Captures, Orderly, Authentic, Closed, FlagsTell, Send, Indexed;
      SubmitOneKeeps(View(), d, steer, current);
      if d >= |info| || info[d].submitted { return; }
      var mode := info[d].mode;
      MarkedIsIndexed(View(), d, info[d].(submitted := true, steer := info[d].steer || steer));
      info := info[d := info[d].(submitted := true, steer := info[d].steer || steer)];
      SendReport(d, Submitted, None, mode, current);
    }

    // ---- Operations -----------------------------------------------------------

    method Queued(e: Envelope, current: Option<Identity>)
      requires Valid()
      modifies this
      ensures Valid() && View() == QueuedOp(old(View()), e, current)
    {
      hide Inv, Capture, Send, Observe;
      QueuedKeeps(View(), e, current);
      Refresh(current);
      if e.sequence.None? { return; }
      CaptureKeeps(View(), e, current);
      CaptureEnvelope(e, current);
      if e in ofEnvelope && ofEnvelope[e] < |info| {
        Note(ofEnvelope[e], StageSpec.Queued, None, info[ofEnvelope[e]].mode, current);
      }
    }

    /** What every public operation does first. */
    method Refresh(current: Option<Identity>)
      requires Valid()
      modifies this`deliveries, this`retired, this`byTurn, this`warnedOverflow, this`last
      ensures Valid() && View() == Observe(old(View()), current) && Current(View(), current)
    {
      hide Indexed, Captures, Orderly, Authentic, Closed, FlagsTell;
      ObserveKeeps(View(), current);
      ObserveIdentity(current);
    }

    method Note(d: nat, stage: Stage, reason: Option<Reason>, mode: Option<Mode>, current: Option<Identity>)
      requires Valid() && Current(View(), current) && !Terminal(stage) && stage != Submitted
      modifies this
      ensures Valid() && View() == Send(old(View()), d, stage, reason, mode, current) && Current(View(), current)
    {
      hide Indexed, Captures, Orderly, Authentic, Closed, FlagsTell, Send;
      NoteKeeps(View(), d, stage, reason, mode, current);
      SendReport(d, stage, reason, mode, current);
    }

    method LocalPolicyDisabled(es: seq<Envelope>, current: Option<Identity>)
      requires Valid()
      modifies this
      ensures Valid() && View() == DisableAll(old(View()), es, current)
    {
      hide Inv, Observe, Disable;
      ghost var s := View();
      Refresh(current);
      for i := 0 to |es|
        invariant Valid() && Current(View(), current) && View() == DisableAll(s, es[..i], current)
      {
        assert es[..i + 1][..i] == es[..i];
        DisableOne(es[i], current);
      }
      assert es[..|es|] == es;
    }

    method DisableOne(e: Envelope, current: Option<Identity>)
      requires Valid() && Current(View(), current)
      modifies this
      ensures Valid() && View() == Disable(old(View()), e, current) && Current(View(), current)
    {
      hide Inv, Capture, Send;
      CaptureKeeps(View(), e, current);
      CaptureEnvelope(e, current);
      if e !in ofEnvelope || ofEnvelope[e] >= |info| { return; }
      var d := ofEnvelope[e];
      if d in retired || info[d].submitted || info[d].disabled { return; }
      MarkKeeps(View(), d, info[d].(disabled := true, mode := Some(Normal)));
      info := info[d := info[d].(disabled := true, mode := Some(Normal))];
      Note(d, StageSpec.Queued, Some(Reason.LocalPolicyDisabled), Some(Normal), current);
    }

    method SubmittedTurn(turn: string, es: seq<Envelope>, current: Option<Identity>)
      requires Valid()
      modifies this
      ensures Valid() && View() == SubmittedOp(old(View()), turn, es, current)
    {
      hide Inv, Gathered, SubmitOne;
      GatheredKeeps(View(), turn, es, current);
      GatherTurn(turn, es, current);
      ghost var r := View();
      var ds := if turn in byTurn then byTurn[turn] else [];
      for i := 0 to |ds|
        invariant Valid() && last == r.last && View() == SubmitEach(r, ds[..i], current)
      {
        assert ds[..i + 1][..i] == ds[..i];
        SubmitOneKeeps(View(), ds[i], false, current);
        SubmitDelivery(ds[i], false, current);
      }
      assert ds[..|ds|] == ds;
    }

    method SteerSubmitted(turn: string, es: seq<Envelope>, current: Option<Identity>)
      requires Valid()
      modifies this
      ensures Valid() && View() == SteerEach(old(View()), turn, es, current)
    {
      hide Inv, Observe, Record, SubmitOne;
      ghost var s := View();
      Refresh(current);
      for i := 0 to |es|
        invariant Valid() && Current(View(), current) && View() == SteerEach(s, turn, es[..i], current)
      {
        assert es[..i + 1][..i] == es[..i];
        RecordKeeps(View(), turn, es[i], current);
        RecordTurnEnvelope(turn, es[i], current);
        if es[i] in ofEnvelope {
          SubmitOneKeeps(View(), ofEnvelope[es[i]], true, current);
          SubmitDelivery(ofEnvelope[es[i]], true, current);
        }
      }
      assert es[..|es|] == es;
    }

    /** A steer whose outcome is unknown or that settled, an unknown message, a skipped one. */
    method EndEnvelopes(es: seq<Envelope>, end: Ending, current: Option<Identity>)
      requires Valid() && Terminal(end.stage)
      modifies this
      ensures Valid() && View() == EndEach(old(View()), es, end, current)
    {
      hide Inv, Observe, Capture, End;
      ghost var s := View();
      Refresh(current);
      for i := 0 to |es|
        invariant Valid() && Current(View(), current) && View() == EndEach(s, es[..i], end, current)
      {
        assert es[..i + 1][..i] == es[..i];
        CaptureKeeps(View(), es[i], current);
        CaptureEnvelope(es[i], current);
        if es[i] in ofEnvelope {
          EndKeeps(View(), ofEnvelope[es[i]], end.stage, Some(end.reason), end.mode, current);
          EndDelivery(ofEnvelope[es[i]], end.stage, Some(end.reason), end.mode, current);
        }
      }
      assert es[..|es|] == es;
    }

    /** An inclusion, or what became of a request to yield. */
    method NoteEnvelopes(es: seq<Envelope>, stage: Stage, current: Option<Identity>)
      requires Valid() && !Terminal(stage) && stage != Submitted
      modifies this
      ensures Valid() && View() == NoteEach(old(View()), es, stage, current)
    {
      hide Inv, Observe, Capture, Send;
      ghost var s := View();
      Refresh(current);
      for i := 0 to |es|
        invariant Valid() && Current(View(), current) && View() == NoteEach(s, es[..i], stage, current)
      {
        assert es[..i + 1][..i] == es[..i];
        CaptureKeeps(View(), es[i], current);
        CaptureEnvelope(es[i], current);
        if es[i] in ofEnvelope { Note(ofEnvelope[es[i]], stage, None, None, current); }
      }
      assert es[..|es|] == es;
    }

    method RetireEnvelopes(es: seq<Envelope>)
      requires Valid()
      modifies this
      ensures Valid() && View() == RetireEach(old(View()), es)
    {
      hide Inv, Remove;
      ghost var s := View();
      for i := 0 to |es|
        invariant Valid() && View() == RetireEach(s, es[..i])
      {
        assert es[..i + 1][..i] == es[..i];
        if es[i] in ofEnvelope { Retire(ofEnvelope[es[i]]); }
      }
      assert es[..|es|] == es;
    }

    method Retire(d: nat)
      requires Valid()
      modifies this
      ensures Valid() && View() == Remove(old(View()), d)
    {
      hide Indexed, Captures, Orderly, Authentic, Closed, FlagsTell, Remove;
      RemoveKeeps(View(), d);
      RemoveDelivery(d);
    }

    /** The end of a turn; `unknown` is set when its outcome cannot be established. */
    method TurnClosed(turn: string, es: seq<Envelope>, unknown: Option<Reason>, current: Option<Identity>)
      requires Valid()
      modifies this
      ensures Valid() && View() == CloseTurn(old(View()), turn, es, unknown, current)
    {
      hide Inv, Gathered, CloseOne;
      CloseTurnKeeps(View(), turn, es, unknown, current);
      GatheredKeeps(View(), turn, es, current);
      GatherTurn(turn, es, current);
      ghost var r := View();
      var ds := if turn in byTurn then byTurn[turn] else [];
      for i := 0 to |ds|
        invariant Valid() && last == r.last && View() == CloseEach(r, ds[..i], unknown, current)
      {
        assert ds[..i + 1][..i] == ds[..i];
        CloseOneKeeps(View(), ds[i], unknown, current);
        CloseDelivery(ds[i], unknown, current);
      }
      assert ds[..|ds|] == ds;
      byTurn := byTurn - {turn};
    }

    method CloseDelivery(d: nat, unknown: Option<Reason>, current: Option<Identity>)
      requires Valid() && Current(View(), current)
      modifies this
      ensures Valid() && View() == CloseOne(old(View()), d, unknown, current)
    {
      hide Inv, End;
      if d >= |info| || info[d].steer { return; }
      if info[d].submitted {
        EndDelivery(d, Settled, Some(TurnEnd), None, current);
      } else if unknown.Some? {
        EndDelivery(d, Unknown, unknown, None, current);
      } else {
        EndDelivery(d, Settled, Some(FailedBeforeHandoff), None, current);
      }
    }
  }
}
