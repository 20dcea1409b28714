/** Every finished delivery is acknowledged: the watermark told from the events alone, and where
  * each advance of it goes. */
module AckComplete {
  import opened Wrappers
  import opened AckLedger
  import opened AckSpec
  import opened AckRuns

  // ---- What the events complete ---------------------------------------------

  /** Whether an envelope finishes here: captured first under the join's identity, while that
    * identity is the live one or none is. Where no identities are in use, any does. */
  predicate Finished(h: bool, before: seq<Event>, e: Envelope, live: Option<Identity>) {
    h ==>
      && JoinOf(h, before).Some? && FirstCapture(before, e.id) == JoinOf(h, before)
      && (live.None? || Some(live) == JoinOf(h, before))
  }

  /** The numbers these envelopes complete, as calls of the ledger. */
  function FinishedOps(h: bool, before: seq<Event>, es: seq<Envelope>, live: Option<Identity>): seq<Op> {
    if es == [] then []
    else
      var e := es[|es| - 1];
      FinishedOps(h, before, es[..|es| - 1], live)
      + if e.deliverySeq.Some? && Finished(h, before, e, live) then [Complete(e.deliverySeq.value)] else []
  }

  function OpsOf(h: bool, before: seq<Event>, ev: Event): seq<Op> {
    match ev
    case OnStatus(status, _) =>
      if status.None? then [] else [Bind(status.value.ackedSeq)] + SkipOps(status.value.skippedRanges)
    case OnAcknowledge(e, live) => FinishedOps(h, before, [e], live)
    case OnTurn(es, numbers, live) =>
      if es.Some? then FinishedOps(h, before, es.value, live) else if h then [] else CompleteOps(numbers)
    case _ => []
  }

  /** Everything reported, skipped and finished since the current join opened. */
  function JoinOps(h: bool, evs: seq<Event>): seq<Op> {
    if evs == [] then []
    else
      var before, ev := evs[..|evs| - 1], evs[|evs| - 1];
      (if LastOpens(h, evs) then [] else JoinOps(h, before)) + OpsOf(h, before, ev)
  }

  /** The event at `j` completes the number. */
  predicate CountsAt(h: bool, evs: seq<Event>, j: nat, n: int)
    requires j < |evs|
  {
    match evs[j]
    case OnStatus(status, _) => status.Some? && InRanges(status.value.skippedRanges, n)
    case OnAcknowledge(e, live) => e.deliverySeq == Some(n) && Finished(h, evs[..j], e, live)
    case OnTurn(es, numbers, live) =>
      if es.Some? then exists i :: 0 <= i < |es.value| && es.value[i].deliverySeq == Some(n)
                                   && Finished(h, evs[..j], es.value[i], live)
      else !h && n in numbers
    case _ => false
  }

  /** Some event since the current join opened completes this delivery number. */
  ghost predicate Counted(h: bool, evs: seq<Event>, n: int) {
    IsSafe(n) && n > 0 && exists j :: JoinFrom(h, evs) <= j < |evs| && CountsAt(h, evs, j, n)
  }

  // ---- The ledger is fed exactly that ---------------------------------------

  lemma {:induction false} FeedAllRuns(s: State, fed: seq<Op>, ops: seq<Op>, defer: bool)
    requires s.ledger == Run(fed)
    ensures FeedAll(s, ops, defer).ledger == Run(fed + ops)
  {
    hide Apply, Answer;
    if ops == [] {
      assert fed + ops == fed;
    } else {
      var n := |ops| - 1;
      FeedAllRuns(s, fed, ops[..n], defer);
      RunSnoc(fed + ops[..n], ops[n]);
      assert fed + ops == fed + ops[..n] + [ops[n]];
    }
  }

  lemma AllowsIsFinished(h: bool, before: seq<Event>, s: State, e: Envelope, live: Option<Identity>)
    requires Agrees(h, before, s)
    ensures Allows(s, e, live).0 <==> Finished(h, before, e, live)
  {
    if h { assert FirstCapture(before, e.id) == if e.id in s.captured then Some(s.captured[e.id]) else None; }
  }

  lemma SameJoinAgrees(h: bool, before: seq<Event>, s: State, t: State)
    requires Agrees(h, before, s) && SameJoin(s, t)
    ensures Agrees(h, before, t)
  {
  }

  lemma UnnumberedIsNothing(l: Ledger)
    ensures Apply(l, Complete(0)) == l
  {
  }

  lemma {:induction false} AcknowledgeAllRuns(h: bool, before: seq<Event>, s: State, fed: seq<Op>, es: seq<Envelope>,
                                              live: Option<Identity>)
    requires Agrees(h, before, s) && s.ledger == Run(fed)
    ensures AcknowledgeAll(s, es, live).ledger == Run(fed + FinishedOps(h, before, es, live))
  {
    hide Agrees, Allows, Finished, Acknowledge, Run;
    if es == [] {
      assert fed + FinishedOps(h, before, es, live) == fed;
    } else {
      var n := |es| - 1;
      var t, ops := AcknowledgeAll(s, es[..n], live), fed + FinishedOps(h, before, es[..n], live);
      AcknowledgeAllRuns(h, before, s, fed, es[..n], live);
      AcknowledgeAllKeepsJoin(s, es[..n], live);
      SameJoinAgrees(h, before, s, t);
      AllowsIsFinished(h, before, t, es[n], live);
      LastRuns(t, ops, es[n], live);
      FinishedSnoc(h, before, fed, es, live);
    }
  }

  lemma FinishedSnoc(h: bool, before: seq<Event>, fed: seq<Op>, es: seq<Envelope>, live: Option<Identity>)
    requires es != []
    ensures var (n, e) := (|es| - 1, es[|es| - 1]);
            var ops := fed + FinishedOps(h, before, es[..n], live);
            fed + FinishedOps(h, before, es, live)
              == if e.deliverySeq.Some? && Finished(h, before, e, live)
                 then ops + [Complete(e.deliverySeq.value)] else ops
  {
    hide Finished;
  }

  lemma LastRuns(t: State, ops: seq<Op>, e: Envelope, live: Option<Identity>)
    requires t.ledger == Run(ops)
    ensures Acknowledge(t, e, live).ledger
         == Run(if e.deliverySeq.Some? && Allows(t, e, live).0 then ops + [Complete(e.deliverySeq.value)] else ops)
  {
    hide Allows, Apply, Answer, Run;
    UnnumberedIsNothing(t.ledger);
    if e.deliverySeq.Some? { RunSnoc(ops, Complete(e.deliverySeq.value)); }
  }

  lemma AcknowledgeOne(s: State, e: Envelope, live: Option<Identity>)
    ensures AcknowledgeAll(s, [e], live) == Acknowledge(s, e, live)
  {
    assert [e][..0] == [];
  }

  lemma StatusRuns(s: State, status: Status, live: Option<Identity>, fed: seq<Op>)
    requires (if Opens(s, live) then Empty else s.ledger) == Run(fed)
    ensures Observe(s, Some(status), live).ledger
         == Run(fed + ([Bind(status.ackedSeq)] + SkipOps(status.skippedRanges)))
  {
    hide Apply, Answer, FeedAll;
    var j := if Opens(s, live) then OpenJoin(s, live) else s;
    var bound := Feed(j, Bind(status.ackedSeq), false);
    RunSnoc(fed, Bind(status.ackedSeq));
    FeedAllRuns(bound, fed + [Bind(status.ackedSeq)], SkipOps(status.skippedRanges), false);
    assert fed + [Bind(status.ackedSeq)] + SkipOps(status.skippedRanges)
        == fed + ([Bind(status.ackedSeq)] + SkipOps(status.skippedRanges));
  }

  /** The ledger of the current join is the one its events feed. */
  lemma {:induction false} LedgerIsRun(h: bool, evs: seq<Event>)
    ensures After(h, evs).ledger == Run(JoinOps(h, evs))
  {
    hide Observe, Agrees, Acknowledge, AcknowledgeAll, Apply, FeedAll, OpsOf;
    if evs == [] {
      NoRun();
    } else {
      LedgerIsRun(h, evs[..|evs| - 1]);
      LastIsFed(h, evs);
    }
  }

  lemma LastIsFed(h: bool, evs: seq<Event>)
    requires evs != [] && After(h, evs[..|evs| - 1]).ledger == Run(JoinOps(h, evs[..|evs| - 1]))
    ensures After(h, evs).ledger == Run(JoinOps(h, evs))
  {
    hide Agrees, Acknowledge, AcknowledgeAll, Apply, FeedAll, Reconcile, Answer;
    var before, ev := evs[..|evs| - 1], evs[|evs| - 1];
    var s, fed := After(h, before), if LastOpens(h, evs) then [] else JoinOps(h, before);
    StateAgrees(h, before);
    NoRun();
    assert fed + [] == fed;
    match ev
    case OnStatus(status, live) =>
      OpensAgrees(h, before, s, live);
      if status.Some? { StatusRuns(s, status.value, live, fed); }
    case OnCapture(e, live) =>
    case OnAcknowledge(e, live) =>
      AcknowledgeAllRuns(h, before, s, fed, [e], live);
      AcknowledgeOne(s, e, live);
    case OnTurn(es, numbers, live) =>
      if es.Some? {
        AcknowledgeAllRuns(h, before, s, fed, es.value, live);
      } else {
        HasIdentityIs(h, before);
        FeedAllRuns(s, fed, CompleteOps(numbers), false);
      }
    case OnReplay(live) =>
  }

  lemma OpensAgrees(h: bool, before: seq<Event>, s: State, live: Option<Identity>)
    requires Agrees(h, before, s)
    ensures Opens(s, live) <==> h && OpensAfter(JoinOf(h, before), live)
  {
  }

  lemma HasIdentityIs(h: bool, evs: seq<Event>)
    ensures After(h, evs).hasIdentity == h
  {
    StateAgrees(h, evs);
  }

  // ---- The watermark, from the events ---------------------------------------

  lemma DoneConcat(a: seq<Op>, b: seq<Op>)
    ensures Done(a + b) == Done(a) + Done(b)
  {
    assert forall op :: op in a + b <==> op in a || op in b;
  }

  lemma {:induction false} BaselineConcat(a: seq<Op>, b: seq<Op>)
    requires AllComplete(b)
    ensures Baseline(a + b) == Baseline(a)
  {
    if b == [] {
      assert a + b == a;
    } else {
      BaselineConcat(a, b[..|b| - 1]);
      assert (a + b)[..|a + b| - 1] == a + b[..|b| - 1];
    }
  }

  lemma {:induction false} FinishedAreCompletions(h: bool, before: seq<Event>, es: seq<Envelope>,
                                                  live: Option<Identity>)
    ensures AllComplete(FinishedOps(h, before, es, live))
    ensures forall n :: Complete(n) in FinishedOps(h, before, es, live) <==>
              exists i :: 0 <= i < |es| && es[i].deliverySeq == Some(n) && Finished(h, before, es[i], live)
  {
    hide Finished;
    if es != [] {
      var m := |es| - 1;
      FinishedAreCompletions(h, before, es[..m], live);
      forall n | exists i :: 0 <= i < |es| && es[i].deliverySeq == Some(n) && Finished(h, before, es[i], live)
        ensures Complete(n) in FinishedOps(h, before, es, live)
      {
        var i :| 0 <= i < |es| && es[i].deliverySeq == Some(n) && Finished(h, before, es[i], live);
        if i < m { assert es[..m][i] == es[i]; }
      }
      forall n | Complete(n) in FinishedOps(h, before, es, live)
        ensures exists i :: 0 <= i < |es| && es[i].deliverySeq == Some(n) && Finished(h, before, es[i], live)
      {
        if Complete(n) in FinishedOps(h, before, es[..m], live) {
          var i :| 0 <= i < m && es[..m][i].deliverySeq == Some(n) && Finished(h, before, es[..m][i], live);
          assert es[i].deliverySeq == Some(n);
        } else {
          assert es[m].deliverySeq == Some(n);
        }
      }
    }
  }

  lemma {:induction false} RangeHas(first: int, last: int, n: int)
    ensures Complete(n) in RangeOps(first, last) <==> first <= n <= last
    decreases last - first
  {
    if last >= first { RangeHas(first, last - 1, n); }
  }

  lemma {:induction false} SkipsHave(ranges: seq<(int, int)>, n: int)
    ensures Complete(n) in SkipOps(ranges) <==> InRanges(ranges, n)
  {
    if ranges != [] {
      var m := |ranges| - 1;
      SkipsHave(ranges[..m], n);
      RangeHas(ranges[m].0, ranges[m].1, n);
      if InRanges(ranges, n) && !(ranges[m].0 <= n <= ranges[m].1) {
        var k :| 0 <= k < |ranges| && ranges[k].0 <= n <= ranges[k].1;
        assert ranges[..m][k] == ranges[k];
      }
      if k :| 0 <= k < m && ranges[..m][k].0 <= n <= ranges[..m][k].1 { assert ranges[k] == ranges[..m][k]; }
    }
  }

  lemma {:induction false} NumbersHave(numbers: seq<int>, n: int)
    ensures Complete(n) in CompleteOps(numbers) <==> n in numbers
  {
    if numbers != [] { NumbersHave(numbers[..|numbers| - 1], n); }
  }

  /** What the last event completes, as calls and as the events say it. */
  lemma LastHas(h: bool, evs: seq<Event>, n: int)
    requires evs != []
    ensures Complete(n) in OpsOf(h, evs[..|evs| - 1], evs[|evs| - 1]) <==> CountsAt(h, evs, |evs| - 1, n)
  {
    hide Finished, InRanges;
    var before, ev := evs[..|evs| - 1], evs[|evs| - 1];
    match ev
    case OnStatus(status, _) => if status.Some? { SkipsHave(status.value.skippedRanges, n); }
    case OnAcknowledge(e, live) => FinishedAreCompletions(h, before, [e], live);
    case OnTurn(es, numbers, live) =>
      if es.Some? { FinishedAreCompletions(h, before, es.value, live); } else { NumbersHave(numbers, n); }
    case _ =>
  }

  lemma CountsBefore(h: bool, before: seq<Event>, evs: seq<Event>, j: nat, n: int)
    requires before <= evs && j < |before|
    ensures CountsAt(h, before, j, n) <==> CountsAt(h, evs, j, n)
  {
    hide Finished;
    assert before[..j] == evs[..j];
  }

  lemma CountedSnoc(h: bool, evs: seq<Event>, n: int)
    requires evs != [] && IsSafe(n) && n > 0
    ensures Counted(h, evs, n) <==>
              (!LastOpens(h, evs) && Counted(h, evs[..|evs| - 1], n)) || CountsAt(h, evs, |evs| - 1, n)
  {
    hide CountsAt;
    var m := |evs| - 1;
    var before := evs[..m];
    JoinFromBound(h, evs);
    if Counted(h, evs, n) && !CountsAt(h, evs, m, n) {
      var j :| JoinFrom(h, evs) <= j < |evs| && CountsAt(h, evs, j, n);
      CountsBefore(h, before, evs, j, n);
      assert CountsAt(h, before, j, n);
    }
    if !LastOpens(h, evs) && Counted(h, before, n) {
      var j :| JoinFrom(h, before) <= j < m && CountsAt(h, before, j, n);
      CountsBefore(h, before, evs, j, n);
      assert CountsAt(h, evs, j, n);
    }
    if CountsAt(h, evs, m, n) { assert JoinFrom(h, evs) <= m; }
  }

  lemma DoneIs(ops: seq<Op>, n: int)
    ensures n in Done(ops) <==> IsSafe(n) && n > 0 && Complete(n) in ops
  {
  }

  lemma {:induction false} DoneIsCounted(h: bool, evs: seq<Event>, n: int)
    ensures n in Done(JoinOps(h, evs)) <==> Counted(h, evs, n)
  {
    hide OpsOf, CountsAt, Counted, LastOpens;
    if evs == [] {
      NothingCounted(h, n);
    } else {
      var before := evs[..|evs| - 1];
      var fed := if LastOpens(h, evs) then [] else JoinOps(h, before);
      DoneIsCounted(h, before, n);
      LastHas(h, evs, n);
      DoneConcat(fed, OpsOf(h, before, evs[|evs| - 1]));
      DoneIs(OpsOf(h, before, evs[|evs| - 1]), n);
      if IsSafe(n) && n > 0 { CountedSnoc(h, evs, n); } else { NeverCounted(h, evs, n); DoneIs(JoinOps(h, evs), n); }
    }
  }

  lemma NothingCounted(h: bool, n: int)
    ensures !Counted(h, [], n)
  {
  }

  lemma NeverCounted(h: bool, evs: seq<Event>, n: int)
    requires !IsSafe(n) || n <= 0
    ensures !Counted(h, evs, n)
  {
  }

  lemma {:induction false} BaselineIsReported(h: bool, evs: seq<Event>)
    ensures Baseline(JoinOps(h, evs)) == Reported(h, evs)
  {
    if evs != [] {
      var before, ev := evs[..|evs| - 1], evs[|evs| - 1];
      var fed := if LastOpens(h, evs) then [] else JoinOps(h, before);
      BaselineIsReported(h, before);
      LastBaseline(h, before, ev, fed);
    }
  }

  lemma LastBaseline(h: bool, before: seq<Event>, ev: Event, fed: seq<Op>)
    ensures Baseline(fed + OpsOf(h, before, ev))
         == if Reports(ev) then Max(Baseline(fed), ev.status.value.ackedSeq) else Baseline(fed)
  {
    hide FinishedOps, Finished;
    assert fed + [] == fed;
    match ev
    case OnStatus(status, _) =>
      if status.Some? {
        var bind, skips := Bind(status.value.ackedSeq), SkipOps(status.value.skippedRanges);
        SkipsAreRanges(status.value.skippedRanges);
        BaselineConcat(fed + [bind], skips);
        assert fed + ([bind] + skips) == fed + [bind] + skips;
        assert (fed + [bind])[..|fed|] == fed;
      }
    case OnAcknowledge(e, live) =>
      FinishedAreCompletions(h, before, [e], live);
      BaselineConcat(fed, FinishedOps(h, before, [e], live));
    case OnTurn(es, numbers, live) =>
      if es.Some? {
        FinishedAreCompletions(h, before, es.value, live);
        BaselineConcat(fed, FinishedOps(h, before, es.value, live));
      } else {
        NumbersAreCompletions(numbers);
        BaselineConcat(fed, CompleteOps(numbers));
      }
    case _ =>
  }

  /** Every finished delivery is acknowledged: while the waiting set does not overflow, the
    * watermark is the end of the contiguous run, above the highest watermark reported under the
    * current join, of the numbers skipped or finished since it opened. */
  lemma EveryFinishIsAcknowledged(h: bool, evs: seq<Event>, n: nat)
    requires NeverOverflows(JoinOps(h, evs))
    ensures var end := After(h, evs).ledger.acked;
            && Reported(h, evs) <= end && !Counted(h, evs, end + 1)
            && (forall k :: Reported(h, evs) < k <= end ==> Counted(h, evs, k))
    ensures (forall k :: Reported(h, evs) < k <= n ==> Counted(h, evs, k)) ==> n <= After(h, evs).ledger.acked
  {
    hide Counted, Run, NeverOverflows, Step, Reported, JoinOps;
    var ops, end := JoinOps(h, evs), After(h, evs).ledger.acked;
    LedgerIsRun(h, evs);
    RunIsExact(ops);
    RunEndIs(Baseline(ops), Done(ops));
    BaselineIsReported(h, evs);
    forall k ensures k in Done(ops) <==> Counted(h, evs, k) { DoneIsCounted(h, evs, k); }
  }

  // ---- Where an advance goes ------------------------------------------------

  /** The join's identity is away: the join has one, and none is live. */
  predicate Away(h: bool, evs: seq<Event>, live: Option<Identity>) {
    h && JoinOf(h, evs).Some? && JoinOf(h, evs).value.Some? && live.None?
  }

  /** An advance of the watermark was kept for replay, or sent under the join; without one nothing
    * was sent or kept. */
  predicate AdvanceTold(s: State, t: State, away: bool) {
    if t.ledger.acked == s.ledger.acked then t.sent == s.sent && t.pending == s.pending
    else
      && t.ledger.acked > s.ledger.acked
      && (if away then t.sent == s.sent && t.pending == Some(t.ledger.acked)
          else
            && t.pending == s.pending && |s.sent| < |t.sent| && s.sent == t.sent[..|s.sent|]
            && t.sent[|t.sent| - 1] == Send(t.ledger.acked, s.joins))
  }

  lemma AdvanceThrough(s: State, t: State, u: State, away: bool)
    requires AdvanceTold(s, t, away) && AdvanceTold(t, u, away) && t.joins == s.joins
    ensures AdvanceTold(s, u, away)
  {
    if s.sent == t.sent[..|s.sent|] && t.sent == u.sent[..|t.sent|] {
      assert s.sent == u.sent[..|s.sent|];
    }
  }

  lemma FeedTells(s: State, number: int, away: bool)
    requires OrZero(s.pending) <= s.ledger.acked
    ensures var t := Feed(s, Complete(number), away);
            && AdvanceTold(s, t, away) && t.joins == s.joins && OrZero(t.pending) <= t.ledger.acked
  {
    hide Apply;
    AckedGrows(s.ledger, Complete(number));
  }

  lemma {:induction false} FeedAllTells(s: State, ops: seq<Op>, away: bool)
    requires OrZero(s.pending) <= s.ledger.acked && AllComplete(ops)
    ensures var t := FeedAll(s, ops, away);
            && AdvanceTold(s, t, away) && t.joins == s.joins && OrZero(t.pending) <= t.ledger.acked
  {
    hide AdvanceTold, Feed;
    if ops == [] {
      SameTold(s, away);
    } else {
      var n := |ops| - 1;
      var t := FeedAll(s, ops[..n], away);
      FeedAllTells(s, ops[..n], away);
      FeedTells(t, ops[n].number, away);
      AdvanceThrough(s, t, FeedAll(s, ops, away), away);
    }
  }

  lemma SameTold(s: State, away: bool)
    ensures AdvanceTold(s, s, away)
  {
  }

  predicate AwayIn(s: State, live: Option<Identity>) { s.hasIdentity && s.observed && s.active.Some? && live.None? }

  lemma {:induction false} AcknowledgeAllTells(s: State, es: seq<Envelope>, live: Option<Identity>)
    requires OrZero(s.pending) <= s.ledger.acked
    ensures var t := AcknowledgeAll(s, es, live);
            && AdvanceTold(s, t, AwayIn(s, live)) && t.joins == s.joins && OrZero(t.pending) <= t.ledger.acked
  {
    hide AdvanceTold, Feed;
    if es == [] {
      SameTold(s, AwayIn(s, live));
    } else {
      var n := |es| - 1;
      var t := AcknowledgeAll(s, es[..n], live);
      AcknowledgeAllTells(s, es[..n], live);
      AcknowledgeAllKeepsJoin(s, es[..n], live);
      AcknowledgeTells(t, es[n], live);
      AdvanceThrough(s, t, AcknowledgeAll(s, es, live), AwayIn(s, live));
    }
  }

  lemma AcknowledgeTells(s: State, e: Envelope, live: Option<Identity>)
    requires OrZero(s.pending) <= s.ledger.acked
    ensures var t := Acknowledge(s, e, live);
            && AdvanceTold(s, t, AwayIn(s, live)) && t.joins == s.joins && OrZero(t.pending) <= t.ledger.acked
  {
    hide AdvanceTold, Feed;
    if Allows(s, e, live).0 {
      FeedTells(s, OpOf(e.deliverySeq).number, AwayIn(s, live));
    } else {
      SameTold(s, AwayIn(s, live));
    }
  }

  lemma PendingIsBelow(h: bool, evs: seq<Event>)
    ensures OrZero(After(h, evs).pending) <= After(h, evs).ledger.acked
  {
    hide Step;
    NothingIsLost(h, evs);
  }

  lemma AwayAgrees(h: bool, evs: seq<Event>, live: Option<Identity>)
    ensures AwayIn(After(h, evs), live) <==> Away(h, evs, live)
  {
    hide Step;
    StateAgrees(h, evs);
  }

  /** When a finished delivery carries the watermark on, the new watermark is sent under the join
    * at once, or kept while the join's identity is away; when it does not, nothing is sent. */
  lemma AdvanceIsTold(h: bool, evs: seq<Event>, ev: Event)
    requires ev.OnAcknowledge? || ev.OnTurn?
    ensures AdvanceTold(After(h, evs), After(h, evs + [ev]),
                        (ev.OnAcknowledge? || ev.es.Some?) && Away(h, evs, ev.live))
  {
    hide AdvanceTold, Acknowledge, AcknowledgeAll, FeedAll, Away, AwayIn;
    var s := After(h, evs);
    assert (evs + [ev])[..|evs|] == evs;
    PendingIsBelow(h, evs);
    AwayAgrees(h, evs, ev.live);
    match ev
    case OnAcknowledge(e, live) => AcknowledgeTells(s, e, live);
    case OnTurn(es, numbers, live) =>
      if es.Some? {
        AcknowledgeAllTells(s, es.value, live);
      } else {
        NumbersAreCompletions(numbers);
        FeedAllTells(s, CompleteOps(numbers), false);
        SameTold(s, false);
      }
  }

  /** A report that carries the watermark past what it reports sends the new one under its join; one
    * that only brings the server's own watermark, or none, sends nothing. */
  lemma ReportIsAnswered(h: bool, evs: seq<Event>, status: Status, live: Option<Identity>)
    ensures var s, t := After(h, evs), After(h, evs + [OnStatus(Some(status), live)]);
            var had := if LastOpens(h, evs + [OnStatus(Some(status), live)]) then 0 else s.ledger.acked;
            var said := if IsSafe(status.ackedSeq) then status.ackedSeq else 0;
            if t.ledger.acked > had && t.ledger.acked > said then
              t.sent != [] && |t.sent| > |s.sent| && t.sent[|t.sent| - 1] == Send(t.ledger.acked, t.joins)
            else t.sent == s.sent
  {
    hide Apply, FeedAll, AdvanceTold, Reconcile, Feed;
    var s, ev := After(h, evs), OnStatus(Some(status), live);
    assert (evs + [ev])[..|evs|] == evs;
    StateAgrees(h, evs);
    OpensAgrees(h, evs, s, live);
    PendingIsBelow(h, evs);
    var j := if Opens(s, live) then OpenJoin(s, live) else s;
    var bound := Feed(j, Bind(status.ackedSeq), false);
    BindTells(j, status.ackedSeq);
    SkipsAreRanges(status.skippedRanges);
    FeedAllTells(bound, SkipOps(status.skippedRanges), false);
    ReconcileTells(FeedAll(bound, SkipOps(status.skippedRanges), false), status.ackedSeq);
    SkipsTell(j, bound, FeedAll(bound, SkipOps(status.skippedRanges), false));
  }

  lemma BindTells(s: State, b: int)
    requires OrZero(s.pending) <= s.ledger.acked
    ensures var t := Feed(s, Bind(b), false);
            && t.joins == s.joins && t.pending == s.pending && s.ledger.acked <= t.ledger.acked
            && (IsSafe(b) ==> b <= t.ledger.acked) && (!IsSafe(b) ==> t == s)
            && t.sent == (if t.ledger.acked > s.ledger.acked && t.ledger.acked > b
                          then s.sent + [Send(t.ledger.acked, s.joins)] else s.sent)
  {
    AckedGrows(s.ledger, Bind(b));
  }

  lemma SkipsTell(j: State, bound: State, t: State)
    requires AdvanceTold(bound, t, false) && bound.joins == j.joins
    requires bound.sent == j.sent || bound.sent == j.sent + [Send(bound.ledger.acked, j.joins)]
    ensures t.ledger.acked > bound.ledger.acked ==>
              |t.sent| > |j.sent| && t.sent[|t.sent| - 1] == Send(t.ledger.acked, j.joins)
    ensures t.ledger.acked == bound.ledger.acked ==> t.sent == bound.sent
    ensures t.ledger.acked >= bound.ledger.acked
  {
  }

  lemma ReconcileTells(s: State, joinAcked: int)
    ensures var t := Reconcile(s, joinAcked); t.ledger == s.ledger && t.sent == s.sent && t.joins == s.joins
  {
  }

  // ---- What was kept is replayed --------------------------------------------

  /** The task at `k` would send what is kept: it is the live join's, and the report behind it does
    * not cover the watermark. */
  predicate Due(s: State, k: nat) {
    && k < |s.replays| && s.pending.Some? && s.active == Some(s.replays[k].identity)
    && s.replays[k].joinAcked < s.pending.value
  }

  /** A scheduled replay is in the queue. */
  ghost predicate Queued(s: State) { s.scheduled ==> exists k: nat :: Due(s, k) }

  lemma QueuedGrows(s: State, t: State)
    requires Queued(s) && t.scheduled == s.scheduled && t.replays == s.replays && t.active == s.active
    requires s.pending.Some? ==> t.pending.Some? && t.pending.value >= s.pending.value
    ensures Queued(t)
  {
    if k: nat :| Due(s, k) { assert Due(t, k); }
  }

  /** Calls of the ledger only raise what is kept. */
  predicate KeepsQueue(s: State, t: State) {
    && t.scheduled == s.scheduled && t.replays == s.replays && t.active == s.active
    && (s.pending.Some? ==> t.pending.Some? && t.pending.value >= s.pending.value)
  }

  lemma {:induction false} FeedAllKeepsQueue(s: State, ops: seq<Op>, defer: bool)
    ensures KeepsQueue(s, FeedAll(s, ops, defer))
  {
    hide Apply, Answer;
    if ops != [] { FeedAllKeepsQueue(s, ops[..|ops| - 1], defer); }
  }

  lemma {:induction false} AcknowledgeAllKeepsQueue(s: State, es: seq<Envelope>, live: Option<Identity>)
    ensures KeepsQueue(s, AcknowledgeAll(s, es, live))
  {
    hide Apply, Answer, Allows;
    if es != [] { AcknowledgeAllKeepsQueue(s, es[..|es| - 1], live); }
  }

  lemma ReconcileQueues(s: State, joinAcked: int)
    requires Queued(s)
    ensures Queued(Reconcile(s, joinAcked))
    ensures var t := Reconcile(s, joinAcked);
            s.hasIdentity && s.active.Some? && IsSafe(joinAcked) && joinAcked >= 0 && t.pending.Some? ==>
              t.pending == s.pending && exists k: nat :: Due(t, k)
  {
    var t := Reconcile(s, joinAcked);
    if t.replays != s.replays {
      assert Due(t, |s.replays|);
    } else if s.scheduled && t.scheduled {
      var k: nat :| Due(s, k);
      assert Due(t, k);
    }
  }

  lemma ObserveQueues(s: State, status: Option<Status>, live: Option<Identity>)
    requires Queued(s)
    ensures var t := Observe(s, status, live);
            && Queued(t)
            && (t.hasIdentity && t.active.Some? && status.Some? && t.pending.Some? ==>
                  IsSafe(status.value.ackedSeq) && status.value.ackedSeq >= 0 ==> exists k: nat :: Due(t, k))
  {
    hide Reconcile, FeedAll, Feed, Due;
    var j := if Opens(s, live) then OpenJoin(s, live) else s;
    if status.Some? {
      var acked, skips := status.value.ackedSeq, SkipOps(status.value.skippedRanges);
      var bound := Feed(j, Bind(acked), false);
      FeedKeepsQueue(j, Bind(acked), false);
      FeedAllKeepsQueue(bound, skips, false);
      QueuedGrows(j, FeedAll(bound, skips, false));
      ReconcileQueues(FeedAll(bound, skips, false), acked);
      ReconcileKeepsJoin(FeedAll(bound, skips, false), acked);
    }
  }

  lemma FeedKeepsQueue(s: State, op: Op, defer: bool)
    ensures KeepsQueue(s, Feed(s, op, defer))
  {
    hide Apply, Answer;
  }

  lemma ReconcileKeepsJoin(s: State, joinAcked: int)
    ensures SameJoin(s, Reconcile(s, joinAcked))
  {
  }

  lemma OtherStepsQueue(s: State, ev: Event)
    requires Queued(s) && !ev.OnStatus?
    ensures Queued(Step(s, ev))
  {
    hide Due, AcknowledgeAll, FeedAll, Allows, Apply, Answer;
    match ev
    case OnCapture(e, live) => QueuedGrows(s, Step(s, ev));
    case OnAcknowledge(e, live) => QueuedGrows(s, Step(s, ev));
    case OnTurn(es, numbers, live) =>
      if es.Some? { AcknowledgeAllKeepsQueue(s, es.value, live); }
      FeedAllKeepsQueue(s, CompleteOps(numbers), false);
      QueuedGrows(s, Step(s, ev));
    case OnReplay(live) => if s.replays == [] { QueuedGrows(s, Step(s, ev)); }
    case OnStatus(_, _) =>
  }

  lemma {:induction false} RunIsQueued(h: bool, evs: seq<Event>)
    ensures Queued(After(h, evs))
  {
    hide Observe, Step;
    if evs == [] {
      assert !After(h, evs).scheduled;
    } else {
      var s, ev := After(h, evs[..|evs| - 1]), evs[|evs| - 1];
      RunIsQueued(h, evs[..|evs| - 1]);
      if ev.OnStatus? {
        ObserveQueues(s, ev.status, ev.live);
        assert Step(s, ev) == Observe(s, ev.status, ev.live) by { StepOfStatus(s, ev); }
      } else {
        OtherStepsQueue(s, ev);
      }
    }
  }

  lemma StepOfStatus(s: State, ev: Event)
    requires ev.OnStatus?
    ensures Step(s, ev) == Observe(s, ev.status, ev.live)
  {
  }

  /** `n` queued tasks run, the identity live. */
  function Replays(n: nat, live: Option<Identity>): seq<Event> {
    if n == 0 then [] else Replays(n - 1, live) + [OnReplay(live)]
  }

  lemma {:induction false} Drained(h: bool, evs: seq<Event>, n: nat, i: Identity)
    requires n <= |After(h, evs).replays| && After(h, evs).active == Some(i)
    ensures var s, t := After(h, evs), After(h, evs + Replays(n, Some(i)));
            && t.replays == s.replays[n..] && t.pending == s.pending && t.active == s.active && t.joins == s.joins
            && (forall k :: 0 <= k < n && Due(s, k) ==> Send(s.pending.value, s.joins) in t.sent)
  {
    hide RunReplay, Due;
    var s, all := After(h, evs), evs + Replays(n, Some(i));
    if n == 0 {
      assert all == evs;
    } else {
      Drained(h, evs, n - 1, i);
      assert all[..|all| - 1] == evs + Replays(n - 1, Some(i));
      OneDrained(s, After(h, all[..|all| - 1]), n, i);
    }
  }

  lemma OneDrained(s: State, u: State, n: nat, i: Identity)
    requires 0 < n <= |s.replays| && s.active == Some(i)
    requires u.replays == s.replays[n - 1..] && u.pending == s.pending && u.active == s.active && u.joins == s.joins
    ensures var t := RunReplay(u, Some(i));
            && t.replays == s.replays[n..] && t.pending == s.pending && t.active == s.active && t.joins == s.joins
            && (forall x :: x in u.sent ==> x in t.sent)
            && (Due(s, n - 1) ==> Send(s.pending.value, s.joins) in t.sent)
  {
    assert u.replays[0] == s.replays[n - 1];
    if Due(s, n - 1) { SentNow(u, i); }
  }

  lemma SentNow(u: State, i: Identity)
    requires u.replays != [] && u.active == Some(i) && Due(u, 0)
    ensures RunReplay(u, Some(i)).sent == u.sent + [Send(u.pending.value, u.joins)]
    ensures Send(u.pending.value, u.joins) in RunReplay(u, Some(i)).sent
  {
    var t := RunReplay(u, Some(i));
    assert t.sent[|u.sent|] == Send(u.pending.value, u.joins);
  }

  /** Whatever a disconnect kept is sent after the next report: unless that report covers it, it is
    * sent under the join once the tasks then queued have run with the join's identity live. */
  lemma DeferredIsReplayed(h: bool, evs: seq<Event>, status: Status, i: Identity)
    requires h && IsSafe(status.ackedSeq) && status.ackedSeq >= 0
    ensures var seen := evs + [OnStatus(Some(status), Some(i))];
            var s := After(h, seen);
            && s.active == Some(i)
            && (s.pending.Some? ==>
                  s.pending.value > status.ackedSeq
                  && Send(s.pending.value, s.joins) in After(h, seen + Replays(|s.replays|, Some(i))).sent)
  {
    hide Observe, Step;
    var ev := OnStatus(Some(status), Some(i));
    var seen := evs + [ev];
    assert seen[..|evs|] == evs;
    RunIsQueued(h, evs);
    ObserveQueues(After(h, evs), ev.status, ev.live);
    StepOfStatus(After(h, evs), ev);
    HasIdentityIs(h, seen);
    ReportedJoin(h, evs, status, i);
    var s := After(h, seen);
    if s.pending.Some? {
      var k: nat :| Due(s, k);
      Drained(h, seen, |s.replays|, i);
      CoveredIsDropped(After(h, evs), status, i);
    }
  }

  lemma ReportedJoin(h: bool, evs: seq<Event>, status: Status, i: Identity)
    requires h
    ensures After(h, evs + [OnStatus(Some(status), Some(i))]).active == Some(i)
  {
    hide Step;
    var seen := evs + [OnStatus(Some(status), Some(i))];
    assert seen[..|evs|] == evs;
    StateAgrees(h, seen);
  }

  lemma CoveredIsDropped(s: State, status: Status, i: Identity)
    requires IsSafe(status.ackedSeq) && status.ackedSeq >= 0
    ensures var t := Observe(s, Some(status), Some(i)); t.pending.Some? ==> t.pending.value > status.ackedSeq
  {
    hide FeedAll, Feed;
  }

  /** And it is sent once: while a task waits, a further report of the same join queues no other. */
  lemma ReplaysAreNotDoubled(h: bool, evs: seq<Event>, status: Status, i: Identity, later: Option<Status>)
    requires h && IsSafe(status.ackedSeq) && status.ackedSeq >= 0
    ensures var seen := evs + [OnStatus(Some(status), Some(i))];
            After(h, seen).pending.Some? ==>
              After(h, seen + [OnStatus(later, Some(i))]).replays == After(h, seen).replays
  {
    hide Observe, Step;
    var seen := evs + [OnStatus(Some(status), Some(i))];
    assert seen[..|evs|] == evs;
    assert (seen + [OnStatus(later, Some(i))])[..|seen|] == seen;
    StepOfStatus(After(h, evs), OnStatus(Some(status), Some(i)));
    StepOfStatus(After(h, seen), OnStatus(later, Some(i)));
    ReportedJoin(h, evs, status, i);
    HasIdentityIs(h, seen);
    HasIdentityIs(h, evs);
    ReportSchedules(After(h, evs), status, i);
    if After(h, seen).pending.Some? { ScheduledQueuesNothing(After(h, seen), later, i); }
  }

  lemma ReportSchedules(s: State, status: Status, i: Identity)
    requires s.hasIdentity && IsSafe(status.ackedSeq) && status.ackedSeq >= 0
    ensures var t := Observe(s, Some(status), Some(i)); t.observed && (t.pending.Some? ==> t.scheduled)
  {
    hide FeedAll, Feed;
    var j := if Opens(s, Some(i)) then OpenJoin(s, Some(i)) else s;
    var bound := Feed(j, Bind(status.ackedSeq), false);
    FeedAllKeepsJoin(bound, SkipOps(status.skippedRanges), false);
    FeedKeepsJoin(j, Bind(status.ackedSeq), false);
  }

  lemma FeedKeepsJoin(s: State, op: Op, defer: bool)
    ensures SameJoin(s, Feed(s, op, defer))
  {
    hide Apply, Answer;
  }

  lemma ScheduledQueuesNothing(s: State, status: Option<Status>, i: Identity)
    requires s.hasIdentity && s.observed && s.active == Some(i) && s.scheduled
    ensures Observe(s, status, Some(i)).replays == s.replays
  {
    hide FeedAll, Feed;
    if status.Some? {
      FeedKeepsQueue(s, Bind(status.value.ackedSeq), false);
      FeedAllKeepsQueue(Feed(s, Bind(status.value.ackedSeq), false), SkipOps(status.value.skippedRanges), false);
    }
  }

  // ---- Nothing is sent for another identity ---------------------------------

  /** Whatever is sent is sent while the identity of the join it is tagged with is the live one; a
    * replay sends only the watermark kept, and only past what the report behind it covered. */
  lemma SendsOnlyWhileLive(evs: seq<Event>, ev: Event)
    requires !ev.OnCapture?
    ensures var s, t := After(true, evs), After(true, evs + [ev]);
            t.sent != s.sent ==>
              && JoinOf(true, evs + [ev]) == Some(ev.live)
              && (ev.OnReplay? ==>
                    s.replays != [] && s.pending.Some? && s.replays[0].joinAcked < s.pending.value
                    && t.sent == s.sent + [Send(s.pending.value, s.joins)])
  {
    hide Observe, Acknowledge, AcknowledgeAll, FeedAll;
    assert (evs + [ev])[..|evs|] == evs;
    var s := After(true, evs);
    StateAgrees(true, evs);
    match ev
    case OnStatus(_, _) =>
    case OnAcknowledge(e, live) =>
      AcknowledgeAllQuiet(s, [e], live);
      AcknowledgeOne(s, e, live);
    case OnTurn(es, numbers, live) => if es.Some? { AcknowledgeAllQuiet(s, es.value, live); }
    case OnReplay(live) => ActiveIsObserved(true, evs);
    case OnCapture(_, _) =>
  }

  lemma {:induction false} ActiveIsObserved(h: bool, evs: seq<Event>)
    ensures After(h, evs).active.Some? ==> After(h, evs).observed
  {
    hide Observe, Acknowledge, TurnStart, RunReplay;
    if evs != [] {
      var s, ev := After(h, evs[..|evs| - 1]), evs[|evs| - 1];
      ActiveIsObserved(h, evs[..|evs| - 1]);
      if ev.OnStatus? { ObserveJoins(s, ev.status, ev.live); } else if !ev.OnCapture? { OtherStepsKeepJoin(s, ev); }
    }
  }

  /** Envelopes acknowledged while the join's identity is not live send nothing. */
  lemma {:induction false} AcknowledgeAllQuiet(s: State, es: seq<Envelope>, live: Option<Identity>)
    requires s.hasIdentity
    ensures AcknowledgeAll(s, es, live).sent != s.sent ==> s.observed && live == s.active
  {
    hide Apply, Answer;
    if es != [] {
      AcknowledgeAllQuiet(s, es[..|es| - 1], live);
      AcknowledgeAllKeepsJoin(s, es[..|es| - 1], live);
    }
  }
}
