/** Nothing acknowledged is lost and nothing is borrowed from another join: over every run the
  * watermark and every value sent are told from the events alone. */
module AckRuns {
  import opened Wrappers
  import opened AckLedger
  import opened AckSpec

  // ---- What the events say --------------------------------------------------

  /** Whether a report under `live` opens a join, after a run whose current join is `join`. */
  predicate OpensAfter(join: Option<Option<Identity>>, live: Option<Identity>) {
    join.None? || (live.None? && join.value.Some?) || (live.Some? && live != join.value)
  }

  /** The identity the current join was opened under; none before the first report. */
  function JoinOf(h: bool, evs: seq<Event>): Option<Option<Identity>> {
    if !h || evs == [] then None
    else
      var before, ev := JoinOf(h, evs[..|evs| - 1]), evs[|evs| - 1];
      if ev.OnStatus? && OpensAfter(before, ev.live) then Some(ev.live) else before
  }

  /** Whether the last event opens a join. */
  predicate LastOpens(h: bool, evs: seq<Event>)
    requires evs != []
  {
    h && evs[|evs| - 1].OnStatus? && OpensAfter(JoinOf(h, evs[..|evs| - 1]), evs[|evs| - 1].live)
  }

  function Openings(h: bool, evs: seq<Event>): nat {
    if evs == [] then 0 else Openings(h, evs[..|evs| - 1]) + if LastOpens(h, evs) then 1 else 0
  }

  /** The position of the event that opened the current join. */
  function JoinFrom(h: bool, evs: seq<Event>): nat {
    if evs == [] then 0 else if LastOpens(h, evs) then |evs| - 1 else JoinFrom(h, evs[..|evs| - 1])
  }

  predicate Reports(ev: Event) {
    ev.OnStatus? && ev.status.Some? && IsSafe(ev.status.value.ackedSeq) && ev.status.value.ackedSeq >= 0
  }

  /** The highest watermark the server reported since the current join opened. */
  function Reported(h: bool, evs: seq<Event>): nat {
    if evs == [] then 0
    else
      var ev := evs[|evs| - 1];
      var before := if LastOpens(h, evs) then 0 else Reported(h, evs[..|evs| - 1]);
      if Reports(ev) then Max(before, ev.status.value.ackedSeq) else before
  }

  /** The identity in force when this envelope was captured first. */
  function FirstCapture(evs: seq<Event>, id: nat): Option<Option<Identity>> {
    if evs == [] then None
    else
      var before, ev := FirstCapture(evs[..|evs| - 1], id), evs[|evs| - 1];
      if before.None? && ev.OnCapture? && ev.e.id == id then Some(ev.live) else before
  }

  predicate InRanges(ranges: seq<(int, int)>, n: int) {
    exists k :: 0 <= k < |ranges| && ranges[k].0 <= n <= ranges[k].1
  }

  /** An envelope numbered `n` is done after these events, captured under the join's identity. */
  predicate Finishes(h: bool, before: seq<Event>, e: Envelope, n: int) {
    && e.deliverySeq == Some(n)
    && (h ==> FirstCapture(before, e.id).Some? && FirstCapture(before, e.id) == JoinOf(h, before))
  }

  /** The event at `j` vouches for the number: the server skipped it, an envelope of this join
    * was acknowledged, or, where no identities are in use, a turn named it. */
  predicate VouchesAt(h: bool, evs: seq<Event>, j: nat, n: int)
    requires j < |evs|
  {
    match evs[j]
    case OnStatus(status, _) => status.Some? && InRanges(status.value.skippedRanges, n)
    case OnCapture(_, _) => false
    case OnAcknowledge(e, _) => Finishes(h, evs[..j], e, n)
    case OnTurn(es, numbers, _) =>
      if es.Some? then exists i :: 0 <= i < |es.value| && Finishes(h, evs[..j], es.value[i], n)
      else !h && n in numbers
    case OnReplay(_) => false
  }

  /** Some event since the current join opened vouches for the number. */
  ghost predicate Vouched(h: bool, evs: seq<Event>, n: int) {
    exists j :: JoinFrom(h, evs) <= j < |evs| && VouchesAt(h, evs, j, n)
  }

  ghost function VouchedSet(h: bool, evs: seq<Event>): iset<int> { iset n | Vouched(h, evs, n) }

  /** The highest value sent under a join. */
  function HighestSent(sent: seq<Send>, join: nat): nat {
    if sent == [] then 0
    else
      var x, before := sent[|sent| - 1], HighestSent(sent[..|sent| - 1], join);
      if x.join == join then Max(before, x.value) else before
  }

  // ---- The state agrees with the events -------------------------------------

  ghost predicate Agrees(h: bool, evs: seq<Event>, s: State) {
    && s.hasIdentity == h && s.joins == Openings(h, evs)
    && (h ==> (s.observed <==> JoinOf(h, evs).Some?) && (s.observed ==> JoinOf(h, evs) == Some(s.active)))
    && (h ==> forall id :: FirstCapture(evs, id) == if id in s.captured then Some(s.captured[id]) else None)
  }

  /** No call of the ledger touches the join or what was captured. */
  predicate SameJoin(s: State, t: State) {
    && t.hasIdentity == s.hasIdentity && t.joins == s.joins && t.observed == s.observed
    && t.active == s.active && t.captured == s.captured
  }

  lemma {:induction false} FeedAllKeepsJoin(s: State, ops: seq<Op>, defer: bool)
    ensures SameJoin(s, FeedAll(s, ops, defer))
  {
    if ops != [] { FeedAllKeepsJoin(s, ops[..|ops| - 1], defer); }
  }

  lemma {:induction false} AcknowledgeAllKeepsJoin(s: State, es: seq<Envelope>, live: Option<Identity>)
    ensures SameJoin(s, AcknowledgeAll(s, es, live))
  {
    if es != [] { AcknowledgeAllKeepsJoin(s, es[..|es| - 1], live); }
  }

  lemma OtherStepsKeepJoin(s: State, ev: Event)
    requires !ev.OnStatus? && !ev.OnCapture?
    ensures SameJoin(s, Step(s, ev))
  {
    if ev.OnTurn? && ev.es.Some? { AcknowledgeAllKeepsJoin(s, ev.es.value, ev.live); }
    if ev.OnTurn? { FeedAllKeepsJoin(s, CompleteOps(ev.numbers), false); }
  }

  lemma ObserveJoins(s: State, status: Option<Status>, live: Option<Identity>)
    ensures SameJoin(if Opens(s, live) then OpenJoin(s, live) else s, Observe(s, status, live))
  {
    var j := if Opens(s, live) then OpenJoin(s, live) else s;
    if status.Some? {
      FeedAllKeepsJoin(Feed(j, Bind(status.value.ackedSeq), false), SkipOps(status.value.skippedRanges), false);
    }
  }

  lemma {:induction false} StateAgrees(h: bool, evs: seq<Event>)
    ensures Agrees(h, evs, After(h, evs))
  {
    if evs != [] {
      var before, ev := evs[..|evs| - 1], evs[|evs| - 1];
      var s := After(h, before);
      StateAgrees(h, before);
      if ev.OnStatus? {
        ObserveJoins(s, ev.status, ev.live);
      } else if !ev.OnCapture? {
        OtherStepsKeepJoin(s, ev);
      }
      forall id ensures h ==> FirstCapture(evs, id) ==
                                if id in After(h, evs).captured then Some(After(h, evs).captured[id]) else None
      {
        assert h ==> FirstCapture(before, id) == if id in s.captured then Some(s.captured[id]) else None;
      }
    }
  }

  // ---- Nothing is borrowed --------------------------------------------------

  /** Everything up to the watermark, or waiting above it, was reported or is vouched for. */
  ghost predicate Owned(l: Ledger, reported: nat, vouched: iset<int>) {
    forall n :: 0 < n <= l.acked || n in l.completed ==> n <= reported || n in vouched
  }

  predicate Covered(op: Op, reported: nat, vouched: iset<int>) {
    && (op.Bind? && IsSafe(op.baseline) ==> op.baseline <= reported)
    && (op.Complete? ==> op.number <= 0 || op.number in vouched)
  }

  lemma FeedOwns(s: State, op: Op, defer: bool, reported: nat, vouched: iset<int>)
    requires Owned(s.ledger, reported, vouched) && Covered(op, reported, vouched)
    ensures Owned(Feed(s, op, defer).ledger, reported, vouched)
  {
    var l := Apply(s.ledger, op);
    forall n | 0 < n <= l.acked || n in l.completed ensures n <= reported || n in vouched {
      ApplyAddsOnly(s.ledger, op, n);
    }
  }

  lemma {:induction false} FeedAllOwns(s: State, ops: seq<Op>, defer: bool, reported: nat, vouched: iset<int>)
    requires Owned(s.ledger, reported, vouched)
    requires forall i :: 0 <= i < |ops| ==> Covered(ops[i], reported, vouched)
    ensures Owned(FeedAll(s, ops, defer).ledger, reported, vouched)
  {
    hide Covered;
    if ops != [] {
      FeedAllOwns(s, ops[..|ops| - 1], defer, reported, vouched);
      FeedOwns(FeedAll(s, ops[..|ops| - 1], defer), ops[|ops| - 1], defer, reported, vouched);
    }
  }

  lemma OwnedMore(l: Ledger, reported: nat, vouched: iset<int>, reported': nat, vouched': iset<int>)
    requires Owned(l, reported, vouched) && reported <= reported' && vouched <= vouched'
    ensures Owned(l, reported', vouched')
  {
  }

  // ---- Nothing is lost ------------------------------------------------------

  /** The watermark is the highest of what was sent under this join, what the server reported
    * and what is deferred. */
  ghost predicate Accounted(s: State, reported: nat) {
    s.ledger.acked == Max(HighestSent(s.sent, s.joins), Max(reported, OrZero(s.pending)))
  }

  predicate Tagged(s: State) { forall i :: 0 <= i < |s.sent| ==> s.sent[i].join <= s.joins }

  lemma SentSnoc(sent: seq<Send>, x: Send, join: nat)
    ensures HighestSent(sent + [x], join)
         == if x.join == join then Max(HighestSent(sent, join), x.value) else HighestSent(sent, join)
  {
    assert (sent + [x])[..|sent|] == sent;
  }

  lemma {:induction false} NothingSentYet(sent: seq<Send>, join: nat)
    requires forall i :: 0 <= i < |sent| ==> sent[i].join < join
    ensures HighestSent(sent, join) == 0
  {
    if sent != [] { NothingSentYet(sent[..|sent| - 1], join); }
  }

  lemma AckedGrows(l: Ledger, op: Op)
    ensures Apply(l, op).acked >= l.acked
    ensures op.Bind? && IsSafe(op.baseline) ==> Apply(l, op).acked >= op.baseline
  {
    match op
    case Bind(b) => if IsSafe(b) && b >= l.acked { RunEndIs(b, l.completed); }
    case Complete(k) => RunEndIs(l.acked, l.completed + {k});
  }

  lemma CompletionIsAccounted(s: State, number: int, defer: bool, reported: nat)
    requires Accounted(s, reported) && Tagged(s)
    ensures Accounted(Feed(s, Complete(number), defer), reported) && Tagged(Feed(s, Complete(number), defer))
  {
    hide Apply, HighestSent;
    var op := Complete(number);
    AckedGrows(s.ledger, op);
    SentSnoc(s.sent, Send(Apply(s.ledger, op).acked, s.joins), s.joins);
  }

  lemma BaselineIsAccounted(s: State, b: int, reported: nat)
    requires Accounted(s, reported) && Tagged(s)
    ensures var t := Feed(s, Bind(b), false);
            Accounted(t, if IsSafe(b) && b >= 0 then Max(reported, b) else reported) && Tagged(t)
  {
    AckedGrows(s.ledger, Bind(b));
    BaselineMoves(s.ledger, b);
    hide Apply, HighestSent;
    SentSnoc(s.sent, Send(Apply(s.ledger, Bind(b)).acked, s.joins), s.joins);
  }

  lemma BaselineMoves(l: Ledger, b: int)
    ensures !IsSafe(b) || b < l.acked ==> Apply(l, Bind(b)) == l
  {
  }

  predicate AllComplete(ops: seq<Op>) { forall i :: 0 <= i < |ops| ==> ops[i].Complete? }

  lemma {:induction false} CompletionsAreAccounted(s: State, ops: seq<Op>, defer: bool, reported: nat)
    requires Accounted(s, reported) && Tagged(s) && AllComplete(ops)
    ensures Accounted(FeedAll(s, ops, defer), reported) && Tagged(FeedAll(s, ops, defer))
  {
    hide Accounted, Tagged, Feed;
    if ops != [] {
      CompletionsAreAccounted(s, ops[..|ops| - 1], defer, reported);
      CompletionIsAccounted(FeedAll(s, ops[..|ops| - 1], defer), ops[|ops| - 1].number, defer, reported);
    }
  }

  // ---- One event ------------------------------------------------------------

  /** What the run so far justifies, and that it accounts for the watermark. */
  ghost predicate Kept(s: State, reported: nat, vouched: iset<int>) {
    Owned(s.ledger, reported, vouched) && Accounted(s, reported) && Tagged(s)
  }

  lemma {:induction false} RangeIsCompletions(first: int, last: int)
    ensures AllComplete(RangeOps(first, last))
    ensures forall i :: 0 <= i < |RangeOps(first, last)| ==> first <= RangeOps(first, last)[i].number <= last
    decreases last - first
  {
    if last >= first { RangeIsCompletions(first, last - 1); }
  }

  lemma {:induction false} SkipsAreRanges(ranges: seq<(int, int)>)
    ensures AllComplete(SkipOps(ranges))
    ensures forall i :: 0 <= i < |SkipOps(ranges)| ==> InRanges(ranges, SkipOps(ranges)[i].number)
  {
    if ranges != [] {
      var n := |ranges| - 1;
      SkipsAreRanges(ranges[..n]);
      RangeIsCompletions(ranges[n].0, ranges[n].1);
      var early, late := SkipOps(ranges[..n]), RangeOps(ranges[n].0, ranges[n].1);
      forall i | 0 <= i < |SkipOps(ranges)| ensures InRanges(ranges, SkipOps(ranges)[i].number) {
        if i < |early| {
          assert InRanges(ranges[..n], early[i].number);
          var k :| 0 <= k < n && ranges[..n][k].0 <= early[i].number <= ranges[..n][k].1;
          assert ranges[k].0 <= early[i].number <= ranges[k].1;
        } else {
          assert SkipOps(ranges)[i] == late[i - |early|];
          assert ranges[n].0 <= late[i - |early|].number <= ranges[n].1;
        }
      }
    }
  }

  lemma {:induction false} NumbersAreCompletions(numbers: seq<int>)
    ensures AllComplete(CompleteOps(numbers)) && |CompleteOps(numbers)| == |numbers|
    ensures forall i :: 0 <= i < |numbers| ==> CompleteOps(numbers)[i].number == numbers[i]
  {
    if numbers != [] { NumbersAreCompletions(numbers[..|numbers| - 1]); }
  }

  lemma ReconcileKeeps(s: State, joinAcked: int, reported: nat, vouched: iset<int>)
    requires Kept(s, reported, vouched) && (IsSafe(joinAcked) && joinAcked >= 0 ==> joinAcked <= reported)
    ensures Kept(Reconcile(s, joinAcked), reported, vouched)
  {
  }

  lemma OpenKeeps(s: State, live: Option<Identity>, vouched: iset<int>)
    requires Tagged(s)
    ensures Kept(OpenJoin(s, live), 0, vouched)
  {
    NothingSentYet(s.sent, s.joins + 1);
  }

  /** A report adopted by a join that stands. */
  lemma StatusKeeps(s: State, status: Status, before: nat, reported: nat, vouched: iset<int>)
    requires Kept(s, before, vouched)
    requires reported == (if IsSafe(status.ackedSeq) && status.ackedSeq >= 0 then Max(before, status.ackedSeq)
                          else before)
    requires forall n :: InRanges(status.skippedRanges, n) ==> n in vouched
    ensures Kept(Reconcile(FeedAll(Feed(s, Bind(status.ackedSeq), false), SkipOps(status.skippedRanges), false),
                           status.ackedSeq), reported, vouched)
  {
    hide Feed, Reconcile, Owned, Accounted, Tagged, InRanges;
    var bound := Feed(s, Bind(status.ackedSeq), false);
    OwnedMore(s.ledger, before, vouched, reported, vouched);
    FeedOwns(s, Bind(status.ackedSeq), false, reported, vouched);
    BaselineIsAccounted(s, status.ackedSeq, before);
    SkipsAreRanges(status.skippedRanges);
    FeedAllOwns(bound, SkipOps(status.skippedRanges), false, reported, vouched);
    CompletionsAreAccounted(bound, SkipOps(status.skippedRanges), false, reported);
    ReconcileKeeps(FeedAll(bound, SkipOps(status.skippedRanges), false), status.ackedSeq, reported, vouched);
  }

  lemma AcknowledgeKeeps(s: State, e: Envelope, live: Option<Identity>, reported: nat, vouched: iset<int>)
    requires Kept(s, reported, vouched)
    requires Allows(s, e, live).0 && e.deliverySeq.Some? ==> e.deliverySeq.value in vouched
    ensures Kept(Acknowledge(s, e, live), reported, vouched)
  {
    hide Feed, Owned, Accounted, Tagged;
    var (allowed, disconnected) := Allows(s, e, live);
    if allowed {
      FeedOwns(s, OpOf(e.deliverySeq), disconnected, reported, vouched);
      CompletionIsAccounted(s, OpOf(e.deliverySeq).number, disconnected, reported);
    }
  }

  lemma {:induction false} AcknowledgeAllKeeps(s: State, es: seq<Envelope>, live: Option<Identity>, reported: nat,
                                               vouched: iset<int>)
    requires Kept(s, reported, vouched)
    requires forall i :: 0 <= i < |es| && Allows(s, es[i], live).0 && es[i].deliverySeq.Some? ==>
               es[i].deliverySeq.value in vouched
    ensures Kept(AcknowledgeAll(s, es, live), reported, vouched)
  {
    hide Kept, Acknowledge;
    if es != [] {
      var n := |es| - 1;
      var t := AcknowledgeAll(s, es[..n], live);
      AcknowledgeAllKeeps(s, es[..n], live, reported, vouched);
      AcknowledgeAllKeepsJoin(s, es[..n], live);
      assert Allows(t, es[n], live) == Allows(s, es[n], live);
      AcknowledgeKeeps(t, es[n], live, reported, vouched);
    }
  }

  lemma ReplayKeeps(s: State, live: Option<Identity>, reported: nat, vouched: iset<int>)
    requires Kept(s, reported, vouched)
    ensures Kept(RunReplay(s, live), reported, vouched)
  {
    hide Owned, HighestSent;
    if s.pending.Some? { SentSnoc(s.sent, Send(s.pending.value, s.joins), s.joins); }
  }

  lemma KeptMore(s: State, reported: nat, vouched: iset<int>, vouched': iset<int>)
    requires Kept(s, reported, vouched) && vouched <= vouched'
    ensures Kept(s, reported, vouched')
  {
  }

  // ---- Whole runs -----------------------------------------------------------

  /** What earlier events vouch for in a join they still vouch for later in it. */
  lemma VouchedStays(h: bool, evs: seq<Event>)
    requires evs != [] && !LastOpens(h, evs)
    ensures VouchedSet(h, evs[..|evs| - 1]) <= VouchedSet(h, evs)
  {
    hide VouchesAt;
    var before := evs[..|evs| - 1];
    forall n | Vouched(h, before, n) ensures Vouched(h, evs, n) {
      var j :| JoinFrom(h, before) <= j < |before| && VouchesAt(h, before, j, n);
      SameVoucher(h, before, evs, j, n);
    }
  }

  lemma SameVoucher(h: bool, before: seq<Event>, evs: seq<Event>, j: nat, n: int)
    requires before <= evs && j < |before|
    ensures VouchesAt(h, before, j, n) <==> VouchesAt(h, evs, j, n)
  {
    assert before[..j] == evs[..j];
  }

  lemma LastVouches(h: bool, evs: seq<Event>, n: int)
    requires evs != [] && VouchesAt(h, evs, |evs| - 1, n)
    ensures n in VouchedSet(h, evs)
  {
    hide VouchesAt;
    JoinFromBound(h, evs);
  }

  lemma {:induction false} JoinFromBound(h: bool, evs: seq<Event>)
    requires evs != []
    ensures JoinFrom(h, evs) < |evs|
  {
    if |evs| > 1 { JoinFromBound(h, evs[..|evs| - 1]); }
  }

  lemma AllowedIsFinished(h: bool, before: seq<Event>, e: Envelope, live: Option<Identity>)
    requires Allows(After(h, before), e, live).0 && e.deliverySeq.Some?
    ensures Finishes(h, before, e, e.deliverySeq.value)
  {
    hide Step;
    StateAgrees(h, before);
  }

  lemma {:induction false} RunIsKept(h: bool, evs: seq<Event>)
    ensures Kept(After(h, evs), Reported(h, evs), VouchedSet(h, evs))
  {
    hide Kept, Observe, Acknowledge, TurnStart, RunReplay, VouchedSet;
    if evs == [] {
      StartIsKept(h);
    } else {
      var before, ev := evs[..|evs| - 1], evs[|evs| - 1];
      RunIsKept(h, before);
      if ev.OnStatus? {
        StatusRunIsKept(h, evs);
      } else {
        VouchedStays(h, evs);
        KeptMore(After(h, before), Reported(h, before), VouchedSet(h, before), VouchedSet(h, evs));
        OtherRunIsKept(h, evs);
      }
    }
  }

  lemma StartIsKept(h: bool)
    ensures Kept(After(h, []), Reported(h, []), VouchedSet(h, []))
  {
  }

  lemma StatusRunIsKept(h: bool, evs: seq<Event>)
    requires evs != [] && evs[|evs| - 1].OnStatus?
    requires var before := evs[..|evs| - 1]; Kept(After(h, before), Reported(h, before), VouchedSet(h, before))
    ensures Kept(After(h, evs), Reported(h, evs), VouchedSet(h, evs))
  {
    hide Owned, Accounted, VouchedSet, Feed, FeedAll, Reconcile, InRanges;
    var before, ev := evs[..|evs| - 1], evs[|evs| - 1];
    var s := After(h, before);
    StateAgrees(h, before);
    assert Opens(s, ev.live) <==> LastOpens(h, evs);
    var j := if Opens(s, ev.live) then OpenJoin(s, ev.live) else s;
    if Opens(s, ev.live) {
      OpenKeeps(s, ev.live, VouchedSet(h, evs));
    } else {
      VouchedStays(h, evs);
      KeptMore(s, Reported(h, before), VouchedSet(h, before), VouchedSet(h, evs));
    }
    if ev.status.Some? {
      forall n | InRanges(ev.status.value.skippedRanges, n) ensures n in VouchedSet(h, evs) { LastVouches(h, evs, n); }
      StatusKeeps(j, ev.status.value, if Opens(s, ev.live) then 0 else Reported(h, before), Reported(h, evs),
                  VouchedSet(h, evs));
    }
  }

  lemma OtherRunIsKept(h: bool, evs: seq<Event>)
    requires evs != [] && !evs[|evs| - 1].OnStatus?
    requires Kept(After(h, evs[..|evs| - 1]), Reported(h, evs[..|evs| - 1]), VouchedSet(h, evs))
    ensures Kept(After(h, evs), Reported(h, evs), VouchedSet(h, evs))
  {
    hide VouchedSet, Finishes, Feed, FeedAll, Acknowledge, Allows;
    var before, ev := evs[..|evs| - 1], evs[|evs| - 1];
    var s, vouched := After(h, before), VouchedSet(h, evs);
    match ev {
      case OnCapture(e, live) =>
        assert Step(s, ev).ledger == s.ledger;
      case OnAcknowledge(e, live) =>
        if Allows(s, e, live).0 && e.deliverySeq.Some? {
          AllowedIsFinished(h, before, e, live);
          LastVouches(h, evs, e.deliverySeq.value);
        }
        AcknowledgeKeeps(s, e, live, Reported(h, evs), vouched);
      case OnTurn(es, numbers, live) => TurnRunIsKept(h, evs);
      case OnReplay(live) => ReplayKeeps(s, live, Reported(h, evs), vouched);
    }
  }

  lemma TurnRunIsKept(h: bool, evs: seq<Event>)
    requires evs != [] && evs[|evs| - 1].OnTurn?
    requires Kept(After(h, evs[..|evs| - 1]), Reported(h, evs[..|evs| - 1]), VouchedSet(h, evs))
    ensures Kept(After(h, evs), Reported(h, evs), VouchedSet(h, evs))
  {
    hide VouchedSet, Finishes, Feed, FeedAll, Acknowledge, Allows, Owned, Accounted, Tagged;
    var before, ev := evs[..|evs| - 1], evs[|evs| - 1];
    var s, vouched := After(h, before), VouchedSet(h, evs);
    StateAgrees(h, before);
    if ev.es.Some? {
      forall i | 0 <= i < |ev.es.value| && Allows(s, ev.es.value[i], ev.live).0 && ev.es.value[i].deliverySeq.Some?
        ensures ev.es.value[i].deliverySeq.value in vouched
      {
        AllowedIsFinished(h, before, ev.es.value[i], ev.live);
        LastVouches(h, evs, ev.es.value[i].deliverySeq.value);
      }
      AcknowledgeAllKeeps(s, ev.es.value, ev.live, Reported(h, evs), vouched);
    } else if !h {
      NumbersAreCompletions(ev.numbers);
      forall i | 0 <= i < |ev.numbers| ensures ev.numbers[i] in vouched { LastVouches(h, evs, ev.numbers[i]); }
      FeedAllOwns(s, CompleteOps(ev.numbers), false, Reported(h, evs), vouched);
      CompletionsAreAccounted(s, CompleteOps(ev.numbers), false, Reported(h, evs));
    }
  }

  // ---- Promises -------------------------------------------------------------

  lemma {:induction false} SentIsBelowHighest(sent: seq<Send>, join: nat, i: nat)
    requires i < |sent| && sent[i].join == join
    ensures sent[i].value <= HighestSent(sent, join)
  {
    if i < |sent| - 1 { SentIsBelowHighest(sent[..|sent| - 1], join, i); }
  }

  /** No acknowledgement is borrowed: every number up to a value sent under the current join is
    * at most a watermark the server reported since that join opened, or lies in a range it
    * skipped since, or is the number of an envelope acknowledged since and captured first under
    * that join's identity. */
  lemma NothingIsBorrowed(h: bool, evs: seq<Event>, i: nat, n: int)
    requires var s := After(h, evs); i < |s.sent| && s.sent[i].join == s.joins && 0 < n <= s.sent[i].value
    ensures n <= Reported(h, evs) || Vouched(h, evs, n)
  {
    hide Step, Vouched;
    assert n in VouchedSet(h, evs) <==> Vouched(h, evs, n);
    RunIsKept(h, evs);
    SentIsBelowHighest(After(h, evs).sent, After(h, evs).joins, i);
  }

  /** No acknowledgement is lost: the watermark is the highest of what was sent under the current
    * join, what the server reported since it opened, and what is deferred. */
  lemma NothingIsLost(h: bool, evs: seq<Event>)
    ensures var s := After(h, evs);
            && s.ledger.acked == Max(HighestSent(s.sent, s.joins), Max(Reported(h, evs), OrZero(s.pending)))
            && s.joins == Openings(h, evs)
  {
    hide Step;
    RunIsKept(h, evs);
    StateAgrees(h, evs);
  }

  predicate SendsMore(s: State, t: State) {
    s.sent <= t.sent && t.joins == s.joins && forall i :: |s.sent| <= i < |t.sent| ==> t.sent[i].join == s.joins
  }

  lemma {:induction false} FeedAllSendsMore(s: State, ops: seq<Op>, defer: bool)
    ensures SendsMore(s, FeedAll(s, ops, defer))
  {
    hide Apply, Answer;
    if ops != [] { FeedAllSendsMore(s, ops[..|ops| - 1], defer); }
  }

  lemma {:induction false} AcknowledgeAllSendsMore(s: State, es: seq<Envelope>, live: Option<Identity>)
    ensures SendsMore(s, AcknowledgeAll(s, es, live))
  {
    hide Apply, Answer, Allows;
    if es != [] { AcknowledgeAllSendsMore(s, es[..|es| - 1], live); }
  }

  lemma SendsMoreThrough(s: State, t: State, u: State)
    requires SendsMore(s, t) && SendsMore(t, u)
    ensures SendsMore(s, u)
  {
  }

  lemma ReconcileSendsNothing(s: State, joinAcked: int)
    ensures SendsMore(s, Reconcile(s, joinAcked))
  {
  }

  lemma ObserveSendsMore(s: State, status: Option<Status>, live: Option<Identity>)
    ensures SendsMore(if Opens(s, live) then OpenJoin(s, live) else s, Observe(s, status, live))
  {
    hide SendsMore, Feed, FeedAll, Reconcile;
    var j := if Opens(s, live) then OpenJoin(s, live) else s;
    FeedAllSendsMore(j, [], false);
    assert FeedAll(j, [], false) == j by { FeedNothing(j); }
    if status.Some? {
      var acked := status.value.ackedSeq;
      var bound := Feed(j, Bind(acked), false);
      var skipped := FeedAll(bound, SkipOps(status.value.skippedRanges), false);
      FeedSendsMore(j, Bind(acked), false);
      FeedAllSendsMore(bound, SkipOps(status.value.skippedRanges), false);
      ReconcileSendsNothing(skipped, acked);
      SendsMoreThrough(j, bound, skipped);
      SendsMoreThrough(j, skipped, Reconcile(skipped, acked));
    }
  }

  lemma FeedNothing(s: State)
    ensures FeedAll(s, [], false) == s
  {
  }

  lemma FeedSendsMore(s: State, op: Op, defer: bool)
    ensures SendsMore(s, Feed(s, op, defer))
  {
    hide Apply, Answer;
  }

  lemma OtherStepsSendMore(s: State, ev: Event)
    requires !ev.OnStatus?
    ensures SendsMore(s, Step(s, ev))
  {
    hide Apply, Answer, Allows, FeedAll, AcknowledgeAll;
    if ev.OnTurn? {
      if ev.es.Some? { AcknowledgeAllSendsMore(s, ev.es.value, ev.live); }
      FeedAllSendsMore(s, CompleteOps(ev.numbers), false);
    }
  }

  lemma StepSendsMore(s: State, ev: Event)
    ensures s.sent <= Step(s, ev).sent && s.joins <= Step(s, ev).joins <= s.joins + 1
    ensures forall i :: |s.sent| <= i < |Step(s, ev).sent| ==> Step(s, ev).sent[i].join == Step(s, ev).joins
  {
    hide Observe, Acknowledge, TurnStart, RunReplay;
    if ev.OnStatus? { ObserveSendsMore(s, ev.status, ev.live); } else { OtherStepsSendMore(s, ev); }
  }

  /** The same of every value ever sent: it was justified under its own join, at some point of
    * the run at which that join was current. */
  lemma {:induction false} EverySendIsJustified(h: bool, evs: seq<Event>, i: nat, n: int) returns (k: nat)
    requires i < |After(h, evs).sent| && 0 < n <= After(h, evs).sent[i].value
    ensures k <= |evs| && i < |After(h, evs[..k]).sent|
    ensures After(h, evs[..k]).sent[i] == After(h, evs).sent[i]
    ensures After(h, evs[..k]).joins == After(h, evs).sent[i].join
    ensures n <= Reported(h, evs[..k]) || Vouched(h, evs[..k], n)
  {
    hide Step, Vouched, Reported;
    var s := After(h, evs);
    if s.sent[i].join == s.joins {
      assert evs[..|evs|] == evs;
      NothingIsBorrowed(h, evs, i, n);
      k := |evs|;
    } else {
      var before := evs[..|evs| - 1];
      RunIsTagged(h, before);
      StepSendsMore(After(h, before), evs[|evs| - 1]);
      k := EverySendIsJustified(h, before, i, n);
      assert before[..k] == evs[..k];
    }
  }

  lemma RunIsTagged(h: bool, evs: seq<Event>)
    ensures Tagged(After(h, evs))
  {
    hide Step;
    RunIsKept(h, evs);
  }
}
