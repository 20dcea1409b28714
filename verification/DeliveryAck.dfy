/** Delivery acknowledgement as the program has it: one object over a ledger, whose calls send
  * a new watermark at once or keep it for replay. */
module DeliveryAck {
  import opened Wrappers
  import opened AckLedger
  import Spec = AckSpec
  import opened AckSpec

  class DeliveryAcknowledgement {
    const hasIdentity: bool
    var ledger: DeliveryAcknowledger
    var captured: map<nat, Option<Identity>>
    var activeIdentity: Option<Identity>
    var identityObserved: bool
    var pendingAck: Option<nat>
    var replayScheduled: bool
    /** Microtasks queued and not yet run. */
    var replays: seq<Replay>
    /** The joins opened so far, and every watermark handed to the transport. */
    ghost var joins: nat
    ghost var sent: seq<Send>

    ghost function View(): State
      reads this, ledger
    {
      State(hasIdentity, ledger.View(), captured, activeIdentity, identityObserved, pendingAck,
            replayScheduled, replays, joins, sent)
    }

    constructor (hasIdentity: bool)
      ensures fresh(ledger) && View() == Init(hasIdentity)
    {
      this.hasIdentity := hasIdentity;
      ledger := new DeliveryAcknowledger();
      captured, activeIdentity, identityObserved, pendingAck := map[], None, false, None;
      replayScheduled, replays, joins, sent := false, [], 0, [];
    }

    // ---- Reports --------------------------------------------------------------

    /** Reconciles the server's watermark after a join or rejoin. */
    method Observe(status: Option<Status>, live: Option<Identity>)
      modifies this, ledger
      ensures ledger == old(ledger) || fresh(ledger)
      ensures View() == Spec.Observe(old(View()), status, live)
    {
      hide Reconcile, Feed, FeedAll;
      if hasIdentity
      && (!identityObserved || (live.None? && activeIdentity.Some?) || (live.Some? && live != activeIdentity)) {
        StartJoin(live);
      }
      if status.None? { return; }
      AdoptWatermark(status.value.ackedSeq);
      SkipRanges(status.value.skippedRanges);
      ReconcilePendingAck(status.value.ackedSeq);
    }

    /** A fresh ledger for a new join; whatever was deferred belonged to the old one. */
    method StartJoin(live: Option<Identity>)
      modifies this
      ensures fresh(ledger) && View() == OpenJoin(old(View()), live)
    {
      ledger := new DeliveryAcknowledger();
      activeIdentity, identityObserved, pendingAck, replayScheduled := live, true, None, false;
      joins := joins + 1;
    }

    method SendIfAdvanced(out: Option<nat>)
      modifies this`sent
      ensures sent == if out.Some? then old(sent) + [Send(out.value, joins)] else old(sent)
    {
      if out.Some? { sent := sent + [Send(out.value, joins)]; }
    }

    /** Binds the reported watermark and sends it on when waiting completions extend it. */
    method AdoptWatermark(ackedSeq: int)
      modifies this`sent, ledger
      ensures View() == Feed(old(View()), Bind(ackedSeq), false)
    {
      var out := ledger.Bind(ackedSeq);
      SendIfAdvanced(out);
    }

    method CompleteNumber(number: int)
      modifies this`sent, ledger
      ensures View() == Feed(old(View()), Complete(number), false)
    {
      var out := ledger.Complete(number);
      SendIfAdvanced(out);
    }

    method SkipRanges(ranges: seq<(int, int)>)
      modifies this`sent, ledger
      ensures View() == FeedAll(old(View()), SkipOps(ranges), false)
    {
      hide Feed, RangeOps;
      ghost var s := View();
      for i := 0 to |ranges|
        invariant View() == FeedAll(s, SkipOps(ranges[..i]), false)
      {
        SkipOpsSnoc(ranges, i);
        FeedAllConcat(s, SkipOps(ranges[..i]), RangeOps(ranges[i].0, ranges[i].1));
        SkipRange(ranges[i].0, ranges[i].1);
      }
      assert ranges[..|ranges|] == ranges;
    }

    method SkipRange(first: int, last: int)
      modifies this`sent, ledger
      ensures View() == FeedAll(old(View()), RangeOps(first, last), false)
    {
      hide Feed;
      ghost var s := View();
      var number := first;
      while number <= last
        invariant first <= number && (number <= last + 1 || number == first)
        invariant View() == FeedAll(s, RangeOps(first, number - 1), false)
      {
        FeedAllSnoc(s, RangeOps(first, number - 1), Complete(number));
        CompleteNumber(number);
        number := number + 1;
      }
      if first > last { assert RangeOps(first, last) == RangeOps(first, first - 1) == []; }
    }

    method ReconcilePendingAck(joinAcked: int)
      modifies this`pendingAck, this`replayScheduled, this`replays
      ensures View() == Reconcile(old(View()), joinAcked)
    {
      if !IsSafe(joinAcked) || joinAcked < 0 || pendingAck.None? { return; }
      if pendingAck.value <= joinAcked {
        pendingAck, replayScheduled := None, false;
        return;
      }
      if !hasIdentity || replayScheduled || activeIdentity.None? { return; }
      replayScheduled, replays := true, replays + [Replay(joinAcked, activeIdentity.value)];
    }

    /** The queued microtask: replays the deferred watermark if its join is still the live one. */
    method ReplayDeferred(live: Option<Identity>)
      requires replays != []
      modifies this`replayScheduled, this`replays, this`sent
      ensures View() == RunReplay(old(View()), live)
    {
      var task := replays[0];
      replays, replayScheduled := replays[1..], false;
      if pendingAck.None? || pendingAck.value <= task.joinAcked
         || live != Some(task.identity) || activeIdentity != Some(task.identity) {
        return;
      }
      SendIfAdvanced(pendingAck);
    }

    // ---- Completions ----------------------------------------------------------

    /** Remembers the join an envelope arrived under, once. */
    method CaptureEnvelope(e: Envelope, live: Option<Identity>)
      modifies this`captured
      ensures View() == Capture(old(View()), e, live)
    {
      if !hasIdentity || e.id in captured { return; }
      captured := captured[e.id := live];
    }

    /** Whether an envelope may count now, and whether its watermark has to wait. */
    method IdentityAllows(e: Envelope, live: Option<Identity>) returns (allowed: bool, disconnected: bool)
      ensures (allowed, disconnected) == Allows(View(), e, live)
    {
      if !hasIdentity { return true, false; }
      if e.id !in captured || !identityObserved { return false, false; }
      if activeIdentity.None? { return captured[e.id].None? && live.None?, false; }
      if captured[e.id] != activeIdentity { return false, false; }
      if live.None? { return true, true; }
      return live == activeIdentity, false;
    }

    /** Completes a delivery: sends the new watermark, keeps it while disconnected, or ignores an
      * envelope that belongs to another join. */
    method AcknowledgeEnvelope(e: Envelope, live: Option<Identity>)
      modifies this`pendingAck, this`sent, ledger
      ensures View() == Acknowledge(old(View()), e, live)
    {
      var allowed, disconnected := IdentityAllows(e, live);
      if !allowed { return; }
      var number := if e.deliverySeq.Some? then e.deliverySeq.value else 0;
      var out := ledger.Complete(number);
      if out.Some? && disconnected {
        pendingAck := Some(Max(if pendingAck.Some? then pendingAck.value else 0, out.value));
      } else {
        SendIfAdvanced(out);
      }
    }

    /** The engine took a turn: its envelopes are done; without envelopes the bare numbers count
      * only when no join identity is in use. */
    method AcknowledgeTurnStart(envelopes: Option<seq<Envelope>>, numbers: seq<int>, live: Option<Identity>)
      modifies this`pendingAck, this`sent, ledger
      ensures View() == TurnStart(old(View()), envelopes, numbers, live)
    {
      hide Acknowledge, Feed;
      if envelopes.Some? {
        AcknowledgeEnvelopes(envelopes.value, live);
      } else if !hasIdentity {
        CompleteNumbers(numbers);
      }
    }

    method AcknowledgeEnvelopes(es: seq<Envelope>, live: Option<Identity>)
      modifies this`pendingAck, this`sent, ledger
      ensures View() == AcknowledgeAll(old(View()), es, live)
    {
      hide Acknowledge;
      ghost var s := View();
      for i := 0 to |es|
        invariant View() == AcknowledgeAll(s, es[..i], live)
      {
        assert es[..i + 1][..i] == es[..i];
        AcknowledgeEnvelope(es[i], live);
      }
      assert es[..|es|] == es;
    }

    method CompleteNumbers(numbers: seq<int>)
      modifies this`sent, ledger
      ensures View() == FeedAll(old(View()), CompleteOps(numbers), false)
    {
      hide Feed;
      ghost var s := View();
      for i := 0 to |numbers|
        invariant View() == FeedAll(s, CompleteOps(numbers[..i]), false)
      {
        assert numbers[..i + 1][..i] == numbers[..i];
        FeedAllSnoc(s, CompleteOps(numbers[..i]), Complete(numbers[i]));
        CompleteNumber(numbers[i]);
      }
      assert numbers[..|numbers|] == numbers;
    }
  }

  // ---- Facts the loops need ---------------------------------------------------

  lemma FeedAllSnoc(s: State, ops: seq<Op>, op: Op)
    ensures FeedAll(s, ops + [op], false) == Feed(FeedAll(s, ops, false), op, false)
  {
    assert (ops + [op])[..|ops|] == ops;
  }

  lemma {:induction false} FeedAllConcat(s: State, a: seq<Op>, b: seq<Op>)
    ensures FeedAll(s, a + b, false) == FeedAll(FeedAll(s, a, false), b, false)
  {
    hide Feed;
    if b == [] {
      assert a + b == a;
    } else {
      var n := |b| - 1;
      FeedAllConcat(s, a, b[..n]);
      assert a + b == a + b[..n] + [b[n]];
      FeedAllSnoc(s, a + b[..n], b[n]);
    }
  }

  lemma SkipOpsSnoc(ranges: seq<(int, int)>, i: nat)
    requires i < |ranges|
    ensures SkipOps(ranges[..i + 1]) == SkipOps(ranges[..i]) + RangeOps(ranges[i].0, ranges[i].1)
  {
    assert ranges[..i + 1][..i] == ranges[..i];
  }
}
