/** The contiguous-prefix tracker behind delivery acknowledgements. */
module AckLedger {
  import opened Wrappers

  const MAX_PENDING_ACK_COMPLETIONS: nat := 1000
  const MAX_SAFE_INTEGER: int := 9_007_199_254_740_991

  predicate IsSafe(n: int) { -MAX_SAFE_INTEGER <= n <= MAX_SAFE_INTEGER }

  /** The watermark and the completions still waiting for a gap below them to close. */
  datatype Ledger = Ledger(acked: nat, completed: set<int>)

  const Empty := Ledger(0, {})

  /** The end of the contiguous run of `done` numbers above `base`. */
  function RunEnd(base: nat, done: set<int>): nat
    decreases |done|
  {
    if base + 1 in done then RunEnd(base + 1, done - {base + 1}) else base
  }

  ghost predicate IsRunEnd(base: int, done: set<int>, end: int) {
    && base <= end
    && (forall i :: base < i <= end ==> i in done)
    && end + 1 !in done
  }

  lemma {:induction false} RunEndIs(base: nat, done: set<int>)
    ensures IsRunEnd(base, done, RunEnd(base, done))
    decreases |done|
  {
    if base + 1 in done {
      var end := RunEnd(base, done);
      RunEndIs(base + 1, done - {base + 1});
      forall i | base < i <= end ensures i in done {
        assert i == base + 1 || i in done - {base + 1};
      }
    }
  }

  lemma RunEndUnique(base: nat, done: set<int>, end: int)
    requires IsRunEnd(base, done, end)
    ensures end == RunEnd(base, done)
  {
    var run := RunEnd(base, done);
    RunEndIs(base, done);
    assert !(base < run + 1 <= end) && !(base < end + 1 <= run);
  }

  // ---- One call -------------------------------------------------------------

  datatype Op = Bind(baseline: int) | Complete(number: int)

  function Advance(l: Ledger): Ledger {
    var end := RunEnd(l.acked, l.completed);
    Ledger(end, set n | n in l.completed && !(l.acked < n <= end))
  }

  /** Whether a completion is a delivery the ledger could still be waiting for. */
  predicate Counts(l: Ledger, n: int) {
    IsSafe(n) && n > l.acked
  }

  /** Whether a completion is refused because the waiting set is full. */
  predicate Overflows(l: Ledger, op: Op) {
    op.Complete? && Counts(l, op.number) && op.number != l.acked + 1 && op.number !in l.completed
    && |l.completed| >= MAX_PENDING_ACK_COMPLETIONS
  }

  function Apply(l: Ledger, op: Op): Ledger {
    match op
    case Bind(b) => if !IsSafe(b) || b < l.acked then l else Advance(Ledger(b, l.completed))
    case Complete(n) =>
      if !Counts(l, n) || Overflows(l, op) then l else Advance(Ledger(l.acked, l.completed + {n}))
  }

  ghost predicate WellFormed(l: Ledger) {
    && l.acked + 1 !in l.completed
    && |l.completed| <= MAX_PENDING_ACK_COMPLETIONS
    && forall n :: n in l.completed ==> 0 < n && IsSafe(n)
  }

  /** Nothing waiting is next in line, and the waiting set stays within its slots,
    * overflowing calls included. */
  lemma ApplyKeepsWellFormed(l: Ledger, op: Op)
    requires WellFormed(l)
    ensures WellFormed(Apply(l, op))
  {
    match op
    case Bind(b) =>
      if IsSafe(b) && b >= l.acked {
        RunEndIs(b, l.completed);
        SubsetSize(Apply(l, op).completed, l.completed);
      }
    case Complete(n) =>
      if Counts(l, n) && !Overflows(l, op) {
        var more := l.completed + {n};
        RunEndIs(l.acked, more);
        if n == l.acked + 1 {
          SubsetSize(Apply(l, op).completed, l.completed);
        } else if n in l.completed {
          assert more == l.completed;
          SubsetSize(Apply(l, op).completed, l.completed);
        } else {
          SubsetSize(Apply(l, op).completed, more);
        }
      }
  }

  /** One call vouches for nothing beyond what was known and what it was told. */
  lemma ApplyAddsOnly(l: Ledger, op: Op, n: int)
    requires 0 < n <= Apply(l, op).acked || n in Apply(l, op).completed
    ensures || n <= l.acked || n in l.completed
            || (op.Bind? && IsSafe(op.baseline) && n <= op.baseline)
            || (op.Complete? && n == op.number)
  {
    match op
    case Bind(b) => if IsSafe(b) && b >= l.acked { RunEndIs(b, l.completed); }
    case Complete(k) => RunEndIs(l.acked, l.completed + {k});
  }

  // ---- Whole runs -----------------------------------------------------------

  function Run(ops: seq<Op>): Ledger {
    if ops == [] then Empty else Apply(Run(ops[..|ops| - 1]), ops[|ops| - 1])
  }

  /** Every delivery number some call completed. */
  function Done(ops: seq<Op>): set<int> {
    set op | op in ops && op.Complete? && IsSafe(op.number) && op.number > 0 :: op.number
  }

  /** The highest watermark any call offered. */
  function Baseline(ops: seq<Op>): nat {
    if ops == [] then 0
    else
      var b := Baseline(ops[..|ops| - 1]);
      var op := ops[|ops| - 1];
      if op.Bind? && IsSafe(op.baseline) && op.baseline > b then op.baseline else b
  }

  predicate NeverOverflows(ops: seq<Op>) {
    ops == [] || (NeverOverflows(ops[..|ops| - 1]) && !Overflows(Run(ops[..|ops| - 1]), ops[|ops| - 1]))
  }

  /** What the ledger knows about the calls behind it, overflow or not. */
  ghost predicate Sound(l: Ledger, base: nat, done: set<int>) {
    && base <= l.acked
    && (forall i :: base < i <= l.acked ==> i in done)
    && l.completed <= done
  }

  /** ... and, when nothing overflowed, that it forgot nothing it still needs. */
  ghost predicate Remembers(l: Ledger, done: set<int>) {
    forall n :: n in done && n > l.acked ==> n in l.completed
  }

  lemma DoneSnoc(ops: seq<Op>, op: Op)
    ensures Done(ops + [op]) == Done(ops) + Done([op])
    ensures Baseline(ops + [op]) >= Baseline(ops)
  {
    assert (ops + [op])[..|ops|] == ops;
  }

  lemma ApplySound(l: Ledger, op: Op, base: nat, done: set<int>)
    requires WellFormed(l) && Sound(l, base, done)
    ensures var base' := if op.Bind? && IsSafe(op.baseline) && op.baseline > base then op.baseline else base;
            Sound(Apply(l, op), base', done + Done([op]))
    ensures Remembers(l, done) && !Overflows(l, op) ==> Remembers(Apply(l, op), done + Done([op]))
  {
    assert op in [op];
    assert op.Complete? && IsSafe(op.number) && op.number > 0 ==> op.number in Done([op]);
    match op
    case Bind(b) => if IsSafe(b) && b >= l.acked { RunEndIs(b, l.completed); }
    case Complete(n) => RunEndIs(l.acked, l.completed + {n});
  }

  lemma {:induction false} RunIsSound(ops: seq<Op>)
    ensures WellFormed(Run(ops)) && Sound(Run(ops), Baseline(ops), Done(ops))
    ensures NeverOverflows(ops) ==> Remembers(Run(ops), Done(ops))
  {
    if ops != [] {
      var init, op := ops[..|ops| - 1], ops[|ops| - 1];
      RunIsSound(init);
      ApplyKeepsWellFormed(Run(init), op);
      ApplySound(Run(init), op, Baseline(init), Done(init));
      DoneSnoc(init, op);
      assert ops == init + [op];
    }
  }

  /** Main result: without overflow the watermark is the end of the contiguous run of
    * completed deliveries above the highest baseline, whatever order they arrived in. */
  lemma RunIsExact(ops: seq<Op>)
    requires NeverOverflows(ops)
    ensures Run(ops).acked == RunEnd(Baseline(ops), Done(ops))
  {
    RunIsSound(ops);
    RunEndUnique(Baseline(ops), Done(ops), Run(ops).acked);
  }

  /** Overflow only ever delays: the watermark never passes a gap. */
  lemma NeverPastAGap(ops: seq<Op>, i: int)
    requires 0 < i <= Run(ops).acked
    ensures i <= Baseline(ops) || i in Done(ops)
  {
    RunIsSound(ops);
  }

  lemma {:induction false} BaselineIs(ops: seq<Op>)
    ensures forall op :: op in ops && op.Bind? && IsSafe(op.baseline) ==> op.baseline <= Baseline(ops)
    ensures Baseline(ops) == 0 || Bind(Baseline(ops)) in ops
    ensures IsSafe(Baseline(ops))
  {
    if ops != [] {
      BaselineIs(ops[..|ops| - 1]);
      assert ops == ops[..|ops| - 1] + [ops[|ops| - 1]];
    }
  }

  /** The same calls in any order, any of them repeated, leave the same watermark. */
  lemma OrderIndependent(a: seq<Op>, b: seq<Op>)
    requires forall op :: op in a <==> op in b
    requires NeverOverflows(a) && NeverOverflows(b)
    ensures Run(a).acked == Run(b).acked
  {
    hide Run, NeverOverflows, RunEnd;
    SameBaseline(a, b);
    SameBaseline(b, a);
    SameDone(a, b);
    RunIsExact(a);
    RunIsExact(b);
  }

  lemma SameBaseline(a: seq<Op>, b: seq<Op>)
    requires forall op :: op in a ==> op in b
    ensures Baseline(a) <= Baseline(b)
  {
    hide Baseline;
    BaselineIs(a);
    BaselineIs(b);
  }

  lemma SameDone(a: seq<Op>, b: seq<Op>)
    requires forall op :: op in a <==> op in b
    ensures Done(a) == Done(b)
  {
  }

  // ---- Where the slot ceiling bites -----------------------------------------

  /** `n` deliveries completed out of order, number 1 still missing. */
  function Backlog(n: nat): seq<Op> {
    if n == 0 then [] else Backlog(n - 1) + [Complete(n + 1)]
  }

  function Above(n: nat): set<int> {
    if n == 0 then {} else Above(n - 1) + {n + 1}
  }

  lemma {:induction false} AboveRange(n: nat)
    ensures forall k :: k in Above(n) ==> 2 <= k <= n + 1
  {
    if n > 0 { AboveRange(n - 1); }
  }

  lemma {:induction false} BacklogRun(n: nat)
    requires n <= MAX_PENDING_ACK_COMPLETIONS
    ensures Run(Backlog(n)) == Ledger(0, Above(n))
    ensures |Above(n)| == n
  {
    hide Run, Apply;
    if n == 0 {
      NoRun();
    } else {
      BacklogRun(n - 1);
      AboveRange(n - 1);
      RunSnoc(Backlog(n - 1), Complete(n + 1));
      Waits(Run(Backlog(n - 1)), n + 1);
    }
  }

  lemma NoRun()
    ensures Run([]) == Ledger(0, {})
  {
  }

  lemma Waits(l: Ledger, n: nat)
    requires l.acked + 1 < n && IsSafe(n) && l.acked + 1 !in l.completed
    requires |l.completed| < MAX_PENDING_ACK_COMPLETIONS
    ensures Apply(l, Complete(n)) == Ledger(l.acked, l.completed + {n})
  {
    RunEndUnique(l.acked, l.completed + {n}, l.acked);
  }

  /** Entries a baseline has overtaken keep their slots: after a backlog the server
    * skipped past, a full ledger with nothing left to wait for refuses the next
    * out-of-order completion, and the order of two completions decides the result. */
  lemma OvertakenEntriesKeepTheirSlots()
    ensures var before := Backlog(MAX_PENDING_ACK_COMPLETIONS) + [Bind(5000)];
            && (forall n :: n in Run(before).completed ==> n <= Run(before).acked)
            && Overflows(Run(before), Complete(5002))
            && Run(before + [Complete(5001)] + [Complete(5002)]).acked == 5002
            && Run(before + [Complete(5002)] + [Complete(5001)]).acked == 5001
  {
    var backlog := Backlog(MAX_PENDING_ACK_COMPLETIONS);
    BacklogRun(MAX_PENDING_ACK_COMPLETIONS);
    AboveRange(MAX_PENDING_ACK_COMPLETIONS);
    var before := backlog + [Bind(5000)];
    RunSnoc(backlog, Bind(5000));
    var l := Run(before);
    assert l == Ledger(5000, Run(backlog).completed);
    RunSnoc(before, Complete(5001));
    RunSnoc(before + [Complete(5001)], Complete(5002));
    RunSnoc(before, Complete(5002));
    RunSnoc(before + [Complete(5002)], Complete(5001));
    assert Apply(l, Complete(5002)) == l;
    NextInLine(l, 5001);
    NextInLine(Apply(l, Complete(5001)), 5002);
  }

  lemma RunSnoc(ops: seq<Op>, op: Op)
    ensures Run(ops + [op]) == Apply(Run(ops), op)
  {
    assert (ops + [op])[..|ops|] == ops;
  }

  lemma NextInLine(l: Ledger, n: nat)
    requires n == l.acked + 1 && IsSafe(n) && n !in l.completed && n + 1 !in l.completed
    ensures Apply(l, Complete(n)) == Ledger(n, l.completed)
  {
    assert RunEnd(l.acked, l.completed + {n}) == n by {
      RunEndUnique(l.acked, l.completed + {n}, n);
    }
  }

  // ---- The object -----------------------------------------------------------

  class DeliveryAcknowledger {
    var acked: nat
    var completed: set<int>

    ghost function View(): Ledger
      reads this
    {
      Ledger(acked, completed)
    }

    constructor ()
      ensures View() == Empty
    {
      acked, completed := 0, {};
    }

    /** Adopts the server's watermark; answers the new one when waiting completions carry it further. */
    method Bind(ackedSeq: int) returns (out: Option<nat>)
      modifies this
      ensures View() == Apply(old(View()), Op.Bind(ackedSeq))
      ensures out == if old(acked) <= ackedSeq < acked then Some(acked) else None
      ensures acked >= old(acked) && (IsSafe(ackedSeq) ==> acked >= ackedSeq)
    {
      if !IsSafe(ackedSeq) || ackedSeq < acked { return None; }
      acked := ackedSeq;
      out := AdvancePrefix();
    }

    /** Records one finished delivery; answers the watermark when it moved. */
    method Complete(number: int) returns (out: Option<nat>)
      modifies this
      ensures View() == Apply(old(View()), Op.Complete(number))
      ensures out == if acked > old(acked) then Some(acked) else None
      ensures acked >= old(acked)
    {
      if !IsSafe(number) || number <= acked || number <= 0 { return None; }
      if number != acked + 1 && number !in completed && |completed| >= MAX_PENDING_ACK_COMPLETIONS {
        return None;
      }
      completed := completed + {number};
      out := AdvancePrefix();
    }

    method AdvancePrefix() returns (out: Option<nat>)
      modifies this
      ensures View() == Advance(old(View()))
      ensures out == if acked > old(acked) then Some(acked) else None
      ensures acked >= old(acked)
    {
      var advanced := false;
      while acked + 1 in completed
        invariant old(acked) <= acked && advanced == (acked > old(acked))
        invariant completed == set n | n in old(completed) && !(old(acked) < n <= acked)
        invariant forall i :: old(acked) < i <= acked ==> i in old(completed)
        decreases |completed|
      {
        completed := completed - {acked + 1};
        acked := acked + 1;
        advanced := true;
      }
      RunEndUnique(old(acked), old(completed), acked);
      out := if advanced then Some(acked) else None;
    }
  }
}
