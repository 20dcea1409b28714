/** The windowed crash budget: how many automatic relaunches an interval can hold. */
module CrashBudget {

  const MAX_RESTARTS: nat := 5
  const RESTART_WINDOW_MS: int := 60_000

  /** One budget window: when it started and the automatic relaunches charged to it. */
  datatype Window = Window(start: int, relaunches: seq<int>)

  /** A deliberate cycle opens a fresh budget. */
  function Opened(now: int): seq<Window> { [Window(now, [])] }

  function Current(ws: seq<Window>): Window
    requires ws != []
  {
    ws[|ws| - 1]
  }

  /** The windows once a crash at `now` has been charged: past the window a new one opens. */
  function Rolled(ws: seq<Window>, now: int): seq<Window>
    requires ws != []
  {
    if now - Current(ws).start > RESTART_WINDOW_MS then ws + Opened(now) else ws
  }

  function Charged(ws: seq<Window>, now: int): seq<Window>
    requires ws != []
  {
    ws[..|ws| - 1] + [Current(ws).(relaunches := Current(ws).relaunches + [now])]
  }

  /** A crash at `now`: relaunch while the current window has budget, else stay down. */
  function Crash(ws: seq<Window>, now: int): (seq<Window>, bool)
    requires ws != []
  {
    var rolled := Rolled(ws, now);
    if |Current(rolled).relaunches| >= MAX_RESTARTS then (rolled, false) else (Charged(rolled, now), true)
  }

  /** Every window holds at most the cap, within its own span, and windows are more than
    * one span apart. */
  ghost predicate Budgeted(ws: seq<Window>, clock: int) {
    && ws != []
    && Current(ws).start <= clock
    && (forall i :: 0 <= i < |ws| ==> |ws[i].relaunches| <= MAX_RESTARTS)
    && (forall i, k :: 0 <= i < |ws| && 0 <= k < |ws[i].relaunches| ==>
          ws[i].start <= ws[i].relaunches[k] <= ws[i].start + RESTART_WINDOW_MS)
    && (forall i, j :: 0 <= i < j < |ws| ==> ws[j].start - ws[i].start > RESTART_WINDOW_MS * (j - i))
  }

  lemma OpenedIsBudgeted(now: int, clock: int)
    requires now <= clock
    ensures Budgeted(Opened(now), clock)
  {
  }

  lemma RolledIsBudgeted(ws: seq<Window>, clock: int, now: int)
    requires Budgeted(ws, clock) && clock <= now
    ensures Budgeted(Rolled(ws, now), now)
    ensures now - Current(Rolled(ws, now)).start <= RESTART_WINDOW_MS
  {
    var n := |ws| - 1;
    if now - Current(ws).start > RESTART_WINDOW_MS {
      forall i | 0 <= i < |ws| ensures now - ws[i].start > RESTART_WINDOW_MS * (|ws| - i) {
        if i < n { assert ws[n].start - ws[i].start > RESTART_WINDOW_MS * (n - i); }
      }
    }
  }

  lemma ChargedIsBudgeted(ws: seq<Window>, now: int)
    requires Budgeted(ws, now) && now - Current(ws).start <= RESTART_WINDOW_MS
    requires |Current(ws).relaunches| < MAX_RESTARTS
    ensures Budgeted(Charged(ws, now), now)
  {
  }

  // ---- Counting -------------------------------------------------------------

  function CountIn(ts: seq<int>, from: int, to: int): nat {
    if ts == [] then 0
    else CountIn(ts[..|ts| - 1], from, to) + if from <= ts[|ts| - 1] <= to then 1 else 0
  }

  /** Automatic relaunches in the closed interval, over all windows. */
  function Relaunches(ws: seq<Window>, from: int, to: int): nat {
    if ws == [] then 0
    else Relaunches(ws[..|ws| - 1], from, to) + CountIn(Current(ws).relaunches, from, to)
  }

  lemma CountInSnoc(ts: seq<int>, now: int, from: int, to: int)
    ensures CountIn(ts + [now], from, to) == CountIn(ts, from, to) + if from <= now <= to then 1 else 0
  {
    assert (ts + [now])[..|ts|] == ts;
  }

  lemma ChargeIsRecorded(ws: seq<Window>, now: int, from: int, to: int)
    requires ws != []
    ensures Relaunches(Charged(ws, now), from, to) == Relaunches(ws, from, to) + if from <= now <= to then 1 else 0
  {
    var n := |ws| - 1;
    CountInSnoc(ws[n].relaunches, now, from, to);
    assert Charged(ws, now)[..n] == ws[..n];
  }

  /** A crash adds its own relaunch to the record, and nothing when it stays down. */
  lemma CrashIsRecorded(ws: seq<Window>, now: int, from: int, to: int)
    requires ws != []
    ensures var (after, up) := Crash(ws, now);
            && after != []
            && Relaunches(after, from, to) == Relaunches(ws, from, to) + if up && from <= now <= to then 1 else 0
  {
    hide Relaunches, Charged;
    RollIsRecorded(ws, now, from, to);
    ChargeIsRecorded(Rolled(ws, now), now, from, to);
    assert |Charged(Rolled(ws, now), now)| > 0 by { ChargedLength(Rolled(ws, now), now); }
  }

  lemma ChargedLength(ws: seq<Window>, now: int)
    requires ws != []
    ensures |Charged(ws, now)| == |ws|
  {
  }

  lemma RollIsRecorded(ws: seq<Window>, now: int, from: int, to: int)
    requires ws != []
    ensures Relaunches(Rolled(ws, now), from, to) == Relaunches(ws, from, to)
  {
    var rolled := Rolled(ws, now);
    if rolled != ws {
      assert rolled[..|ws|] == ws && Current(rolled).relaunches == [];
      assert Relaunches(rolled, from, to) == Relaunches(ws, from, to) + CountIn([], from, to);
    }
  }

  lemma {:induction false} CountBound(ts: seq<int>, from: int, to: int)
    ensures CountIn(ts, from, to) <= |ts|
  {
    if ts != [] { CountBound(ts[..|ts| - 1], from, to); }
  }

  lemma {:induction false} CountOutside(ts: seq<int>, from: int, to: int)
    requires forall k :: 0 <= k < |ts| ==> ts[k] < from || ts[k] > to
    ensures CountIn(ts, from, to) == 0
  {
    if ts != [] { CountOutside(ts[..|ts| - 1], from, to); }
  }

  /** Windows that ended before the interval contribute nothing. */
  lemma {:induction false} EarlierWindowsAreOut(ws: seq<Window>, from: int, to: int)
    requires forall i, k :: 0 <= i < |ws| && 0 <= k < |ws[i].relaunches| ==> ws[i].relaunches[k] < from
    ensures Relaunches(ws, from, to) == 0
  {
    if ws != [] {
      var n := |ws| - 1;
      forall i, k | 0 <= i < n && 0 <= k < |ws[..n][i].relaunches| ensures ws[..n][i].relaunches[k] < from {
        assert ws[..n][i] == ws[i];
      }
      EarlierWindowsAreOut(ws[..n], from, to);
      CountOutside(ws[n].relaunches, from, to);
    }
  }

  /** When the last window reaches into the interval, all but the one before it are over. */
  lemma OlderAreOver(ws: seq<Window>, older: seq<Window>, from: int)
    requires |ws| >= 2 && Budgeted(ws, Current(ws).start) && older == ws[..|ws| - 2]
    requires Current(ws).start <= from + RESTART_WINDOW_MS
    ensures Relaunches(older, from, from + RESTART_WINDOW_MS) == 0
  {
    var n := |ws| - 1;
    forall i, k | 0 <= i < |older| && 0 <= k < |older[i].relaunches| ensures older[i].relaunches[k] < from {
      assert older[i] == ws[i];
      assert ws[n].start - ws[i].start > RESTART_WINDOW_MS * (n - i);
    }
    EarlierWindowsAreOut(older, from, from + RESTART_WINDOW_MS);
  }

  lemma FirstWindows(ws: seq<Window>)
    requires |ws| >= 2 && Budgeted(ws, Current(ws).start)
    ensures var init := ws[..|ws| - 1]; Budgeted(init, Current(init).start)
  {
  }

  /** Only two windows can reach into an interval one span long. */
  lemma {:induction false} AtMostTwoWindows(ws: seq<Window>, from: int)
    requires ws != [] && Budgeted(ws, Current(ws).start)
    ensures Relaunches(ws, from, from + RESTART_WINDOW_MS) <= 2 * MAX_RESTARTS
  {
    var n, to := |ws| - 1, from + RESTART_WINDOW_MS;
    var init := ws[..n];
    CountBound(ws[n].relaunches, from, to);
    assert Relaunches(ws, from, to) == Relaunches(init, from, to) + CountIn(ws[n].relaunches, from, to);
    if n == 0 {
      assert init == [];
    } else if ws[n].start > to {
      CountOutside(ws[n].relaunches, from, to);
      FirstWindows(ws);
      AtMostTwoWindows(init, from);
    } else {
      assert init[..n - 1] == ws[..n - 1];
      CountBound(init[n - 1].relaunches, from, to);
      OlderAreOver(ws, init[..n - 1], from);
    }
  }

  /** `n` crashes in a row at the same instant. */
  function CrashTimes(ws: seq<Window>, now: int, n: nat): (seq<Window>, bool)
    requires ws != []
    ensures CrashTimes(ws, now, n).0 != []
  {
    if n == 0 then (ws, true)
    else
      var before := CrashTimes(ws, now, n - 1);
      var after := Crash(before.0, now);
      (after.0, before.1 && after.1)
  }

  /** The last window holds `n` relaunches, all at `now`, and the rest is as before. */
  predicate FilledAt(ws: seq<Window>, after: seq<Window>, now: int, n: nat)
    requires ws != []
  {
    && |after| == |ws| && after[..|ws| - 1] == ws[..|ws| - 1]
    && Current(after).start == Current(ws).start
    && |Current(after).relaunches| == n
    && forall k :: 0 <= k < n ==> Current(after).relaunches[k] == now
  }

  lemma OneMoreAtOnce(ws: seq<Window>, before: seq<Window>, now: int, n: nat)
    requires ws != [] && now - Current(ws).start <= RESTART_WINDOW_MS
    requires n < MAX_RESTARTS && FilledAt(ws, before, now, n)
    ensures Crash(before, now).1 && FilledAt(ws, Crash(before, now).0, now, n + 1)
  {
    assert Rolled(before, now) == before;
  }

  lemma {:induction false} WholeWindowAtOnce(ws: seq<Window>, now: int, n: nat)
    requires ws != [] && now - Current(ws).start <= RESTART_WINDOW_MS
    requires Current(ws).relaunches == [] && n <= MAX_RESTARTS
    ensures var after := CrashTimes(ws, now, n); after.1 && FilledAt(ws, after.0, now, n)
  {
    hide Crash;
    if n == 0 {
      assert FilledAt(ws, ws, now, 0);
    } else {
      WholeWindowAtOnce(ws, now, n - 1);
      OneMoreAtOnce(ws, CrashTimes(ws, now, n - 1).0, now, n - 1);
    }
  }

  lemma {:induction false} CountAll(ts: seq<int>, from: int, to: int)
    requires forall k :: 0 <= k < |ts| ==> from <= ts[k] <= to
    ensures CountIn(ts, from, to) == |ts|
  {
    if ts != [] { CountAll(ts[..|ts| - 1], from, to); }
  }

  /** The bound is reached, so the cap of five does not cap an interval at five: five crashes
    * at the end of a window and five a millisecond later are all relaunched. */
  lemma TwiceTheCapIsReached(begin: int)
    ensures var end := begin + RESTART_WINDOW_MS;
            var first := CrashTimes(Opened(begin), end, MAX_RESTARTS);
            var second := CrashTimes(Rolled(first.0, end + 1), end + 1, MAX_RESTARTS);
            first.1 && second.1 && Relaunches(second.0, end, end + 1) == 2 * MAX_RESTARTS
  {
    var end := begin + RESTART_WINDOW_MS;
    WholeWindowAtOnce(Opened(begin), end, MAX_RESTARTS);
    var first := CrashTimes(Opened(begin), end, MAX_RESTARTS).0;
    var rolled := Rolled(first, end + 1);
    WholeWindowAtOnce(rolled, end + 1, MAX_RESTARTS);
    var second := CrashTimes(rolled, end + 1, MAX_RESTARTS).0;
    CountAll(Current(first).relaunches, end, end + 1);
    CountAll(Current(second).relaunches, end, end + 1);
    assert |rolled| == 2 && second[..1] == rolled[..1] == first;
    assert |first| == 1 && first[..0] == [];
    assert Relaunches(first, end, end + 1) == Relaunches(first[..0], end, end + 1) + MAX_RESTARTS;
  }
}
