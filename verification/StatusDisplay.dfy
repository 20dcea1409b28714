/** The status display: every state is shown in order, each long enough to be read, and the
  * display ends at the live state. */
module StatusDisplay {
  import opened Wrappers

  const MIN_DISPLAY_MS: nat := 2000
  const TERMINAL_DISPLAY_MS: nat := 180_000

  predicate Terminal(state: string) { state == "done" || state == "error" }

  /** A state put on screen, and when. */
  datatype Shown = Shown(state: string, at: int)

  /** `timer` is when the hold window of the state on screen ends. `history` is everything
    * ever put on screen; its last entry is on screen now. */
  datatype Display = Display(
    history: seq<Shown>, queue: seq<string>, timer: Option<int>, heldOn: Option<string>,
    disposed: bool, minMs: nat, terminalMs: nat)

  predicate Started(d: Display) { d.history != [] }

  function Now(d: Display): string
    requires Started(d)
  {
    d.history[|d.history| - 1].state
  }

  function Window(d: Display, state: string): nat { if Terminal(state) then d.terminalMs else d.minMs }

  /** What the display will come to: the last state waiting, or the one on screen. */
  function Latest(d: Display): string
    requires Started(d)
  {
    if d.queue == [] then Now(d) else d.queue[|d.queue| - 1]
  }

  function Init(initial: string, minMs: nat, terminalMs: nat, at: int): Display {
    Display([Shown(initial, at)], [], None, None, false, minMs, terminalMs)
  }

  /** Puts a state on screen and opens its hold window. */
  function Show(d: Display, state: string, at: int): Display {
    d.(history := d.history + [Shown(state, at)], timer := Some(at + Window(d, state)))
  }

  function Push(d: Display, state: string, at: int): Display
    requires Started(d)
  {
    if d.disposed then d
    else if d.heldOn.Some? then d.(queue := if state == d.heldOn.value then [] else [state])
    else if Terminal(state) && d.timer.Some? && !Terminal(Now(d)) then d.(queue := [state])
    else if state == Latest(d) then d
    else if d.timer.Some? && Terminal(Now(d)) && state != "waiting_input" then Show(d.(queue := []), state, at)
    else if d.timer.None? then Show(d, state, at)
    else d.(queue := d.queue + [state])
  }

  /** A change of the screen without a hold window. */
  function Snap(d: Display, state: string, at: int): Display
    requires Started(d)
  {
    d.(queue := [], timer := None, history := if state == Now(d) then d.history else d.history + [Shown(state, at)])
  }

  function Hold(d: Display, state: string, at: int): Display
    requires Started(d)
  {
    if d.disposed || d.heldOn == Some(state) then d else Snap(d.(heldOn := Some(state)), state, at)
  }

  function Unhold(d: Display, at: int): Display
    requires Started(d)
  {
    if d.disposed || d.heldOn.None? then d
    else
      var free := d.(heldOn := None, queue := []);
      if d.queue != [] && d.queue[0] != Now(d) then Show(free, d.queue[0], at) else free
  }

  function Reset(d: Display, state: string, at: int): Display
    requires Started(d)
  {
    if d.disposed then d else Snap(d.(heldOn := None), state, at)
  }

  /** The hold window ends. */
  function Release(d: Display, at: int): Display {
    var idle := d.(timer := None);
    if d.queue == [] then idle else Show(idle.(queue := d.queue[1..]), d.queue[0], at)
  }

  function Dispose(d: Display): Display {
    d.(disposed := true, queue := [], heldOn := None, timer := None)
  }

  // ---- Runs -----------------------------------------------------------------

  datatype Event =
    | OnPush(state: string, at: int)
    | OnHold(state: string, at: int)
    | OnUnhold(at: int)
    | OnReset(state: string, at: int)
    | OnTimer(at: int)
    | OnDispose(at: int)

  function Step(d: Display, ev: Event): Display
    requires Started(d)
  {
    match ev
    case OnPush(state, at) => Push(d, state, at)
    case OnHold(state, at) => Hold(d, state, at)
    case OnUnhold(at) => Unhold(d, at)
    case OnReset(state, at) => Reset(d, state, at)
    case OnTimer(at) => Release(d, at)
    case OnDispose(_) => Dispose(d)
  }

  lemma StepStarts(d: Display, ev: Event)
    requires Started(d)
    ensures Started(Step(d, ev)) && d.history <= Step(d, ev).history && |Step(d, ev).history| <= |d.history| + 1
  {
  }

  function After(d: Display, evs: seq<Event>): (r: Display)
    requires Started(d)
    ensures Started(r) && d.history <= r.history
  {
    if evs == [] then d
    else
      var before := After(d, evs[..|evs| - 1]);
      StepStarts(before, evs[|evs| - 1]);
      Step(before, evs[|evs| - 1])
  }

  /** Timers fire when they are due, not before, and events come in the order of time. */
  ghost predicate Timely(d: Display, evs: seq<Event>)
    requires Started(d)
  {
    forall k :: 0 <= k < |evs| ==>
      && (k > 0 ==> evs[k - 1].at <= evs[k].at)
      && (evs[k].OnTimer? ==> After(d, evs[..k]).timer.Some? && After(d, evs[..k]).timer.value <= evs[k].at)
  }

  // ---- The display ends at the live state -----------------------------------

  /** The latest effective input: a push, a hold that is not already in force, or a reset. */
  function Live(live: string, d: Display, ev: Event): string {
    if d.disposed then live
    else
      match ev
      case OnPush(state, _) => state
      case OnHold(state, _) => if d.heldOn == Some(state) then live else state
      case OnReset(state, _) => state
      case _ => live
  }

  function LiveAfter(live: string, d: Display, evs: seq<Event>): string
    requires Started(d)
  {
    if evs == [] then live
    else Live(LiveAfter(live, d, evs[..|evs| - 1]), After(d, evs[..|evs| - 1]), evs[|evs| - 1])
  }

  /** No two neighbours among what is on screen and waiting are equal; a hold pins the screen
    * and remembers at most one state; without a hold an idle timer means nothing waits. On
    * screen only a terminal state may follow itself: pushed again while its follow-up waits,
    * it is shown anew. */
  ghost predicate Inv(d: Display) {
    && Started(d)
    && (d.queue != [] ==> d.queue[0] != Now(d))
    && (forall i :: 0 < i < |d.queue| ==> d.queue[i - 1] != d.queue[i])
    && (d.heldOn.Some? ==> Now(d) == d.heldOn.value && |d.queue| <= 1 && d.timer.None?)
    && (d.heldOn.None? && d.timer.None? ==> d.queue == [])
    && (d.disposed ==> d.queue == [] && d.heldOn.None? && d.timer.None?)
    && (forall i :: 0 < i < |d.history| && d.history[i - 1].state == d.history[i].state ==>
          Terminal(d.history[i].state))
  }

  lemma StepKeeps(d: Display, ev: Event, live: string)
    requires Inv(d) && (ev.OnTimer? ==> d.timer.Some?)
    requires !d.disposed ==> Latest(d) == live
    ensures Inv(Step(d, ev))
    ensures !Step(d, ev).disposed ==> Latest(Step(d, ev)) == Live(live, d, ev)
  {
    hide Inv, Push, Snap;
    match ev
    case OnPush(state, at) => PushKeeps(d, state, at);
    case OnHold(state, at) => if !d.disposed { SnapKeeps(d, Some(state), state, at); }
    case OnReset(state, at) => if !d.disposed { SnapKeeps(d, None, state, at); }
    case _ => QuietKeeps(d, ev);
  }

  lemma PushKeeps(d: Display, state: string, at: int)
    requires Inv(d)
    ensures Inv(Push(d, state, at)) && Push(d, state, at).disposed == d.disposed
    ensures !d.disposed ==> Latest(Push(d, state, at)) == state
  {
    hide Show, Inv;
    HistoryRepeatsTerminals(d);
    if !d.disposed && d.heldOn.None? {
      if d.timer.None? && state != Now(d) { ShowKeeps(d, state, at); }
      if Terminal(Now(d)) { ShowKeeps(d.(queue := []), state, at); }
    }
    if !d.disposed { PushWaits(d, state); }
  }

  lemma HistoryRepeatsTerminals(d: Display)
    requires Inv(d)
    ensures Started(d) && (d.timer.None? && d.heldOn.None? ==> d.queue == [])
    ensures d.heldOn.Some? ==> Now(d) == d.heldOn.value
    ensures forall i :: 0 < i < |d.history| && d.history[i - 1].state == d.history[i].state ==>
              Terminal(d.history[i].state)
  {
  }

  /** A state that only joins those that wait. */
  lemma PushWaits(d: Display, state: string)
    requires Inv(d) && !d.disposed
    ensures d.heldOn.Some? ==> Inv(d.(queue := if state == d.heldOn.value then [] else [state]))
    ensures d.heldOn.None? && d.timer.Some? && state != Now(d) ==> Inv(d.(queue := [state]))
    ensures d.heldOn.None? && d.timer.Some? && state != Latest(d) ==> Inv(d.(queue := d.queue + [state]))
  {
  }

  /** A state shown at once, when nothing waits: it may repeat only a terminal one. */
  lemma ShowKeeps(d: Display, state: string, at: int)
    requires Started(d) && d.queue == [] && !d.disposed && d.heldOn.None? && (state == Now(d) ==> Terminal(state))
    requires forall i :: 0 < i < |d.history| && d.history[i - 1].state == d.history[i].state ==>
               Terminal(d.history[i].state)
    ensures var t := Show(d, state, at); Inv(t) && !t.disposed && Latest(t) == state
  {
  }

  lemma SnapKeeps(d: Display, pin: Option<string>, state: string, at: int)
    requires Inv(d) && !d.disposed && (pin.Some? ==> pin == Some(state))
    ensures var t := Snap(d.(heldOn := pin), state, at); Inv(t) && Latest(t) == state && !t.disposed
  {
  }

  lemma QuietKeeps(d: Display, ev: Event)
    requires Inv(d) && (ev.OnTimer? ==> d.timer.Some?) && (ev.OnUnhold? || ev.OnTimer? || ev.OnDispose?)
    ensures Inv(Step(d, ev)) && (Step(d, ev).disposed || Latest(Step(d, ev)) == Latest(d))
    ensures d.disposed ==> Step(d, ev).disposed
  {
  }

  /** Over every run, until disposal, what the display will come to is the latest effective
    * input, and an idle display is up to date. */
  lemma {:induction false} EndsAtTheLiveState(initial: string, minMs: nat, terminalMs: nat, at: int, evs: seq<Event>)
    requires Timely(Init(initial, minMs, terminalMs, at), evs)
    ensures var d := After(Init(initial, minMs, terminalMs, at), evs);
            && Inv(d)
            && (!d.disposed ==>
                  var live := LiveAfter(initial, Init(initial, minMs, terminalMs, at), evs);
                  Latest(d) == live && (d.heldOn.None? && d.timer.None? ==> Now(d) == live))
  {
    if evs != [] {
      var n, start := |evs| - 1, Init(initial, minMs, terminalMs, at);
      TimelyBefore(start, evs);
      EndsAtTheLiveState(initial, minMs, terminalMs, at, evs[..n]);
      StepKeeps(After(start, evs[..n]), evs[n], LiveAfter(initial, start, evs[..n]));
    }
  }

  lemma TimelyBefore(d: Display, evs: seq<Event>)
    requires Started(d) && Timely(d, evs) && evs != []
    ensures Timely(d, evs[..|evs| - 1])
  {
    var before := evs[..|evs| - 1];
    forall k | 0 <= k < |before|
      ensures k > 0 ==> before[k - 1].at <= before[k].at
      ensures before[k].OnTimer? ==>
                After(d, before[..k]).timer.Some? && After(d, before[..k]).timer.value <= before[k].at
    {
      assert before[..k] == evs[..k];
    }
  }

  /** `n` hold windows pass. */
  function Released(d: Display, n: nat, at: int): Display {
    if n == 0 then d else Release(Released(d, n - 1, at), at)
  }

  /** Left alone, the display shows what waits, one state a window, and ends at the last. */
  lemma {:induction false} DrainsToTheLatest(d: Display, n: nat, at: int)
    requires Inv(d) && d.heldOn.None? && n <= |d.queue|
    ensures Started(Released(d, n, at)) && Released(d, n, at).queue == d.queue[n..]
    ensures Released(d, n, at).heldOn.None?
    ensures n == |d.queue| ==> Now(Released(d, n, at)) == Latest(d)
  {
    if n > 0 { DrainsToTheLatest(d, n - 1, at); }
  }

  // ---- Nothing is skipped ---------------------------------------------------

  /** The same without consecutive repeats. */
  function Dedup(xs: seq<string>): seq<string> {
    if |xs| <= 1 then xs
    else Dedup(xs[..|xs| - 1]) + if xs[|xs| - 1] == xs[|xs| - 2] then [] else [xs[|xs| - 1]]
  }

  function States(history: seq<Shown>): seq<string> {
    if history == [] then [] else States(history[..|history| - 1]) + [history[|history| - 1].state]
  }

  function Pushes(evs: seq<Event>): seq<string> {
    if evs == [] then []
    else Pushes(evs[..|evs| - 1]) + if evs[|evs| - 1].OnPush? then [evs[|evs| - 1].state] else []
  }

  /** Ordinary traffic: states other than `done` and `error`, and hold windows ending. */
  predicate Ordinary(ev: Event) { (ev.OnPush? && !Terminal(ev.state)) || ev.OnTimer? }

  lemma StatesOne(x: Shown)
    ensures States([x]) == [x.state] == Dedup([x.state] + [])
  {
    assert [x][..0] == [] && [x.state] + [] == [x.state];
  }

  lemma StatesSnoc(history: seq<Shown>, state: string, at: int)
    ensures States(history + [Shown(state, at)]) == States(history) + [state]
  {
    assert (history + [Shown(state, at)])[..|history|] == history;
  }

  lemma DedupSnoc(xs: seq<string>, state: string)
    requires xs != []
    ensures Dedup(xs + [state]) == Dedup(xs) + if state == xs[|xs| - 1] then [] else [state]
  {
    assert (xs + [state])[..|xs|] == xs;
  }

  predicate Calm(d: Display) { Started(d) && !d.disposed && d.heldOn.None? && !Terminal(Now(d)) }

  /** What was on screen, followed by what waits, is the pushes without consecutive repeats. */
  ghost predicate Skipless(d: Display, pushed: seq<string>) {
    && Calm(d) && (forall i :: 0 <= i < |d.queue| ==> !Terminal(d.queue[i]))
    && States(d.history) + d.queue == Dedup(pushed)
  }

  lemma OrdinaryStep(d: Display, ev: Event, pushed: seq<string>)
    requires Inv(d) && Ordinary(ev) && (ev.OnTimer? ==> d.timer.Some?)
    requires pushed != [] && Skipless(d, pushed) && Latest(d) == pushed[|pushed| - 1]
    ensures Skipless(Step(d, ev), if ev.OnPush? then pushed + [ev.state] else pushed)
  {
    hide Push, Release, Skipless;
    if ev.OnPush? { OrdinaryPush(d, ev.state, ev.at, pushed); } else { OrdinaryRelease(d, ev.at, pushed); }
  }

  lemma OrdinaryPush(d: Display, state: string, at: int, pushed: seq<string>)
    requires Inv(d) && !Terminal(state)
    requires pushed != [] && Skipless(d, pushed) && Latest(d) == pushed[|pushed| - 1]
    ensures Skipless(Push(d, state, at), pushed + [state])
  {
    hide States, Dedup;
    DedupSnoc(pushed, state);
    StatesSnoc(d.history, state, at);
  }

  lemma OrdinaryRelease(d: Display, at: int, pushed: seq<string>)
    requires Skipless(d, pushed)
    ensures Skipless(Release(d, at), pushed)
  {
    hide States, Dedup;
    if d.queue != [] {
      StatesSnoc(d.history, d.queue[0], at);
      assert d.queue == [d.queue[0]] + d.queue[1..];
    }
  }

  /** Every state pushed is shown, in order and none skipped. */
  lemma {:induction false} NothingIsSkipped(initial: string, minMs: nat, terminalMs: nat, at: int, evs: seq<Event>)
    requires Timely(Init(initial, minMs, terminalMs, at), evs) && !Terminal(initial)
    requires forall k :: 0 <= k < |evs| ==> Ordinary(evs[k])
    ensures Skipless(After(Init(initial, minMs, terminalMs, at), evs), [initial] + Pushes(evs))
  {
    hide Skipless, Inv, Step, Live, Latest;
    var start := Init(initial, minMs, terminalMs, at);
    if evs == [] {
      InitIsSkipless(initial, minMs, terminalMs, at);
    } else {
      var n := |evs| - 1;
      var before, pushed := After(start, evs[..n]), [initial] + Pushes(evs[..n]);
      TimelyBefore(start, evs);
      NothingIsSkipped(initial, minMs, terminalMs, at, evs[..n]);
      EndsAtTheLiveState(initial, minMs, terminalMs, at, evs[..n]);
      SkiplessIsCalm(before, pushed);
      LastPush(initial, start, evs[..n]);
      OrdinaryStep(before, evs[n], pushed);
      assert [initial] + Pushes(evs) == if evs[n].OnPush? then pushed + [evs[n].state] else pushed;
    }
  }

  lemma SkiplessIsCalm(d: Display, pushed: seq<string>)
    requires Skipless(d, pushed)
    ensures Calm(d)
  {
  }

  lemma InitIsSkipless(initial: string, minMs: nat, terminalMs: nat, at: int)
    requires !Terminal(initial)
    ensures Skipless(Init(initial, minMs, terminalMs, at), [initial] + [])
  {
    StatesOne(Shown(initial, at));
  }

  lemma {:induction false} LastPush(initial: string, d: Display, evs: seq<Event>)
    requires Started(d) && (forall k :: 0 <= k < |evs| ==> Ordinary(evs[k])) && !After(d, evs).disposed
    ensures var pushed := [initial] + Pushes(evs); LiveAfter(initial, d, evs) == pushed[|pushed| - 1]
  {
    if evs != [] {
      LastPush(initial, d, evs[..|evs| - 1]);
    }
  }

  // ---- Each state stays long enough -----------------------------------------

  predicate Traffic(ev: Event) { ev.OnPush? || ev.OnTimer? }

  /** While only pushes and hold windows drive the display, a window is open exactly until its
    * state has been shown for its time. */
  ghost predicate Paced(d: Display, now: int) {
    && Started(d)
    && d.history[|d.history| - 1].at <= now
    && (d.timer.Some? ==> d.timer.value == d.history[|d.history| - 1].at + Window(d, Now(d)))
    && (d.timer.None? && |d.history| > 1 ==> d.history[|d.history| - 1].at + Window(d, Now(d)) <= now)
    && (forall i :: 0 < i < |d.history| - 1 ==> StayedLongEnough(d, i))
  }

  /** A state other than `done` and `error` stays for its window; those two may give way
    * earlier, but never to `waiting_input`. */
  predicate StayedLongEnough(d: Display, i: nat)
    requires i + 1 < |d.history|
  {
    var x, y := d.history[i], d.history[i + 1];
    if x.state == "done" || x.state == "error" then x.at + d.terminalMs <= y.at || y.state != "waiting_input"
    else x.at + d.minMs <= y.at
  }

  lemma PacedStep(d: Display, now: int, ev: Event)
    requires Paced(d, now) && Inv(d) && !d.disposed && d.heldOn.None? && Traffic(ev) && now <= ev.at
    requires ev.OnTimer? ==> d.timer.Some? && d.timer.value <= ev.at
    ensures Paced(Step(d, ev), ev.at) && !Step(d, ev).disposed && Step(d, ev).heldOn.None?
  {
    var t := Step(d, ev);
    assert t.minMs == d.minMs && t.terminalMs == d.terminalMs;
    forall i | 0 < i < |t.history| - 1 ensures StayedLongEnough(t, i) {
      if i < |d.history| - 1 { assert StayedLongEnough(d, i); }
    }
  }

  /** Over every run of pushes and hold windows, each state after the first stays on screen
    * for its minimum time, save a terminal state that a new activity interrupts. */
  lemma {:induction false} EveryStateIsReadable(initial: string, minMs: nat, terminalMs: nat, at: int, evs: seq<Event>)
    requires Timely(Init(initial, minMs, terminalMs, at), evs)
    requires forall k :: 0 <= k < |evs| ==> Traffic(evs[k]) && at <= evs[k].at
    ensures var d := After(Init(initial, minMs, terminalMs, at), evs);
            !d.disposed && d.heldOn.None? && Paced(d, if evs == [] then at else evs[|evs| - 1].at)
  {
    if evs != [] {
      var n, start := |evs| - 1, Init(initial, minMs, terminalMs, at);
      TimelyBefore(start, evs);
      EveryStateIsReadable(initial, minMs, terminalMs, at, evs[..n]);
      EndsAtTheLiveState(initial, minMs, terminalMs, at, evs[..n]);
      PacedStep(After(start, evs[..n]), if n == 0 then at else evs[n - 1].at, evs[n]);
    }
  }

  // ---- What interrupts, and what does not -----------------------------------

  /** A terminal state that arrives while another is on screen drops what waits and is shown next;
    * anything else waits its turn. */
  lemma TerminalJumpsTheQueue(d: Display, state: string, at: int, later: int)
    requires Started(d) && !d.disposed && d.heldOn.None? && d.timer.Some? && Now(d) !in {"done", "error"}
    ensures var t := Step(d, OnPush(state, at));
            && t.history == d.history && t.timer == d.timer
            && (if state in {"done", "error"} then
                  var u := Step(t, OnTimer(later)); Started(u) && Now(u) == state && u.queue == []
                else t.queue == if state == Latest(d) then d.queue else d.queue + [state])
  {
  }

  /** While a terminal state is on screen a new activity replaces it at once and drops what waits;
    * its natural follow-up waits, and what it already comes to is not repeated. */
  lemma ActivityInterrupts(d: Display, state: string, at: int)
    requires Started(d) && !d.disposed && d.heldOn.None? && d.timer.Some?
    requires Now(d) in {"done", "error"} && state != Latest(d)
    ensures var t := Step(d, OnPush(state, at));
            if state == "waiting_input" then t.history == d.history && t.queue == d.queue + [state]
            else
              && t.history == d.history + [Shown(state, at)] && t.queue == []
              && t.timer == Some(at + if state in {"done", "error"} then d.terminalMs else d.minMs)
  {
  }

  /** The last state pushed while the screen was held, if any was. */
  function LastOf(pushes: seq<Event>, held: string): string
    requires forall k :: 0 <= k < |pushes| ==> pushes[k].OnPush?
  {
    if pushes == [] then held else pushes[|pushes| - 1].state
  }

  /** A hold shows its state at once and drops what waits. However much is pushed, the screen stays;
    * and the end of the hold shows the last of it, if that is another state. */
  lemma HoldPinsTheScreen(d: Display, state: string, at: int, pushes: seq<Event>, end: int)
    requires Started(d) && !d.disposed && d.heldOn != Some(state)
    requires forall k :: 0 <= k < |pushes| ==> pushes[k].OnPush?
    ensures var h := Step(d, OnHold(state, at));
            var p, last := After(h, pushes), LastOf(pushes, state);
            && Now(h) == state && h.history == (if Now(d) == state then d.history else d.history + [Shown(state, at)])
            && p.history == h.history && p.timer.None?
            && Step(p, OnUnhold(end)).heldOn.None? && Step(p, OnUnhold(end)).queue == []
            && Step(p, OnUnhold(end)).history == (if last == state then p.history else p.history + [Shown(last, end)])
  {
    hide Hold, Unhold, After, Push, Release, Reset, Dispose, LastOf;
    var h := Step(d, OnHold(state, at));
    HoldShows(d, state, at);
    HeldThrough(h, state, pushes);
    UnholdShows(After(h, pushes), state, LastOf(pushes, state), end);
  }

  lemma HoldShows(d: Display, state: string, at: int)
    requires Started(d) && !d.disposed && d.heldOn != Some(state)
    ensures var h := Hold(d, state, at);
            && Started(h) && !h.disposed && h.heldOn == Some(state) && Now(h) == state && h.queue == [] && h.timer.None?
            && h.history == (if Now(d) == state then d.history else d.history + [Shown(state, at)])
  {
  }

  lemma UnholdShows(p: Display, state: string, last: string, end: int)
    requires Started(p) && !p.disposed && p.heldOn == Some(state) && Now(p) == state
    requires p.queue == if last == state then [] else [last]
    ensures var u := Unhold(p, end);
            && u.heldOn.None? && u.queue == []
            && u.history == (if last == state then p.history else p.history + [Shown(last, end)])
  {
  }

  lemma {:induction false} HeldThrough(h: Display, state: string, pushes: seq<Event>)
    requires Started(h) && !h.disposed && h.heldOn == Some(state) && Now(h) == state && h.queue == [] && h.timer.None?
    requires forall k :: 0 <= k < |pushes| ==> pushes[k].OnPush?
    ensures var p, last := After(h, pushes), LastOf(pushes, state);
            p == h.(queue := if last == state then [] else [last])
  {
    if pushes != [] { HeldThrough(h, state, pushes[..|pushes| - 1]); }
  }

  /** Selecting another subject shows its state at once, without what waited, the hold or the timer. */
  lemma ResetShowsAtOnce(d: Display, state: string, at: int)
    requires Started(d) && !d.disposed
    ensures var t := Step(d, OnReset(state, at));
            && Now(t) == state && t.queue == [] && t.timer.None? && t.heldOn.None?
            && t.history == if Now(d) == state then d.history else d.history + [Shown(state, at)]
  {
  }

  /** After disposal nothing changes the screen any more; no timer is left to fire. */
  lemma {:induction false} DisposalIsFinal(d: Display, at: int, evs: seq<Event>)
    requires Started(d) && forall k :: 0 <= k < |evs| ==> !evs[k].OnTimer?
    ensures var t := Step(d, OnDispose(at)); t.timer.None? && After(t, evs) == t && t.history == d.history
  {
    if evs != [] { DisposalIsFinal(d, at, evs[..|evs| - 1]); }
  }

  /** The queue as the program has it. */
  class StatusQueue {
    var shown: string
    var queue: seq<string>
    var timer: Option<int>
    var heldOn: Option<string>
    var disposed: bool
    const minMs: nat
    const terminalMs: nat
    ghost var history: seq<Shown>

    ghost function View(): Display
      reads this
    {
      Display(history, queue, timer, heldOn, disposed, minMs, terminalMs)
    }

    /** The screen shows the last entry of its history. */
    ghost predicate Valid()
      reads this
    {
      Started(View()) && shown == Now(View())
    }

    constructor (initial: string, at: int, minMs: nat := MIN_DISPLAY_MS, terminalMs: nat := TERMINAL_DISPLAY_MS)
      ensures Valid() && View() == Init(initial, minMs, terminalMs, at)
    {
      shown, queue, timer, heldOn, disposed := initial, [], None, None, false;
      this.minMs, this.terminalMs := minMs, terminalMs;
      history := [Shown(initial, at)];
    }

    method ShowState(state: string, at: int)
      modifies this`shown, this`timer, this`history
      ensures Valid() && View() == Show(old(View()), state, at)
    {
      shown := state;
      history := history + [Shown(state, at)];
      timer := Some(at + if Terminal(state) then terminalMs else minMs);
    }

    method PushState(state: string, at: int)
      requires Valid()
      modifies this
      ensures Valid() && View() == Push(old(View()), state, at)
    {
      if disposed { return; }
      if heldOn.Some? {
        if state == heldOn.value { queue := []; } else { queue := [state]; }
        return;
      }
      if Terminal(state) && timer.Some? && !Terminal(shown) {
        queue := [state];
        return;
      }
      var last := if |queue| > 0 then queue[|queue| - 1] else shown;
      if state == last { return; }
      if timer.Some? && Terminal(shown) && state != "waiting_input" {
        timer := None;
        queue := [];
        ShowState(state, at);
        return;
      }
      if timer.None? { ShowState(state, at); } else { queue := queue + [state]; }
    }

    method HoldState(state: string, at: int)
      requires Valid()
      modifies this
      ensures Valid() && View() == Hold(old(View()), state, at)
    {
      if disposed || heldOn == Some(state) { return; }
      heldOn := Some(state);
      SnapTo(state, at);
    }

    /** Changes the screen at once and drops what waits. */
    method SnapTo(state: string, at: int)
      requires Valid()
      modifies this`shown, this`queue, this`timer, this`history
      ensures Valid() && View() == Snap(old(View()), state, at)
    {
      queue, timer := [], None;
      if shown != state {
        shown := state;
        history := history + [Shown(state, at)];
      }
    }

    method UnholdState(at: int)
      requires Valid()
      modifies this
      ensures Valid() && View() == Unhold(old(View()), at)
    {
      if disposed || heldOn.None? { return; }
      heldOn := None;
      var next := if queue == [] then None else Some(queue[0]);
      queue := [];
      if next.Some? && next.value != shown { ShowState(next.value, at); }
    }

    method ResetState(state: string, at: int)
      requires Valid()
      modifies this
      ensures Valid() && View() == Reset(old(View()), state, at)
    {
      if disposed { return; }
      heldOn := None;
      SnapTo(state, at);
    }

    method ReleaseWindow(at: int)
      requires Valid()
      modifies this
      ensures Valid() && View() == Release(old(View()), at)
    {
      timer := None;
      if queue != [] {
        var next := queue[0];
        queue := queue[1..];
        ShowState(next, at);
      }
    }

    method DisposeQueue()
      requires Valid()
      modifies this
      ensures Valid() && View() == Dispose(old(View()))
    {
      disposed, queue, heldOn, timer := true, [], None, None;
    }
  }
}
