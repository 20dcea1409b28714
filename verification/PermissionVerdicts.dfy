/** Who gets which answer: the verdict of every request of a run, told from the events alone. */
module PermissionVerdicts {
  import opened Wrappers
  import opened Desks
  import opened PermissionBroking

  // ---- What the events say --------------------------------------------------

  /** The requests made so far; each takes the next number. */
  function Asked(evs: seq<Event>): nat {
    if evs == [] then 0 else Asked(evs[..|evs| - 1]) + if evs[|evs| - 1].OnDecide? then 1 else 0
  }

  /** The event that made request `k`. */
  function AskOf(evs: seq<Event>, k: nat): (ask: Event)
    requires k < Asked(evs)
    ensures ask.OnDecide?
  {
    var n := |evs| - 1;
    if k < Asked(evs[..n]) then AskOf(evs[..n], k) else evs[n]
  }

  /** What an event decides about the waiting request `k` that `ask` made, if anything. */
  function Decides(ask: Event, k: nat, ev: Event): Option<Decision>
    requires ask.OnDecide?
  {
    match ev
    case OnAnswer(id, allow) => if id == ask.id then Some(Decision(allow, Operator)) else None
    case OnDeadline(item) => if ask.timed && item == Item(ask.id, k, true) then Some(Decision(false, Timeout)) else None
    case OnAbort(ticket) => if ask.signal && ticket == k then Some(Decision(false, Aborted)) else None
    case OnClose => Some(Decision(false, Closed))
    case OnDecide(_, _, _, _) => None
  }

  /** The first decision about request `k`: at once when its signal was already aborted, else by
    * the first event after it that decides it. */
  function Verdict(evs: seq<Event>, k: nat): Option<Decision>
    requires k < Asked(evs)
  {
    var n := |evs| - 1;
    if k == Asked(evs[..n]) then (if evs[n].aborted then Some(Decision(false, Aborted)) else None)
    else
      var before := Verdict(evs[..n], k);
      if before.Some? then before else Decides(AskOf(evs, k), k, evs[n])
  }

  // ---- One settlement -------------------------------------------------------

  ghost predicate Replied(s: State, k: nat, d: Decision) {
    exists i :: 0 <= i < |s.desk.replies| && s.desk.replies[i] == (k, d)
  }

  /** One waiting request left with this decision, and nothing else moved. */
  ghost predicate Settles(s: State, t: State, x: Item, d: Decision) {
    && t.desk.replies == s.desk.replies + [(x.ticket, d)]
    && (forall y :: y in t.pending <==> y in s.pending && y != x)
    && (forall k :: k != x.ticket ==> (k in t.listeners <==> k in s.listeners))
    && t.tickets == s.tickets
  }

  lemma ResolveSettles(s: State, x: Item, d: Decision)
    requires Inv(s) && x in s.pending
    ensures Settles(s, Resolve(s, x.id, d), x, d)
  {
    hide DeskOk, Armed, SlotOk;
    assert Has(s.pending, x.id) by {
      var i :| 0 <= i < |s.pending| && s.pending[i] == x;
    }
    var found := Find(s.pending, x.id);
    FoundByTicket(s.pending, s.tickets, x, found.value);
    LeavesAlone(s, x);
  }

  lemma LeavesAlone(s: State, x: Item)
    requires Inv(s) && x in s.pending
    ensures forall y :: y in Without(s.pending, x.id) <==> y in s.pending && y != x
  {
    WithoutMembers(s.pending, x.id);
    forall y | y in s.pending && y.id == x.id ensures y == x { FoundByTicket(s.pending, s.tickets, x, y); }
  }

  /** The operator's answer is the one delivered: the request waiting under the id is settled with
    * it, and nothing else happens; an id nobody waits under changes nothing. */
  lemma AnswerIsDelivered(s: State, id: string, allow: bool)
    requires Inv(s)
    ensures forall x :: x in s.pending && x.id == id ==>
              Settles(s, Step(s, OnAnswer(id, allow)), x, Decision(allow, Operator))
    ensures !Has(s.pending, id) ==> Step(s, OnAnswer(id, allow)) == s
  {
    hide Inv, Settles;
    forall x | x in s.pending && x.id == id
      ensures Settles(s, Step(s, OnAnswer(id, allow)), x, Decision(allow, Operator))
    {
      ResolveSettles(s, x, Decision(allow, Operator));
    }
    var found := Find(s.pending, id);
    if found.Some? {
      var i :| 0 <= i < |s.pending| && s.pending[i] == found.value;
    }
  }

  /** A deadline settles its own request with a timeout, while it waits; an abort the request
    * whose signal it is. */
  lemma DeadlineRefuses(s: State, item: Item)
    requires Inv(s)
    ensures if item in s.pending && item.timed
            then Settles(s, Step(s, OnDeadline(item)), item, Decision(false, Timeout))
            else Step(s, OnDeadline(item)) == s
  {
    hide DeskOk, SlotOk;
    if item in s.pending { LeavesAlone(s, item); }
  }

  lemma AbortRefuses(s: State, x: Item)
    requires Inv(s) && x in s.pending && x.ticket in s.listeners
    ensures Settles(s, Step(s, OnAbort(x.ticket)), x, Decision(false, Aborted))
  {
    hide DeskOk, SlotOk;
    var u := s.(listeners := s.listeners - {x.ticket});
    assert s.listeners[x.ticket] == x.id by {
      assert ListensTo(s, x.ticket);
      var i :| 0 <= i < |s.pending| && s.pending[i].ticket == x.ticket && s.pending[i].id == s.listeners[x.ticket];
      FoundByTicket(s.pending, s.tickets, x, s.pending[i]);
    }
    Unlistened(s, x.ticket);
    ResolveSettles(u, x, Decision(false, Aborted));
  }

  /** A shutdown settles every waiting request as closed, the oldest first. */
  lemma {:induction false} CloseRefusesAll(s: State)
    requires Inv(s)
    ensures CloseAll(s).desk.replies == s.desk.replies + AllClosed(s.pending)
    ensures CloseAll(s).pending == [] && CloseAll(s).tickets == s.tickets
    decreases |s.pending|
  {
    hide Inv, Resolve;
    CloseAllKeeps(s);
    if s.pending != [] {
      var x := s.pending[0];
      HeadIsThere(s.pending);
      var t := Resolve(s, x.id, Decision(false, Closed));
      ResolveKeeps(s, x.id, Decision(false, Closed));
      ResolveSettles(s, x, Decision(false, Closed));
      HeadTaken(s);
      CloseRefusesAll(t);
      assert CloseAll(s) == CloseAll(t) && t.tickets == s.tickets;
      assert AllClosed(s.pending) == [(x.ticket, Decision(false, Closed))] + AllClosed(s.pending[1..]) by {
        AllClosedFirst(s.pending);
      }
    }
  }

  function AllClosed(xs: seq<Item>): seq<(nat, Decision)> {
    if xs == [] then [] else AllClosed(xs[..|xs| - 1]) + [(xs[|xs| - 1].ticket, Decision(false, Closed))]
  }

  lemma {:induction false} AllClosedFirst(xs: seq<Item>)
    requires xs != []
    ensures AllClosed(xs) == [(xs[0].ticket, Decision(false, Closed))] + AllClosed(xs[1..])
  {
    var n := |xs| - 1;
    if n > 0 {
      AllClosedFirst(xs[..n]);
      assert xs[1..][..n - 1] == xs[..n][1..];
    } else {
      assert xs[..0] == [] && xs[1..] == [];
    }
  }

  lemma {:induction false} AllClosedHas(xs: seq<Item>)
    ensures |AllClosed(xs)| == |xs|
    ensures forall i :: 0 <= i < |xs| ==> AllClosed(xs)[i] == (xs[i].ticket, Decision(false, Closed))
  {
    if xs != [] { AllClosedHas(xs[..|xs| - 1]); }
  }

  lemma HeadTaken(s: State)
    requires Inv(s) && s.pending != []
    ensures Resolve(s, s.pending[0].id, Decision(false, Closed)).pending == s.pending[1..]
  {
    hide DeskOk, Armed, SlotOk, Without;
    HeadIsThere(s.pending);
    WithoutHead(s.pending, s.tickets);
  }

  lemma {:induction false} WithoutHead(xs: seq<Item>, tickets: nat)
    requires xs != [] && Ordered(xs, tickets)
    ensures Without(xs, xs[0].id) == xs[1..]
  {
    var n := |xs| - 1;
    if n == 0 {
      assert xs[..0] == [];
    } else {
      WithoutHead(xs[..n], tickets);
      assert xs[1..] == xs[..n][1..] + [xs[n]];
    }
  }

  // ---- Whole runs -----------------------------------------------------------

  /** Request `k` waits as it was made, or was answered with its verdict. */
  ghost predicate Told(evs: seq<Event>, s: State, k: nat)
    requires k < Asked(evs)
  {
    var ask := AskOf(evs, k);
    match Verdict(evs, k)
    case None => Item(ask.id, k, ask.timed) in s.pending && (k in s.listeners <==> ask.signal)
    case Some(d) => Replied(s, k, d) && forall x :: x in s.pending ==> x.ticket != k
  }

  ghost predicate Agrees(evs: seq<Event>, s: State) {
    && s.tickets == Asked(evs)
    && forall k :: 0 <= k < Asked(evs) ==> Told(evs, s, k)
  }

  lemma NewAsk(before: seq<Event>, ev: Event, s: State)
    requires Inv(s) && Agrees(before, s) && ev.OnDecide? && (!ev.aborted ==> !Has(s.pending, ev.id))
    ensures Agrees(before + [ev], Step(s, ev))
  {
    hide Inv, Step, Replied, Told;
    var evs, t := before + [ev], Step(s, ev);
    assert evs[..|evs| - 1] == before;
    NewWaits(s, ev);
    forall k | 0 <= k < Asked(evs) ensures Told(evs, t, k) {
      if k < Asked(before) { OldAsk(before, ev, s, k); } else { NewestAsk(before, ev, s, k); }
    }
  }

  lemma OldAsk(before: seq<Event>, ev: Event, s: State, k: nat)
    requires Inv(s) && Agrees(before, s) && ev.OnDecide? && (!ev.aborted ==> !Has(s.pending, ev.id))
    requires k < Asked(before)
    ensures Told(before + [ev], Step(s, ev), k)
  {
    hide Inv, Step, Replied;
    var evs := before + [ev];
    assert evs[..|evs| - 1] == before;
    NewWaits(s, ev);
    RepliesStay(s, Step(s, ev));
    assert Told(before, s, k);
  }

  lemma NewestAsk(before: seq<Event>, ev: Event, s: State, k: nat)
    requires Inv(s) && Agrees(before, s) && ev.OnDecide? && (!ev.aborted ==> !Has(s.pending, ev.id))
    requires k == Asked(before)
    ensures Told(before + [ev], Step(s, ev), k)
  {
    hide Inv, Step, Replied;
    var evs := before + [ev];
    assert evs[..|evs| - 1] == before;
    NewWaits(s, ev);
    if ev.aborted { LastReplied(s, Step(s, ev), k, Decision(false, Aborted)); }
  }

  lemma LastReplied(s: State, t: State, k: nat, d: Decision)
    requires t.desk.replies == s.desk.replies + [(k, d)]
    ensures Replied(t, k, d)
  {
    assert t.desk.replies[|s.desk.replies|] == (k, d);
  }

  /** A new request waits under its number, or was refused on the spot. */
  lemma NewWaits(s: State, ev: Event)
    requires Inv(s) && ev.OnDecide? && (!ev.aborted ==> !Has(s.pending, ev.id))
    ensures var t, x := Step(s, ev), Item(ev.id, s.tickets, ev.timed);
            && t.tickets == s.tickets + 1 && s.desk.replies <= t.desk.replies
            && (forall y :: y in s.pending ==> y.ticket != s.tickets)
            && (if ev.aborted then
                  t.pending == s.pending && t.listeners == s.listeners
                  && t.desk.replies == s.desk.replies + [(s.tickets, Decision(false, Aborted))]
                else
                  && t.pending == s.pending + [x] && t.desk.replies == s.desk.replies
                  && (forall k :: k in t.listeners <==> k in s.listeners || (ev.signal && k == s.tickets)))
            && s.tickets !in s.listeners
  {
  }

  /** An event that settles exactly the requests it decides. */
  lemma OneSettled(before: seq<Event>, ev: Event, s: State, x: Item, d: Decision)
    requires Inv(s) && Agrees(before, s) && !ev.OnDecide? && x in s.pending
    requires Settles(s, Step(s, ev), x, d)
    requires forall k :: 0 <= k < Asked(before) ==>
               Verdict(before, k).None? ==>
                 Decides(AskOf(before, k), k, ev) == if k == x.ticket then Some(d) else None
    ensures Agrees(before + [ev], Step(s, ev))
  {
    hide Inv, Decides;
    var evs, t := before + [ev], Step(s, ev);
    assert evs[..|evs| - 1] == before;
    forall k | 0 <= k < Asked(evs) ensures Told(evs, t, k) {
      assert Told(before, s, k);
      OpenIsItem(before, s, x, k);
      if k == x.ticket {
        OthersDiffer(s, x);
        LastReplied(s, t, k, d);
      } else {
        RepliesStay(s, t);
      }
    }
  }

  lemma OthersDiffer(s: State, x: Item)
    requires Inv(s) && x in s.pending
    ensures forall y :: y in s.pending && y != x ==> y.ticket != x.ticket
  {
    forall y | y in s.pending && y.ticket == x.ticket ensures y == x { FoundByTicket(s.pending, s.tickets, x, y); }
  }

  lemma RepliesStay(s: State, t: State)
    requires s.desk.replies <= t.desk.replies
    ensures forall k: nat, d :: Replied(s, k, d) ==> Replied(t, k, d)
  {
    forall k: nat, d | Replied(s, k, d) ensures Replied(t, k, d) {
      var i :| 0 <= i < |s.desk.replies| && s.desk.replies[i] == (k, d);
      assert t.desk.replies[i] == (k, d);
    }
  }

  /** The waiting request of a number is the one its ask made. */
  lemma OpenIsItem(evs: seq<Event>, s: State, x: Item, k: nat)
    requires Inv(s) && Agrees(evs, s) && x in s.pending && k < Asked(evs)
    ensures x.ticket < Asked(evs) && Verdict(evs, x.ticket).None?
    ensures x == Item(AskOf(evs, x.ticket).id, x.ticket, AskOf(evs, x.ticket).timed)
    ensures k == x.ticket || Verdict(evs, k).Some? || Item(AskOf(evs, k).id, k, AskOf(evs, k).timed) != x
    ensures k == x.ticket || Verdict(evs, k).Some? || AskOf(evs, k).id != x.id
  {
    hide DeskOk, Armed, SlotOk;
    assert x.ticket < s.tickets;
    assert Told(evs, s, x.ticket);
    var y := Item(AskOf(evs, x.ticket).id, x.ticket, AskOf(evs, x.ticket).timed);
    FoundByTicket(s.pending, s.tickets, x, y);
    assert Told(evs, s, k);
    if Verdict(evs, k).None? && AskOf(evs, k).id == x.id {
      FoundByTicket(s.pending, s.tickets, x, Item(AskOf(evs, k).id, k, AskOf(evs, k).timed));
    }
  }

  lemma NoneSettled(before: seq<Event>, ev: Event, s: State)
    requires Agrees(before, s) && !ev.OnDecide?
    requires Step(s, ev).pending == s.pending && Step(s, ev).desk == s.desk && Step(s, ev).tickets == s.tickets
    requires Step(s, ev).listeners == s.listeners
    requires forall k :: 0 <= k < Asked(before) && Verdict(before, k).None? ==> Decides(AskOf(before, k), k, ev).None?
    ensures Agrees(before + [ev], Step(s, ev))
  {
    hide Decides;
    var evs := before + [ev];
    assert evs[..|evs| - 1] == before;
    forall k | 0 <= k < Asked(evs) ensures Told(evs, Step(s, ev), k) { assert Told(before, s, k); }
  }

  lemma AnswerAgrees(before: seq<Event>, ev: Event, s: State)
    requires Inv(s) && Agrees(before, s) && ev.OnAnswer?
    ensures Agrees(before + [ev], Step(s, ev))
  {
    hide Inv, Settles, Told;
    AnswerIsDelivered(s, ev.id, ev.allow);
    if x :| x in s.pending && x.id == ev.id {
      forall k | 0 <= k < Asked(before) ensures
        Verdict(before, k).None? ==>
          Decides(AskOf(before, k), k, ev) == if k == x.ticket then Some(Decision(ev.allow, Operator)) else None
      {
        OpenIsItem(before, s, x, k);
      }
      OneSettled(before, ev, s, x, Decision(ev.allow, Operator));
    } else {
      forall k | 0 <= k < Asked(before) && Verdict(before, k).None? ensures Decides(AskOf(before, k), k, ev).None? {
        assert Told(before, s, k);
        OpenAsk(before, s, k);
      }
      NobodyUnder(s, ev.id);
      NoneSettled(before, ev, s);
    }
  }

  lemma NobodyUnder(s: State, id: string)
    requires forall x :: x in s.pending ==> x.id != id
    ensures !Has(s.pending, id)
  {
  }

  lemma OpenAsk(evs: seq<Event>, s: State, k: nat)
    requires k < Asked(evs) && Told(evs, s, k) && Verdict(evs, k).None?
    ensures Item(AskOf(evs, k).id, k, AskOf(evs, k).timed) in s.pending && (k in s.listeners <==> AskOf(evs, k).signal)
  {
  }

  lemma DeadlineAgrees(before: seq<Event>, ev: Event, s: State)
    requires Inv(s) && Agrees(before, s) && ev.OnDeadline?
    ensures Agrees(before + [ev], Step(s, ev))
  {
    hide Inv, Settles, Told;
    DeadlineRefuses(s, ev.item);
    if ev.item in s.pending && ev.item.timed {
      forall k | 0 <= k < Asked(before) ensures
        Verdict(before, k).None? ==>
          Decides(AskOf(before, k), k, ev) == if k == ev.item.ticket then Some(Decision(false, Timeout)) else None
      {
        OpenIsItem(before, s, ev.item, k);
      }
      OneSettled(before, ev, s, ev.item, Decision(false, Timeout));
    } else {
      forall k | 0 <= k < Asked(before) && Verdict(before, k).None? ensures Decides(AskOf(before, k), k, ev).None? {
        assert Told(before, s, k);
        OpenAsk(before, s, k);
      }
      NoneSettled(before, ev, s);
    }
  }

  lemma AbortAgrees(before: seq<Event>, ev: Event, s: State)
    requires Inv(s) && Agrees(before, s) && ev.OnAbort?
    ensures Agrees(before + [ev], Step(s, ev))
  {
    hide Settles, Told, DeskOk, SlotOk, Decides, Resolve;
    if ev.ticket in s.listeners {
      assert ListensTo(s, ev.ticket);
      var i :| 0 <= i < |s.pending| && s.pending[i].ticket == ev.ticket && s.pending[i].id == s.listeners[ev.ticket];
      var x := s.pending[i];
      AbortRefuses(s, x);
      forall k | 0 <= k < Asked(before) ensures
        Verdict(before, k).None? ==>
          Decides(AskOf(before, k), k, ev) == if k == x.ticket then Some(Decision(false, Aborted)) else None
      {
        if Verdict(before, k).None? { AbortDecides(before, ev, s, k); }
      }
      OneSettled(before, ev, s, x, Decision(false, Aborted));
    } else {
      forall k | 0 <= k < Asked(before) && Verdict(before, k).None? ensures Decides(AskOf(before, k), k, ev).None? {
        AbortDecides(before, ev, s, k);
      }
      NoneSettled(before, ev, s);
    }
  }

  lemma AbortDecides(before: seq<Event>, ev: Event, s: State, k: nat)
    requires Agrees(before, s) && ev.OnAbort? && k < Asked(before) && Verdict(before, k).None?
    ensures Decides(AskOf(before, k), k, ev)
         == if k == ev.ticket && k in s.listeners then Some(Decision(false, Aborted)) else None
  {
    assert Told(before, s, k);
  }

  lemma CloseAgrees(before: seq<Event>, ev: Event, s: State)
    requires Inv(s) && Agrees(before, s) && ev.OnClose?
    ensures Agrees(before + [ev], Step(s, ev))
  {
    hide Inv, CloseAll, Replied;
    var evs, t := before + [ev], Step(s, ev);
    assert evs[..|evs| - 1] == before;
    CloseRefusesAll(s);
    RepliesStay(s, t);
    forall k | 0 <= k < Asked(evs) ensures Told(evs, t, k) {
      assert Told(before, s, k);
      if Verdict(before, k).None? { ClosedReplied(s, t, Item(AskOf(before, k).id, k, AskOf(before, k).timed)); }
    }
  }

  lemma ClosedReplied(s: State, t: State, x: Item)
    requires t.desk.replies == s.desk.replies + AllClosed(s.pending) && x in s.pending
    ensures Replied(t, x.ticket, Decision(false, Closed))
  {
    AllClosedHas(s.pending);
    var i :| 0 <= i < |s.pending| && s.pending[i] == x;
    assert t.desk.replies[|s.desk.replies| + i] == (x.ticket, Decision(false, Closed));
  }

  lemma {:induction false} RunAgrees(evs: seq<Event>)
    requires FreshIds(evs)
    ensures Inv(After(evs)) && Agrees(evs, After(evs))
  {
    hide Inv, Step, Told, FreshIds;
    RunKeeps(evs);
    if evs != [] {
      var n := |evs| - 1;
      FreshBefore(evs);
      RunAgrees(evs[..n]);
      assert evs == evs[..n] + [evs[n]];
      match evs[n]
      case OnDecide(_, _, _, _) => NewAsk(evs[..n], evs[n], After(evs[..n]));
      case OnAnswer(_, _) => AnswerAgrees(evs[..n], evs[n], After(evs[..n]));
      case OnDeadline(_) => DeadlineAgrees(evs[..n], evs[n], After(evs[..n]));
      case OnAbort(_) => AbortAgrees(evs[..n], evs[n], After(evs[..n]));
      case OnClose => CloseAgrees(evs[..n], evs[n], After(evs[..n]));
    }
  }

  lemma FreshBefore(evs: seq<Event>)
    requires FreshIds(evs) && evs != []
    ensures FreshIds(evs[..|evs| - 1])
    ensures var n := |evs| - 1; evs[n].OnDecide? && !evs[n].aborted ==> !Has(After(evs[..n]).pending, evs[n].id)
  {
    hide Step, After, Has;
    var n := |evs| - 1;
    forall k | 0 <= k < n && evs[..n][k].OnDecide? && !evs[..n][k].aborted
      ensures !Has(After(evs[..n][..k]).pending, evs[..n][k].id)
    {
      assert evs[..n][..k] == evs[..k];
    }
  }

  /** Every request of every run gets the verdict the events give it: the first answer under its
    * id with the operator's own word, or its deadline, its signal or a shutdown, whichever came
    * first. While none came it waits, and nothing else is ever answered. */
  lemma VerdictIsDelivered(evs: seq<Event>, k: nat)
    requires FreshIds(evs)
    ensures After(evs).tickets == Asked(evs)
    ensures k < Asked(evs) && Verdict(evs, k).Some? ==>
              Replied(After(evs), k, Verdict(evs, k).value) && Count(After(evs).desk.replies, k) == 1
    ensures k < Asked(evs) && Verdict(evs, k).None? ==>
              k in After(evs).desk.open && Count(After(evs).desk.replies, k) == 0
    ensures k >= Asked(evs) ==> Count(After(evs).desk.replies, k) == 0
  {
    RunAgrees(evs);
    var s := After(evs);
    assert k < Asked(evs) ==> Told(evs, s, k);
    MembersByIndex(s.pending, k);
    if k < Asked(evs) && Verdict(evs, k).Some? {
      RepliedIsCounted(s.desk.replies, k, Verdict(evs, k).value);
    }
  }

  lemma {:induction false} RepliedIsCounted(replies: seq<(nat, Decision)>, k: nat, d: Decision)
    requires exists i :: 0 <= i < |replies| && replies[i] == (k, d)
    ensures Count(replies, k) >= 1
  {
    var n := |replies| - 1;
    var i :| 0 <= i < |replies| && replies[i] == (k, d);
    if i < n {
      assert replies[..n][i] == (k, d);
      RepliedIsCounted(replies[..n], k, d);
    }
  }
}
