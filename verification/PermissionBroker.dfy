/** The permission broker and the registry of pending requests under it: each tool call waits
  * for one answer from the operator, its deadline, its abort signal or a shutdown. */
module PermissionBroking {
  import opened Wrappers
  import opened Desks

  /** A waiting request: the id it is answered by, its number, and whether it has a deadline. */
  datatype Item = Item(id: string, ticket: nat, timed: bool)

  datatype Cause = Operator | Timeout | Aborted | Closed
  datatype Decision = Decision(allow: bool, cause: Cause)

  /** `live` and `pending` are in insertion order, as the program's maps are; `timers` and
    * `listeners` are the deadlines and abort listeners still armed; `slots` is every value
    * published for the one pending slot. */
  datatype State = State(
    live: seq<Item>, pending: seq<Item>, timers: set<Item>, listeners: map<nat, string>,
    tickets: nat, desk: Desk<string, Decision>, slots: seq<Option<Item>>)

  function Init(): State { State([], [], {}, map[], 0, Desk(map[], {}, [], {}), []) }

  // ---- Ordered maps ---------------------------------------------------------

  predicate Has(xs: seq<Item>, id: string) { exists i :: 0 <= i < |xs| && xs[i].id == id }

  function Find(xs: seq<Item>, id: string): (r: Option<Item>)
    ensures r.Some? ==> r.value in xs && r.value.id == id
    ensures r.None? ==> !Has(xs, id)
  {
    if xs == [] then None
    else if xs[|xs| - 1].id == id then Some(xs[|xs| - 1])
    else Find(xs[..|xs| - 1], id)
  }

  function Without(xs: seq<Item>, id: string): (r: seq<Item>)
    ensures |r| <= |xs| && (Has(xs, id) ==> |r| < |xs|)
  {
    if xs == [] then []
    else Without(xs[..|xs| - 1], id) + if xs[|xs| - 1].id == id then [] else [xs[|xs| - 1]]
  }

  /** Setting a key that is present keeps its place. */
  function Insert(xs: seq<Item>, x: Item): seq<Item> {
    if Has(xs, x.id) then seq(|xs|, i requires 0 <= i < |xs| => if xs[i].id == x.id then x else xs[i]) else xs + [x]
  }

  function Newest(xs: seq<Item>): Option<Item> { if xs == [] then None else Some(xs[|xs| - 1]) }

  // ---- Steps ----------------------------------------------------------------

  function Decide(s: State, id: string, timed: bool, signal: bool, aborted: bool): State {
    var t := s.tickets;
    var asked := s.(tickets := t + 1, desk := Ask(s.desk, t, id));
    if aborted then asked.(desk := Reply(asked.desk, t, Decision(false, Aborted)))
    else
      var item := Item(id, t, timed);
      var live := Insert(s.live, item);
      asked.(live := live, pending := Insert(s.pending, item), slots := s.slots + [Newest(live)],
             timers := if timed then s.timers + {item} else s.timers,
             listeners := if signal then s.listeners[t := id] else s.listeners)
  }

  function Settle(s: State, item: Item, d: Decision): State {
    var live := Without(s.live, item.id);
    s.(live := live, slots := s.slots + [Newest(live)], listeners := s.listeners - {item.ticket},
       desk := Reply(s.desk, item.ticket, d))
  }

  /** An id that is not waiting is ignored: it was settled, or was never ours. */
  function Resolve(s: State, id: string, d: Decision): State {
    var found := Find(s.pending, id);
    if found.None? then s
    else Settle(s.(pending := Without(s.pending, id), timers := s.timers - {found.value}), found.value, d)
  }

  function Fire(s: State, item: Item): State {
    if item !in s.timers then s
    else Settle(s.(pending := Without(s.pending, item.id), timers := s.timers - {item}), item, Decision(false, Timeout))
  }

  function Abort(s: State, ticket: nat): State {
    if ticket !in s.listeners then s
    else Resolve(s.(listeners := s.listeners - {ticket}), s.listeners[ticket], Decision(false, Aborted))
  }

  function CloseAll(s: State): State
    decreases |s.pending|
  {
    if s.pending == [] then s
    else
      HeadIsThere(s.pending);
      CloseAll(Resolve(s, s.pending[0].id, Decision(false, Closed)))
  }

  lemma HeadIsThere(xs: seq<Item>)
    requires xs != []
    ensures Has(xs, xs[0].id)
  {
  }

  datatype Event =
    | OnDecide(id: string, timed: bool, signal: bool, aborted: bool)
    | OnAnswer(id: string, allow: bool)
    | OnDeadline(item: Item)
    | OnAbort(ticket: nat)
    | OnClose

  function Step(s: State, ev: Event): State {
    match ev
    case OnDecide(id, timed, signal, aborted) => Decide(s, id, timed, signal, aborted)
    case OnAnswer(id, allow) => Resolve(s, id, Decision(allow, Operator))
    case OnDeadline(item) => Fire(s, item)
    case OnAbort(ticket) => Abort(s, ticket)
    case OnClose => CloseAll(s)
  }

  function After(evs: seq<Event>): State {
    if evs == [] then Init() else Step(After(evs[..|evs| - 1]), evs[|evs| - 1])
  }

  /** Ids are unique where it matters: none is used again while it waits. */
  ghost predicate FreshIds(evs: seq<Event>) {
    forall k :: 0 <= k < |evs| && evs[k].OnDecide? && !evs[k].aborted ==> !Has(After(evs[..k]).pending, evs[k].id)
  }

  // ---- Invariant ------------------------------------------------------------

  /** Different ids, in the order of their numbers. */
  ghost predicate Ordered(xs: seq<Item>, tickets: nat) {
    && (forall i, j :: 0 <= i < j < |xs| ==> xs[i].id != xs[j].id && xs[i].ticket < xs[j].ticket)
    && (forall i :: 0 <= i < |xs| ==> xs[i].ticket < tickets)
  }

  ghost predicate DeskOk(s: State) {
    && Fair(s.desk) && s.desk.dropped == {}
    && (forall t :: t in s.desk.asked ==> t < s.tickets)
    && (forall t :: t in s.desk.open <==> exists i :: 0 <= i < |s.pending| && s.pending[i].ticket == t)
    && (forall i :: 0 <= i < |s.pending| ==>
          s.pending[i].ticket in s.desk.asked && s.desk.asked[s.pending[i].ticket] == s.pending[i].id)
  }

  /** An armed abort listener is a waiting request's. */
  predicate ListensTo(s: State, t: nat)
    requires t in s.listeners
  {
    exists i :: 0 <= i < |s.pending| && s.pending[i].ticket == t && s.pending[i].id == s.listeners[t]
  }

  ghost predicate Armed(s: State) {
    && (forall x :: x in s.timers <==> x in s.pending && x.timed)
    && (forall t :: t in s.listeners ==> ListensTo(s, t))
  }

  ghost predicate SlotOk(s: State) {
    if s.slots == [] then s.live == [] else s.slots[|s.slots| - 1] == Newest(s.live)
  }

  ghost predicate Inv(s: State) {
    && s.live == s.pending && Ordered(s.pending, s.tickets)
    && DeskOk(s) && Armed(s) && SlotOk(s)
  }

  lemma {:induction false} WithoutMembers(xs: seq<Item>, id: string)
    ensures forall x :: x in Without(xs, id) <==> x in xs && x.id != id
  {
    if xs != [] {
      var n := |xs| - 1;
      WithoutMembers(xs[..n], id);
      assert xs == xs[..n] + [xs[n]];
    }
  }

  lemma {:induction false} WithoutOrdered(xs: seq<Item>, id: string, tickets: nat)
    requires Ordered(xs, tickets)
    ensures Ordered(Without(xs, id), tickets)
    ensures forall x :: x in Without(xs, id) <==> x in xs && x.id != id
  {
    WithoutMembers(xs, id);
    if xs != [] {
      var n := |xs| - 1;
      WithoutOrdered(xs[..n], id, tickets);
      OrderedSnoc(xs, Without(xs[..n], id), tickets);
    }
  }

  lemma OrderedSnoc(xs: seq<Item>, rest: seq<Item>, tickets: nat)
    requires xs != [] && Ordered(xs, tickets) && Ordered(rest, tickets)
    requires forall x :: x in rest ==> x in xs[..|xs| - 1]
    ensures Ordered(rest + [xs[|xs| - 1]], tickets)
  {
    var last := xs[|xs| - 1];
    forall i | 0 <= i < |rest| ensures rest[i].id != last.id && rest[i].ticket < last.ticket {
      assert rest[i] in rest;
      var j :| 0 <= j < |xs| - 1 && xs[j] == rest[i];
    }
  }

  lemma FoundByTicket(xs: seq<Item>, tickets: nat, x: Item, y: Item)
    requires Ordered(xs, tickets) && x in xs && y in xs && (x.id == y.id || x.ticket == y.ticket)
    ensures x == y
  {
  }

  lemma MembersByIndex(xs: seq<Item>, t: nat)
    ensures (exists i :: 0 <= i < |xs| && xs[i].ticket == t) <==> exists x :: x in xs && x.ticket == t
  {
    if x :| x in xs && x.ticket == t {
      var i :| 0 <= i < |xs| && xs[i] == x;
      assert xs[i].ticket == t;
    }
  }

  /** Settling one waiting request, however it comes about. */
  function Settled(s: State, x: Item, d: Decision): State {
    Settle(s.(pending := Without(s.pending, x.id), timers := s.timers - {x}), x, d)
  }

  lemma SettledDesk(s: State, x: Item, d: Decision)
    requires Inv(s) && x in s.pending
    ensures DeskOk(Settled(s, x, d))
  {
    var t := Settled(s, x, d);
    WithoutOrdered(s.pending, x.id, s.tickets);
    assert x.ticket in s.desk.open by { MembersByIndex(s.pending, x.ticket); }
    ReplyIsFair(s.desk, x.ticket, d);
    forall k ensures k in t.desk.open <==> exists i :: 0 <= i < |t.pending| && t.pending[i].ticket == k {
      MembersByIndex(s.pending, k);
      MembersByIndex(t.pending, k);
      if y :| y in s.pending && y.ticket == k {
        if y.id == x.id || k == x.ticket { FoundByTicket(s.pending, s.tickets, x, y); }
      }
    }
    forall i | 0 <= i < |t.pending|
      ensures t.pending[i].ticket in t.desk.asked && t.desk.asked[t.pending[i].ticket] == t.pending[i].id
    {
      assert t.pending[i] in s.pending;
    }
  }

  lemma SettledArmed(s: State, x: Item, d: Decision)
    requires Inv(s) && x in s.pending
    ensures Armed(Settled(s, x, d))
  {
    hide DeskOk, SlotOk, Without, ListensTo;
    var t := Settled(s, x, d);
    WithoutMembers(s.pending, x.id);
    forall y | y in s.pending && y.id == x.id ensures y == x { FoundByTicket(s.pending, s.tickets, x, y); }
    forall k | k in t.listeners ensures ListensTo(t, k) { ListenerStays(s, t, x, k); }
  }

  lemma ListenerStays(s: State, t: State, x: Item, k: nat)
    requires k in s.listeners && ListensTo(s, k) && k != x.ticket
    requires k in t.listeners && t.listeners[k] == s.listeners[k]
    requires forall y :: y in s.pending && y != x ==> y in t.pending
    ensures ListensTo(t, k)
  {
    var i :| 0 <= i < |s.pending| && s.pending[i].ticket == k && s.pending[i].id == s.listeners[k];
    assert s.pending[i] in s.pending;
    var j :| 0 <= j < |t.pending| && t.pending[j] == s.pending[i];
    assert t.pending[j].ticket == k && t.pending[j].id == t.listeners[k];
  }

  lemma SettledKeeps(s: State, x: Item, d: Decision)
    requires Inv(s) && x in s.pending
    ensures Inv(Settled(s, x, d)) && |Settled(s, x, d).pending| < |s.pending|
    ensures Settled(s, x, d).desk.replies == s.desk.replies + [(x.ticket, d)]
  {
    hide DeskOk, Armed;
    SettledDesk(s, x, d);
    SettledArmed(s, x, d);
    WithoutOrdered(s.pending, x.id, s.tickets);
    var i :| 0 <= i < |s.pending| && s.pending[i] == x;
    assert Has(s.pending, x.id);
  }

  lemma ResolveKeeps(s: State, id: string, d: Decision)
    requires Inv(s)
    ensures Inv(Resolve(s, id, d))
    ensures Has(s.pending, id) ==> |Resolve(s, id, d).pending| < |s.pending|
  {
    hide Inv, Settle;
    var found := Find(s.pending, id);
    if found.Some? { SettledKeeps(s, found.value, d); }
  }

  lemma Unlistened(s: State, ticket: nat)
    requires Inv(s)
    ensures Inv(s.(listeners := s.listeners - {ticket}))
  {
  }

  lemma {:induction false} CloseAllKeeps(s: State)
    requires Inv(s)
    ensures Inv(CloseAll(s)) && CloseAll(s).pending == []
    decreases |s.pending|
  {
    hide Inv, Resolve;
    if s.pending != [] {
      HeadIsThere(s.pending);
      ResolveKeeps(s, s.pending[0].id, Decision(false, Closed));
      CloseAllKeeps(Resolve(s, s.pending[0].id, Decision(false, Closed)));
    }
  }

  lemma DecideDesk(s: State, id: string, timed: bool, signal: bool)
    requires Inv(s) && !Has(s.pending, id)
    ensures DeskOk(Decide(s, id, timed, signal, false))
  {
    hide Fair, Armed, SlotOk;
    var t, k := Decide(s, id, timed, signal, false), s.tickets;
    AskIsFair(s.desk, k, id);
    assert t.pending == s.pending + [Item(id, k, timed)];
    forall o ensures o in t.desk.open <==> exists i :: 0 <= i < |t.pending| && t.pending[i].ticket == o {
      MembersByIndex(s.pending, o);
      MembersByIndex(t.pending, o);
    }
  }

  lemma DecideArmed(s: State, id: string, timed: bool, signal: bool)
    requires Inv(s) && !Has(s.pending, id)
    ensures Armed(Decide(s, id, timed, signal, false))
  {
    var t, k := Decide(s, id, timed, signal, false), s.tickets;
    assert t.pending == s.pending + [Item(id, k, timed)];
    forall o | o in t.listeners ensures ListensTo(t, o) {
      if o == k && signal {
        assert t.pending[|s.pending|].ticket == o;
      } else {
        assert ListensTo(s, o);
        var i :| 0 <= i < |s.pending| && s.pending[i].ticket == o && s.pending[i].id == s.listeners[o];
        assert t.pending[i] == s.pending[i];
      }
    }
  }

  lemma DecideKeeps(s: State, id: string, timed: bool, signal: bool, aborted: bool)
    requires Inv(s) && (aborted || !Has(s.pending, id))
    ensures Inv(Decide(s, id, timed, signal, aborted))
  {
    if aborted {
      RefusedKeeps(s, id, timed, signal);
    } else {
      AddedKeeps(s, id, timed, signal);
    }
  }

  /** A signal already aborted: answered on the spot, and nothing waits. */
  lemma RefusedKeeps(s: State, id: string, timed: bool, signal: bool)
    requires Inv(s)
    ensures Inv(Decide(s, id, timed, signal, true))
  {
    hide Ordered, Armed, SlotOk;
    AskIsFair(s.desk, s.tickets, id);
    ReplyIsFair(Ask(s.desk, s.tickets, id), s.tickets, Decision(false, Aborted));
    NextTicket(s.pending, s.tickets);
    SameArmed(s, Decide(s, id, timed, signal, true));
  }

  lemma SameArmed(s: State, t: State)
    requires Armed(s) && SlotOk(s)
    requires t.pending == s.pending && t.timers == s.timers && t.listeners == s.listeners && t.live == s.live
    requires t.slots == s.slots
    ensures Armed(t) && SlotOk(t)
  {
  }

  lemma NextTicket(xs: seq<Item>, tickets: nat)
    requires Ordered(xs, tickets)
    ensures Ordered(xs, tickets + 1)
  {
  }

  lemma AddedKeeps(s: State, id: string, timed: bool, signal: bool)
    requires Inv(s) && !Has(s.pending, id)
    ensures Inv(Decide(s, id, timed, signal, false))
  {
    hide DeskOk, Armed;
    DecideDesk(s, id, timed, signal);
    DecideArmed(s, id, timed, signal);
  }

  lemma StepKeeps(s: State, ev: Event)
    requires Inv(s) && (ev.OnDecide? && !ev.aborted ==> !Has(s.pending, ev.id))
    ensures Inv(Step(s, ev))
  {
    hide Inv, Resolve, Settle, CloseAll, Decide;
    match ev
    case OnDecide(id, timed, signal, aborted) => DecideKeeps(s, id, timed, signal, aborted);
    case OnAnswer(id, allow) => ResolveKeeps(s, id, Decision(allow, Operator));
    case OnDeadline(item) => FireKeeps(s, item);
    case OnAbort(ticket) =>
      if ticket in s.listeners {
        Unlistened(s, ticket);
        ResolveKeeps(s.(listeners := s.listeners - {ticket}), s.listeners[ticket], Decision(false, Aborted));
      }
    case OnClose => CloseAllKeeps(s);
  }

  lemma FireKeeps(s: State, item: Item)
    requires Inv(s)
    ensures Inv(Fire(s, item))
  {
    if item in s.timers { SettledKeeps(s, item, Decision(false, Timeout)); }
  }

  lemma {:induction false} RunKeeps(evs: seq<Event>)
    requires FreshIds(evs)
    ensures Inv(After(evs))
  {
    hide Inv, Step;
    if evs == [] {
      InitKeeps();
    } else {
      var n := |evs| - 1;
      forall k | 0 <= k < n && evs[..n][k].OnDecide? && !evs[..n][k].aborted
        ensures !Has(After(evs[..n][..k]).pending, evs[..n][k].id)
      {
        assert evs[..n][..k] == evs[..k];
      }
      RunKeeps(evs[..n]);
      StepKeeps(After(evs[..n]), evs[n]);
    }
  }

  lemma InitKeeps()
    ensures Inv(Init())
  {
  }

  // ---- Promises -------------------------------------------------------------

  /** In every run the two maps hold the same requests, each request is settled exactly once
    * or still waits, and the published slot is the newest request not yet settled. */
  lemma RequestsSettleOnce(evs: seq<Event>, ticket: nat)
    requires FreshIds(evs)
    ensures var s := After(evs);
            && s.live == s.pending
            && (ticket in s.desk.asked ==> Count(s.desk.replies, ticket) == if ticket in s.desk.open then 0 else 1)
            && (ticket in s.desk.open <==> exists x :: x in s.pending && x.ticket == ticket)
            && (s.slots != [] ==>
                  var slot := s.slots[|s.slots| - 1];
                  if s.desk.open == {} then slot.None?
                  else slot.Some? && slot.value.ticket in s.desk.open && forall t :: t in s.desk.open ==>
                    t <= slot.value.ticket)
  {
    RunKeeps(evs);
    var s := After(evs);
    SlotIsNewest(s);
    MembersByIndex(s.pending, ticket);
  }

  lemma SlotIsNewest(s: State)
    requires Inv(s)
    ensures forall t :: t in s.desk.open ==> s.pending != [] && t <= s.pending[|s.pending| - 1].ticket
    ensures s.pending != [] ==> s.pending[|s.pending| - 1].ticket in s.desk.open
  {
    forall t | t in s.desk.open ensures s.pending != [] && t <= s.pending[|s.pending| - 1].ticket {
      var i :| 0 <= i < |s.pending| && s.pending[i].ticket == t;
    }
  }

  /** A shutdown settles everything, and what comes late finds nothing to settle. */
  lemma CloseLeavesNone(evs: seq<Event>, late: Event)
    requires FreshIds(evs) && !late.OnDecide?
    ensures var s := After(evs + [OnClose]);
            && s.pending == [] && s.desk.open == {}
            && Step(s, late).desk == s.desk
  {
    hide Inv;
    assert (evs + [OnClose])[..|evs|] == evs;
    RunKeeps(evs);
    CloseAllKeeps(After(evs));
    NothingToSettle(CloseAll(After(evs)), late);
  }

  lemma NothingToSettle(s: State, late: Event)
    requires Inv(s) && s.pending == [] && !late.OnDecide?
    ensures s.desk.open == {} && Step(s, late).desk == s.desk
  {
  }

  /** Only the operator allows: every other settlement is a refusal. */
  lemma {:induction false} OnlyTheOperatorAllows(evs: seq<Event>)
    ensures forall i :: 0 <= i < |After(evs).desk.replies| && After(evs).desk.replies[i].1.allow ==>
              After(evs).desk.replies[i].1.cause == Operator
  {
    hide Insert, Without, CloseAll;
    if evs != [] {
      var s, ev := After(evs[..|evs| - 1]), evs[|evs| - 1];
      OnlyTheOperatorAllows(evs[..|evs| - 1]);
      if ev.OnClose? { ClosedRefuses(s); }
    }
  }

  lemma {:induction false} ClosedRefuses(s: State)
    requires forall i :: 0 <= i < |s.desk.replies| && s.desk.replies[i].1.allow ==>
               s.desk.replies[i].1.cause == Operator
    ensures forall i :: 0 <= i < |CloseAll(s).desk.replies| && CloseAll(s).desk.replies[i].1.allow ==>
              CloseAll(s).desk.replies[i].1.cause == Operator
    decreases |s.pending|
  {
    if s.pending != [] {
      HeadIsThere(s.pending);
      ClosedRefuses(Resolve(s, s.pending[0].id, Decision(false, Closed)));
    }
  }

  // ---- Why ids must be fresh ------------------------------------------------

  /** A request still open that neither map nor any deadline refers to any more. */
  ghost predicate Lost(s: State, ticket: nat) {
    && ticket in s.desk.open && ticket < s.tickets
    && (forall x :: x in s.pending ==> x.ticket != ticket)
    && (forall x :: x in s.timers ==> x.ticket != ticket)
  }

  lemma InsertMembers(xs: seq<Item>, x: Item)
    ensures forall y :: y in Insert(xs, x) ==> y == x || (y in xs && y.id != x.id)
  {
    forall y | y in Insert(xs, x) ensures y == x || (y in xs && y.id != x.id) {
      var i :| 0 <= i < |Insert(xs, x)| && Insert(xs, x)[i] == y;
      if !Has(xs, x.id) && i < |xs| { assert xs[i].id != x.id; }
    }
  }

  lemma ResolveKeepsLost(s: State, id: string, d: Decision, ticket: nat)
    requires Lost(s, ticket)
    ensures Lost(Resolve(s, id, d), ticket)
  {
    WithoutMembers(s.pending, id);
  }

  lemma {:induction false} CloseAllKeepsLost(s: State, ticket: nat)
    requires Lost(s, ticket)
    ensures Lost(CloseAll(s), ticket)
    decreases |s.pending|
  {
    hide Lost, Resolve;
    if s.pending != [] {
      HeadIsThere(s.pending);
      ResolveShrinks(s, Decision(false, Closed));
      ResolveKeepsLost(s, s.pending[0].id, Decision(false, Closed), ticket);
      CloseAllKeepsLost(Resolve(s, s.pending[0].id, Decision(false, Closed)), ticket);
    }
  }

  lemma ResolveShrinks(s: State, d: Decision)
    requires s.pending != []
    ensures |Resolve(s, s.pending[0].id, d).pending| < |s.pending|
  {
    HeadIsThere(s.pending);
  }

  lemma StepKeepsLost(s: State, ev: Event, ticket: nat)
    requires Lost(s, ticket)
    ensures Lost(Step(s, ev), ticket)
  {
    hide Without, Insert, Resolve, CloseAll;
    match ev
    case OnDecide(id, timed, _, _) => InsertMembers(s.pending, Item(id, s.tickets, timed));
    case OnAnswer(id, allow) => ResolveKeepsLost(s, id, Decision(allow, Operator), ticket);
    case OnDeadline(item) => WithoutMembers(s.pending, item.id);
    case OnAbort(k) =>
      if k in s.listeners {
        ResolveKeepsLost(s.(listeners := s.listeners - {k}), s.listeners[k], Decision(false, Aborted), ticket);
      }
    case OnClose => CloseAllKeepsLost(s, ticket);
  }

  function AfterFrom(s: State, evs: seq<Event>): State {
    if evs == [] then s else Step(AfterFrom(s, evs[..|evs| - 1]), evs[|evs| - 1])
  }

  /** An id used again while a request without a deadline waits under it: whatever happens
    * from then on, a shutdown included, the earlier request is never settled. */
  lemma {:induction false} ReusedIdLosesARequest(s: State, x: Item, timed: bool, signal: bool, evs: seq<Event>)
    requires Inv(s) && x in s.pending && !x.timed
    ensures Lost(AfterFrom(Decide(s, x.id, timed, signal, false), evs), x.ticket)
  {
    hide Lost, Inv, Step, Decide;
    if evs == [] {
      TakenOver(s, x, timed, signal);
    } else {
      ReusedIdLosesARequest(s, x, timed, signal, evs[..|evs| - 1]);
      StepKeepsLost(AfterFrom(Decide(s, x.id, timed, signal, false), evs[..|evs| - 1]), evs[|evs| - 1], x.ticket);
    }
  }

  /** The new request takes the earlier one's place, and no other request notices. */
  lemma ReusedIdTakesThePlace(s: State, i: nat, timed: bool, signal: bool)
    requires Inv(s) && i < |s.pending|
    ensures var id, t := s.pending[i].id, Decide(s, s.pending[i].id, timed, signal, false);
            && t.pending == s.pending[i := Item(id, s.tickets, timed)] && t.live == t.pending
            && t.desk.replies == s.desk.replies
  {
    hide DeskOk, Armed, SlotOk;
    assert Has(s.pending, s.pending[i].id);
  }

  lemma TakenOver(s: State, x: Item, timed: bool, signal: bool)
    requires Inv(s) && x in s.pending && !x.timed
    ensures Lost(Decide(s, x.id, timed, signal, false), x.ticket)
  {
    hide Fair, Insert, SlotOk;
    InsertMembers(s.pending, Item(x.id, s.tickets, timed));
    MembersByIndex(s.pending, x.ticket);
    forall y | y in s.pending && y.ticket == x.ticket ensures y == x { FoundByTicket(s.pending, s.tickets, x, y); }
    var i :| 0 <= i < |s.pending| && s.pending[i] == x;
  }

  // ---- The program's two objects --------------------------------------------

  /** The registry: which requests wait, and which deadlines are armed. */
  class PendingRegistry {
    var pending: seq<Item>
    var timers: set<Item>

    constructor ()
      ensures pending == [] && timers == {}
    {
      pending, timers := [], {};
    }

    method Add(item: Item)
      modifies this
      ensures pending == Insert(old(pending), item)
      ensures timers == if item.timed then old(timers) + {item} else old(timers)
    {
      if item.timed { timers := timers + {item}; }
      pending := Insert(pending, item);
    }

    /** Takes a request out to settle it; an id that is not waiting finds nothing. */
    method Take(id: string) returns (found: Option<Item>)
      modifies this
      ensures found == Find(old(pending), id)
      ensures found.None? ==> pending == old(pending) && timers == old(timers)
      ensures found.Some? ==> pending == Without(old(pending), id) && timers == old(timers) - {found.value}
    {
      found := Find(pending, id);
      if found.Some? {
        pending := Without(pending, id);
        timers := timers - {found.value};
      }
    }

    /** A deadline passes. */
    method Expire(item: Item) returns (due: bool)
      modifies this
      ensures due == (item in old(timers))
      ensures !due ==> pending == old(pending) && timers == old(timers)
      ensures due ==> pending == Without(old(pending), item.id) && timers == old(timers) - {item}
    {
      due := item in timers;
      if due {
        timers := timers - {item};
        pending := Without(pending, item.id);
      }
    }
  }

  class PermissionBroker {
    const registry: PendingRegistry
    var live: seq<Item>
    var listeners: map<nat, string>
    var tickets: nat
    ghost var desk: Desk<string, Decision>
    ghost var slots: seq<Option<Item>>

    ghost function View(): State
      reads this, registry
    {
      State(live, registry.pending, registry.timers, listeners, tickets, desk, slots)
    }

    constructor ()
      ensures View() == Init() && fresh(registry)
    {
      registry := new PendingRegistry();
      live, listeners, tickets := [], map[], 0;
      desk, slots := Desk(map[], {}, [], {}), [];
    }

    method DecidePermission(id: string, timed: bool, signal: bool, aborted: bool)
      modifies this, registry
      ensures View() == Decide(old(View()), id, timed, signal, aborted)
    {
      var ticket := tickets;
      tickets := tickets + 1;
      desk := Ask(desk, ticket, id);
      if aborted {
        desk := Reply(desk, ticket, Decision(false, Aborted));
        return;
      }
      var item := Item(id, ticket, timed);
      live := Insert(live, item);
      slots := slots + [Newest(live)];
      registry.Add(item);
      if signal { listeners := listeners[ticket := id]; }
    }

    method SettleRequest(item: Item, d: Decision)
      modifies this
      ensures View() == Settle(old(View()), item, d)
    {
      listeners := listeners - {item.ticket};
      live := Without(live, item.id);
      slots := slots + [Newest(live)];
      desk := Reply(desk, item.ticket, d);
    }

    method ResolveRequest(id: string, d: Decision)
      modifies this, registry
      ensures View() == Resolve(old(View()), id, d)
    {
      var found := registry.Take(id);
      if found.Some? { SettleRequest(found.value, d); }
    }

    method DeadlinePassed(item: Item)
      modifies this, registry
      ensures View() == Fire(old(View()), item)
    {
      var due := registry.Expire(item);
      if due { SettleRequest(item, Decision(false, Timeout)); }
    }

    method SignalAborted(ticket: nat)
      modifies this, registry
      ensures View() == Abort(old(View()), ticket)
    {
      if ticket !in listeners { return; }
      var id := listeners[ticket];
      listeners := listeners - {ticket};
      ResolveRequest(id, Decision(false, Aborted));
    }

    /** Settles every waiting request in the order of arrival. */
    method Close()
      modifies this, registry
      ensures View() == CloseAll(old(View()))
    {
      while registry.pending != []
        invariant CloseAll(View()) == CloseAll(old(View()))
        decreases |registry.pending|
      {
        hide Resolve;
        CloseOne();
      }
    }

    method CloseOne()
      requires registry.pending != []
      modifies this, registry
      ensures |registry.pending| < |old(registry.pending)|
      ensures View() == Resolve(old(View()), old(registry.pending)[0].id, Decision(false, Closed))
    {
      HeadIsThere(registry.pending);
      ResolveRequest(registry.pending[0].id, Decision(false, Closed));
    }
  }
}
