/** Request-and-reply bookkeeping: who asked, who is still waiting, what was answered. */
module Desks {

  datatype Desk<Q, A> = Desk(asked: map<nat, Q>, open: set<nat>, replies: seq<(nat, A)>, dropped: set<nat>)

  function Ask<Q, A>(d: Desk<Q, A>, ticket: nat, q: Q): Desk<Q, A> {
    d.(asked := d.asked[ticket := q], open := d.open + {ticket})
  }

  function Reply<Q, A>(d: Desk<Q, A>, ticket: nat, a: A): Desk<Q, A> {
    d.(open := d.open - {ticket}, replies := d.replies + [(ticket, a)])
  }

  /** Requests given up on without a reply. */
  function Drop<Q, A>(d: Desk<Q, A>, tickets: set<nat>): Desk<Q, A> {
    d.(open := d.open - tickets, dropped := d.dropped + tickets)
  }

  function Count<A>(replies: seq<(nat, A)>, ticket: nat): nat {
    if replies == [] then 0
    else Count(replies[..|replies| - 1], ticket) + if replies[|replies| - 1].0 == ticket then 1 else 0
  }

  /** Every request has exactly one reply, or is still open, or was dropped. */
  ghost predicate Fair<Q, A>(d: Desk<Q, A>) {
    && d.open + d.dropped <= d.asked.Keys
    && d.open !! d.dropped
    && forall t :: Count(d.replies, t) == if t in d.asked && t !in d.open && t !in d.dropped then 1 else 0
  }

  lemma CountSnoc<A>(replies: seq<(nat, A)>, ticket: nat, a: A)
    ensures forall t :: Count(replies + [(ticket, a)], t) == Count(replies, t) + if t == ticket then 1 else 0
  {
    assert (replies + [(ticket, a)])[..|replies|] == replies;
  }

  lemma AskIsFair<Q, A>(d: Desk<Q, A>, ticket: nat, q: Q)
    requires Fair(d) && ticket !in d.asked
    ensures Fair(Ask(d, ticket, q))
  {
  }

  lemma ReplyIsFair<Q, A>(d: Desk<Q, A>, ticket: nat, a: A)
    requires Fair(d) && ticket in d.open
    ensures Fair(Reply(d, ticket, a))
  {
    CountSnoc(d.replies, ticket, a);
  }

  lemma DropIsFair<Q, A>(d: Desk<Q, A>, tickets: set<nat>)
    requires Fair(d) && tickets <= d.open
    ensures Fair(Drop(d, tickets))
  {
  }
}
