/** One ticket for each session ever created. The four dictionaries of the pool say no more and no
    less than the tickets do (cli/managed/manager.py). */
module SessionTickets {
  import opened Text
  import opened SessionPool

  /** The temporary id, the id its process reported, and whether the session was stopped. */
  datatype Ticket = Ticket(temp: string, reported: Option<string>, done: bool)

  predicate Waits(t: Ticket, id: string) {
    !t.done && t.reported == None && t.temp == id
  }

  predicate Runs(t: Ticket, id: string) {
    !t.done && t.reported == Some(id)
  }

  predicate AnswersTo(t: Ticket, id: string) {
    !t.done && (t.temp == id || t.reported == Some(id))
  }

  ghost predicate Known(tickets: seq<Ticket>, id: string) {
    exists h: nat :: h < |tickets| && AnswersTo(tickets[h], id)
  }

  /** What an action does to one session. */
  function Marked(t: Ticket, a: Action): Ticket {
    match a
    case GetAction(_, _) => t
    case RegisterAction(temp, actual) => if Waits(t, temp) then t.(reported := Some(actual)) else t
    case RemoveAction(id) => if Waits(t, id) || Runs(t, id) then t.(done := true) else t
    case StopAllAction => t.(done := true)
  }

  /** A caller whose id no session answers to gets a new one. */
  ghost function Next(tickets: seq<Ticket>, a: Action): seq<Ticket> {
    if a.GetAction? && (a.id == "" || !Known(tickets, a.id)) then
      tickets + [Ticket(if a.id == "" then a.newId else a.id, None, false)]
    else
      seq(|tickets|, h requires 0 <= h < |tickets| => Marked(tickets[h], a))
  }

  ghost function Tickets(tickets: seq<Ticket>, actions: seq<Action>): seq<Ticket>
    decreases |actions|
  {
    if actions == [] then tickets else Tickets(Next(tickets, actions[0]), actions[1..])
  }

  // ---------------------------------------------------------------- pool and tickets

  ghost predicate PendingAs(p: Pool, tickets: seq<Ticket>, id: string, h: Session) {
    (id in p.pending && p.pending[id] == h) <==> (h < |tickets| && Waits(tickets[h], id))
  }

  ghost predicate LiveAs(p: Pool, tickets: seq<Ticket>, id: string, h: Session) {
    (id in p.sessions && p.sessions[id] == h) <==> (h < |tickets| && Runs(tickets[h], id))
  }

  /** A running session is found from its temporary id, and a stopped one is marked. */
  ghost predicate TicketOf(p: Pool, tickets: seq<Ticket>, h: Session) {
    && (h in p.stopped <==> h < |tickets| && tickets[h].done)
    && (h < |tickets| && !tickets[h].done && tickets[h].reported.Some? ==>
          tickets[h].temp in p.tempToReal && p.tempToReal[tickets[h].temp] == tickets[h].reported.value)
  }

  ghost predicate Says(p: Pool, tickets: seq<Ticket>) {
    && p.created == |tickets|
    && (forall id: string, h: Session :: PendingAs(p, tickets, id, h))
    && (forall id: string, h: Session :: LiveAs(p, tickets, id, h))
    && (forall h: Session :: TicketOf(p, tickets, h))
  }

  lemma FoundAnswers(p: Pool, tickets: seq<Ticket>, id: string)
    requires Inv(p) && Says(p, tickets) && Found(p, id).Some?
    ensures Found(p, id).value < |tickets| && AnswersTo(tickets[Found(p, id).value], id)
  {
    var h := Found(p, id).value;
    var actual := LookupId(p, id);
    assert PendingAs(p, tickets, actual, h) && LiveAs(p, tickets, actual, h) && TicketOf(p, tickets, h);
  }

  lemma AnswererIsFound(p: Pool, tickets: seq<Ticket>, id: string, h: Session)
    requires Inv(p) && Says(p, tickets) && h < |tickets| && AnswersTo(tickets[h], id)
    ensures Found(p, id).Some?
  {
    var t := tickets[h];
    assert PendingAs(p, tickets, id, h) && TicketOf(p, tickets, h);
    if t.reported.Some? {
      assert LiveAs(p, tickets, t.reported.value, h);
    }
  }

  /** Exactly the ids that some session answers to lead to a session, and it is such a one. */
  lemma KnownIsFound(p: Pool, tickets: seq<Ticket>, id: string)
    requires Inv(p) && Says(p, tickets)
    ensures Known(tickets, id) <==> Found(p, id).Some?
    ensures Found(p, id).Some? ==>
              Found(p, id).value < |tickets| && AnswersTo(tickets[Found(p, id).value], id)
  {
    if Found(p, id).Some? {
      FoundAnswers(p, tickets, id);
    } else if Known(tickets, id) {
      var h: nat :| h < |tickets| && AnswersTo(tickets[h], id);
      AnswererIsFound(p, tickets, id, h);
    }
  }

  // ---------------------------------------------------------------- one action

  lemma CreateSays(p: Pool, tickets: seq<Ticket>, id: string)
    requires Inv(p) && Says(p, tickets) && IsFresh(p, id)
    ensures Says(Create(p, id), tickets + [Ticket(id, None, false)])
  {
    var q, more := Create(p, id), tickets + [Ticket(id, None, false)];
    forall x: string, h: Session
      ensures PendingAs(q, more, x, h) && LiveAs(q, more, x, h)
    {
      assert PendingAs(p, tickets, x, h) && LiveAs(p, tickets, x, h);
    }
    forall h: Session
      ensures TicketOf(q, more, h)
    {
      assert TicketOf(p, tickets, h);
    }
  }

  lemma RegisterSays(p: Pool, tickets: seq<Ticket>, temp: string, actual: string)
    requires Inv(p) && Says(p, tickets) && (temp in p.pending ==> MayRegister(p, temp, actual))
    ensures Says(Register(p, temp, actual), Next(tickets, RegisterAction(temp, actual)))
  {
    var q, more := Register(p, temp, actual), Next(tickets, RegisterAction(temp, actual));
    forall x: string, h: Session
      ensures PendingAs(q, more, x, h) && LiveAs(q, more, x, h)
    {
      assert PendingAs(p, tickets, x, h) && PendingAs(p, tickets, temp, h);
      assert LiveAs(p, tickets, x, h) && LiveAs(p, tickets, actual, h);
    }
    forall h: Session
      ensures TicketOf(q, more, h)
    {
      assert TicketOf(p, tickets, h) && PendingAs(p, tickets, temp, h);
    }
  }

  lemma RemoveSays(p: Pool, tickets: seq<Ticket>, id: string)
    requires Inv(p) && Says(p, tickets)
    ensures Says(Remove(p, id), Next(tickets, RemoveAction(id)))
  {
    var q, more := Remove(p, id), Next(tickets, RemoveAction(id));
    forall x: string, h: Session
      ensures PendingAs(q, more, x, h) && LiveAs(q, more, x, h)
    {
      assert PendingAs(p, tickets, x, h) && PendingAs(p, tickets, id, h);
      assert LiveAs(p, tickets, x, h) && LiveAs(p, tickets, id, h);
    }
    forall h: Session
      ensures TicketOf(q, more, h)
    {
      assert TicketOf(p, tickets, h) && PendingAs(p, tickets, id, h) && LiveAs(p, tickets, id, h);
      if h < |tickets| && tickets[h].reported.Some? {
        assert LiveAs(p, tickets, tickets[h].reported.value, h);
      }
    }
  }

  lemma StopAllSays(p: Pool, tickets: seq<Ticket>)
    requires Inv(p) && Says(p, tickets)
    ensures Says(StopAll(p), Next(tickets, StopAllAction))
  {
    var q, more := StopAll(p), Next(tickets, StopAllAction);
    forall x: string, h: Session
      ensures PendingAs(q, more, x, h) && LiveAs(q, more, x, h)
    {
    }
    forall h: Session
      ensures TicketOf(q, more, h)
    {
      assert TicketOf(p, tickets, h);
      assert Lives(p, h) <==> h in p.sessions.Values + p.pending.Values;
    }
  }

  lemma ApplySays(p: Pool, tickets: seq<Ticket>, a: Action)
    requires Inv(p) && Says(p, tickets) && Legal(p, a)
    ensures Says(Apply(p, a), Next(tickets, a))
  {
    match a
    case GetAction(id, newId) =>
      KnownIsFound(p, tickets, id);
      if id == "" {
        CreateSays(p, tickets, newId);
      } else if Found(p, id) == None {
        FoundIsFresh(p, id);
        CreateSays(p, tickets, id);
      } else {
        assert Next(tickets, a) == tickets;
      }
    case RegisterAction(temp, actual) => RegisterSays(p, tickets, temp, actual);
    case RemoveAction(id) => RemoveSays(p, tickets, id);
    case StopAllAction => StopAllSays(p, tickets);
  }

  lemma {:induction false} RunSays(p: Pool, tickets: seq<Ticket>, actions: seq<Action>)
    requires Inv(p) && Says(p, tickets) && AllLegal(p, actions)
    ensures Inv(Run(p, actions)) && Says(Run(p, actions), Tickets(tickets, actions))
    decreases |actions|
  {
    if actions != [] {
      ApplyKeepsInv(p, actions[0]);
      ApplySays(p, tickets, actions[0]);
      RunSays(Apply(p, actions[0]), Next(tickets, actions[0]), actions[1..]);
    }
  }

  /** Over every run in which reported ids are in neither pool: a session is pending, live or
      stopped exactly as its ticket says, and an id leads to a session exactly if one that was not
      stopped answers to it, by its temporary or its reported id. */
  lemma PoolIsItsTickets(actions: seq<Action>, id: string)
    requires AllLegal(EMPTY, actions)
    ensures var p, tickets := Run(EMPTY, actions), Tickets([], actions);
            && Says(p, tickets)
            && (Known(tickets, id) <==> Found(p, id).Some?)
            && (Found(p, id).Some? ==>
                  Found(p, id).value < |tickets| && AnswersTo(tickets[Found(p, id).value], id))
  {
    EveryRunKeepsInv([]);
    assert forall x: string, h: Session :: PendingAs(EMPTY, [], x, h);
    assert forall x: string, h: Session :: LiveAs(EMPTY, [], x, h);
    assert forall h: Session :: TicketOf(EMPTY, [], h);
    RunSays(EMPTY, [], actions);
    KnownIsFound(Run(EMPTY, actions), Tickets([], actions), id);
  }
}
