/**
 Whole conversations with the bot: a sequence of events (a menu button or
 a text message) run from a configuration, collecting the requests the bot
 sends on the way.
 */
module Conversation {
  import opened Wrappers
  import opened Bot

  /** What the user does: tap a menu button, or send a text. `listing` is
      the answer GET /expenses would give while that text is handled. */
  datatype Event = Tapped(button: Button) | Sent(text: string, listing: seq<Listed>)

  function Step(p: Parsers, c: Config, ev: Event): Outcome {
    match ev
    case Tapped(b) => Press(c, b)
    case Sent(text, listing) => Receive(p, c, text, listing)
  }

  /** The configuration after a conversation and the requests it sent, in order. */
  datatype Trace = Trace(config: Config, requests: seq<Request>)

  function Run(p: Parsers, c: Config, events: seq<Event>): Trace
    decreases |events|
  {
    if |events| == 0 then Trace(c, [])
    else
      var o := Step(p, c, events[0]);
      var rest := Run(p, o.config, events[1..]);
      Trace(rest.config, (if o.request.Some? then [o.request.value] else []) + rest.requests)
  }

  /** Every configuration reached from a consistent one is consistent, so
      no handler ever looks up a key the conversation has not stored. */
  lemma {:induction false} RunKeepsConsistent(p: Parsers, c: Config, events: seq<Event>)
    requires Consistent(c)
    ensures Consistent(Run(p, c, events).config)
    decreases |events|
  {
    if |events| > 0 {
      RunKeepsConsistent(p, Step(p, c, events[0]).config, events[1..]);
    }
  }

  /** Texts that the current state refuses, however many, leave the
      conversation where it was and send nothing. */
  lemma {:induction false} RetriesChangeNothing(p: Parsers, c: Config, events: seq<Event>)
    requires forall i | 0 <= i < |events| :: events[i].Sent? && Rejects(p, c.state, events[i].text)
    ensures Run(p, c, events) == Trace(c, [])
    decreases |events|
  {
    if |events| > 0 {
      RejectedTextIsIgnored(p, c, events[0].text, events[0].listing);
      RetriesChangeNothing(p, c, events[1..]);
    }
  }

  /** In the amount state of a reachable configuration, a number posts the
      stored name and date with that amount and clears the conversation. */
  lemma AmountPostsExpense(p: Parsers, c: Config, text: string, listing: seq<Listed>)
    requires Consistent(c) && c.state == ExpAmount
    requires p.number(text).Some?
    ensures Receive(p, c, text, listing)
      == Outcome(Cleared, Some(AddRequest(c.data.name.value, c.data.date.value, p.number(text).value)))
  {
  }

  /** A conversation is its first event followed by the rest. */
  lemma RunFirst(p: Parsers, c: Config, ev: Event, rest: seq<Event>)
    ensures var o := Step(p, c, ev);
      Run(p, c, [ev] + rest)
        == Trace(Run(p, o.config, rest).config,
                 (if o.request.Some? then [o.request.value] else []) + Run(p, o.config, rest).requests)
  {
  }

  /** In the new-amount state of a reachable configuration, a number sends
      the update for the stored id and new name with that amount and clears. */
  lemma AmountSendsUpdate(p: Parsers, c: Config, text: string, listing: seq<Listed>)
    requires Consistent(c) && c.state == EditAmount
    requires p.number(text).Some?
    ensures Receive(p, c, text, listing)
      == Outcome(Cleared, Some(UpdateRequest(c.data.expenseId.value, c.data.newName.value, p.number(text).value)))
  {
  }

  /** The add flow: button, name, a valid date, a number. */
  lemma AddConversation(p: Parsers, c: Config, name: string, date: string, amount: string, l1: seq<Listed>, l2: seq<Listed>, l3: seq<Listed>)
    requires p.isDate(date) && p.number(amount).Some?
    ensures Run(p, c, [Tapped(AddButton), Sent(name, l1), Sent(date, l2), Sent(amount, l3)])
      == Trace(Cleared, [AddRequest(name, date, p.number(amount).value)])
  {
    var c1 := Config(ExpName, c.data);
    var c2 := Config(ExpDate, c.data.(name := Some(name)));
    var c3 := Config(ExpAmount, c2.data.(date := Some(date)));
    RunFirst(p, c3, Sent(amount, l3), []);
    RunFirst(p, c2, Sent(date, l2), [Sent(amount, l3)]);
    RunFirst(p, c1, Sent(name, l1), [Sent(date, l2), Sent(amount, l3)]);
    RunFirst(p, c, Tapped(AddButton), [Sent(name, l1), Sent(date, l2), Sent(amount, l3)]);
  }

  /** The report flow: button, a valid start date, a valid end date. */
  lemma ReportConversation(p: Parsers, c: Config, start: string, end: string, l1: seq<Listed>, l2: seq<Listed>)
    requires p.isDate(start) && p.isDate(end)
    ensures Run(p, c, [Tapped(ReportButton), Sent(start, l1), Sent(end, l2)])
      == Trace(Cleared, [ReportRequest(start, end)])
  {
    var c1 := Config(RepStart, c.data);
    var c2 := Config(RepEnd, c.data.(startDate := Some(start)));
    RunFirst(p, c2, Sent(end, l2), []);
    RunFirst(p, c1, Sent(start, l1), [Sent(end, l2)]);
    RunFirst(p, c, Tapped(ReportButton), [Sent(start, l1), Sent(end, l2)]);
  }

  /** The delete flow: button (which lists the expenses), then an integer id. */
  lemma DeleteConversation(p: Parsers, c: Config, id: string, l1: seq<Listed>)
    requires p.integer(id).Some?
    ensures Run(p, c, [Tapped(DeleteButton), Sent(id, l1)])
      == Trace(Cleared, [ListRequest, DeleteRequest(p.integer(id).value)])
  {
    var c1 := Config(DelId, c.data);
    RunFirst(p, c1, Sent(id, l1), []);
    RunFirst(p, c, Tapped(DeleteButton), [Sent(id, l1)]);
  }

  /** The edit flow: button, a listed integer id, a new name, a number. */
  lemma EditConversation(p: Parsers, c: Config, id: string, name: string, amount: string, listing: seq<Listed>, l2: seq<Listed>, l3: seq<Listed>)
    requires p.integer(id).Some? && IsListed(listing, p.integer(id).value)
    requires p.number(amount).Some?
    ensures Run(p, c, [Tapped(EditButton), Sent(id, listing), Sent(name, l2), Sent(amount, l3)])
      == Trace(Cleared, [ListRequest, ListRequest, UpdateRequest(p.integer(id).value, name, p.number(amount).value)])
  {
    var c1 := Config(EditId, c.data);
    var c2 := Config(EditName, c.data.(expenseId := p.integer(id)));
    var c3 := Config(EditAmount, c2.data.(newName := Some(name)));
    RunFirst(p, c3, Sent(amount, l3), []);
    RunFirst(p, c2, Sent(name, l2), [Sent(amount, l3)]);
    RunFirst(p, c1, Sent(id, listing), [Sent(name, l2), Sent(amount, l3)]);
    RunFirst(p, c, Tapped(EditButton), [Sent(id, listing), Sent(name, l2), Sent(amount, l3)]);
  }
}
