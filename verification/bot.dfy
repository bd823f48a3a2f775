/**
 The chat-bot's conversation (`bot/bot.py`): the aiogram FSM states of the
 four flows (add, report, delete, edit), the data the conversation has
 collected, and one transition function per state.

 A step takes the current configuration and the text the user sent, and
 yields the next configuration and at most one request to the backend.
 The validity checks (`strptime(text, "%d.%m.%Y")`, `float(text)`,
 `int(text)`) are library calls; they enter as a `Parsers` value.
 */
module Bot {
  import opened Wrappers

  /** `None` (no state) and the states of the four StatesGroups. */
  datatype State =
    | Idle                                  // no FSM state set
    | ExpName | ExpDate | ExpAmount         // ExpenseState
    | RepStart | RepEnd                     // ReportState
    | DelId                                 // DeleteExpenseState
    | EditId | EditName | EditAmount        // EditExpenseState

  /** The FSM data dictionary: one slot per key the handlers write. */
  datatype Data = Data(
    name: Option<string>,
    date: Option<string>,
    startDate: Option<string>,
    expenseId: Option<int>,
    newName: Option<string>)

  /** The data after `state.clear()`. */
  const Empty := Data(None, None, None, None, None)

  datatype Config = Config(state: State, data: Data)

  /** The configuration after `state.clear()`: no state, no data. */
  const Cleared := Config(Idle, Empty)

  /** The library parsers: `strptime` succeeds, `float(...)` and `int(...)`. */
  datatype Parsers = Parsers(isDate: string -> bool, number: string -> Option<real>, integer: string -> Option<int>)

  /** An expense as the backend lists it to the bot. */
  datatype Listed = Listed(id: int, name: string, date: string, amount: real)

  /** The four menu buttons. */
  datatype Button = AddButton | ReportButton | DeleteButton | EditButton

  /** The HTTP requests the bot sends. */
  datatype Request =
    | AddRequest(name: string, date: string, amount: real)   // POST /expenses
    | ReportRequest(startDate: string, endDate: string)      // GET /report
    | DeleteRequest(id: int)                                 // DELETE /expenses/{id}
    | UpdateRequest(id: int, newName: string, amount: real)  // PUT /expenses/{id}
    | ListRequest                                            // GET /expenses

  /** The result of one handler: next configuration and the request sent. */
  datatype Outcome = Outcome(config: Config, request: Option<Request>)

  /** Requests that end a flow (everything but the listing). */
  predicate Final(q: Request) {
    !q.ListRequest?
  }

  /** What each state needs from the data for its handler not to raise
      KeyError; with no state set, the data is empty. */
  predicate Consistent(c: Config) {
    match c.state
    case Idle => c.data == Empty
    case ExpDate => c.data.name.Some?
    case ExpAmount => c.data.name.Some? && c.data.date.Some?
    case RepEnd => c.data.startDate.Some?
    case EditName => c.data.expenseId.Some?
    case EditAmount => c.data.expenseId.Some? && c.data.newName.Some?
    case _ => true
  }

  /** A handler that did nothing: same configuration, no request. */
  function Stay(c: Config): Outcome {
    Outcome(c, None)
  }

  /** The menu handlers: enter the first state of a flow. The data is not
      cleared; the delete and edit flows list the expenses first. */
  function Press(c: Config, b: Button): (r: Outcome)
    ensures r.config.data == c.data
    ensures r.config.state == match b
      case AddButton => ExpName
      case ReportButton => RepStart
      case DeleteButton => DelId
      case EditButton => EditId
    ensures r.request.Some? <==> b.DeleteButton? || b.EditButton?
    ensures r.request.Some? ==> r.request == Some(ListRequest)
    ensures r.config.state != Idle && Consistent(r.config)
  {
    match b
    case AddButton => Outcome(Config(ExpName, c.data), None)
    case ReportButton => Outcome(Config(RepStart, c.data), None)
    case DeleteButton => Outcome(Config(DelId, c.data), Some(ListRequest))
    case EditButton => Outcome(Config(EditId, c.data), Some(ListRequest))
  }

  /** ExpenseState.name: any text is the name. */
  function OnExpName(d: Data, text: string): Outcome {
    Outcome(Config(ExpDate, d.(name := Some(text))), None)
  }

  /** ExpenseState.date: keep a parseable date, else ask again. */
  function OnExpDate(p: Parsers, d: Data, text: string): Outcome {
    if p.isDate(text) then Outcome(Config(ExpAmount, d.(date := Some(text))), None)
    else Stay(Config(ExpDate, d))
  }

  /** ExpenseState.amount: on a number, post the expense and clear. */
  function OnExpAmount(p: Parsers, d: Data, text: string): Outcome {
    match p.number(text)
    case None => Stay(Config(ExpAmount, d))
    case Some(amount) =>
      if d.name.Some? && d.date.Some? then
        Outcome(Cleared, Some(AddRequest(d.name.value, d.date.value, amount)))
      else Stay(Config(ExpAmount, d))  // data["name"] or data["date"] raised KeyError
  }

  /** ReportState.start_date: keep a parseable date, else ask again. */
  function OnRepStart(p: Parsers, d: Data, text: string): Outcome {
    if p.isDate(text) then Outcome(Config(RepEnd, d.(startDate := Some(text))), None)
    else Stay(Config(RepStart, d))
  }

  /** ReportState.end_date: on a parseable date, ask for the report and clear. */
  function OnRepEnd(p: Parsers, d: Data, text: string): Outcome {
    if !p.isDate(text) then Stay(Config(RepEnd, d))
    else if d.startDate.Some? then Outcome(Cleared, Some(ReportRequest(d.startDate.value, text)))
    else Stay(Config(RepEnd, d))  // data["start_date"] raised KeyError
  }

  /** DeleteExpenseState.expense_id: on an integer, delete it and clear. */
  function OnDelId(p: Parsers, d: Data, text: string): Outcome {
    match p.integer(text)
    case None => Stay(Config(DelId, d))
    case Some(id) => Outcome(Cleared, Some(DeleteRequest(id)))
  }

  /** Whether `id` is among the listed expenses (the `next(...)` search). */
  predicate IsListed(listing: seq<Listed>, id: int) {
    exists i :: 0 <= i < |listing| && listing[i].id == id
  }

  /** EditExpenseState.expense_id: on an integer, remember it and list the
      expenses; move on only when the id is among them. */
  function OnEditId(p: Parsers, d: Data, text: string, listing: seq<Listed>): Outcome {
    match p.integer(text)
    case None => Stay(Config(EditId, d))
    case Some(id) =>
      var d' := d.(expenseId := Some(id));
      if IsListed(listing, id) then Outcome(Config(EditName, d'), Some(ListRequest))
      else Outcome(Config(EditId, d'), Some(ListRequest))
  }

  /** EditExpenseState.new_name: any text is the new name. */
  function OnEditName(d: Data, text: string): Outcome {
    Outcome(Config(EditAmount, d.(newName := Some(text))), None)
  }

  /** EditExpenseState.new_amount: on a number, send the update and clear. */
  function OnEditAmount(p: Parsers, d: Data, text: string): Outcome {
    match p.number(text)
    case None => Stay(Config(EditAmount, d))
    case Some(amount) =>
      if d.expenseId.Some? && d.newName.Some? then
        Outcome(Cleared, Some(UpdateRequest(d.expenseId.value, d.newName.value, amount)))
      else Stay(Config(EditAmount, d))  // data["expense_id"] or data["new_name"] raised KeyError
  }

  /** A text message, dispatched on the state filter. With no state set no
      handler matches. `listing` is what GET /expenses answers, read only in
      the edit flow. */
  function Receive(p: Parsers, c: Config, text: string, listing: seq<Listed>): (r: Outcome)
    ensures Consistent(c) ==> Consistent(r.config)
    ensures r.request.Some? && Final(r.request.value) ==> r.config == Cleared
    ensures c.state == Idle ==> r == Stay(c)
  {
    match c.state
    case Idle => Stay(c)
    case ExpName => OnExpName(c.data, text)
    case ExpDate => OnExpDate(p, c.data, text)
    case ExpAmount => OnExpAmount(p, c.data, text)
    case RepStart => OnRepStart(p, c.data, text)
    case RepEnd => OnRepEnd(p, c.data, text)
    case DelId => OnDelId(p, c.data, text)
    case EditId => OnEditId(p, c.data, text, listing)
    case EditName => OnEditName(c.data, text)
    case EditAmount => OnEditAmount(p, c.data, text)
  }

  /** The text is refused by the check of state `s` (strptime, float or int
      raised ValueError). The name states accept any text. */
  predicate Rejects(p: Parsers, s: State, text: string) {
    match s
    case ExpDate | RepStart | RepEnd => !p.isDate(text)
    case ExpAmount | EditAmount => p.number(text).None?
    case DelId | EditId => p.integer(text).None?
    case _ => false
  }

  /** A refused text changes nothing and sends nothing, in every state. */
  lemma RejectedTextIsIgnored(p: Parsers, c: Config, text: string, listing: seq<Listed>)
    requires Rejects(p, c.state, text)
    ensures Receive(p, c, text, listing) == Stay(c)
  {
  }

  /** In a reachable configuration of a flow, the state changes exactly when
      the text passes the state's check, except that an id the edit flow
      cannot find keeps it waiting for an id. */
  lemma StateAdvancesIffAccepted(p: Parsers, c: Config, text: string, listing: seq<Listed>)
    requires Consistent(c)
    requires c.state != Idle
    ensures Receive(p, c, text, listing).config.state != c.state
      <==> !Rejects(p, c.state, text) && !(c.state == EditId && !IsListed(listing, p.integer(text).value))
  {
  }

  /** The edit flow's quirk: an integer id that is not listed is stored, a
      listing is requested, and the bot keeps waiting for an id. */
  lemma UnknownEditIdStays(p: Parsers, d: Data, text: string, listing: seq<Listed>)
    requires p.integer(text).Some?
    requires !IsListed(listing, p.integer(text).value)
    ensures Receive(p, Config(EditId, d), text, listing)
      == Outcome(Config(EditId, d.(expenseId := p.integer(text))), Some(ListRequest))
  {
  }
}
