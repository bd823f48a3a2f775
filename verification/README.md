# MoneyGuardBot expense core in Dafny

This project models the two pieces of logic at the heart of MoneyGuardBot,
a personal-expense tracker that stores amounts in hryvnia (UAH) together
with their dollar (USD) equivalent at the exchange rate of the day.

* **The expense store** (`backend/app/crud.py`). The `expenses` table is a
  map from primary key to row (`ExpenseStore.Store`). The four operations
  are pure functions from a store to the store after the commit plus what
  the operation returns: `add_expense`, `get_expenses`, `delete_expense`,
  `update_expense`. The exchange rate is an input of type `Option<real>`.
  `None` stands for the `ValueError` that the rate scraper raises. The
  conversion `round(amount_uah / rate, 2)` is `Currency.ToUsd`: the exact
  quotient rounded to the nearest cent, ties to the even cent, as Python's
  `round` does. A zero rate makes the division raise `ZeroDivisionError`
  before anything is committed. It is modelled as a second failure,
  `DivisionByZero`, rather than excluded by a precondition. The database
  assigns "some key not in use". The model picks it by choice from the
  keys proved free, so nothing depends on keys growing.
* **The chat-bot conversation** (`bot/bot.py`). The aiogram FSM is an
  explicit state enum (`Bot.State`), the FSM data dictionary is a record of
  optional slots (`Bot.Data`), and each state-filtered handler is one
  transition function. A transition yields the next configuration and at
  most one backend request (`Bot.Request`). The library checks
  `strptime(text, "%d.%m.%Y")`, `float(text)` and `int(text)` are
  parameters (`Bot.Parsers`). The list GET /expenses returns during the
  edit flow is a parameter too. A handler that looks up a data key the
  conversation never stored raises KeyError. The model treats that as a
  step that changes nothing and sends nothing, and
  `Conversation.RunKeepsConsistent` shows it cannot happen. `Conversation.Run` strings steps together
  into whole conversations. `Report.BuildReport` is the loop that builds
  the report sheet and its running total.

Files: `wrappers.dfy` (Option, Result), `currency.dfy`, `store.dfy`,
`store_properties.dfy`, `bot.dfy`, `report.dfy`, `conversation.dfy`.

## Model

| member | source | states |
|---|---|---|
| Currency.RoundCents | backend/app/crud.py:9 | the whole number of cents is within half a cent of the amount, and an exact tie goes to the even cent |
| Currency.ToUsd | backend/app/crud.py:9 | the stored USD amount is a whole number of cents, differs from amount_uah / rate by at most 0.005, and an exact tie goes to the even cent |
| Currency.ToUsdExact | backend/app/crud.py:9 | a quotient that already is a whole number of cents is stored unchanged |
| ExpenseStore.Convert | backend/app/crud.py:8-9 | a failed fetch gives RateUnavailable and a zero rate gives DivisionByZero; otherwise the result is ToUsd at the fetched rate |
| ExpenseStore.FreshIdExists | backend/app/database.py:20 | an unused primary key always exists, so an insert can always get one |
| ExpenseStore.AddExpense | backend/app/crud.py:7-14 | it fails exactly when the rate fetch fails or the rate is zero, and then the store is unchanged; on success the new row has a key not previously used, the given name, amount_uah and date, and amount_usd = ToUsd(amount_uah, rate); the store gains exactly that key, and every earlier row is untouched; key/id agreement is preserved |
| ExpenseStore.GetExpenses | backend/app/crud.py:16-18 | a row is returned if and only if it is stored and start <= date <= end, both ends inclusive; the answer is empty when start > end |
| ExpenseStore.DeleteExpense | backend/app/crud.py:20-25 | on an absent key it returns None and the store is unchanged; on a present key it returns that row and removes exactly that key, shrinking the store by one and leaving other rows untouched |
| ExpenseStore.UpdateExpense | backend/app/crud.py:27-36 | on an absent key it returns None and writes nothing; if the rate fails for a present key, nothing is written; otherwise the row keeps its id and date, takes the new name and amount_uah, gets amount_usd = ToUsd(amount_uah, rate), is returned, and every other row and the key set are unchanged |
| StoreProperties.AddThenDeleteRestores | backend/app/crud.py:7-25 | deleting the row just added returns exactly that row and restores the store from before the add |
| StoreProperties.AddExtendsListing | backend/app/crud.py:7-18 | after an add, every range query returns its old answer plus the new row, and it gains the row exactly when the row's date is in range |
| StoreProperties.DeleteShrinksListing | backend/app/crud.py:16-25 | after a delete, every range query returns its old answer minus exactly the deleted row |
| StoreProperties.UpdateAbsentIgnoresRate | backend/app/crud.py:27-30 | updating an absent key gives the same answer whatever the rate fetch would return, and the store is unchanged |
| StoreProperties.UpdateIdempotent | backend/app/crud.py:27-36 | repeating an update with the same arguments and rate changes nothing more |
| StoreProperties.ListingMonotone | backend/app/crud.py:16-18 | widening the date range never drops a row |
| StoreProperties.GroceriesScenario | backend/app/crud.py:7-36 | add 500 UAH at rate 40 stores 12.5 USD; updating to 600 UAH stores 15.0 USD and keeps the date; January's listing then holds just that row; delete returns it, and January is empty afterwards |
| Bot.Press | bot/bot.py:98-101 | a menu button (this handler and the ones at lines 140-143, 194-213 and 228-247) enters its flow's first state (ExpName, RepStart, DelId, EditId) without touching the data; a request is sent if and only if the button is delete or edit, and it is the listing; the result is always a consistent configuration |
| Bot.Receive | bot/bot.py:104-295 | a text handler keeps the data consistent with the state; every final request (add, report, delete, update) is followed by state.clear(); with no state set, nothing happens |
| Bot.RejectedTextIsIgnored | bot/bot.py:111-295 | a text that strptime, float or int rejects leaves state and data unchanged and sends nothing, in every state |
| Bot.StateAdvancesIffAccepted | bot/bot.py:104-295 | in a consistent configuration of a flow, the state changes if and only if the text passes the state's check, except that an id the edit flow cannot find keeps it in EditId |
| Bot.UnknownEditIdStays | bot/bot.py:250-271 | an integer id missing from the listing is stored as expense_id, the listing is requested, and the state stays EditId |
| Conversation.RunKeepsConsistent | bot/bot.py:104-295 | every configuration reachable from a consistent one is consistent, so the data lookups in the amount, end-date and edit handlers never raise KeyError |
| Conversation.RetriesChangeNothing | bot/bot.py:111-295 | any number of rejected texts leave the conversation where it was and send nothing |
| Conversation.AmountPostsExpense | bot/bot.py:122-137 | in a reachable ExpAmount configuration, a number posts the stored name and date with that amount, then clears |
| Conversation.AmountSendsUpdate | bot/bot.py:281-295 | in a reachable EditAmount configuration, a number sends the update for the stored expense_id and new_name with that amount, then clears |
| Conversation.AddConversation | bot/bot.py:98-137 | button, name, valid date and number end cleared, having sent exactly one add request with that name, date and amount |
| Conversation.ReportConversation | bot/bot.py:140-191 | button, valid start date and valid end date end cleared, having sent exactly one report request for (start, end) |
| Conversation.DeleteConversation | bot/bot.py:194-225 | button and an integer id end cleared, having sent the listing request and then a delete request for that id |
| Conversation.EditConversation | bot/bot.py:228-295 | button, a listed integer id, a new name and a number end cleared, having sent two listing requests and then an update with that id, name and amount |
| Report.BuildReport | bot/bot.py:166-179 | the sheet is the header followed by one row per returned expense, in order, and the caption total is the sum of their amounts |
| Report.TotalAppend | bot/bot.py:169-179 | the total of two lists laid end to end is the sum of their totals |
| Report.TotalPermutation | bot/bot.py:169-179 | the exact (real-number) total does not depend on the order in which the backend lists the expenses |

## Left out

- The rate scraper (`backend/app/currency.py`) makes an HTTP GET, uses BeautifulSoup and calls `float`. It is network I/O and a foreign library, so only its outcome (`Some(rate)` or `None` for ValueError) enters the model.
- Currency.ToUsd: rounds the exact real quotient, not the binary floating-point one; NaN and infinite rates are not modelled.
- Report.BuildReport: the total is an exact real sum, not a float accumulation.
- Report.TotalPermutation: holds for the exact real sum only; the float accumulation `total_amount += expense["amount"]` can round differently in another order.
- ExpenseStore.GetExpenses: returns a set, not the list `result.scalars().all()` gives. The query has no ORDER BY, so the list order is unspecified, and rows are distinct by primary key.
- HTTP routing and validation (`backend/app/main.py`) are left out. Its mapping of None to a 404 response is the store's `None` result.
- Engine and session plumbing (`backend/app/database.py`, `backend/app/dependencies.py`) are left out. Only the row shape is kept. SQLite's key allocation is "some unused key", not an increasing counter.
- `update_expense` assigns name and amount_uah to the session object before the division can raise. The session is then never committed, so the model shows the store unchanged.
- Dates are (year, month, day) triples compared lexicographically, as SQLite compares its ISO date strings; calendar validity is not checked.
- Bot I/O is left out: aiohttp calls, openpyxl workbooks, temporary files, keyboards, the reply texts and the `/start` greeting (which changes no state). Backend replies that lack `"message"` or fail to decode are also left out.
- Which handler wins when a menu-button text arrives inside a flow depends on aiogram's registration order. That is not modelled; a button press is a separate event that works from every state.
- A message without text (`message.text` is None) is not modelled.
- The wire contract between bot and backend is not modelled. The bot sends `amount`/`date` and calls `/report` and an unfiltered GET `/expenses`, none of which match the backend's schema or routes. Each side is modelled on its own.
- async/await and concurrency are left out: every handler and store operation is one sequential step.
