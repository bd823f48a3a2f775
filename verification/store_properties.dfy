/**
 Properties that relate several expense-store operations: inverses,
 what a range query sees after each write, and the worked scenario of
 creating, updating, listing and deleting one expense.
 */
module StoreProperties {
  import opened Wrappers
  import Currency
  import opened ExpenseStore

  /** Deleting the row that was just added gives back the store from
      before the add, and returns exactly the added row. */
  lemma AddThenDeleteRestores(store: Store, rate: Option<real>, name: string, amountUah: real, date: Date)
    requires AddExpense(store, rate, name, amountUah, date).outcome.Success?
    ensures var r := AddExpense(store, rate, name, amountUah, date);
      DeleteExpense(r.store, r.outcome.value.id) == Deleted(store, Some(r.outcome.value))
  {
  }

  /** After a successful add, a range query sees what it saw before plus
      the new row exactly when the row's date lies in the range. */
  lemma AddExtendsListing(store: Store, rate: Option<real>, name: string, amountUah: real, date: Date, start: Date, end: Date)
    requires AddExpense(store, rate, name, amountUah, date).outcome.Success?
    ensures var r := AddExpense(store, rate, name, amountUah, date);
      GetExpenses(r.store, start, end)
        == GetExpenses(store, start, end) + (if DateLe(start, date) && DateLe(date, end) then {r.outcome.value} else {})
  {
  }

  /** Deleting a row removes exactly that row from every range query. */
  lemma DeleteShrinksListing(store: Store, id: int, start: Date, end: Date)
    requires WellFormed(store)
    requires id in store
    ensures GetExpenses(DeleteExpense(store, id).store, start, end) == GetExpenses(store, start, end) - {store[id]}
  {
  }

  /** An update of a missing key neither fails nor writes, whatever the
      rate fetch would have produced: the rate is never consulted. */
  lemma UpdateAbsentIgnoresRate(store: Store, rate1: Option<real>, rate2: Option<real>, id: int, name: string, amountUah: real)
    requires id !in store
    ensures UpdateExpense(store, rate1, id, name, amountUah) == UpdateExpense(store, rate2, id, name, amountUah)
    ensures UpdateExpense(store, rate1, id, name, amountUah).store == store
  {
  }

  /** Repeating an update with the same rate changes nothing further. */
  lemma UpdateIdempotent(store: Store, rate: Option<real>, id: int, name: string, amountUah: real)
    ensures var once := UpdateExpense(store, rate, id, name, amountUah);
      UpdateExpense(once.store, rate, id, name, amountUah) == once
  {
  }

  /** Widening the date range never loses a row. */
  lemma ListingMonotone(store: Store, start: Date, end: Date, start': Date, end': Date)
    requires DateLe(start', start) && DateLe(end, end')
    ensures GetExpenses(store, start, end) <= GetExpenses(store, start', end')
  {
  }

  /** The worked example: add "Groceries" for 500 UAH on 2024-01-10 at rate
      40, update it to "Groceries2" for 600 UAH, list January, delete it, and
      list January again. */
  lemma GroceriesScenario(store: Store)
    requires store == map[]
    ensures var january := (Date(2024, 1, 1), Date(2024, 1, 31));
      var added := AddExpense(store, Some(40.0), "Groceries", 500.0, Date(2024, 1, 10));
      var e := added.outcome.value;
      var updated := UpdateExpense(added.store, Some(40.0), e.id, "Groceries2", 600.0);
      var deleted := DeleteExpense(updated.store, e.id);
      && e.amountUsd == 12.5
      && updated.outcome.value == Some(Expense(e.id, "Groceries2", 600.0, 15.0, Date(2024, 1, 10)))
      && GetExpenses(updated.store, january.0, january.1) == {Expense(e.id, "Groceries2", 600.0, 15.0, Date(2024, 1, 10))}
      && deleted.removed == Some(Expense(e.id, "Groceries2", 600.0, 15.0, Date(2024, 1, 10)))
      && GetExpenses(deleted.store, january.0, january.1) == {}
  {
  }
}
