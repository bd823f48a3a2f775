/**
 The expense store of the backend (`backend/app/crud.py`): the `expenses`
 table as a map from primary key to row, and the four operations that act
 on it. Each mutating operation returns the store after its commit.

 The exchange rate is an input: `Some(rate)` is what the scrape returned,
 `None` the `ValueError` it raised. Operations that consult the rate do so
 before anything is written, so a failure leaves the store as it was.
 */
module ExpenseStore {
  import opened Wrappers
  import Currency

  /** A calendar date. Stored as an ISO string by SQLite, so it compares
      lexicographically on (year, month, day). */
  datatype Date = Date(year: int, month: int, day: int)

  predicate DateLe(a: Date, b: Date) {
    || a.year < b.year
    || (a.year == b.year && a.month < b.month)
    || (a.year == b.year && a.month == b.month && a.day <= b.day)
  }

  /** One row of the `expenses` table. */
  datatype Expense = Expense(id: int, name: string, amountUah: real, amountUsd: real, date: Date)

  /** The table, keyed by primary key. */
  type Store = map<int, Expense>

  /** Why a create or update was aborted before its commit. */
  datatype Failure =
    | RateUnavailable  // the rate fetch raised ValueError
    | DivisionByZero   // the fetched rate was 0.0

  /** The store after an operation together with what the operation returned. */
  datatype Reply<T> = Reply(store: Store, outcome: Result<T, Failure>)

  /** Every row sits under its own primary key. */
  predicate WellFormed(store: Store) {
    forall k | k in store :: store[k].id == k
  }

  /** The USD amount for `amountUah`, or the failure the conversion raises. */
  function Convert(amountUah: real, rate: Option<real>): (r: Result<real, Failure>)
    ensures rate.None? ==> r == Failure(RateUnavailable)
    ensures rate.Some? && rate.value == 0.0 ==> r == Failure(DivisionByZero)
    ensures rate.Some? && rate.value != 0.0 ==> r == Success(Currency.ToUsd(amountUah, rate.value))
  {
    match rate
    case None => Failure(RateUnavailable)
    case Some(x) => if x == 0.0 then Failure(DivisionByZero) else Success(Currency.ToUsd(amountUah, x))
  }

  /** A non-empty set of keys has a member. */
  lemma SomeKey(keys: set<int>)
    requires keys != {}
    ensures exists k :: k in keys
  {
    if forall k :: k !in keys {
      assert false;
    }
  }

  /** Every stored row sits under some key. */
  lemma SomeKeyOf(store: Store, e: Expense)
    requires e in store.Values
    ensures exists k :: k in store && store[k] == e
  {
    if forall k | k in store :: store[k] != e {
      assert false;
    }
  }

  /** A bound above every key of a finite set of keys. */
  lemma {:induction false} UpperBound(keys: set<int>) returns (b: int)
    ensures forall k | k in keys :: k < b
    decreases keys
  {
    if |keys| == 0 {
      b := 0;
    } else {
      SomeKey(keys);
      var x :| x in keys;
      var c := UpperBound(keys - {x});
      b := if c > x + 1 then c else x + 1;
      forall k | k in keys ensures k < b {
        if k != x {
          assert k in keys - {x};
        }
      }
    }
  }

  /** The database can always hand out a key that is not in use. */
  lemma FreshIdExists(store: Store)
    ensures exists id :: id !in store
  {
    var b := UpperBound(store.Keys);
    assert b !in store;
  }

  /** `add_expense`: fetch the rate, convert, insert a row under a fresh key. */
  ghost function AddExpense(store: Store, rate: Option<real>, name: string, amountUah: real, date: Date): (r: Reply<Expense>)
    ensures r.outcome.Failure? <==> rate.None? || rate.value == 0.0
    ensures r.outcome.Failure? ==> r.store == store
    ensures r.outcome.Success? ==>
      var e := r.outcome.value;
      && e.id !in store
      && e.name == name && e.amountUah == amountUah && e.date == date
      && e.amountUsd == Currency.ToUsd(amountUah, rate.value)
      && r.store.Keys == store.Keys + {e.id}
      && r.store[e.id] == e
      && |r.store| == |store| + 1
      && (forall k | k in store :: r.store[k] == store[k])
    ensures WellFormed(store) ==> WellFormed(r.store)
  {
    match Convert(amountUah, rate)
    case Failure(f) => Reply(store, Failure(f))
    case Success(usd) =>
      FreshIdExists(store);
      var id :| id !in store;
      var e := Expense(id, name, amountUah, usd, date);
      Reply(store[id := e], Success(e))
  }

  /** `get_expenses`: the rows whose date lies in `[start, end]`, both ends
      included. The query has no ORDER BY, so the answer is a set. */
  function GetExpenses(store: Store, start: Date, end: Date): (r: set<Expense>)
    ensures forall e :: e in r <==> e in store.Values && DateLe(start, e.date) && DateLe(e.date, end)
    ensures !DateLe(start, end) ==> r == {}
  {
    var r := set k | k in store && DateLe(start, store[k].date) && DateLe(store[k].date, end) :: store[k];
    assert forall e | e in store.Values && DateLe(start, e.date) && DateLe(e.date, end) :: e in r by {
      forall e | e in store.Values && DateLe(start, e.date) && DateLe(e.date, end)
        ensures e in r
      {
        SomeKeyOf(store, e);
        var k :| k in store && store[k] == e;
      }
    }
    r
  }

  /** What `delete_expense` leaves behind and returns. */
  datatype Deleted = Deleted(store: Store, removed: Option<Expense>)

  /** `delete_expense`: remove the row with key `id`, returning it, or
      return None and change nothing when there is no such row. */
  function DeleteExpense(store: Store, id: int): (r: Deleted)
    ensures id !in store ==> r.removed.None? && r.store == store
    ensures id in store ==>
      && r.removed == Some(store[id])
      && r.store.Keys == store.Keys - {id}
      && |r.store| == |store| - 1
      && (forall k | k in r.store :: r.store[k] == store[k])
    ensures WellFormed(store) ==> WellFormed(r.store)
  {
    if id in store then Deleted(store - {id}, Some(store[id])) else Deleted(store, None)
  }

  /** `update_expense`: rewrite name and amounts of the row with key `id`,
      keeping its id and date. An absent key returns None without fetching
      the rate; a failed fetch aborts before the commit. */
  function UpdateExpense(store: Store, rate: Option<real>, id: int, name: string, amountUah: real): (r: Reply<Option<Expense>>)
    ensures id !in store ==> r == Reply(store, Success(None))
    ensures id in store && (rate.None? || rate.value == 0.0) ==> r.outcome.Failure? && r.store == store
    ensures id in store && rate.Some? && rate.value != 0.0 ==>
      && r.outcome.Success?
      && r.store.Keys == store.Keys
      && r.outcome.value == Some(r.store[id])
      && r.store[id].id == store[id].id
      && r.store[id].date == store[id].date
      && r.store[id].name == name
      && r.store[id].amountUah == amountUah
      && r.store[id].amountUsd == Currency.ToUsd(amountUah, rate.value)
      && (forall k | k in store && k != id :: r.store[k] == store[k])
    ensures WellFormed(store) ==> WellFormed(r.store)
  {
    if id !in store then Reply(store, Success(None))
    else
      match Convert(amountUah, rate)
      case Failure(f) => Reply(store, Failure(f))
      case Success(usd) =>
        var e := store[id].(name := name, amountUah := amountUah, amountUsd := usd);
        Reply(store[id := e], Success(Some(e)))
  }
}
