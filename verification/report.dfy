/**
 The report the bot builds from the backend's answer (`bot/bot.py`, the
 end-date handler): a sheet with a header row and one row per expense, and
 a caption with the running total of the `amount` fields.
 */
module Report {
  import opened Bot

  /** A sheet row: the header ("ID", name, date, amount) or one expense. */
  datatype SheetRow = HeaderRow | ExpenseRow(id: int, name: string, date: string, amount: real)

  function RowOf(e: Listed): SheetRow {
    ExpenseRow(e.id, e.name, e.date, e.amount)
  }

  /** The sum of the `amount` fields, added in list order. */
  function Total(expenses: seq<Listed>): real {
    if |expenses| == 0 then 0.0
    else Total(expenses[..|expenses| - 1]) + expenses[|expenses| - 1].amount
  }

  /** The loop over `result["expenses"]`: append one row per expense and
      add its amount to the running total. */
  method BuildReport(expenses: seq<Listed>) returns (sheet: seq<SheetRow>, total: real)
    ensures |sheet| == |expenses| + 1
    ensures sheet[0] == HeaderRow
    ensures forall i | 0 <= i < |expenses| :: sheet[i + 1] == RowOf(expenses[i])
    ensures total == Total(expenses)
  {
    sheet := [HeaderRow];
    total := 0.0;
    var i := 0;
    while i < |expenses|
      invariant 0 <= i <= |expenses|
      invariant |sheet| == i + 1
      invariant sheet[0] == HeaderRow
      invariant forall j | 0 <= j < i :: sheet[j + 1] == RowOf(expenses[j])
      invariant total == Total(expenses[..i])
    {
      assert expenses[..i + 1][..i] == expenses[..i];
      sheet := sheet + [RowOf(expenses[i])];
      total := total + expenses[i].amount;
      i := i + 1;
    }
    assert expenses[..i] == expenses;
  }

  /** The total of two lists laid end to end is the sum of their totals. */
  lemma {:induction false} TotalAppend(a: seq<Listed>, b: seq<Listed>)
    ensures Total(a + b) == Total(a) + Total(b)
    decreases |b|
  {
    if |b| == 0 {
      assert a + b == a;
    } else {
      var b' := b[..|b| - 1];
      assert (a + b)[..|a + b| - 1] == a + b';
      TotalAppend(a, b');
    }
  }

  /** A one-expense list totals that expense's amount. */
  lemma TotalSingleton(e: Listed)
    ensures Total([e]) == e.amount
  {
    assert [e][..0] == [];
  }

  /** An expense between two lists adds its amount to their joint total. */
  lemma TotalSplit(front: seq<Listed>, e: Listed, back: seq<Listed>)
    ensures Total(front + ([e] + back)) == Total(front + back) + e.amount
  {
    TotalAppend(front, [e] + back);
    TotalAppend([e], back);
    TotalAppend(front, back);
    TotalSingleton(e);
  }

  /** A list is its prefix, one element, and its suffix. */
  lemma SplitAround(b: seq<Listed>, i: int)
    requires 0 <= i < |b|
    ensures b == b[..i] + ([b[i]] + b[i + 1..])
  {
  }

  /** Taking one expense out of a list lowers the total by its amount. */
  lemma TotalRemove(b: seq<Listed>, i: int)
    requires 0 <= i < |b|
    ensures Total(b) == Total(b[..i] + b[i + 1..]) + b[i].amount
  {
    SplitAround(b, i);
    TotalSplit(b[..i], b[i], b[i + 1..]);
  }

  /** Taking one expense out of a list removes one copy of it from its multiset. */
  lemma MultisetRemove(b: seq<Listed>, i: int)
    requires 0 <= i < |b|
    ensures multiset(b) == multiset(b[..i] + b[i + 1..]) + multiset{b[i]}
  {
    var front, x, back := b[..i], [b[i]], b[i + 1..];
    assert b == (front + x) + back;
    assert multiset(b) == multiset(front) + multiset(x) + multiset(back);
  }

  /** The total does not depend on the order in which the backend lists
      the expenses: any rearrangement of the same rows has the same total. */
  lemma {:induction false} TotalPermutation(a: seq<Listed>, b: seq<Listed>)
    requires multiset(a) == multiset(b)
    ensures Total(a) == Total(b)
    decreases |a|
  {
    if |a| == 0 {
      assert |b| == |multiset(b)| == 0;
    } else {
      var x := a[|a| - 1];
      var a' := a[..|a| - 1];
      TotalRemove(a, |a| - 1);
      MultisetRemove(a, |a| - 1);
      assert a[..|a| - 1] + a[|a|..] == a';
      assert x in multiset(b);
      var i :| 0 <= i < |b| && b[i] == x;
      TotalRemove(b, i);
      MultisetRemove(b, i);
      var b' := b[..i] + b[i + 1..];
      assert multiset(a') == multiset(a) - multiset{x};
      assert multiset(b') == multiset(b) - multiset{x};
      TotalPermutation(a', b');
    }
  }
}
