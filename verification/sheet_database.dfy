/** `GoogleSheetDatabase` of data/gsheet.py. The worksheet is a list of rows
    held by the object: a header row, then one row per record. Cell
    rendering (ISO dates, numbers as text) is not modelled. */
module SheetStore {
  import opened Wrappers
  import opened Model
  import opened FinanceLedger
  import opened DateOrder
  import opened Repository

  /** The cells of a record row. */
  datatype Entry = Entry(id: int, date: int, category: Category, amount: real, description: string)

  /** A worksheet row: the header, or a record. */
  datatype SheetRow = HeaderRow | EntryRow(entry: Entry)

  /** The header the store writes. */
  const HeaderCells: seq<string> := ["ID", "Date", "Category", "Amount", "Description"]

  const NotConfigured :=
    "Google Sheets is not configured or accessible. Check GSHEET_CREDENTIALS_FILE and GSHEET_ID."

  /** A header row, then records only. */
  predicate WellFormed(rows: seq<SheetRow>) {
    |rows| >= 1 && rows[0] == HeaderRow && forall i :: 1 <= i < |rows| ==> rows[i].EntryRow?
  }

  /** The record a row is read back as. The sheet stores no type, so every
      record reads back as an expense. */
  function ToTransaction(e: Entry): Transaction {
    Transaction(Some(e.id), TxType.Expense, e.amount, Some(e.category), e.description, e.date)
  }

  /** `get_all_records()` converted: the rows under the header, in sheet order. */
  function Records(rows: seq<SheetRow>): (r: seq<Transaction>)
    requires WellFormed(rows)
    ensures |r| == |rows| - 1
    ensures forall i :: 0 <= i < |r| ==> r[i] == ToTransaction(rows[i + 1].entry)
  {
    seq(|rows| - 1, i requires 0 <= i < |rows| - 1 => ToTransaction(rows[i + 1].entry))
  }

  lemma {:induction false} InsertTotal(x: Transaction, s: seq<Transaction>)
    ensures Total(Insert(x, s)) == x.amount + Total(s)
    decreases |s|
  {
    if |s| > 0 && s[0].date >= x.date {
      InsertTotal(x, s[1..]);
      assert Insert(x, s)[1..] == Insert(x, s[1..]);
    } else if |s| > 0 {
      assert ([x] + s)[1..] == s;
    }
  }

  lemma {:induction false} TotalAppend(a: seq<Transaction>, x: Transaction)
    ensures Total(a + [x]) == Total(a) + x.amount
    decreases |a|
  {
    if |a| > 0 {
      assert (a + [x])[1..] == a[1..] + [x];
      TotalAppend(a[1..], x);
    }
  }

  /** Sorting does not change the sum of the amounts. */
  lemma {:induction false} SortKeepsTotal(s: seq<Transaction>)
    ensures Total(SortByDateDesc(s)) == Total(s)
    decreases |s|
  {
    if |s| > 0 {
      var p, x := s[..|s| - 1], s[|s| - 1];
      SortKeepsTotal(p);
      InsertTotal(x, SortByDateDesc(p));
      assert s == p + [x];
      TotalAppend(p, x);
    }
  }

  /** A total of valid records is positive exactly when there is a record. */
  lemma {:induction false} TotalOfValid(s: seq<Transaction>)
    requires AllValid(s)
    ensures Total(s) >= 0.0
    ensures Total(s) > 0.0 <==> |s| > 0
    decreases |s|
  {
    if |s| > 0 {
      assert AllValid(s[1..]) by {
        forall i | 0 <= i < |s| - 1
          ensures Valid(s[1..][i])
        {
          assert s[1..][i] == s[i + 1];
        }
      }
      TotalOfValid(s[1..]);
      assert Valid(s[0]);
    }
  }

  /** Filtering a newest-first list keeps it newest first. */
  lemma {:induction false} WithCategorySorted(s: seq<Transaction>, c: Category)
    requires SortedDesc(s)
    ensures SortedDesc(WithCategory(s, c))
    decreases |s|
  {
    if |s| > 0 {
      WithCategorySorted(s[1..], c);
      var r := WithCategory(s[1..], c);
      forall j | 0 <= j < |r|
        ensures s[0].date >= r[j].date
      {
        assert r[j] in s[1..];
      }
    }
  }

  class GoogleSheetDatabase {
    /** `self.sheet` is not None. */
    var connected: bool
    var rows: seq<SheetRow>

    predicate Valid()
      reads this
    {
      connected ==> WellFormed(rows)
    }

    /** `__init__`: without both settings, or when connecting fails, the
        store starts unconnected instead of raising; a missing worksheet is
        created holding the header alone. `existing` is the records of the
        worksheet when it exists. */
    constructor (configured: bool, connects: bool, existing: Option<seq<Entry>>)
      ensures Valid()
      ensures connected <==> configured && connects
      ensures connected && existing.None? ==> rows == [HeaderRow]
      ensures connected && existing.Some? ==>
                |rows| == |existing.value| + 1 && forall i :: 0 <= i < |existing.value| ==> rows[i + 1] == EntryRow(existing.value[i])
    {
      if !configured || !connects {
        connected := false;
        rows := [];
      } else if existing.None? {
        connected := true;
        rows := [HeaderRow];
      } else {
        connected := true;
        rows := [HeaderRow] + seq(|existing.value|, i requires 0 <= i < |existing.value| => EntryRow(existing.value[i]));
      }
    }

    /** `add_expense`: one row, identified by the current timestamp `now`,
        is appended, and the record takes that id. */
    method AddExpense(expense: Transaction, now: int) returns (r: Result<Transaction, Error>)
      requires Valid()
      modifies this`rows
      ensures Valid()
      ensures !connected ==> r == Failure(ValueError(NotConfigured)) && rows == old(rows)
      ensures connected && expense.category.None? ==> r.Failure? && r.error.AttributeError? && rows == old(rows)
      ensures connected && expense.category.Some? ==>
                && rows == old(rows) + [EntryRow(Entry(now, expense.date, expense.category.value, expense.amount, expense.description))]
                && r == Success(expense.(id := Some(now)))
    {
      if !connected {
        return Failure(ValueError(NotConfigured));
      }
      if expense.category.None? {
        return Failure(AttributeError("'NoneType' object has no attribute 'value'"));
      }
      var expenseId := now;
      rows := rows + [EntryRow(Entry(expenseId, expense.date, expense.category.value, expense.amount, expense.description))];
      r := Success(expense.(id := Some(expenseId)));
    }

    /** `get_all_expenses`: one record per row under the header, newest
        first. Each record is built in turn, and the first row whose amount
        the record refuses makes the whole read raise. */
    method GetAllExpenses() returns (r: Result<seq<Transaction>, Error>)
      requires Valid()
      ensures !connected ==> r == Failure(ValueError(NotConfigured))
      ensures connected ==> (r.Success? <==> AllValid(Records(rows)))
      ensures connected && r.Failure? ==> r == Failure(ValidationError(AmountMessage))
      ensures r.Success? ==> r.value == SortByDateDesc(Records(rows)) && AllValid(r.value)
    {
      if !connected {
        return Failure(ValueError(NotConfigured));
      }
      var expenses: seq<Transaction> := [];
      var i := 1;
      while i < |rows|
        invariant 1 <= i <= |rows|
        invariant expenses == Records(rows)[..i - 1]
        invariant AllValid(expenses)
      {
        var e := rows[i].entry;
        var t := NewTransaction(Some(e.id), TxType.Expense, e.amount, Some(e.category), e.description, e.date);
        if t.Failure? {
          assert Records(rows)[i - 1].amount <= 0.0;
          return Failure(t.error);
        }
        expenses := expenses + [t.value];
        i := i + 1;
      }
      assert expenses == Records(rows);
      SortByDateDescSpec(expenses);
      AllValidPermutation(expenses, SortByDateDesc(expenses));
      r := Success(SortByDateDesc(expenses));
    }

    /** `get_expenses_by_category`: the full listing filtered, in the same
        order; it fails whenever the full listing does. */
    method GetExpensesByCategory(c: Category) returns (r: Result<seq<Transaction>, Error>)
      requires Valid()
      ensures !connected ==> r == Failure(ValueError(NotConfigured))
      ensures connected ==> (r.Success? <==> AllValid(Records(rows)))
      ensures connected && r.Failure? ==> r == Failure(ValidationError(AmountMessage))
      ensures r.Success? ==> r.value == WithCategory(SortByDateDesc(Records(rows)), c)
      ensures r.Success? ==> SortedDesc(r.value) && forall t :: t in r.value ==> t.category == Some(c)
    {
      var all := GetAllExpenses();
      if all.Failure? {
        return Failure(all.error);
      }
      SortByDateDescSpec(Records(rows));
      WithCategorySorted(all.value, c);
      r := Success(WithCategory(all.value, c));
    }

    /** `get_total_spending`: the sum of the record amounts, 0 when only the
        header is left; it fails whenever the full listing does. */
    method GetTotalSpending() returns (r: Result<real, Error>)
      requires Valid()
      ensures !connected ==> r == Failure(ValueError(NotConfigured))
      ensures connected ==> (r.Success? <==> AllValid(Records(rows)))
      ensures connected && r.Failure? ==> r == Failure(ValidationError(AmountMessage))
      ensures r.Success? ==> r.value == Total(Records(rows))
      ensures r.Success? ==> (r.value > 0.0 <==> |rows| > 1)
      ensures connected && rows == [HeaderRow] ==> r == Success(0.0)
    {
      var all := GetAllExpenses();
      if all.Failure? {
        return Failure(all.error);
      }
      SortKeepsTotal(Records(rows));
      TotalOfValid(Records(rows));
      r := Success(Total(all.value));
    }

    /** `clear_all`: the sheet is emptied and the header written back. */
    method ClearAll() returns (r: Result<(), Error>)
      requires Valid()
      modifies this`rows
      ensures Valid()
      ensures !connected ==> r == Failure(ValueError(NotConfigured)) && rows == old(rows)
      ensures connected ==> r.Success? && rows == [HeaderRow]
    {
      if !connected {
        return Failure(ValueError(NotConfigured));
      }
      rows := [];
      rows := rows + [HeaderRow];
      r := Success(());
    }
  }
}
