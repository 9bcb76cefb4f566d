/** The older `LedgerService` of services/ledger.py: expenses and income
    share one `ExpenseDatabase`. */
module LegacyLedgerService {
  import opened Wrappers
  import opened Model
  import opened FinanceLedger
  import opened ExpenseStore
  import opened FinanceLedgerService
  import opened DateOrder

  /** `record_income` always joins source and description. */
  function LegacyIncomeDescription(source: string, description: string): (d: string)
    ensures |d| == |source| + 2 + |description|
    ensures d[..|source|] == source && d[|source|..|source| + 2] == ": " && d[|source| + 2..] == description
  {
    source + ": " + description
  }

  /** With an empty description the two generations differ: the older one
      keeps a dangling separator. */
  lemma EmptyDescriptionDiffers(source: string)
    ensures LegacyIncomeDescription(source, "") == source + ": "
    ensures IncomeDescription(source, "") == source
    ensures LegacyIncomeDescription(source, "") != IncomeDescription(source, "")
  {
    assert |LegacyIncomeDescription(source, "")| != |source|;
  }

  predicate AllCategorized(expenses: seq<Transaction>) {
    forall i :: 0 <= i < |expenses| ==> expenses[i].category.Some?
  }

  /** The loop of `format_history_report`: one line per record, failing on
      the first record without a category. */
  method EntryLines(expenses: seq<Transaction>) returns (r: Result<seq<ReportLine>, Error>)
    ensures r.Failure? <==> !AllCategorized(expenses)
    ensures r.Failure? ==> r.error.AttributeError?
    ensures r.Success? ==> |r.value| == |expenses| && forall i :: 0 <= i < |expenses| ==> r.value[i] == EntryOf(expenses[i])
  {
    var lines: seq<ReportLine> := [];
    var i := 0;
    while i < |expenses|
      invariant 0 <= i <= |expenses|
      invariant |lines| == i && forall j :: 0 <= j < i ==> lines[j] == EntryOf(expenses[j])
      invariant forall j :: 0 <= j < i ==> expenses[j].category.Some?
    {
      var e := expenses[i];
      if e.category.None? {
        return Failure(AttributeError("'NoneType' object has no attribute 'value'"));
      }
      lines := lines + [EntryOf(e)];
      i := i + 1;
    }
    r := Success(lines);
  }

  /** The totals the older report prints: income and spending summed from
      the one list, and their difference. */
  function TotalsFooter(expenses: seq<Transaction>): seq<ReportLine> {
    var income, spent := CalculateTotalIncome(expenses), CalculateTotalSpending(expenses);
    Footer(income, spent, income - spent)
  }

  /** `format_history_report`. */
  method FormatHistoryReport(category: Option<Category>, expenses: seq<Transaction>)
    returns (r: Result<seq<ReportLine>, Error>)
    ensures expenses == [] ==> r == Success([Plain(NoRecords(category))])
    ensures r.Failure? <==> !AllCategorized(expenses)
    ensures r.Failure? ==> r.error.AttributeError?
    ensures r.Success? && expenses != [] ==>
              && |r.value| == |expenses| + 8
              && r.value[..3] == Header(category)
              && (forall i :: 0 <= i < |expenses| ==> r.value[3 + i] == EntryOf(expenses[i]))
              && r.value[3 + |expenses|..] == TotalsFooter(expenses)
  {
    if expenses == [] {
      return Success([Plain(NoRecords(category))]);
    }
    var lines := EntryLines(expenses);
    if lines.Failure? {
      return Failure(lines.error);
    }
    var heading := Header(category);
    var footer := TotalsFooter(expenses);
    HeadingThenEntries(heading, lines.value, expenses);
    FooterKeepsLines(category, expenses, heading + lines.value, footer);
    r := Success(heading + lines.value + footer);
  }

  lemma HeadingThenEntries(heading: seq<ReportLine>, entries: seq<ReportLine>, expenses: seq<Transaction>)
    requires |heading| == 3 && |entries| == |expenses|
    requires forall i :: 0 <= i < |expenses| ==> entries[i] == EntryOf(expenses[i])
    ensures (heading + entries)[..3] == heading
    ensures forall i :: 0 <= i < |expenses| ==> (heading + entries)[3 + i] == EntryOf(expenses[i])
  {
  }

  /** The totals of the older report are the ledger's inflow, outflow and
      net cash flow, as in the newer report. */
  lemma SameFooterAsLedger(expenses: seq<Transaction>)
    ensures TotalsFooter(expenses) == LedgerFooter(expenses)
  {
    TotalsPartition(expenses);
  }

  class LegacyLedgerService {
    const db: ExpenseDatabase

    constructor (db: ExpenseDatabase)
      ensures this.db == db
    {
      this.db := db;
    }

    /** `record_transaction`: one expense, dated `now`, through
        `add_expense`; a non-positive amount is refused before the store is
        reached. */
    method RecordTransaction(amount: real, category: Category, description: string, now: int)
      returns (r: Result<Transaction, Error>)
      modifies db`rows, db`nextId, db`requests
      ensures amount <= 0.0 ==> r.Failure? && r.error.ValidationError? && db.rows == old(db.rows)
      ensures amount > 0.0 && !db.configured ==> r == Failure(ValueError(NotConfigured)) && db.rows == old(db.rows)
      ensures amount > 0.0 && db.configured && db.fault.Some? ==> r == Failure(db.fault.value) && db.rows == old(db.rows)
      ensures amount > 0.0 && db.configured && db.fault.None? ==>
                && db.rows == old(db.rows) + [Stored(old(db.nextId), Payload(amount, category, description, now,
                                                     if db.hasTypeColumn then Some(TxType.Expense) else None))]
                && r.Success? && r.value.txType == TxType.Expense && r.value.amount == amount
                && r.value.category == Some(category) && r.value.description == description
    {
      var t := NewTransaction(None, TxType.Expense, amount, Some(category), description, now);
      if t.Failure? {
        return Failure(t.error);
      }
      r := db.AddExpense(t.value);
    }

    /** `record_income`: one income of category income through the same
        `add_expense`, described as "source: description". */
    method RecordIncome(amount: real, source: string, description: string, now: int)
      returns (r: Result<Transaction, Error>)
      modifies db`rows, db`nextId, db`requests
      ensures amount <= 0.0 ==> r.Failure? && r.error.ValidationError? && db.rows == old(db.rows)
      ensures amount > 0.0 && !db.configured ==> r == Failure(ValueError(NotConfigured)) && db.rows == old(db.rows)
      ensures amount > 0.0 && db.configured && db.fault.Some? ==> r == Failure(db.fault.value) && db.rows == old(db.rows)
      ensures amount > 0.0 && db.configured && db.fault.None? ==>
                && db.rows == old(db.rows) + [Stored(old(db.nextId),
                                                     Payload(amount, Category.Income, LegacyIncomeDescription(source, description), now,
                                                             if db.hasTypeColumn then Some(TxType.Income) else None))]
                && r.Success? && r.value.txType == TxType.Income && r.value.category == Some(Category.Income)
    {
      var t := NewTransaction(None, TxType.Income, amount, Some(Category.Income), source + ": " + description, now);
      if t.Failure? {
        return Failure(t.error);
      }
      r := db.AddExpense(t.value);
    }

    /** `get_transaction_history`: the category listing when a category is
        given, every record otherwise. */
    function GetTransactionHistory(category: Option<Category>): (r: Result<seq<Transaction>, Error>)
      reads db
      ensures category.Some? ==> r == db.GetExpensesByCategory(category.value)
      ensures category.None? ==> r == db.GetAllExpenses()
      ensures r.Success? ==> SortedDesc(r.value) && AllValid(r.value)
      ensures r.Success? && category.Some? ==>
                forall t :: t in r.value <==> exists row :: row in db.rows && row.category == category.value && t == ToTransaction(row)
      ensures r.Success? && category.None? ==>
                forall t :: t in r.value <==> exists row :: row in db.rows && t == ToTransaction(row)
    {
      if category.Some? then
        CategoryListing(db.rows, category.value);
        db.GetExpensesByCategory(category.value)
      else
        ListingMembers(db.rows);
        db.GetAllExpenses()
    }
  }
}
