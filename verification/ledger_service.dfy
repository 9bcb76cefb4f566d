/** `LedgerService` of finance/services/ledger.py: expenses and income live
    in two repositories; the history merges them. */
module FinanceLedgerService {
  import opened Wrappers
  import opened Text
  import opened Model
  import opened FinanceLedger
  import opened DateOrder
  import opened Repository

  /** One line of the history report. Amounts and dates are kept as values:
      their rendering (`%Y-%m-%d`, `>8.2f`, padding to 12) is not modelled. */
  datatype ReportLine =
    | Plain(text: string)
    | Entry(date: int, sign: char, amount: real, categoryLabel: string, description: string)
    | TotalLine(caption: string, value: real)

  /** The name of the category in the empty report and in the title. */
  function CategoryName(category: Option<Category>): string {
    if category.Some? then CategoryValue(category.value) else "all categories"
  }

  function Title(category: Option<Category>): string {
    "LEDGER REPORT: " + (if category.Some? then Upper(CategoryValue(category.value)) else "ALL TRANSACTIONS")
  }

  function NoRecords(category: Option<Category>): string {
    "No records found for " + CategoryName(category) + "."
  }

  function Header(category: Option<Category>): seq<ReportLine> {
    [Plain(Repeat('=', 40)), Plain(Title(category)), Plain(Repeat('=', 40))]
  }

  /** The line of one transaction: `+` for income, `-` otherwise, and "N/A"
      for a transaction without a category. */
  function EntryOf(t: Transaction): ReportLine {
    Entry(t.date, if t.txType == TxType.Income then '+' else '-', t.amount,
          if t.category.Some? then CategoryValue(t.category.value) else "N/A", t.description)
  }

  function Footer(income: real, spending: real, net: real): seq<ReportLine> {
    [Plain(Repeat('-', 40)), TotalLine("TOTAL INCOME:", income), TotalLine("TOTAL SPENDING:", spending),
     TotalLine("NET FLOW:", net), Plain(Repeat('=', 40))]
  }

  /** `calculate_total_spending`: the expense amounts only. */
  function CalculateTotalSpending(txs: seq<Transaction>): (r: real)
    ensures r == Total(OfType(txs, TxType.Expense))
  {
    AmountOfIsTotalOfFiltered(txs, TxType.Expense);
    AmountOf(txs, TxType.Expense)
  }

  /** `calculate_total_income`: the income amounts only. */
  function CalculateTotalIncome(txs: seq<Transaction>): (r: real)
    ensures r == Total(OfType(txs, TxType.Income))
  {
    AmountOfIsTotalOfFiltered(txs, TxType.Income);
    AmountOf(txs, TxType.Income)
  }

  /** The two totals split the sum of all amounts, and agree with the
      ledger's inflow and outflow. */
  lemma TotalsPartition(txs: seq<Transaction>)
    ensures CalculateTotalSpending(txs) + CalculateTotalIncome(txs) == Total(txs)
    ensures CalculateTotalIncome(txs) == Ledger(txs).Inflow()
    ensures CalculateTotalSpending(txs) == Ledger(txs).Outflow()
  {
    InflowOutflowPartition(txs);
  }

  /** The totals the report prints: the ledger's inflow, outflow and net
      cash flow. */
  function LedgerFooter(txs: seq<Transaction>): seq<ReportLine> {
    var l := Ledger(txs);
    Footer(l.Inflow(), l.Outflow(), l.NetCashflow())
  }

  /** `format_history_report`. */
  method FormatHistoryReport(category: Option<Category>, txs: seq<Transaction>) returns (report: seq<ReportLine>)
    ensures txs == [] ==> report == [Plain(NoRecords(category))]
    ensures txs != [] ==>
              && |report| == |txs| + 8
              && report[..3] == Header(category)
              && (forall i :: 0 <= i < |txs| ==> report[3 + i] == EntryOf(txs[i]))
              && report[3 + |txs|..] == LedgerFooter(txs)
  {
    if txs == [] {
      return [Plain(NoRecords(category))];
    }
    report := Header(category);
    var i := 0;
    while i < |txs|
      invariant 0 <= i <= |txs|
      invariant |report| == 3 + i && report[..3] == Header(category)
      invariant forall j :: 0 <= j < i ==> report[3 + j] == EntryOf(txs[j])
    {
      EntryAppended(category, txs, report, i);
      report := report + [EntryOf(txs[i])];
      i := i + 1;
    }
    var footer := LedgerFooter(txs);
    FooterKeepsLines(category, txs, report, footer);
    report := report + footer;
  }

  /** Appending the next entry keeps the heading and the earlier entries. */
  lemma EntryAppended(category: Option<Category>, txs: seq<Transaction>, lines: seq<ReportLine>, i: nat)
    requires i < |txs| && |lines| == 3 + i && lines[..3] == Header(category)
    requires forall j :: 0 <= j < i ==> lines[3 + j] == EntryOf(txs[j])
    ensures |lines + [EntryOf(txs[i])]| == 3 + (i + 1)
    ensures (lines + [EntryOf(txs[i])])[..3] == Header(category)
    ensures forall j :: 0 <= j < i + 1 ==> (lines + [EntryOf(txs[i])])[3 + j] == EntryOf(txs[j])
  {
    assert (lines + [EntryOf(txs[i])])[..3] == lines[..3];
  }

  /** Appending the footer keeps the heading and the entry lines in place. */
  lemma FooterKeepsLines(category: Option<Category>, txs: seq<Transaction>,
                         lines: seq<ReportLine>, footer: seq<ReportLine>)
    requires |lines| == 3 + |txs| && lines[..3] == Header(category)
    requires forall j :: 0 <= j < |txs| ==> lines[3 + j] == EntryOf(txs[j])
    ensures |lines + footer| == 3 + |txs| + |footer|
    ensures (lines + footer)[..3] == Header(category)
    ensures forall j :: 0 <= j < |txs| ==> (lines + footer)[3 + j] == EntryOf(txs[j])
    ensures (lines + footer)[3 + |txs|..] == footer
  {
    assert (lines + footer)[..3] == lines[..3];
  }

  /** The report's net line is its income line minus its spending line. */
  lemma ReportNetIsIncomeMinusSpending(txs: seq<Transaction>)
    ensures var f := LedgerFooter(txs);
            f[3].value == f[1].value - f[2].value
            && f[1].value == CalculateTotalIncome(txs) && f[2].value == CalculateTotalSpending(txs)
  {
    TotalsPartition(txs);
  }

  /** The message for an empty history. */
  lemma NoRecordsExamples()
    ensures NoRecords(None) == "No records found for all categories."
    ensures NoRecords(Some(Food)) == "No records found for food."
  {
  }

  class LedgerService {
    const expenseRepo: MemoryRepository
    const incomeRepo: MemoryRepository

    constructor (expenseRepo: MemoryRepository, incomeRepo: MemoryRepository)
      ensures this.expenseRepo == expenseRepo && this.incomeRepo == incomeRepo
    {
      this.expenseRepo := expenseRepo;
      this.incomeRepo := incomeRepo;
    }

    /** `record_expense`: one expense, dated `now`, goes to the expense
        repository; a non-positive amount is refused before anything is
        stored. */
    method RecordExpense(amount: real, category: Category, description: string, now: int)
      returns (r: Result<Transaction, Error>)
      modifies expenseRepo
      ensures r.Success? <==> amount > 0.0
      ensures r.Success? ==>
                && r.value == Transaction(None, TxType.Expense, amount, Some(category), description, now)
                && expenseRepo.items == old(expenseRepo.items) + [r.value]
      ensures r.Failure? ==> r.error.ValidationError? && expenseRepo.items == old(expenseRepo.items)
      ensures expenseRepo != incomeRepo ==> incomeRepo.items == old(incomeRepo.items)
    {
      var t := NewTransaction(None, TxType.Expense, amount, Some(category), description, now);
      if t.Failure? {
        return Failure(t.error);
      }
      var stored := expenseRepo.Add(t.value);
      r := Success(stored);
    }

    /** `record_income`: one income of category income goes to the income
        repository, described as "source: description", or as the source
        alone when the description is empty. */
    method RecordIncome(amount: real, source: string, description: string, now: int)
      returns (r: Result<Transaction, Error>)
      modifies incomeRepo
      ensures r.Success? <==> amount > 0.0
      ensures r.Success? ==>
                && r.value == Transaction(None, TxType.Income, amount, Some(Category.Income),
                                          IncomeDescription(source, description), now)
                && incomeRepo.items == old(incomeRepo.items) + [r.value]
      ensures r.Failure? ==> r.error.ValidationError? && incomeRepo.items == old(incomeRepo.items)
      ensures expenseRepo != incomeRepo ==> expenseRepo.items == old(expenseRepo.items)
    {
      var fullDesc := if description != "" then source + ": " + description else source;
      var t := NewTransaction(None, TxType.Income, amount, Some(Category.Income), fullDesc, now);
      if t.Failure? {
        return Failure(t.error);
      }
      var stored := incomeRepo.Add(t.value);
      r := Success(stored);
    }

    /** `get_transaction_history`: the income list for the income category,
        the expenses of a category for any other, and otherwise both lists
        together, newest first. */
    method GetTransactionHistory(category: Option<Category>) returns (h: seq<Transaction>)
      ensures category == Some(Category.Income) ==> h == incomeRepo.items
      ensures category.Some? && category != Some(Category.Income) ==>
                && h == expenseRepo.ListByCategory(category.value)
                && forall t :: t in h <==> t in expenseRepo.items && t.category == category
      ensures category.None? ==> h == SortByDateDesc(expenseRepo.items + incomeRepo.items)
    {
      if category.Some? {
        if category.value == Category.Income {
          return incomeRepo.items;
        }
        return expenseRepo.ListByCategory(category.value);
      }
      var expenses := expenseRepo.items;
      var income := incomeRepo.items;
      var all := expenses + income;
      h := SortByDateDesc(all);
    }
  }

  /** The description `record_income` stores. */
  function IncomeDescription(source: string, description: string): (d: string)
    ensures description == "" ==> d == source
    ensures description != "" ==> |d| == |source| + 2 + |description| && d[..|source|] == source && d[|source|..] == ": " + description
  {
    if description != "" then source + ": " + description else source
  }

  /** The merged history is newest first, holds exactly the records of both
      repositories, and on a shared date lists the expenses before the
      income. */
  lemma MergedHistory(expenses: seq<Transaction>, income: seq<Transaction>)
    ensures SortedDesc(SortByDateDesc(expenses + income))
    ensures multiset(SortByDateDesc(expenses + income)) == multiset(expenses) + multiset(income)
    ensures forall d :: OnDate(SortByDateDesc(expenses + income), d) == OnDate(expenses, d) + OnDate(income, d)
  {
    SortByDateDescSpec(expenses + income);
    forall d
      ensures OnDate(SortByDateDesc(expenses + income), d) == OnDate(expenses, d) + OnDate(income, d)
    {
      SortConcatOnDate(expenses, income, d);
    }
  }
}
