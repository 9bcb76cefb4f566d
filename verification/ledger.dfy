/** The frozen `Ledger` of finance/ledger.py: aggregates over a list of
    transactions. Amounts are reals; dates are timestamps in seconds. */
module FinanceLedger {
  import opened Wrappers
  import opened Model
  import opened RealArith

  /** Sum of the amounts of the transactions of type `ty`, left to right:
      `sum(t.amount for t in txs if t.type == ty)`. */
  function AmountOf(txs: seq<Transaction>, ty: TxType): real
    decreases |txs|
  {
    if |txs| == 0 then 0.0
    else (if txs[0].txType == ty then txs[0].amount else 0.0) + AmountOf(txs[1..], ty)
  }

  /** Sum of all amounts. */
  function Total(txs: seq<Transaction>): real
    decreases |txs|
  {
    if |txs| == 0 then 0.0 else txs[0].amount + Total(txs[1..])
  }

  /** Sum of the signed amounts. */
  function SignedTotal(txs: seq<Transaction>): real
    decreases |txs|
  {
    if |txs| == 0 then 0.0 else SignedAmount(txs[0]) + SignedTotal(txs[1..])
  }

  /** `[t for t in txs if t.type == ty]`. */
  function OfType(txs: seq<Transaction>, ty: TxType): (r: seq<Transaction>)
    ensures |r| <= |txs|
    ensures forall i :: 0 <= i < |r| ==> r[i].txType == ty && r[i] in txs
    decreases |txs|
  {
    if |txs| == 0 then []
    else if txs[0].txType == ty then [txs[0]] + OfType(txs[1..], ty)
    else OfType(txs[1..], ty)
  }

  /** The dates of a list of transactions. */
  function Dates(txs: seq<Transaction>): (r: seq<int>)
    ensures |r| == |txs| && forall i :: 0 <= i < |txs| ==> r[i] == txs[i].date
  {
    seq(|txs|, i requires 0 <= i < |txs| => txs[i].date)
  }

  function MaxOf(s: seq<int>): (m: int)
    requires |s| > 0
    ensures m in s && forall i :: 0 <= i < |s| ==> s[i] <= m
  {
    if |s| == 1 then s[0]
    else var m := MaxOf(s[1..]); if s[0] >= m then s[0] else m
  }

  function MinOf(s: seq<int>): (m: int)
    requires |s| > 0
    ensures m in s && forall i :: 0 <= i < |s| ==> m <= s[i]
  {
    if |s| == 1 then s[0]
    else var m := MinOf(s[1..]); if s[0] <= m then s[0] else m
  }

  /** `(max(dates) - min(dates)).days`: whole days of a non-negative span. */
  function SpanDays(dates: seq<int>): (d: nat)
    requires |dates| > 0
    ensures d * 86400 <= MaxOf(dates) - MinOf(dates) < (d + 1) * 86400
  {
    (MaxOf(dates) - MinOf(dates)) / 86400
  }

  /** `max((days or 1) / 30, 1)`. */
  function MonthsOf(days: nat): (m: real)
    ensures m >= 1.0
    ensures days < 30 ==> m == 1.0
    ensures days >= 30 ==> m == days as real / 30.0
  {
    var d := if days == 0 then 1 else days;
    if d as real / 30.0 > 1.0 then d as real / 30.0 else 1.0
  }

  /** `financial_runway`: months of cover, or `float('inf')`. */
  datatype Runway = Unbounded | Months(months: real)

  datatype Ledger = Ledger(transactions: seq<Transaction>) {

    function Inflow(): real {
      AmountOf(transactions, TxType.Income)
    }

    function Outflow(): real {
      AmountOf(transactions, TxType.Expense)
    }

    function NetCashflow(): real {
      Inflow() - Outflow()
    }

    /** `average_burn_rate`: the outflow spread over the months between the
        first and the last expense, at least one month. */
    function AverageBurnRate(): (r: real)
      ensures OfType(transactions, TxType.Expense) == [] ==> r == 0.0
    {
      if |transactions| == 0 then 0.0
      else
        var expenses := OfType(transactions, TxType.Expense);
        if |expenses| == 0 then 0.0
        else Outflow() / MonthsOf(SpanDays(Dates(expenses)))
    }

    function FinancialRunway(): (r: Runway)
      ensures r.Unbounded? <==> AverageBurnRate() <= 0.0
      ensures r.Months? ==> r.months >= 0.0
    {
      var burn := AverageBurnRate();
      if burn <= 0.0 then Unbounded
      else
        var ratio := NetCashflow() / burn;
        Months(if ratio >= 0.0 then ratio else 0.0)
    }
  }

  // ----- Properties -----

  /** Every transaction is income or an expense, so inflow and outflow
      together account for every amount. */
  lemma {:induction false} InflowOutflowPartition(txs: seq<Transaction>)
    ensures AmountOf(txs, TxType.Income) + AmountOf(txs, TxType.Expense) == Total(txs)
    decreases |txs|
  {
    if |txs| > 0 {
      InflowOutflowPartition(txs[1..]);
    }
  }

  /** Net cash flow is the sum of the signed amounts. */
  lemma {:induction false} NetIsSignedTotal(txs: seq<Transaction>)
    ensures AmountOf(txs, TxType.Income) - AmountOf(txs, TxType.Expense) == SignedTotal(txs)
    decreases |txs|
  {
    if |txs| > 0 {
      NetIsSignedTotal(txs[1..]);
    }
  }

  /** Summing one type is summing the list filtered on that type. */
  lemma {:induction false} AmountOfIsTotalOfFiltered(txs: seq<Transaction>, ty: TxType)
    ensures AmountOf(txs, ty) == Total(OfType(txs, ty))
    decreases |txs|
  {
    if |txs| > 0 {
      AmountOfIsTotalOfFiltered(txs[1..], ty);
      if txs[0].txType == ty {
        assert OfType(txs, ty)[1..] == OfType(txs[1..], ty);
      }
    }
  }

  /** With positive amounts a type's total is never negative, and it is
      positive exactly when some transaction has that type. */
  lemma {:induction false} AmountOfSign(txs: seq<Transaction>, ty: TxType)
    requires AllValid(txs)
    ensures AmountOf(txs, ty) >= 0.0
    ensures AmountOf(txs, ty) > 0.0 <==> OfType(txs, ty) != []
    decreases |txs|
  {
    if |txs| > 0 {
      AmountOfSign(txs[1..], ty);
      assert Valid(txs[0]);
    }
  }

  /** Sums split over concatenation. */
  lemma {:induction false} AmountOfAppend(a: seq<Transaction>, b: seq<Transaction>, ty: TxType)
    ensures AmountOf(a + b, ty) == AmountOf(a, ty) + AmountOf(b, ty)
    decreases |a|
  {
    if |a| > 0 {
      assert (a + b)[1..] == a[1..] + b;
      AmountOfAppend(a[1..], b, ty);
    } else {
      assert a + b == b;
    }
  }

  /** Both aggregates are zero on an empty ledger. */
  lemma EmptyLedger()
    ensures Ledger([]).Inflow() == 0.0 && Ledger([]).Outflow() == 0.0
    ensures Ledger([]).NetCashflow() == 0.0 && Ledger([]).AverageBurnRate() == 0.0
    ensures Ledger([]).FinancialRunway() == Unbounded
  {
  }

  /** The burn rate lies between zero and the outflow, because at least one
      month is counted; it is positive exactly when there is an expense, and
      it is the whole outflow when the expenses span fewer than 30 days. */
  lemma BurnRateBounds(l: Ledger)
    requires AllValid(l.transactions)
    ensures 0.0 <= l.AverageBurnRate() <= l.Outflow()
    ensures l.AverageBurnRate() > 0.0 <==> OfType(l.transactions, TxType.Expense) != []
    ensures var ex := OfType(l.transactions, TxType.Expense);
            ex != [] && SpanDays(Dates(ex)) < 30 ==> l.AverageBurnRate() == l.Outflow()
  {
    AmountOfSign(l.transactions, TxType.Expense);
    var ex := OfType(l.transactions, TxType.Expense);
    if ex != [] {
      var o, m := l.Outflow(), MonthsOf(SpanDays(Dates(ex)));
      assert l.AverageBurnRate() == o / m;
      DivAtLeastOne(o, m);
      if SpanDays(Dates(ex)) < 30 {
        ShortSpanBurnsAll(l);
      }
    }
  }

  /** Under 30 days the divisor is one month. */
  lemma ShortSpanBurnsAll(l: Ledger)
    requires OfType(l.transactions, TxType.Expense) != []
    requires SpanDays(Dates(OfType(l.transactions, TxType.Expense))) < 30
    ensures l.AverageBurnRate() == l.Outflow()
  {
    var o, m := l.Outflow(), MonthsOf(SpanDays(Dates(OfType(l.transactions, TxType.Expense))));
    assert m == 1.0;
    assert l.AverageBurnRate() == o / m;
    assert o / 1.0 == o;
  }

  /** Only the expenses matter to the burn rate: two ledgers with the same
      expenses, in the same order, burn alike whatever their income. */
  lemma BurnRateIgnoresIncome(l: Ledger, m: Ledger)
    requires OfType(l.transactions, TxType.Expense) == OfType(m.transactions, TxType.Expense)
    ensures l.Outflow() == m.Outflow()
    ensures l.AverageBurnRate() == m.AverageBurnRate()
  {
    AmountOfIsTotalOfFiltered(l.transactions, TxType.Expense);
    AmountOfIsTotalOfFiltered(m.transactions, TxType.Expense);
  }

  /** The runway is unbounded exactly when nothing is spent; otherwise it is
      the net cash flow over the burn rate, floored at zero, so it is zero when
      spending matches or exceeds income. */
  lemma RunwayCases(l: Ledger)
    requires AllValid(l.transactions)
    ensures l.FinancialRunway().Unbounded? <==> OfType(l.transactions, TxType.Expense) == []
    ensures l.FinancialRunway().Months? ==>
              l.FinancialRunway().months ==
                (if l.NetCashflow() >= 0.0 then l.NetCashflow() / l.AverageBurnRate() else 0.0)
    ensures l.Outflow() >= l.Inflow() && OfType(l.transactions, TxType.Expense) != [] ==>
              l.FinancialRunway() == Months(0.0)
  {
    BurnRateBounds(l);
    var burn := l.AverageBurnRate();
    if burn > 0.0 {
      DivSign(l.NetCashflow(), burn);
    }
  }

  /** The structure check's ledger: one expense of 100.0. */
  lemma OneExpenseOutflow()
    ensures var tx := Transaction(None, TxType.Expense, 100.0, Some(Food), "Test", 1767225600);
            Ledger([tx]).Outflow() == 100.0 && Ledger([tx]).Inflow() == 0.0
  {
  }
}
