/** `AdvisorService` of services/advisor.py: the per-category spending
    report and the 50/30/20 budget split. */
module Advisor {
  import opened Wrappers
  import opened Model

  /** `FinancialReport`. The Python dict `categories` keeps its keys in
      insertion order; the model keeps that order in `categoryOrder`. */
  datatype FinancialReport = FinancialReport(
    totalSpent: real,
    categories: map<string, real>,
    categoryOrder: seq<string>,
    topCategory: string,
    recommendations: seq<string>)

  const StartRecording := "Start recording expenses to see an analysis."
  const RuleOfThumb := "Consider the 50/30/20 rule: 50% Needs, 30% Wants, 20% Savings."
  const NoCategoryMessage := "'NoneType' object has no attribute 'value'"

  /** The report for an empty list. */
  const EmptyReport := FinancialReport(0.0, map[], [], "", [StartRecording])

  predicate Categorized(s: seq<Transaction>) {
    forall i :: 0 <= i < |s| ==> s[i].category.Some?
  }

  /** `e.category.value`. */
  function Key(t: Transaction): string
    requires t.category.Some?
  {
    CategoryValue(t.category.value)
  }

  predicate Distinct(keys: seq<string>) {
    forall i, j :: 0 <= i < j < |keys| ==> keys[i] != keys[j]
  }

  // ----- Specification, each a left fold over the list -----

  /** `sum(e.amount for e in expenses)`. */
  function TotalSpent(s: seq<Transaction>): real
    decreases |s|
  {
    if |s| == 0 then 0.0 else TotalSpent(s[..|s| - 1]) + s[|s| - 1].amount
  }

  /** The sum of the amounts of the transactions whose category value is `k`. */
  function AmountIn(s: seq<Transaction>, k: string): real
    requires Categorized(s)
    decreases |s|
  {
    if |s| == 0 then 0.0
    else AmountIn(s[..|s| - 1], k) + (if Key(s[|s| - 1]) == k then s[|s| - 1].amount else 0.0)
  }

  /** The dict `category_totals` after the loop has seen `s`. */
  function Totals(s: seq<Transaction>): map<string, real>
    requires Categorized(s)
    decreases |s|
  {
    if |s| == 0 then map[]
    else
      var m, k := Totals(s[..|s| - 1]), Key(s[|s| - 1]);
      m[k := (if k in m then m[k] else 0.0) + s[|s| - 1].amount]
  }

  /** The keys of `category_totals` in insertion order. */
  function FirstSeen(s: seq<Transaction>): seq<string>
    requires Categorized(s)
    decreases |s|
  {
    if |s| == 0 then []
    else
      var p, k := FirstSeen(s[..|s| - 1]), Key(s[|s| - 1]);
      if k in p then p else p + [k]
  }

  /** The sum of `m` over `keys`. */
  function SumOver(keys: seq<string>, m: map<string, real>): real
    requires forall j :: 0 <= j < |keys| ==> keys[j] in m
    decreases |keys|
  {
    if |keys| == 0 then 0.0 else SumOver(keys[..|keys| - 1], m) + m[keys[|keys| - 1]]
  }

  /** `max(keys, key=m.get)`: Python's `max` keeps the first of equal
      maxima, replacing its candidate only by a strictly larger one. */
  function FirstMaxIndex(keys: seq<string>, m: map<string, real>): (i: nat)
    requires |keys| > 0 && forall j :: 0 <= j < |keys| ==> keys[j] in m
    ensures i < |keys|
    ensures forall j :: 0 <= j < |keys| ==> m[keys[j]] <= m[keys[i]]
    ensures forall j :: 0 <= j < i ==> m[keys[j]] < m[keys[i]]
    decreases |keys|
  {
    if |keys| == 1 then 0
    else
      var i := FirstMaxIndex(keys[..|keys| - 1], m);
      if m[keys[|keys| - 1]] > m[keys[i]] then |keys| - 1 else i
  }

  /** The report `analyze_spending` builds for a non-empty list. */
  function Analysis(s: seq<Transaction>): FinancialReport
    requires |s| > 0 && Categorized(s)
  {
    var totals, order := Totals(s), FirstSeen(s);
    FirstSeenIn(s);
    var top := order[FirstMaxIndex(order, totals)];
    FinancialReport(TotalSpent(s), totals, order, top,
                    ["Your top spending category is " + top + ".", RuleOfThumb])
  }

  // ----- What the fold computes -----

  predicate KeysIn(keys: seq<string>, m: map<string, real>) {
    forall j :: 0 <= j < |keys| ==> keys[j] in m
  }

  /** One step of the loop: the last transaction adds its amount to its
      category, which joins the order when it is new. */
  lemma FoldStep(s: seq<Transaction>, p: seq<Transaction>, k: string, a: real)
    requires |s| > 0 && Categorized(s)
    requires p == s[..|s| - 1] && k == Key(s[|s| - 1]) && a == s[|s| - 1].amount
    ensures Categorized(p)
    ensures Totals(s) == Totals(p)[k := (if k in Totals(p) then Totals(p)[k] else 0.0) + a]
    ensures FirstSeen(s) == (if k in Totals(p) then FirstSeen(p) else FirstSeen(p) + [k])
    ensures TotalSpent(s) == TotalSpent(p) + a
  {
    FirstSeenIn(p);
  }

  /** The insertion order lists every key of the totals once. */
  lemma {:induction false} FirstSeenIn(s: seq<Transaction>)
    requires Categorized(s)
    ensures Distinct(FirstSeen(s)) && KeysIn(FirstSeen(s), Totals(s))
    ensures forall k :: k in Totals(s) ==> k in FirstSeen(s)
    decreases |s|
  {
    if |s| > 0 {
      FirstSeenIn(s[..|s| - 1]);
    }
  }

  /** The keys of the totals are exactly the categories that occur. */
  lemma {:induction false} TotalsKeys(s: seq<Transaction>)
    requires Categorized(s)
    ensures forall k :: k in Totals(s) <==> exists i :: 0 <= i < |s| && Key(s[i]) == k
    decreases |s|
  {
    if |s| > 0 {
      var p := s[..|s| - 1];
      TotalsKeys(p);
      forall k | k in Totals(s)
        ensures exists i :: 0 <= i < |s| && Key(s[i]) == k
      {
        if k != Key(s[|s| - 1]) {
          assert k in Totals(p);
          var i :| 0 <= i < |p| && Key(p[i]) == k;
          assert Key(s[i]) == k;
        }
      }
      forall k | exists i :: 0 <= i < |s| && Key(s[i]) == k
        ensures k in Totals(s)
      {
        var i :| 0 <= i < |s| && Key(s[i]) == k;
        if i < |p| {
          assert Key(p[i]) == k;
        }
      }
    }
  }

  /** Each total is the sum of the amounts of its category. */
  lemma {:induction false} TotalsAreCategorySums(s: seq<Transaction>, k: string)
    requires Categorized(s)
    ensures k in Totals(s) ==> Totals(s)[k] == AmountIn(s, k)
    ensures k !in Totals(s) ==> AmountIn(s, k) == 0.0
    decreases |s|
  {
    if |s| > 0 {
      TotalsAreCategorySums(s[..|s| - 1], k);
    }
  }

  lemma {:induction false} SumOverUpdateOut(keys: seq<string>, m: map<string, real>, k: string, v: real)
    requires KeysIn(keys, m) && k !in keys
    ensures SumOver(keys, m[k := v]) == SumOver(keys, m)
    decreases |keys|
  {
    if |keys| > 0 {
      SumOverUpdateOut(keys[..|keys| - 1], m, k, v);
    }
  }

  lemma {:induction false} SumOverUpdateIn(keys: seq<string>, m: map<string, real>, k: string, d: real)
    requires KeysIn(keys, m) && Distinct(keys) && k in keys
    ensures SumOver(keys, m[k := m[k] + d]) == SumOver(keys, m) + d
    decreases |keys|
  {
    var p := keys[..|keys| - 1];
    if keys[|keys| - 1] == k {
      assert k !in p;
      SumOverUpdateOut(p, m, k, m[k] + d);
    } else {
      assert k in p;
      SumOverUpdateIn(p, m, k, d);
    }
  }

  lemma SumOverAppend(keys: seq<string>, m: map<string, real>, k: string)
    requires KeysIn(keys, m) && k in m
    ensures SumOver(keys + [k], m) == SumOver(keys, m) + m[k]
  {
    assert (keys + [k])[..|keys|] == keys;
  }

  /** The category totals add up to the total spent. */
  lemma {:induction false} TotalsSumToTotal(s: seq<Transaction>)
    requires Categorized(s)
    ensures KeysIn(FirstSeen(s), Totals(s))
    ensures SumOver(FirstSeen(s), Totals(s)) == TotalSpent(s)
    decreases |s|
  {
    FirstSeenIn(s);
    if |s| > 0 {
      var p, k, a := s[..|s| - 1], Key(s[|s| - 1]), s[|s| - 1].amount;
      TotalsSumToTotal(p);
      FirstSeenIn(p);
      FoldStep(s, p, k, a);
      if k in Totals(p) {
        SumOverUpdateIn(FirstSeen(p), Totals(p), k, a);
      } else {
        SumOverUpdateOut(FirstSeen(p), Totals(p), k, 0.0 + a);
        SumOverAppend(FirstSeen(p), Totals(p)[k := 0.0 + a], k);
      }
    }
  }

  /** The report lists exactly the categories that occur, each with the sum
      of its amounts, in the order of first occurrence; the totals add up to
      the total spent. */
  lemma AnalysisCategories(s: seq<Transaction>)
    requires |s| > 0 && Categorized(s)
    ensures var rep := Analysis(s);
            && rep.totalSpent == TotalSpent(s)
            && (forall k :: k in rep.categories <==> exists i :: 0 <= i < |s| && Key(s[i]) == k)
            && (forall k :: k in rep.categories ==> rep.categories[k] == AmountIn(s, k))
            && Distinct(rep.categoryOrder)
            && (forall k :: k in rep.categoryOrder <==> k in rep.categories)
            && KeysIn(rep.categoryOrder, rep.categories)
            && SumOver(rep.categoryOrder, rep.categories) == rep.totalSpent
  {
    TotalsKeys(s);
    FirstSeenIn(s);
    TotalsSumToTotal(s);
    forall k | k in Totals(s)
      ensures Totals(s)[k] == AmountIn(s, k)
    {
      TotalsAreCategorySums(s, k);
    }
  }

  /** The top category has the largest total, and no category listed before
      it reaches that total; the first recommendation names it. */
  lemma AnalysisTop(s: seq<Transaction>)
    requires |s| > 0 && Categorized(s)
    ensures var rep := Analysis(s);
            && KeysIn(rep.categoryOrder, rep.categories)
            && rep.topCategory in rep.categories
            && (forall k :: k in rep.categories ==> rep.categories[k] <= rep.categories[rep.topCategory])
            && (exists j :: 0 <= j < |rep.categoryOrder| && rep.categoryOrder[j] == rep.topCategory &&
                  forall i :: 0 <= i < j ==> rep.categories[rep.categoryOrder[i]] < rep.categories[rep.topCategory])
            && |rep.recommendations| == 2
            && rep.recommendations[0] == "Your top spending category is " + rep.topCategory + "."
  {
    FirstSeenIn(s);
    var m, ks := Totals(s), FirstSeen(s);
    var j := FirstMaxIndex(ks, m);
    var top := ks[j];
    assert Analysis(s) == FinancialReport(TotalSpent(s), m, ks, top,
                                          ["Your top spending category is " + top + ".", RuleOfThumb]);
    FirstMaxIsMax(ks, m);
  }

  /** The first maximum over keys that cover the whole map is a maximum of
      the map. */
  lemma FirstMaxIsMax(keys: seq<string>, m: map<string, real>)
    requires |keys| > 0 && KeysIn(keys, m)
    requires forall k :: k in m ==> k in keys
    ensures forall k :: k in m ==> m[k] <= m[keys[FirstMaxIndex(keys, m)]]
  {
    var top := keys[FirstMaxIndex(keys, m)];
    forall k | k in m
      ensures m[k] <= m[top]
    {
      var i :| 0 <= i < |keys| && keys[i] == k;
    }
  }

  // ----- The operations -----

  /** `analyze_spending`. A transaction without a category makes
      `e.category.value` fail. */
  method AnalyzeSpending(expenses: seq<Transaction>) returns (r: Result<FinancialReport, Error>)
    ensures expenses == [] ==> r == Success(EmptyReport)
    ensures r.Failure? <==> !Categorized(expenses)
    ensures r.Failure? ==> r.error.AttributeError?
    ensures r.Success? && expenses != [] ==> r.value == Analysis(expenses)
  {
    if expenses == [] {
      return Success(EmptyReport);
    }
    var total := TotalSpent(expenses);
    var totals: map<string, real> := map[];
    var order: seq<string> := [];
    var i := 0;
    while i < |expenses|
      invariant 0 <= i <= |expenses|
      invariant Categorized(expenses[..i])
      invariant totals == Totals(expenses[..i]) && order == FirstSeen(expenses[..i])
    {
      var e := expenses[i];
      if e.category.None? {
        return Failure(AttributeError(NoCategoryMessage));
      }
      var cat := Key(e);
      assert expenses[..i + 1][..i] == expenses[..i];
      FoldStep(expenses[..i + 1], expenses[..i], cat, e.amount);
      var prev := if cat in totals then totals[cat] else 0.0;
      if cat !in totals {
        order := order + [cat];
      }
      totals := totals[cat := prev + e.amount];
      i := i + 1;
    }
    assert expenses[..i] == expenses;
    FirstSeenIn(expenses);
    assert total == TotalSpent(expenses[..i]);
    var top := order[FirstMaxIndex(order, totals)];
    r := Success(FinancialReport(total, totals, order, top,
                                 ["Your top spending category is " + top + ".", RuleOfThumb]));
  }

  /** One sentence of the budget advice, with the amount it names (the
      rendering of the amount with two decimals is not modelled). */
  datatype AdviceLine =
    | EssentialNeeds(amount: real)
    | LifestyleLimit(amount: real)
    | AutomateSavings(amount: real)

  /** `BudgetReport`. */
  datatype BudgetReport = BudgetReport(
    monthlyIncome: real,
    needs: real,
    wants: real,
    savings: real,
    advice: seq<AdviceLine>)

  /** `get_budget_advice`: the 50/30/20 split of the income. The three parts
      add back to the income, and the advice names each part once. */
  function GetBudgetAdvice(income: real): (b: BudgetReport)
    ensures b.monthlyIncome == income
    ensures b.needs + b.wants + b.savings == income
    ensures b.needs == income / 2.0 && b.wants == 3.0 * income / 10.0 && b.savings == income / 5.0
    ensures b.advice == [EssentialNeeds(b.needs), LifestyleLimit(b.wants), AutomateSavings(b.savings)]
  {
    BudgetReport(income, income * 0.5, income * 0.3, income * 0.2,
                 [EssentialNeeds(income * 0.5), LifestyleLimit(income * 0.3), AutomateSavings(income * 0.2)])
  }

  /** For a non-negative income the needs are the largest part and the
      savings the smallest, and no part exceeds the income. */
  lemma BudgetOrder(income: real)
    requires income >= 0.0
    ensures var b := GetBudgetAdvice(income);
            0.0 <= b.savings <= b.wants <= b.needs <= income
  {
  }
}
