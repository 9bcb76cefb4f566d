/** `budget_drift` of finance/budget.py: the relative deviation of the
    actual spending from the planned budget. */
module Budget {
  import opened RealArith

  function BudgetDrift(planned: real, actual: real): (d: real)
    ensures planned <= 0.0 ==> d == 0.0
    ensures planned > 0.0 ==> d * planned == actual - planned
  {
    if planned <= 0.0 then 0.0
    else
      DivCancel(actual - planned, planned);
      (actual - planned) / planned
  }

  /** With a positive plan, the drift has the sign of the overspend: zero on
      target, positive over budget, negative under it. */
  lemma DriftSign(planned: real, actual: real)
    requires planned > 0.0
    ensures BudgetDrift(planned, actual) == 0.0 <==> actual == planned
    ensures BudgetDrift(planned, actual) > 0.0 <==> actual > planned
    ensures BudgetDrift(planned, actual) < 0.0 <==> actual < planned
  {
    DivSign(actual - planned, planned);
  }

  /** Spending nothing is the lowest possible drift, -1: with a positive plan
      and a non-negative spend the drift is at least -1, and equals it exactly
      when nothing was spent. */
  lemma DriftAtLeastMinusOne(planned: real, actual: real)
    requires planned > 0.0 && actual >= 0.0
    ensures BudgetDrift(planned, actual) >= -1.0
    ensures BudgetDrift(planned, actual) == -1.0 <==> actual == 0.0
  {
    var d := BudgetDrift(planned, actual);
    MulCompare(-1.0, d, planned);
    if d == -1.0 {
      assert actual == 0.0;
    }
    if actual == 0.0 {
      MulCancel(d, -1.0, planned);
    }
  }

}
