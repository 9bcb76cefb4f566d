/** The frozen `CashFlow` record of finance/cashflow.py. */
module Cashflow {
  import opened Wrappers
  import opened Model

  /** Both fields are constrained `>= 0`. */
  datatype CashFlow = CashFlow(inflow: real, outflow: real) {
    predicate Valid() {
      inflow >= 0.0 && outflow >= 0.0
    }

    /** `net`. */
    function Net(): real {
      inflow - outflow
    }
  }

  /** `CashFlow(inflow=..., outflow=...)`: pydantic refuses a negative field
      with a validation error and otherwise keeps both values. */
  function NewCashFlow(inflow: real, outflow: real): (r: Result<CashFlow, Error>)
    ensures r.Success? <==> inflow >= 0.0 && outflow >= 0.0
    ensures r.Success? ==> r.value.Valid() && r.value.inflow == inflow && r.value.outflow == outflow
    ensures r.Failure? ==> r.error.ValidationError?
  {
    if inflow < 0.0 then Failure(ValidationError("inflow: Input should be greater than or equal to 0"))
    else if outflow < 0.0 then Failure(ValidationError("outflow: Input should be greater than or equal to 0"))
    else Success(CashFlow(inflow, outflow))
  }

  /** The net flow of a valid record lies between minus the outflow and the
      inflow, and it adds back to the inflow. */
  lemma NetBounds(c: CashFlow)
    requires c.Valid()
    ensures -c.outflow <= c.Net() <= c.inflow
    ensures c.Net() + c.outflow == c.inflow
    ensures c.Net() >= 0.0 <==> c.inflow >= c.outflow
  {
  }
}
