/** `ExpenseDatabase` of data/database.py over a Supabase `expenses` table.
    The remote table is a list of rows held by the object; its schema is
    described by flags: whether it has the `type` column, whether an insert
    answers with the inserted row, and an error that every request is
    answered with, if any. */
module ExpenseStore {
  import opened Wrappers
  import opened Text
  import opened Model
  import opened FinanceLedger
  import opened DateOrder

  /** A row of the table. `typ` is the `type` column, absent (or empty) in a
      row that was written without it. Rows hold the enum values that
      `add_expense` writes. */
  datatype Row = Row(id: int, amount: real, category: Category, description: string, date: int,
                     typ: Option<TxType>)

  /** The `data` dict of `add_expense`, with or without its `type` key. */
  datatype Payload = Payload(amount: real, category: Category, description: string, date: int,
                             typ: Option<TxType>)

  const NotConfigured :=
    "Supabase is not configured. Please set SUPABASE_URL and SUPABASE_SERVICE_ROLE_KEY in .env"

  /** The error PostgREST answers with when the `type` column is missing. */
  const MissingTypeColumn :=
    ApiError("PGRST204", "Could not find the 'type' column of 'expenses' in the schema cache")

  /** The retry condition: code PGRST204, or the column message in the error text. */
  predicate IsMissingTypeColumn(e: Error) {
    e.ApiError? && (e.code == "PGRST204" || Contains(e.message, "Could not find the 'type' column"))
  }

  /** The row the table stores for a payload under the id it assigns. */
  function Stored(id: int, p: Payload): Row {
    Row(id, p.amount, p.category, p.description, p.date, p.typ)
  }

  /** `_infer_type`: a stored type wins; otherwise category income means
      income and anything else an expense. */
  function InferType(row: Row): (t: TxType)
    ensures row.typ.Some? ==> t == row.typ.value
    ensures row.typ.None? ==> (t == TxType.Income <==> row.category == Category.Income)
  {
    if row.typ.Some? then row.typ.value
    else if CategoryValue(row.category) == CategoryValue(Category.Income) then TxType.Income
    else TxType.Expense
  }

  /** The record built from a row. */
  function ToTransaction(row: Row): Transaction {
    Transaction(Some(row.id), InferType(row), row.amount, Some(row.category), row.description, row.date)
  }

  function Converted(rows: seq<Row>): (r: seq<Transaction>)
    ensures |r| == |rows| && forall i :: 0 <= i < |rows| ==> r[i] == ToTransaction(rows[i])
  {
    seq(|rows|, i requires 0 <= i < |rows| => ToTransaction(rows[i]))
  }

  /** Some row holds an amount that the record's `amount > 0` refuses. */
  predicate HasBadAmount(rows: seq<Row>) {
    exists row :: row in rows && row.amount <= 0.0
  }

  /** The list comprehension of the listings: `Expense(...)` is built for
      each row in turn, and the first row whose amount is refused makes the
      whole read raise. */
  function BuildRecords(rows: seq<Row>): (r: Result<seq<Transaction>, Error>)
    ensures r.Failure? <==> HasBadAmount(rows)
    ensures r.Failure? ==> r.error == ValidationError(AmountMessage)
    ensures r.Success? ==> r.value == Converted(rows) && AllValid(r.value)
    decreases |rows|
  {
    if |rows| == 0 then Success([])
    else
      var row := rows[0];
      var t := NewTransaction(Some(row.id), InferType(row), row.amount, Some(row.category), row.description, row.date);
      if t.Failure? then Failure(t.error)
      else
        var rest := BuildRecords(rows[1..]);
        assert forall x :: x in rows <==> x == row || x in rows[1..];
        if rest.Failure? then rest
        else Success([t.value] + rest.value)
  }

  /** `.eq("category", c)`. */
  function RowsWithCategory(rows: seq<Row>, c: Category): (r: seq<Row>)
    ensures forall row :: row in r <==> row in rows && row.category == c
    decreases |rows|
  {
    if |rows| == 0 then []
    else (if rows[0].category == c then [rows[0]] else []) + RowsWithCategory(rows[1..], c)
  }

  /** `.gte("date", start)` and `.lte("date", end)`, each only when given. */
  predicate InRange(date: int, start: Option<int>, end: Option<int>) {
    (start.None? || start.value <= date) && (end.None? || date <= end.value)
  }

  function RowsInRange(rows: seq<Row>, start: Option<int>, end: Option<int>): (r: seq<Row>)
    ensures forall row :: row in r <==> row in rows && InRange(row.date, start, end)
    decreases |rows|
  {
    if |rows| == 0 then []
    else (if InRange(rows[0].date, start, end) then [rows[0]] else []) + RowsInRange(rows[1..], start, end)
  }

  /** `.neq("id", 0)` deleted: the rows that stay. */
  function RowsWithIdZero(rows: seq<Row>): (r: seq<Row>)
    ensures forall row :: row in r <==> row in rows && row.id == 0
    decreases |rows|
  {
    if |rows| == 0 then []
    else (if rows[0].id == 0 then [rows[0]] else []) + RowsWithIdZero(rows[1..])
  }

  /** `.order("date", desc=True)` followed by the conversion. The order the
      table gives to rows of the same date is not specified; the model keeps
      the table order. */
  function Listing(rows: seq<Row>): seq<Transaction> {
    SortByDateDesc(Converted(rows))
  }

  /** `sum(item["amount"] for item in response.data)`. */
  function RowTotal(rows: seq<Row>): real
    decreases |rows|
  {
    if |rows| == 0 then 0.0 else rows[0].amount + RowTotal(rows[1..])
  }

  // ----- What the listings hold -----

  /** A listing is newest first and holds the records of exactly the rows
      it was given. */
  lemma ListingMembers(rows: seq<Row>)
    ensures SortedDesc(Listing(rows))
    ensures forall t :: t in Listing(rows) <==> exists row :: row in rows && t == ToTransaction(row)
  {
    SortByDateDescSpec(Converted(rows));
    forall t
      ensures t in Listing(rows) <==> t in Converted(rows)
    {
      assert t in Listing(rows) <==> t in multiset(Listing(rows));
    }
  }

  /** The category listing is exactly the rows of that category. */
  lemma CategoryListing(rows: seq<Row>, c: Category)
    ensures SortedDesc(Listing(RowsWithCategory(rows, c)))
    ensures forall t :: t in Listing(RowsWithCategory(rows, c)) <==>
              exists row :: row in rows && row.category == c && t == ToTransaction(row)
  {
    ListingMembers(RowsWithCategory(rows, c));
  }

  /** The date listing is exactly the rows inside the bounds given. */
  lemma DateRangeListing(rows: seq<Row>, start: Option<int>, end: Option<int>)
    ensures SortedDesc(Listing(RowsInRange(rows, start, end)))
    ensures forall t :: t in Listing(RowsInRange(rows, start, end)) <==>
              exists row :: row in rows && InRange(row.date, start, end) && t == ToTransaction(row)
  {
    ListingMembers(RowsInRange(rows, start, end));
  }

  /** A record written with its type reads back with that type; one written
      without it reads back right exactly when its category agrees with its
      type (income filed as income). */
  lemma InferTypeRoundTrip(id: int, t: Transaction, withType: bool)
    requires t.category.Some?
    ensures var row := Stored(id, Payload(t.amount, t.category.value, t.description, t.date,
                                          if withType then Some(t.txType) else None));
            && (withType ==> InferType(row) == t.txType)
            && (!withType ==> (InferType(row) == t.txType <==> (t.txType == TxType.Income <==> t.category.value == Category.Income)))
  {
  }

  /** The row just stored is listed under its category, with its amount and
      description. */
  lemma AddedRowListed(rows: seq<Row>, row: Row)
    ensures exists t :: t in Listing(RowsWithCategory(rows + [row], row.category)) &&
                        t.description == row.description && t.amount == row.amount && t.id == Some(row.id)
  {
    CategoryListing(rows + [row], row.category);
    assert row in rows + [row];
    assert ToTransaction(row) in Listing(RowsWithCategory(rows + [row], row.category));
  }

  /** The "spending" total adds every row, income included: it is the
      ledger's inflow plus outflow of the same rows. */
  lemma {:induction false} RowTotalIsInflowPlusOutflow(rows: seq<Row>)
    ensures RowTotal(rows) == Total(Converted(rows))
    ensures RowTotal(rows) == Ledger(Converted(rows)).Inflow() + Ledger(Converted(rows)).Outflow()
    decreases |rows|
  {
    if |rows| > 0 {
      RowTotalIsInflowPlusOutflow(rows[1..]);
      assert Converted(rows)[1..] == Converted(rows[1..]);
    }
    InflowOutflowPartition(Converted(rows));
  }

  class ExpenseDatabase {
    /** `self.supabase` is set: both settings were present. */
    const configured: bool
    const hasTypeColumn: bool
    const returnsRows: bool
    /** An error the store answers every request with (network, permission). */
    const fault: Option<Error>
    var rows: seq<Row>
    /** The id the table gives the next row. */
    var nextId: int
    /** The number of insert requests the table has received. */
    var requests: nat

    constructor (configured: bool, hasTypeColumn: bool, returnsRows: bool, fault: Option<Error>,
                 rows: seq<Row>, nextId: int)
      ensures this.configured == configured && this.hasTypeColumn == hasTypeColumn
      ensures this.returnsRows == returnsRows && this.fault == fault
      ensures this.rows == rows && this.nextId == nextId && requests == 0
    {
      this.configured := configured;
      this.hasTypeColumn := hasTypeColumn;
      this.returnsRows := returnsRows;
      this.fault := fault;
      this.rows := rows;
      this.nextId := nextId;
      requests := 0;
    }

    /** `table("expenses").insert(data).execute()`. */
    method Insert(p: Payload) returns (r: Result<seq<Row>, Error>)
      modifies this`rows, this`nextId, this`requests
      ensures requests == old(requests) + 1
      ensures fault.Some? ==> r == Failure(fault.value) && rows == old(rows) && nextId == old(nextId)
      ensures fault.None? && p.typ.Some? && !hasTypeColumn ==>
                r == Failure(MissingTypeColumn) && rows == old(rows) && nextId == old(nextId)
      ensures fault.None? && (p.typ.None? || hasTypeColumn) ==>
                && rows == old(rows) + [Stored(old(nextId), p)] && nextId == old(nextId) + 1
                && r == Success(if returnsRows then [Stored(old(nextId), p)] else [])
    {
      requests := requests + 1;
      if fault.Some? {
        return Failure(fault.value);
      }
      if p.typ.Some? && !hasTypeColumn {
        return Failure(MissingTypeColumn);
      }
      var row := Stored(nextId, p);
      rows := rows + [row];
      nextId := nextId + 1;
      r := Success(if returnsRows then [row] else []);
    }

    /** `add_expense`: insert with the type; when the table lacks the type
        column, insert once more without it; any other error propagates. The
        id is taken from the answer when there is one. */
    method AddExpense(expense: Transaction) returns (r: Result<Transaction, Error>)
      modifies this`rows, this`nextId, this`requests
      ensures !configured ==> r == Failure(ValueError(NotConfigured))
      ensures configured && expense.category.None? ==> r.Failure? && r.error.AttributeError?
      ensures !configured || expense.category.None? ==> rows == old(rows) && requests == old(requests)
      ensures configured && expense.category.Some? ==>
                var p := Payload(expense.amount, expense.category.value, expense.description, expense.date,
                                 if hasTypeColumn then Some(expense.txType) else None);
                && (fault.Some? ==> r == Failure(fault.value) && rows == old(rows))
                && (fault.None? ==>
                      && rows == old(rows) + [Stored(old(nextId), p)]
                      && r == Success(if returnsRows then expense.(id := Some(old(nextId))) else expense))
                && requests == old(requests) +
                     (if (fault.Some? && IsMissingTypeColumn(fault.value)) || (fault.None? && !hasTypeColumn)
                      then 2 else 1)
    {
      if !configured {
        return Failure(ValueError(NotConfigured));
      }
      if expense.category.None? {
        return Failure(AttributeError("'NoneType' object has no attribute 'value'"));
      }
      var data := Payload(expense.amount, expense.category.value, expense.description, expense.date,
                          Some(expense.txType));
      var response := Insert(data);
      if response.Failure? {
        if IsMissingTypeColumn(response.error) {
          data := data.(typ := None);
          response := Insert(data);
          if response.Failure? {
            return Failure(response.error);
          }
        } else {
          return Failure(response.error);
        }
      }
      var saved := expense;
      if response.value != [] {
        saved := expense.(id := Some(response.value[0].id));
      }
      r := Success(saved);
    }

    /** The answer to a select on `selected`: the unconfigured store
        raises, then an injected fault, then the record a row is refused as;
        otherwise the records, newest first. */
    function Select(selected: seq<Row>): (r: Result<seq<Transaction>, Error>)
      reads this
      ensures r.Failure? <==> !configured || fault.Some? || HasBadAmount(selected)
      ensures !configured ==> r == Failure(ValueError(NotConfigured))
      ensures configured && fault.Some? ==> r == Failure(fault.value)
      ensures configured && fault.None? && HasBadAmount(selected) ==> r == Failure(ValidationError(AmountMessage))
      ensures r.Success? ==> r.value == Listing(selected) && AllValid(r.value)
    {
      if !configured then Failure(ValueError(NotConfigured))
      else if fault.Some? then Failure(fault.value)
      else
        var built := BuildRecords(selected);
        if built.Failure? then Failure(built.error)
        else
          SortByDateDescSpec(built.value);
          AllValidPermutation(built.value, SortByDateDesc(built.value));
          Success(SortByDateDesc(built.value))
    }

    /** `get_all_expenses`. */
    function GetAllExpenses(): (r: Result<seq<Transaction>, Error>)
      reads this
      ensures r.Failure? <==> !configured || fault.Some? || HasBadAmount(rows)
      ensures r.Success? ==> r.value == Listing(rows) && AllValid(r.value)
    {
      Select(rows)
    }

    /** `get_expenses_by_category`: only the rows of that category are
        converted, so a refused amount elsewhere does not matter. */
    function GetExpensesByCategory(c: Category): (r: Result<seq<Transaction>, Error>)
      reads this
      ensures r.Failure? <==> !configured || fault.Some? || exists row :: row in rows && row.category == c && row.amount <= 0.0
      ensures r.Success? ==> r.value == Listing(RowsWithCategory(rows, c)) && AllValid(r.value)
    {
      Select(RowsWithCategory(rows, c))
    }

    /** `get_expenses_by_date_range`; an omitted bound does not filter. */
    function GetExpensesByDateRange(start: Option<int>, end: Option<int>): (r: Result<seq<Transaction>, Error>)
      reads this
      ensures r.Failure? <==> !configured || fault.Some? || exists row :: row in rows && InRange(row.date, start, end) && row.amount <= 0.0
      ensures r.Success? ==> r.value == Listing(RowsInRange(rows, start, end)) && AllValid(r.value)
    {
      Select(RowsInRange(rows, start, end))
    }

    /** `get_total_spending`: the raw amounts are summed, with no record
        built, so no amount is refused; 0 for an empty table. */
    function GetTotalSpending(): (r: Result<real, Error>)
      reads this
      ensures r.Failure? <==> !configured || fault.Some?
      ensures configured && fault.Some? ==> r == Failure(fault.value)
      ensures r.Success? && rows == [] ==> r.value == 0.0
      ensures r.Success? ==> r.value == Ledger(Converted(rows)).Inflow() + Ledger(Converted(rows)).Outflow()
    {
      if !configured then Failure(ValueError(NotConfigured))
      else if fault.Some? then Failure(fault.value)
      else
        RowTotalIsInflowPlusOutflow(rows);
        Success(RowTotal(rows))
    }

    /** `clear_all`: every row whose id is not 0 is deleted; a failed delete
        deletes nothing. */
    method ClearAll() returns (r: Result<(), Error>)
      modifies this`rows
      ensures !configured ==> r == Failure(ValueError(NotConfigured)) && rows == old(rows)
      ensures configured && fault.Some? ==> r == Failure(fault.value) && rows == old(rows)
      ensures configured && fault.None? ==> r.Success? && rows == RowsWithIdZero(old(rows))
      ensures forall row :: row in rows ==> row in old(rows)
      ensures configured && fault.None? ==> forall row :: row in rows ==> row.id == 0
    {
      if !configured {
        return Failure(ValueError(NotConfigured));
      }
      if fault.Some? {
        return Failure(fault.value);
      }
      rows := RowsWithIdZero(rows);
      r := Success(());
    }
  }
}
