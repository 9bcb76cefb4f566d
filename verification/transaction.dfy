/** The transaction record and its two enumerations
    (finance/models/enums.py, finance/models/transaction.py).
    A Dafny datatype is a value, so a Transaction cannot be changed once
    built, as the frozen pydantic model promises. */
module Model {
  import opened Wrappers

  /** `TransactionType`. */
  datatype TxType = Income | Expense

  /** `TransactionCategory`. */
  datatype Category =
    | Food | Transport | Entertainment | Utilities | Healthcare
    | Shopping | Education | Income | Other

  /** The errors the source raises on the modelled paths. */
  datatype Error =
    | ValidationError(message: string)   // pydantic refusing a field
    | ValueError(message: string)        // an unknown enum value, an unconfigured store
    | AttributeError(message: string)    // `.value` read on a missing category
    | ApiError(code: string, message: string)  // an error answer of the remote store

  /** The enum's string value. */
  function TypeValue(t: TxType): string {
    match t
    case Income => "income"
    case Expense => "expense"
  }

  /** `TransactionType(s)`: the member whose value is `s`, if any. */
  function ParseType(s: string): (r: Option<TxType>)
    ensures r.Some? <==> (s == "income" || s == "expense")
  {
    if s == "income" then Some(TxType.Income)
    else if s == "expense" then Some(TxType.Expense)
    else None
  }

  lemma TypeRoundTrip(t: TxType, s: string)
    ensures ParseType(TypeValue(t)) == Some(t)
    ensures ParseType(s).Some? ==> TypeValue(ParseType(s).value) == s
  {
  }

  /** The enum's string value. */
  function CategoryValue(c: Category): string {
    match c
    case Food => "food"
    case Transport => "transport"
    case Entertainment => "entertainment"
    case Utilities => "utilities"
    case Healthcare => "healthcare"
    case Shopping => "shopping"
    case Education => "education"
    case Income => "income"
    case Other => "other"
  }

  /** `TransactionCategory(s)`: the member whose value is `s`, if any. */
  function ParseCategory(s: string): Option<Category> {
    if s == "food" then Some(Food)
    else if s == "transport" then Some(Transport)
    else if s == "entertainment" then Some(Entertainment)
    else if s == "utilities" then Some(Utilities)
    else if s == "healthcare" then Some(Healthcare)
    else if s == "shopping" then Some(Shopping)
    else if s == "education" then Some(Education)
    else if s == "income" then Some(Category.Income)
    else if s == "other" then Some(Other)
    else None
  }

  /** Parsing inverts the string value, in both directions. */
  lemma {:induction false} CategoryRoundTrip(c: Category, s: string)
    ensures ParseCategory(CategoryValue(c)) == Some(c)
    ensures ParseCategory(s).Some? ==> CategoryValue(ParseCategory(s).value) == s
  {
  }

  /** Distinct categories have distinct string values. */
  lemma CategoryValueInjective(c: Category, d: Category)
    ensures CategoryValue(c) == CategoryValue(d) ==> c == d
  {
    CategoryRoundTrip(c, "");
    CategoryRoundTrip(d, "");
  }

  /** A transaction; `txType` is the source's `type` field, dates are
      integer timestamps in seconds. */
  datatype Transaction = Transaction(
    id: Option<int>,
    txType: TxType,
    amount: real,
    category: Option<Category>,
    description: string,
    date: int)

  /** The field constraint `amount > 0`. */
  predicate Valid(t: Transaction) {
    t.amount > 0.0
  }

  predicate AllValid(txs: seq<Transaction>) {
    forall i :: 0 <= i < |txs| ==> Valid(txs[i])
  }

  /** Reordering records keeps every one of them valid. */
  lemma AllValidPermutation(a: seq<Transaction>, b: seq<Transaction>)
    requires multiset(a) == multiset(b) && AllValid(a)
    ensures AllValid(b)
  {
    forall i | 0 <= i < |b|
      ensures Valid(b[i])
    {
      assert b[i] in multiset(a);
      var j :| 0 <= j < |a| && a[j] == b[i];
    }
  }

  /** The message pydantic gives for a non-positive amount. */
  const AmountMessage := "amount: Input should be greater than 0"

  /** `Transaction(...)`: construction refuses a non-positive amount and
      otherwise keeps every field as given. */
  function NewTransaction(id: Option<int>, txType: TxType, amount: real,
                          category: Option<Category>, description: string, date: int)
    : (r: Result<Transaction, Error>)
    ensures r.Success? <==> amount > 0.0
    ensures r.Success? ==> Valid(r.value) && r.value == Transaction(id, txType, amount, category, description, date)
    ensures r.Failure? ==> r.error.ValidationError?
  {
    if amount > 0.0 then Success(Transaction(id, txType, amount, category, description, date))
    else Failure(ValidationError(AmountMessage))
  }

  /** `Transaction(type=..., amount=..., description=..., date=...)` with the
      defaults: no id, no category. */
  function NewWithDefaults(txType: TxType, amount: real, description: string, date: int)
    : (r: Result<Transaction, Error>)
    ensures r.Success? <==> amount > 0.0
    ensures r.Success? ==> r.value.id.None? && r.value.category.None?
  {
    NewTransaction(None, txType, amount, None, description, date)
  }

  /** `signed_amount`. */
  function SignedAmount(t: Transaction): real {
    if t.txType == TxType.Income then t.amount else -t.amount
  }

  /** The sign of `signed_amount` comes from the type alone, its magnitude is
      the amount: positive for income, negative for an expense. */
  lemma SignedAmountSign(t: Transaction)
    requires Valid(t)
    ensures t.txType == TxType.Income ==> SignedAmount(t) == t.amount && SignedAmount(t) > 0.0
    ensures t.txType == TxType.Expense ==> SignedAmount(t) == -t.amount && SignedAmount(t) < 0.0
    ensures SignedAmount(t) > 0.0 <==> t.txType == TxType.Income
    ensures (if SignedAmount(t) < 0.0 then -SignedAmount(t) else SignedAmount(t)) == t.amount
  {
  }

  /** Two transactions of the same type and amount have the same signed amount,
      whatever their other fields. */
  lemma SignedAmountDependsOnTypeAndAmount(t: Transaction, u: Transaction)
    requires t.txType == u.txType && t.amount == u.amount
    ensures SignedAmount(t) == SignedAmount(u)
  {
  }
}
