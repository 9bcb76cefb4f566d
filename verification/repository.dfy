/** An in-memory transaction repository with the shape of the
    `TransactionRepository` protocol of
    finance/repositories/transaction_repository.py. The protocol has no
    behaviour of its own; this one keeps the records in a list. */
module Repository {
  import opened Wrappers
  import opened Model

  /** The transactions of category `c`, in their order. */
  function WithCategory(s: seq<Transaction>, c: Category): (r: seq<Transaction>)
    ensures forall t :: t in r <==> t in s && t.category == Some(c)
    ensures |r| <= |s|
    decreases |s|
  {
    if |s| == 0 then []
    else (if s[0].category == Some(c) then [s[0]] else []) + WithCategory(s[1..], c)
  }

  /** Filtering keeps each record of the category as often as it occurs
      and drops every other one. */
  lemma {:induction false} WithCategoryCounts(s: seq<Transaction>, c: Category)
    ensures multiset(WithCategory(s, c)) <= multiset(s)
    ensures forall t: Transaction :: t.category == Some(c) ==> multiset(WithCategory(s, c))[t] == multiset(s)[t]
    decreases |s|
  {
    if |s| > 0 {
      WithCategoryCounts(s[1..], c);
      assert s == [s[0]] + s[1..];
    }
  }

  class MemoryRepository {
    var items: seq<Transaction>

    constructor ()
      ensures items == []
    {
      items := [];
    }

    /** `add`: store the record and hand it back. */
    method Add(t: Transaction) returns (r: Transaction)
      modifies this
      ensures items == old(items) + [t] && r == t
    {
      items := items + [t];
      r := t;
    }

    /** `list_by_category`: the stored records of that category, in the
        order they were added, repeats kept. */
    function ListByCategory(c: Category): (r: seq<Transaction>)
      reads this
      ensures r == WithCategory(items, c)
      ensures forall t :: t in r <==> t in items && t.category == Some(c)
      ensures multiset(r) <= multiset(items)
    {
      WithCategoryCounts(items, c);
      WithCategory(items, c)
    }
  }
}
