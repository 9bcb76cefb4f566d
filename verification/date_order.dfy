/** Ordering by date, newest first, as Python's stable `sort(key=date,
    reverse=True)` and `sorted(...)` do it: the entries that share a date
    keep their relative order. */
module DateOrder {
  import opened Model

  predicate SortedDesc(s: seq<Transaction>) {
    forall i, j :: 0 <= i < j < |s| ==> s[i].date >= s[j].date
  }

  /** The entries dated `d`, in their order. */
  function OnDate(s: seq<Transaction>, d: int): (r: seq<Transaction>)
    ensures forall i :: 0 <= i < |r| ==> r[i].date == d
    decreases |s|
  {
    if |s| == 0 then []
    else (if s[0].date == d then [s[0]] else []) + OnDate(s[1..], d)
  }

  /** `x` placed after every entry dated at or after it. */
  function Insert(x: Transaction, s: seq<Transaction>): seq<Transaction>
    decreases |s|
  {
    if |s| == 0 then [x]
    else if s[0].date >= x.date then [s[0]] + Insert(x, s[1..])
    else [x] + s
  }

  /** The list sorted by date, newest first, stably. */
  function SortByDateDesc(s: seq<Transaction>): seq<Transaction>
    decreases |s|
  {
    if |s| == 0 then [] else Insert(s[|s| - 1], SortByDateDesc(s[..|s| - 1]))
  }

  predicate AllAtMost(s: seq<Transaction>, d: int) {
    forall i :: 0 <= i < |s| ==> s[i].date <= d
  }

  lemma ConsSorted(a: Transaction, r: seq<Transaction>)
    requires SortedDesc(r) && AllAtMost(r, a.date)
    ensures SortedDesc([a] + r)
  {
  }

  lemma {:induction false} InsertAtMost(x: Transaction, s: seq<Transaction>, d: int)
    requires AllAtMost(s, d) && x.date <= d
    ensures AllAtMost(Insert(x, s), d)
    decreases |s|
  {
    if |s| > 0 && s[0].date >= x.date {
      InsertAtMost(x, s[1..], d);
    }
  }

  lemma {:induction false} InsertSorted(x: Transaction, s: seq<Transaction>)
    requires SortedDesc(s)
    ensures SortedDesc(Insert(x, s))
    decreases |s|
  {
    if |s| > 0 {
      if s[0].date >= x.date {
        InsertSorted(x, s[1..]);
        InsertAtMost(x, s[1..], s[0].date);
        ConsSorted(s[0], Insert(x, s[1..]));
      } else {
        ConsSorted(x, s);
      }
    }
  }

  lemma {:induction false} InsertMultiset(x: Transaction, s: seq<Transaction>)
    ensures multiset(Insert(x, s)) == multiset(s) + multiset{x}
    decreases |s|
  {
    if |s| > 0 && s[0].date >= x.date {
      InsertMultiset(x, s[1..]);
      assert s == [s[0]] + s[1..];
    }
  }

  lemma {:induction false} OnDateAppend(a: seq<Transaction>, b: seq<Transaction>, d: int)
    ensures OnDate(a + b, d) == OnDate(a, d) + OnDate(b, d)
    decreases |a|
  {
    if |a| == 0 {
      assert a + b == b;
    } else {
      assert (a + b)[1..] == a[1..] + b;
      OnDateAppend(a[1..], b, d);
    }
  }

  lemma {:induction false} OnDateNone(s: seq<Transaction>, d: int)
    requires forall i :: 0 <= i < |s| ==> s[i].date < d
    ensures OnDate(s, d) == []
    decreases |s|
  {
    if |s| > 0 {
      OnDateNone(s[1..], d);
    }
  }

  lemma SortedTail(s: seq<Transaction>)
    requires |s| > 0 && SortedDesc(s)
    ensures SortedDesc(s[1..]) && AllAtMost(s[1..], s[0].date)
  {
  }

  /** Inserting `x` only appends it to the entries of its own date. */
  lemma {:induction false} InsertOnDate(x: Transaction, s: seq<Transaction>, d: int)
    requires SortedDesc(s)
    ensures OnDate(Insert(x, s), d) == OnDate(s, d) + (if x.date == d then [x] else [])
    decreases |s|
  {
    if |s| == 0 {
    } else if s[0].date >= x.date {
      SortedTail(s);
      InsertOnDate(x, s[1..], d);
      var h: seq<Transaction> := if s[0].date == d then [s[0]] else [];
      assert Insert(x, s) == [s[0]] + Insert(x, s[1..]);
      assert Insert(x, s)[1..] == Insert(x, s[1..]);
      assert OnDate(Insert(x, s), d) == h + OnDate(Insert(x, s[1..]), d);
      assert OnDate(s, d) == h + OnDate(s[1..], d);
    } else {
      assert Insert(x, s) == [x] + s;
      assert ([x] + s)[1..] == s;
      if x.date == d {
        SortedTail(s);
        OnDateNone(s, d);
      }
    }
  }

  /** The sort puts the newest first. */
  lemma {:induction false} SortSorted(s: seq<Transaction>)
    ensures SortedDesc(SortByDateDesc(s))
    decreases |s|
  {
    if |s| > 0 {
      SortSorted(s[..|s| - 1]);
      InsertSorted(s[|s| - 1], SortByDateDesc(s[..|s| - 1]));
    }
  }

  /** The sort loses and invents nothing. */
  lemma {:induction false} SortMultiset(s: seq<Transaction>)
    ensures multiset(SortByDateDesc(s)) == multiset(s)
    decreases |s|
  {
    if |s| > 0 {
      var p, x := s[..|s| - 1], s[|s| - 1];
      SortMultiset(p);
      InsertMultiset(x, SortByDateDesc(p));
      assert s == p + [x];
    }
  }

  /** The sort keeps the order of the entries that share a date. */
  lemma {:induction false} SortOnDate(s: seq<Transaction>, d: int)
    ensures OnDate(SortByDateDesc(s), d) == OnDate(s, d)
    decreases |s|
  {
    if |s| > 0 {
      var p, x := s[..|s| - 1], s[|s| - 1];
      SortOnDate(p, d);
      SortSorted(p);
      InsertOnDate(x, SortByDateDesc(p), d);
      assert s == p + [x];
      OnDateAppend(p, [x], d);
    }
  }

  /** The sort puts the newest first, loses and invents nothing, and keeps
      the order of the entries that share a date. */
  lemma SortByDateDescSpec(s: seq<Transaction>)
    ensures SortedDesc(SortByDateDesc(s))
    ensures multiset(SortByDateDesc(s)) == multiset(s)
    ensures forall d :: OnDate(SortByDateDesc(s), d) == OnDate(s, d)
  {
    SortSorted(s);
    SortMultiset(s);
    forall d
      ensures OnDate(SortByDateDesc(s), d) == OnDate(s, d)
    {
      SortOnDate(s, d);
    }
  }

  /** Sorting a concatenation: on each date, the entries of the first list
      come before those of the second. */
  lemma SortConcatOnDate(a: seq<Transaction>, b: seq<Transaction>, d: int)
    ensures OnDate(SortByDateDesc(a + b), d) == OnDate(a, d) + OnDate(b, d)
  {
    SortByDateDescSpec(a + b);
    OnDateAppend(a, b, d);
  }
}
