/** Risk metrics of finance/risk.py over a list of amounts. */
module Risk {
  import opened RealArith

  function Sq(x: real): real {
    x * x
  }

  /** `sum(amounts)`, left to right. */
  function FoldSum(a: seq<real>): real
    decreases |a|
  {
    if |a| == 0 then 0.0 else a[0] + FoldSum(a[1..])
  }

  /** The sum of the squared amounts. */
  function FoldSquares(a: seq<real>): real
    decreases |a|
  {
    if |a| == 0 then 0.0 else Sq(a[0]) + FoldSquares(a[1..])
  }

  /* The sums under non-recursive names: the arithmetic lemmas below multiply
     them, and products of non-recursive calls are matched by the solver
     as they stand. */
  function Sum(a: seq<real>): real {
    FoldSum(a)
  }

  function SumSquares(a: seq<real>): real {
    FoldSquares(a)
  }

  /** `sum(s ** 2 for s in [x / total for x in a])`. */
  function ShareSquares(a: seq<real>, total: real): real
    requires total != 0.0
    decreases |a|
  {
    if |a| == 0 then 0.0 else Sq(a[0] / total) + ShareSquares(a[1..], total)
  }

  /** `concentration_hhi`: the Herfindahl-Hirschman index of the amounts,
      0 when they add up to 0; otherwise the squared total times the index is
      the sum of the squared amounts. */
  function ConcentrationHHI(a: seq<real>): (h: real)
    ensures Sum(a) == 0.0 ==> h == 0.0
    ensures Sum(a) != 0.0 ==> h * Sq(Sum(a)) == SumSquares(a)
  {
    var total := Sum(a);
    if total == 0.0 then 0.0
    else
      ShareSquaresTimes(a, total);
      ShareSquares(a, total)
  }

  /** `spending_volatility`: the sample standard deviation is computed by the
      standard library and is passed in as `stdev`; the model keeps the guard
      that answers 0 for fewer than two amounts. */
  function SpendingVolatility(amounts: seq<real>, stdev: real): (v: real)
    ensures |amounts| < 2 ==> v == 0.0
    ensures |amounts| >= 2 ==> v == stdev
  {
    if |amounts| < 2 then 0.0 else stdev
  }

  // ----- The sums, one element at a time -----

  lemma Uncons(a: seq<real>)
    requires |a| > 0
    ensures Sum(a) == a[0] + Sum(a[1..])
    ensures SumSquares(a) == Sq(a[0]) + SumSquares(a[1..])
    ensures |a| as real == (|a[1..]| as real) + 1.0
  {
  }

  lemma ShareStep(x: real, t: real, s: real, ss: real)
    requires t != 0.0 && s * Sq(t) == ss
    ensures (Sq(x / t) + s) * Sq(t) == Sq(x) + ss
  {
    var q := x / t;
    DivCancel(x, t);
    assert (q * q + s) * (t * t) == (q * t) * (q * t) + s * (t * t);
  }

  lemma {:induction false} ShareSquaresTimes(a: seq<real>, t: real)
    requires t != 0.0
    ensures ShareSquares(a, t) * Sq(t) == SumSquares(a)
    decreases |a|
  {
    if |a| > 0 {
      ShareSquaresTimes(a[1..], t);
      Uncons(a);
      ShareStep(a[0], t, ShareSquares(a[1..], t), SumSquares(a[1..]));
    }
  }

  lemma {:induction false} SumAppend(a: seq<real>, b: seq<real>)
    ensures Sum(a + b) == Sum(a) + Sum(b)
    decreases |a|
  {
    if |a| == 0 {
      assert a + b == b;
    } else {
      assert (a + b)[1..] == a[1..] + b;
      SumAppend(a[1..], b);
    }
  }

  lemma {:induction false} SquaresAppend(a: seq<real>, b: seq<real>)
    ensures SumSquares(a + b) == SumSquares(a) + SumSquares(b)
    decreases |a|
  {
    if |a| == 0 {
      assert a + b == b;
    } else {
      assert (a + b)[1..] == a[1..] + b;
      SquaresAppend(a[1..], b);
    }
  }

  /** Taking element `j` out of the list. */
  lemma SumRemove(b: seq<real>, j: int)
    requires 0 <= j < |b|
    ensures Sum(b) == b[j] + Sum(b[..j] + b[j + 1..])
  {
    var front, back := b[..j], b[j + 1..];
    assert b == front + ([b[j]] + back);
    SumAppend(front, [b[j]] + back);
    assert ([b[j]] + back)[1..] == back;
    SumAppend(front, back);
  }

  lemma SquaresRemove(b: seq<real>, j: int)
    requires 0 <= j < |b|
    ensures SumSquares(b) == Sq(b[j]) + SumSquares(b[..j] + b[j + 1..])
  {
    var front, back := b[..j], b[j + 1..];
    assert b == front + ([b[j]] + back);
    SquaresAppend(front, [b[j]] + back);
    assert ([b[j]] + back)[1..] == back;
    SquaresAppend(front, back);
  }

  /** Both sums depend only on the multiset of amounts. */
  lemma {:induction false} SumPermutation(a: seq<real>, b: seq<real>)
    requires multiset(a) == multiset(b)
    ensures Sum(a) == Sum(b) && SumSquares(a) == SumSquares(b)
    decreases |a|
  {
    if |a| == 0 {
      assert |b| == |multiset(b)| == 0;
    } else {
      assert a[0] in multiset(b);
      var j :| 0 <= j < |b| && b[j] == a[0];
      var rest := b[..j] + b[j + 1..];
      assert b == b[..j] + [b[j]] + b[j + 1..];
      assert multiset(rest) == multiset(b) - multiset{a[0]};
      assert a == [a[0]] + a[1..];
      assert multiset(a[1..]) == multiset(a) - multiset{a[0]};
      SumPermutation(a[1..], rest);
      SumRemove(b, j);
      SquaresRemove(b, j);
    }
  }

  // ----- Cauchy-Schwarz: (sum a)^2 <= n * sum a^2 -----

  lemma SqNonneg(y: real)
    ensures Sq(y) >= 0.0
  {
    if y >= 0.0 {
      MulNonneg(y, y);
    } else {
      MulNonneg(-y, -y);
      assert (-y) * (-y) == y * y;
    }
  }

  lemma SqPos(y: real)
    requires y != 0.0
    ensures Sq(y) > 0.0
  {
    SqNonneg(y);
    if Sq(y) == 0.0 {
      DivUnique(0.0, y, y);
    }
  }

  /** `sum((y - m) ** 2 for y in a)`. */
  function FoldDeviation(a: seq<real>, m: real): real
    decreases |a|
  {
    if |a| == 0 then 0.0 else Sq(a[0] - m) + FoldDeviation(a[1..], m)
  }

  function Deviation(a: seq<real>, m: real): real {
    FoldDeviation(a, m)
  }

  lemma DeviationStep(x: real, m: real, ss: real, sum: real, k: real, d: real,
                       dA: real, ssA: real, sumA: real, n: real)
    requires d == ss - 2.0 * m * sum + k * Sq(m)
    requires dA == Sq(x - m) + d && ssA == Sq(x) + ss && sumA == x + sum && n == k + 1.0
    ensures dA == ssA - 2.0 * m * sumA + n * Sq(m)
  {
    assert (x - m) * (x - m) == x * x - 2.0 * m * x + m * m;
    assert (k + 1.0) * (m * m) == k * (m * m) + m * m;
    assert 2.0 * m * (x + sum) == 2.0 * m * x + 2.0 * m * sum;
  }

  lemma {:induction false} DeviationExpand(a: seq<real>, m: real)
    ensures Deviation(a, m) == SumSquares(a) - 2.0 * m * Sum(a) + (|a| as real) * Sq(m)
    ensures Deviation(a, m) >= 0.0
    decreases |a|
  {
    if |a| > 0 {
      DeviationExpand(a[1..], m);
      Uncons(a);
      assert Deviation(a, m) == Sq(a[0] - m) + Deviation(a[1..], m);
      SqNonneg(a[0] - m);
      DeviationStep(a[0], m, SumSquares(a[1..]), Sum(a[1..]), |a[1..]| as real, Deviation(a[1..], m),
                    Deviation(a, m), SumSquares(a), Sum(a), |a| as real);
    }
  }

  lemma CauchyStep(x: real, k: real, ss: real, t: real, dev: real, n: real, ssA: real, tA: real)
    requires Sq(t) <= k * ss
    requires dev == ss - 2.0 * x * t + k * Sq(x) && dev >= 0.0
    requires n == k + 1.0 && ssA == Sq(x) + ss && tA == x + t
    ensures Sq(tA) <= n * ssA
  {
    var xx, tt := x * x, t * t;
    assert Sq(x) == xx && Sq(t) == tt;
    assert (k + 1.0) * (xx + ss) == k * (xx + ss) + (xx + ss);
    assert k * (xx + ss) == k * xx + k * ss;
    assert (x + t) * (x + t) == x * (x + t) + t * (x + t);
    assert x * (x + t) == xx + x * t;
    assert t * (x + t) == t * x + tt;
    assert 2.0 * x * t == x * t + t * x;
    assert n * ssA - Sq(tA) == (k * ss - Sq(t)) + dev;
  }

  /** n times the sum of squares bounds the square of the sum. */
  lemma {:induction false} SquareOfSumAtMost(a: seq<real>)
    ensures Sq(Sum(a)) <= (|a| as real) * SumSquares(a)
    decreases |a|
  {
    if |a| == 0 {
      assert Sq(0.0) == 0.0;
    } else {
      var x, r := a[0], a[1..];
      SquareOfSumAtMost(r);
      DeviationExpand(r, x);
      Uncons(a);
      CauchyStep(x, |r| as real, SumSquares(r), Sum(r), Deviation(r, x),
                 |a| as real, SumSquares(a), Sum(a));
    }
  }

  lemma SquareStep(x: real, t: real, ss: real)
    requires x >= 0.0 && t >= 0.0 && ss <= Sq(t)
    ensures Sq(x) + ss <= Sq(x + t)
  {
    assert (x + t) * (x + t) == x * x + 2.0 * x * t + t * t;
    MulNonneg(x, t);
  }

  /** Non-negative amounts: the square of the sum bounds the sum of squares. */
  lemma {:induction false} SumSquaresAtMostSquareOfSum(a: seq<real>)
    requires forall i :: 0 <= i < |a| ==> a[i] >= 0.0
    ensures Sum(a) >= 0.0
    ensures SumSquares(a) <= Sq(Sum(a))
    decreases |a|
  {
    if |a| > 0 {
      SumSquaresAtMostSquareOfSum(a[1..]);
      Uncons(a);
      SquareStep(a[0], Sum(a[1..]), SumSquares(a[1..]));
    }
  }

  // ----- Properties of the index -----

  predicate AllPositive(a: seq<real>) {
    forall i :: 0 <= i < |a| ==> a[i] > 0.0
  }

  lemma SumPositive(a: seq<real>)
    requires |a| > 0 && AllPositive(a)
    ensures Sum(a) > 0.0
  {
    SumSquaresAtMostSquareOfSum(a[1..]);
    Uncons(a);
  }

  lemma BoundsStep(h: real, p: real, ss: real, n: real)
    requires p > 0.0 && n > 0.0 && h * p == ss && ss <= p && p <= n * ss
    ensures 1.0 / n <= h <= 1.0
  {
    MulCompare(h, 1.0, p);
    assert n * ss == (h * n) * p;
    MulCompare(1.0, h * n, p);
    DivCancel(1.0, n);
    MulCompare(1.0 / n, h, n);
  }

  /** For positive amounts the index lies between 1/n (all equal) and 1
      (all in one). */
  lemma HHIBounds(a: seq<real>)
    requires |a| > 0 && AllPositive(a)
    ensures 1.0 / (|a| as real) <= ConcentrationHHI(a) <= 1.0
  {
    SumPositive(a);
    SumSquaresAtMostSquareOfSum(a);
    SquareOfSumAtMost(a);
    MulPos(Sum(a), Sum(a));
    BoundsStep(ConcentrationHHI(a), Sq(Sum(a)), SumSquares(a), |a| as real);
  }

  /** A single positive amount is fully concentrated. */
  lemma SingleAmountHHI(x: real)
    requires x > 0.0
    ensures ConcentrationHHI([x]) == 1.0
  {
    Uncons([x]);
    assert [x][1..] == [];
    assert Sum([x]) == x && SumSquares([x]) == Sq(x);
    SqPos(x);
    MulCancel(ConcentrationHHI([x]), 1.0, Sq(x));
  }

  /** `n` equal amounts. */
  function Constant(n: nat, x: real): (r: seq<real>)
    ensures |r| == n && forall i :: 0 <= i < n ==> r[i] == x
  {
    seq(n, _ => x)
  }

  lemma {:induction false} ConstantSums(n: nat, x: real)
    ensures Sum(Constant(n, x)) == (n as real) * x
    ensures SumSquares(Constant(n, x)) == (n as real) * Sq(x)
    decreases n
  {
    if n > 0 {
      assert Constant(n, x)[1..] == Constant(n - 1, x);
      ConstantSums(n - 1, x);
      Uncons(Constant(n, x));
    }
  }

  lemma EqualStep(h: real, n: real, x: real)
    requires n > 0.0 && x > 0.0
    requires h * Sq(n * x) == n * Sq(x)
    ensures h == 1.0 / n
  {
    var p := n * Sq(x);
    SqPos(x);
    MulPos(n, Sq(x));
    assert h * Sq(n * x) == (h * n) * p;
    MulCancel(h * n, 1.0, p);
    DivUnique(1.0, n, h);
  }

  /** `n` equal positive amounts give the lowest index, 1/n. */
  lemma EqualAmountsHHI(n: nat, x: real)
    requires n > 0 && x > 0.0
    ensures ConcentrationHHI(Constant(n, x)) == 1.0 / (n as real)
  {
    ConstantSums(n, x);
    MulPos(n as real, x);
    EqualStep(ConcentrationHHI(Constant(n, x)), n as real, x);
  }

  /** Reordering the amounts does not change the index. */
  lemma HHIPermutation(a: seq<real>, b: seq<real>)
    requires multiset(a) == multiset(b)
    ensures ConcentrationHHI(a) == ConcentrationHHI(b)
  {
    SumPermutation(a, b);
    if Sum(a) != 0.0 {
      SqPos(Sum(a));
      MulCancel(ConcentrationHHI(a), ConcentrationHHI(b), Sq(Sum(a)));
    }
  }

  /** Every amount multiplied by `c`. */
  function Scale(a: seq<real>, c: real): (r: seq<real>)
    ensures |r| == |a| && forall i :: 0 <= i < |a| ==> r[i] == c * a[i]
  {
    seq(|a|, i requires 0 <= i < |a| => c * a[i])
  }

  lemma ScaleStep(c: real, x: real, sum: real, ss: real)
    ensures c * x + c * sum == c * (x + sum)
    ensures Sq(c * x) + Sq(c) * ss == Sq(c) * (Sq(x) + ss)
  {
  }

  lemma {:induction false} ScaleSums(a: seq<real>, c: real)
    ensures Sum(Scale(a, c)) == c * Sum(a)
    ensures SumSquares(Scale(a, c)) == Sq(c) * SumSquares(a)
    decreases |a|
  {
    if |a| > 0 {
      var s, r := Scale(a, c), Scale(a[1..], c);
      assert forall i :: 0 <= i < |r| ==> s[1..][i] == r[i];
      assert s[1..] == r;
      ScaleSums(a[1..], c);
      Uncons(a);
      Uncons(s);
      ScaleStep(c, a[0], Sum(a[1..]), SumSquares(a[1..]));
    }
  }

  lemma ScaleIndexStep(g: real, h: real, c: real, t: real, ss: real)
    requires c > 0.0 && t != 0.0
    requires g * Sq(c * t) == Sq(c) * ss
    requires h * Sq(t) == ss
    ensures g == h
  {
    var p := Sq(c) * Sq(t);
    assert Sq(c * t) == p;
    assert h * p == Sq(c) * (h * Sq(t));
    SqPos(c);
    SqPos(t);
    MulPos(Sq(c), Sq(t));
    MulCancel(g, h, p);
  }

  /** Changing the unit of the amounts does not change the index. */
  lemma HHIScaling(a: seq<real>, c: real)
    requires c > 0.0
    ensures ConcentrationHHI(Scale(a, c)) == ConcentrationHHI(a)
  {
    ScaleSums(a, c);
    if Sum(a) != 0.0 {
      assert c * Sum(a) != 0.0;
      ScaleIndexStep(ConcentrationHHI(Scale(a, c)), ConcentrationHHI(a), c, Sum(a), SumSquares(a));
    }
  }
}
