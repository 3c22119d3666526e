/** Descriptive statistics over the present values of a column: the NaN-skipping
    sum, mean, sample variance, minimum, maximum and median that pandas and
    numpy compute, stated exactly over `real`. */
module Stats {
  import opened Wrappers

  /** The present values of a column, in row order (pandas skips NaN). */
  function Present(col: seq<Option<real>>): (r: seq<real>)
    ensures |r| <= |col|
    ensures forall x :: x in r <==> Some(x) in col
  {
    if |col| == 0 then []
    else
      var init := col[..|col| - 1];
      assert col == init + [col[|col| - 1]];
      Present(init) + (if col[|col| - 1].Some? then [col[|col| - 1].value] else [])
  }

  lemma {:induction false} PresentAppend(a: seq<Option<real>>, b: seq<Option<real>>)
    ensures Present(a + b) == Present(a) + Present(b)
    decreases |b|
  {
    if |b| == 0 {
      assert a + b == a;
    } else {
      var b' := b[..|b| - 1];
      assert (a + b)[..|a + b| - 1] == a + b';
      PresentAppend(a, b');
    }
  }

  /** Each value occurs among the present values exactly as often as a cell
      of the column holds it. */
  lemma {:induction false} PresentCounts(col: seq<Option<real>>)
    ensures forall x :: multiset(Present(col))[x] == multiset(col)[Some(x)]
  {
    if |col| > 0 {
      var init, last := col[..|col| - 1], col[|col| - 1];
      assert col == init + [last];
      PresentCounts(init);
    }
  }

  /** A column has no present values exactly when every cell is missing. */
  lemma {:induction false} PresentEmpty(col: seq<Option<real>>)
    ensures |Present(col)| == 0 <==> forall i :: 0 <= i < |col| ==> col[i].None?
  {
    if |col| > 0 {
      var init := col[..|col| - 1];
      PresentEmpty(init);
      assert forall i :: 0 <= i < |init| ==> init[i] == col[i];
    }
  }

  /** A column without missing cells has every cell among its present values, in order. */
  lemma {:induction false} PresentOfComplete(col: seq<Option<real>>)
    requires forall i :: 0 <= i < |col| ==> col[i].Some?
    ensures |Present(col)| == |col|
    ensures forall i :: 0 <= i < |col| ==> Present(col)[i] == col[i].value
  {
    if |col| > 0 {
      PresentOfComplete(col[..|col| - 1]);
    }
  }

  /** The present values of a one-cell column. */
  lemma PresentSingle(c: Option<real>)
    ensures Present([c]) == if c.Some? then [c.value] else []
  {
    assert [c][..0] == [];
  }

  // ---------------------------------------------------------------- sums

  function Sum(xs: seq<real>): real
  {
    if |xs| == 0 then 0.0 else Sum(xs[..|xs| - 1]) + xs[|xs| - 1]
  }

  function SumOfSquares(xs: seq<real>): real
  {
    if |xs| == 0 then 0.0 else SumOfSquares(xs[..|xs| - 1]) + Square(xs[|xs| - 1])
  }

  function Square(x: real): (r: real)
    ensures r >= 0.0
  {
    x * x
  }

  /** The sum of squared deviations of `xs` from `c`. */
  function SquaredDeviations(xs: seq<real>, c: real): (r: real)
    ensures r >= 0.0
  {
    if |xs| == 0 then 0.0
    else SquaredDeviations(xs[..|xs| - 1], c) + Square(xs[|xs| - 1] - c)
  }

  lemma {:induction false} SumAppend(a: seq<real>, b: seq<real>)
    ensures Sum(a + b) == Sum(a) + Sum(b)
    ensures SumOfSquares(a + b) == SumOfSquares(a) + SumOfSquares(b)
    decreases |b|
  {
    if |b| == 0 {
      assert a + b == a;
    } else {
      var b' := b[..|b| - 1];
      assert (a + b)[..|a + b| - 1] == a + b';
      SumAppend(a, b');
    }
  }

  // Termwise sums of `c * x` and of `c * c`: with them every inductive step
  // below stays linear, and the products are factored out once at the end.
  function ScaledSum(xs: seq<real>, c: real): real
  {
    if |xs| == 0 then 0.0 else ScaledSum(xs[..|xs| - 1], c) + c * xs[|xs| - 1]
  }

  function RepeatedSquare(xs: seq<real>, c: real): real
  {
    if |xs| == 0 then 0.0 else RepeatedSquare(xs[..|xs| - 1], c) + Square(c)
  }

  lemma SquareOfDifference(x: real, c: real)
    ensures Square(x - c) == Square(x) - 2.0 * (c * x) + Square(c)
  {
  }

  lemma Distribute(c: real, a: real, b: real, t: real)
    requires t == a + b
    ensures c * t == c * a + c * b
  {
  }

  /** Expanding the square term by term. */
  lemma {:induction false} ExpandTermwise(xs: seq<real>, c: real)
    ensures SquaredDeviations(xs, c) == SumOfSquares(xs) - 2.0 * ScaledSum(xs, c) + RepeatedSquare(xs, c)
    decreases |xs|
  {
    if |xs| > 0 {
      ExpandTermwise(xs[..|xs| - 1], c);
      SquareOfDifference(xs[|xs| - 1], c);
    }
  }

  lemma {:induction false} ScaleSum(xs: seq<real>, c: real)
    ensures ScaledSum(xs, c) == c * Sum(xs)
    decreases |xs|
  {
    if |xs| > 0 {
      ScaleSum(xs[..|xs| - 1], c);
      Distribute(c, Sum(xs[..|xs| - 1]), xs[|xs| - 1], Sum(xs));
    }
  }

  lemma {:induction false} RepeatSquare(xs: seq<real>, c: real)
    ensures RepeatedSquare(xs, c) == (|xs| as real) * Square(c)
    decreases |xs|
  {
    if |xs| > 0 {
      RepeatSquare(xs[..|xs| - 1], c);
      Distribute(Square(c), |xs| as real - 1.0, 1.0, |xs| as real);
    }
  }

  // ----------------------------------------------------- extreme values

  function Min(xs: seq<real>): (m: real)
    requires |xs| > 0
    ensures m in xs
    ensures forall i :: 0 <= i < |xs| ==> m <= xs[i]
  {
    if |xs| == 1 then xs[0]
    else
      var rest := Min(xs[..|xs| - 1]);
      assert forall i :: 0 <= i < |xs| - 1 ==> xs[..|xs| - 1][i] == xs[i];
      if xs[|xs| - 1] < rest then xs[|xs| - 1] else rest
  }

  function Max(xs: seq<real>): (m: real)
    requires |xs| > 0
    ensures m in xs
    ensures forall i :: 0 <= i < |xs| ==> xs[i] <= m
  {
    if |xs| == 1 then xs[0]
    else
      var rest := Max(xs[..|xs| - 1]);
      assert forall i :: 0 <= i < |xs| - 1 ==> xs[..|xs| - 1][i] == xs[i];
      if xs[|xs| - 1] > rest then xs[|xs| - 1] else rest
  }

  /** A lower bound on every value bounds the sum from below, n times over. */
  lemma {:induction false} SumAtLeast(xs: seq<real>, lo: real)
    requires forall i :: 0 <= i < |xs| ==> lo <= xs[i]
    ensures (|xs| as real) * lo <= Sum(xs)
    decreases |xs|
  {
    if |xs| > 0 {
      SumAtLeast(xs[..|xs| - 1], lo);
      Distribute(lo, |xs| as real - 1.0, 1.0, |xs| as real);
    }
  }

  lemma {:induction false} SumAtMost(xs: seq<real>, hi: real)
    requires forall i :: 0 <= i < |xs| ==> xs[i] <= hi
    ensures Sum(xs) <= (|xs| as real) * hi
    decreases |xs|
  {
    if |xs| > 0 {
      SumAtMost(xs[..|xs| - 1], hi);
      Distribute(hi, |xs| as real - 1.0, 1.0, |xs| as real);
    }
  }

  lemma DivideBounds(n: real, lo: real, s: real, hi: real)
    requires n > 0.0 && n * lo <= s <= n * hi
    ensures lo <= s / n <= hi
  {
  }

  // ------------------------------------------------------ mean, variance

  /** The arithmetic mean; it lies between the smallest and the largest value. */
  function Mean(xs: seq<real>): (m: real)
    requires |xs| > 0
    ensures Min(xs) <= m <= Max(xs)
  {
    SumAtLeast(xs, Min(xs));
    SumAtMost(xs, Max(xs));
    DivideBounds(|xs| as real, Min(xs), Sum(xs), Max(xs));
    Sum(xs) / (|xs| as real)
  }

  /** The sample variance (denominator n - 1, numpy's `ddof=1`). It is never
      negative, and it vanishes when all values are equal. */
  function SampleVariance(xs: seq<real>): (v: real)
    requires |xs| >= 2
    ensures v >= 0.0
    ensures Min(xs) == Max(xs) ==> v == 0.0
  {
    var m := Mean(xs);
    assert Min(xs) == Max(xs) ==> SquaredDeviations(xs, m) == 0.0 by {
      if Min(xs) == Max(xs) {
        ConstantDeviations(xs, m);
      }
    }
    SquaredDeviations(xs, m) / ((|xs| - 1) as real)
  }

  lemma {:induction false} ConstantDeviations(xs: seq<real>, c: real)
    requires forall i :: 0 <= i < |xs| ==> xs[i] == c
    ensures SquaredDeviations(xs, c) == 0.0
    decreases |xs|
  {
    if |xs| > 0 {
      ConstantDeviations(xs[..|xs| - 1], c);
    }
  }

  /** The "running sums" form of the sample variance: from the count `n`, the
      sum `s` and the sum of squares `q` of the values, which a sliding-window
      accumulator maintains, the variance is (q - s * s / n) / (n - 1). */
  function VarianceOfSums(n: real, s: real, q: real): real
    requires n > 1.0
  {
    (q - s * s / n) / (n - 1.0)
  }

  lemma VarianceFromSums(xs: seq<real>, n: real, s: real, q: real)
    requires |xs| >= 2 && n == |xs| as real && s == Sum(xs) && q == SumOfSquares(xs)
    ensures SampleVariance(xs) == VarianceOfSums(n, s, q)
  {
    var m := Mean(xs);
    assert m == s / n;
    var d := SquaredDeviations(xs, m);
    DeviationsFromSums(xs, n, s, q, m, d);
    assert (|xs| - 1) as real == n - 1.0;
    assert SampleVariance(xs) == d / (n - 1.0);
    VarianceOfSumsIs(n, s, q, d);
  }

  lemma VarianceOfSumsIs(n: real, s: real, q: real, d: real)
    requires n > 1.0 && d == q - s * s / n
    ensures VarianceOfSums(n, s, q) == d / (n - 1.0)
  {
  }

  lemma DeviationsFromSums(xs: seq<real>, n: real, s: real, q: real, m: real, d: real)
    requires |xs| > 0 && n == |xs| as real && s == Sum(xs) && q == SumOfSquares(xs)
    requires m == s / n && d == SquaredDeviations(xs, m)
    ensures d == q - s * s / n
  {
    var cross, repeated := ScaledSum(xs, m), RepeatedSquare(xs, m);
    ExpandTermwise(xs, m);
    ScaledSumIs(xs, m, s, cross);
    RepeatedSquareIs(xs, m, n, repeated);
    CentredAlgebra(n, s, q, m, cross, repeated, d);
  }

  lemma ScaledSumIs(xs: seq<real>, c: real, s: real, cross: real)
    requires s == Sum(xs) && cross == ScaledSum(xs, c)
    ensures cross == c * s
  {
    ScaleSum(xs, c);
  }

  lemma RepeatedSquareIs(xs: seq<real>, c: real, n: real, repeated: real)
    requires n == |xs| as real && repeated == RepeatedSquare(xs, c)
    ensures repeated == n * Square(c)
  {
    RepeatSquare(xs, c);
  }

  lemma CentredAlgebra(n: real, s: real, q: real, m: real, cross: real, repeated: real, d: real)
    requires n > 0.0 && m == s / n
    requires cross == m * s && repeated == n * Square(m)
    requires d == q - 2.0 * cross + repeated
    ensures d == q - s * s / n
  {
    assert n * m == s;
    assert n * (m * m) == s * m;
  }

  // ---------------------------------------------------------- ordering

  predicate Sorted(s: seq<real>)
  {
    forall i, j :: 0 <= i < j < |s| ==> s[i] <= s[j]
  }

  function Insert(x: real, s: seq<real>): (r: seq<real>)
    requires Sorted(s)
    ensures Sorted(r)
    ensures multiset(r) == multiset(s) + multiset{x}
    ensures |r| == |s| + 1
    ensures r[0] == x || (|s| > 0 && r[0] == s[0])
  {
    if |s| == 0 then [x]
    else if x <= s[0] then [x] + s
    else
      var rest := Insert(x, s[1..]);
      assert s == [s[0]] + s[1..];
      [s[0]] + rest
  }

  /** Insertion sort: an ascending permutation of the input. */
  function Sort(xs: seq<real>): (r: seq<real>)
    ensures Sorted(r)
    ensures multiset(r) == multiset(xs)
  {
    if |xs| == 0 then []
    else
      assert xs == xs[..|xs| - 1] + [xs[|xs| - 1]];
      Insert(xs[|xs| - 1], Sort(xs[..|xs| - 1]))
  }

  /** pandas' median of the present values: the middle element of the sorted
      values, or the mean of the two middle elements when their number is even. */
  function Median(xs: seq<real>): (m: real)
    requires |xs| > 0
    ensures Min(xs) <= m <= Max(xs)
  {
    var s := Sort(xs);
    assert |s| == |xs| by { assert |multiset(s)| == |multiset(xs)|; }
    var k := |s| / 2;
    assert s[k] in xs by { assert s[k] in multiset(xs); }
    assert s[(|s| - 1) / 2] in xs by { assert s[(|s| - 1) / 2] in multiset(xs); }
    Middle(s)
  }

  /** The middle of a non-empty ascending sequence. */
  function Middle(s: seq<real>): (m: real)
    requires |s| > 0
    requires Sorted(s)
    ensures s[(|s| - 1) / 2] <= m <= s[|s| / 2]
  {
    var k := |s| / 2;
    if |s| % 2 == 1 then s[k] else (s[k - 1] + s[k]) / 2.0
  }

  /** The median is the middle of ANY ascending arrangement of the values:
      the middle element for an odd count, and the mean of the two middle
      elements for an even one. */
  lemma MedianOfSorted(xs: seq<real>, s: seq<real>)
    requires |xs| > 0 && Sorted(s) && multiset(s) == multiset(xs)
    ensures |s| == |xs|
    ensures Median(xs) == if |s| % 2 == 1 then s[|s| / 2] else (s[|s| / 2 - 1] + s[|s| / 2]) / 2.0
  {
    assert |s| == |xs| by { assert |multiset(s)| == |multiset(xs)|; }
    SortedUnique(Sort(xs), s);
  }

  /** Two ascending sequences with the same values are equal. */
  lemma {:induction false} SortedUnique(a: seq<real>, b: seq<real>)
    requires Sorted(a) && Sorted(b) && multiset(a) == multiset(b)
    ensures a == b
    decreases |a|
  {
    SameLength(a, b);
    if |a| > 0 {
      SameHead(a, b);
      SortedUnique(a[1..], b[1..]);
      assert a == [a[0]] + a[1..] && b == [b[0]] + b[1..];
    }
  }

  lemma SameLength(a: seq<real>, b: seq<real>)
    requires multiset(a) == multiset(b)
    ensures |a| == |b|
  {
    assert |multiset(a)| == |multiset(b)|;
  }

  /** Two non-empty ascending sequences with the same values start alike,
      and their tails are ascending with the same values. */
  lemma SameHead(a: seq<real>, b: seq<real>)
    requires Sorted(a) && Sorted(b) && multiset(a) == multiset(b) && |a| > 0
    ensures |b| > 0 && a[0] == b[0]
    ensures Sorted(a[1..]) && Sorted(b[1..]) && multiset(a[1..]) == multiset(b[1..])
  {
    SameLength(a, b);
    var x, y := a[0], b[0];
    assert y in multiset(a) && x in multiset(b) by {
      assert b[0] in b && a[0] in a;
    }
    HeadIsLeast(a, y);
    HeadIsLeast(b, x);
    SortedTail(a);
    SortedTail(b);
  }

  /** The head of an ascending sequence is at most each of its values. */
  lemma HeadIsLeast(a: seq<real>, x: real)
    requires Sorted(a) && x in multiset(a)
    ensures |a| > 0 && a[0] <= x
  {
    var i :| 0 <= i < |a| && a[i] == x;
    assert a[0] <= a[i];
  }

  /** The tail of an ascending sequence is ascending and holds the other values. */
  lemma SortedTail(a: seq<real>)
    requires Sorted(a) && |a| > 0
    ensures Sorted(a[1..])
    ensures multiset(a[1..]) == multiset(a) - multiset{a[0]}
  {
    assert a == [a[0]] + a[1..];
    assert forall i, j :: 0 <= i < j < |a| - 1 ==> a[1..][i] == a[i + 1] && a[1..][j] == a[j + 1];
  }

  // ------------------------------------------------------------- counting

  /** How many values are at most `m`. */
  function AtMost(xs: seq<real>, m: real): nat
  {
    if |xs| == 0 then 0 else AtMost(xs[..|xs| - 1], m) + (if xs[|xs| - 1] <= m then 1 else 0)
  }

  /** How many values are at least `m`. */
  function AtLeast(xs: seq<real>, m: real): nat
  {
    if |xs| == 0 then 0 else AtLeast(xs[..|xs| - 1], m) + (if xs[|xs| - 1] >= m then 1 else 0)
  }

  lemma {:induction false} CountAppend(a: seq<real>, b: seq<real>, m: real)
    ensures AtMost(a + b, m) == AtMost(a, m) + AtMost(b, m)
    ensures AtLeast(a + b, m) == AtLeast(a, m) + AtLeast(b, m)
    decreases |b|
  {
    if |b| == 0 {
      assert a + b == a;
    } else {
      var b' := b[..|b| - 1];
      assert (a + b)[..|a + b| - 1] == a + b';
      CountAppend(a, b', m);
    }
  }

  /** Removing the cell at `j` removes exactly its own contribution to the counts. */
  lemma CountWithout(b: seq<real>, j: nat, m: real)
    requires j < |b|
    ensures AtMost(b, m) == AtMost(b[..j] + b[j + 1..], m) + (if b[j] <= m then 1 else 0)
    ensures AtLeast(b, m) == AtLeast(b[..j] + b[j + 1..], m) + (if b[j] >= m then 1 else 0)
  {
    assert b == b[..j] + ([b[j]] + b[j + 1..]);
    CountAppend(b[..j], [b[j]] + b[j + 1..], m);
    CountAppend([b[j]], b[j + 1..], m);
    CountAppend(b[..j], b[j + 1..], m);
    assert [b[j]][..0] == [];
  }

  lemma MultisetWithout(b: seq<real>, j: nat)
    requires j < |b|
    ensures multiset(b[..j] + b[j + 1..]) == multiset(b) - multiset{b[j]}
  {
    assert b == b[..j] + [b[j]] + b[j + 1..];
  }

  /** Counting depends only on the multiset of values, not on their order. */
  lemma {:induction false} CountPermutation(a: seq<real>, b: seq<real>, m: real)
    requires multiset(a) == multiset(b)
    ensures AtMost(a, m) == AtMost(b, m)
    ensures AtLeast(a, m) == AtLeast(b, m)
    decreases |a|
  {
    if |a| == 0 {
      assert |multiset(b)| == 0;
    } else {
      var init := a[..|a| - 1];
      var x := a[|a| - 1];
      assert a == init + [x];
      assert multiset(init) == multiset(a) - multiset{x};
      assert x in multiset(b);
      var j :| 0 <= j < |b| && b[j] == x;
      MultisetWithout(b, j);
      CountPermutation(init, b[..j] + b[j + 1..], m);
      CountWithout(b, j, m);
    }
  }

  lemma {:induction false} AtMostPrefix(s: seq<real>, p: nat, m: real)
    requires p <= |s|
    requires forall i :: 0 <= i < p ==> s[i] <= m
    ensures AtMost(s, m) >= p
  {
    if |s| > 0 {
      var init := s[..|s| - 1];
      if p == |s| {
        AtMostPrefix(init, p - 1, m);
      } else {
        AtMostPrefix(init, p, m);
      }
    }
  }

  lemma {:induction false} AtLeastSuffix(s: seq<real>, p: nat, m: real)
    requires p <= |s|
    requires forall i :: p <= i < |s| ==> m <= s[i]
    ensures AtLeast(s, m) + p >= |s|
  {
    if |s| > p {
      AtLeastSuffix(s[..|s| - 1], p, m);
    }
  }

  /** The median splits the values in half: at least half of them lie at or
      below it and at least half at or above it. This characterises the median
      independently of how it is computed. */
  lemma MedianSplitsInHalf(xs: seq<real>)
    requires |xs| > 0
    ensures 2 * AtMost(xs, Median(xs)) >= |xs|
    ensures 2 * AtLeast(xs, Median(xs)) >= |xs|
  {
    var s := Sort(xs);
    assert |s| == |xs| by { assert |multiset(s)| == |multiset(xs)|; }
    var m := Middle(s);
    assert m == Median(xs);
    CountPermutation(xs, s, m);
    SortedHalves(s);
  }

  /** In an ascending sequence the first half lies at or below the middle and
      the second half at or above it. */
  lemma SortedHalves(s: seq<real>)
    requires |s| > 0 && Sorted(s)
    ensures 2 * AtMost(s, Middle(s)) >= |s|
    ensures 2 * AtLeast(s, Middle(s)) >= |s|
  {
    var m := Middle(s);
    var lo, hi := (|s| - 1) / 2, |s| / 2;
    assert lo + 1 + hi == |s|;
    forall i | 0 <= i < lo + 1
      ensures s[i] <= m
    {
      assert s[i] <= s[lo];
    }
    forall i | hi <= i < |s|
      ensures m <= s[i]
    {
      assert s[hi] <= s[i];
    }
    AtMostPrefix(s, lo + 1, m);
    AtLeastSuffix(s, hi, m);
  }
}
