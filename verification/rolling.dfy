/** Trailing rolling statistics: for a column `c`,
      c_Rolling_Mean = c.rolling(window=5, min_periods=1).mean()
      c_Rolling_Std  = c.rolling(window=5, min_periods=1).std()
    The window of row i is rows max(0, i - 4) .. i. The mean needs one present
    value in the window; the sample standard deviation (denominator n - 1)
    needs two, so the first row's deviation is always missing. */
module Rolling {
  import opened Wrappers
  import opened Stats
  import opened Tables

  const WINDOW: nat := 5

  /** The square root the numerics library supplies: non-negative, and its
      square gives back its argument. */
  ghost predicate IsSqrt(sqrt: real -> real) {
    forall x :: x >= 0.0 ==> sqrt(x) >= 0.0 && sqrt(x) * sqrt(x) == x
  }

  /** First row of the window ending at row i. */
  function WindowStart(i: nat): nat {
    if i + 1 >= WINDOW then i + 1 - WINDOW else 0
  }

  /** The cells of the window ending at row i: min(i + 1, 5) of them, ending at row i. */
  function Window(col: seq<Option<real>>, i: nat): (w: seq<Option<real>>)
    requires i < |col|
    ensures |w| == if i + 1 < WINDOW then i + 1 else WINDOW
    ensures w[|w| - 1] == col[i]
    ensures forall j :: 0 <= j < |w| ==> w[j] == col[WindowStart(i) + j]
  {
    col[WindowStart(i)..i + 1]
  }

  function MeanOf(p: seq<real>): Option<real> {
    if |p| >= 1 then Some(Mean(p)) else None
  }

  function StdOf(sqrt: real -> real, p: seq<real>): Option<real> {
    if |p| >= 2 then Some(sqrt(SampleVariance(p))) else None
  }

  /** Row i's rolling statistics: those of the present values in its window. */
  function MeanAt(col: seq<Option<real>>, i: nat): Option<real>
    requires i < |col|
  {
    MeanOf(Present(Window(col, i)))
  }

  function StdAt(sqrt: real -> real, col: seq<Option<real>>, i: nat): Option<real>
    requires i < |col|
  {
    StdOf(sqrt, Present(Window(col, i)))
  }

  /** The rolling mean, row by row. */
  function RollingMean(col: seq<Option<real>>): (r: seq<Option<real>>)
    ensures |r| == |col|
  {
    seq(|col|, i requires 0 <= i < |col| => MeanAt(col, i))
  }

  /** The rolling mean is present exactly where the window has a present
      value, and then lies between the window's smallest and largest present
      value. */
  lemma RollingMeanInWindow(col: seq<Option<real>>, i: nat)
    requires i < |col|
    ensures RollingMean(col)[i].Some? <==> exists j :: WindowStart(i) <= j <= i && col[j].Some?
    ensures RollingMean(col)[i].Some? ==>
              var p := Present(Window(col, i));
              |p| > 0 && Min(p) <= RollingMean(col)[i].value <= Max(p)
  {
    WindowHasPresent(col, i);
  }

  lemma WindowHasPresent(col: seq<Option<real>>, i: nat)
    requires i < |col|
    ensures |Present(Window(col, i))| > 0 <==> exists j :: WindowStart(i) <= j <= i && col[j].Some?
  {
    var w := Window(col, i);
    var p := Present(w);
    if |p| > 0 {
      assert Some(p[0]) in w;
      var k :| 0 <= k < |w| && w[k] == Some(p[0]);
      assert col[WindowStart(i) + k].Some?;
    }
    if j :| WindowStart(i) <= j <= i && col[j].Some? {
      assert w[j - WindowStart(i)] == col[j];
      assert col[j].value in p;
    }
  }

  /** The rolling sample standard deviation: missing wherever the window has
      fewer than two present values. */
  function RollingStd(sqrt: real -> real, col: seq<Option<real>>): (r: seq<Option<real>>)
    ensures |r| == |col|
  {
    seq(|col|, i requires 0 <= i < |col| => StdAt(sqrt, col, i))
  }

  /** Row 0: the mean is the row's own value, the deviation is missing. */
  lemma FirstRow(sqrt: real -> real, col: seq<Option<real>>)
    requires |col| > 0
    ensures RollingMean(col)[0] == col[0]
    ensures RollingStd(sqrt, col)[0] == None
  {
    var w := Window(col, 0);
    assert w == [col[0]];
    PresentSingle(col[0]);
    if col[0].Some? {
      var p := [col[0].value];
      assert Sum(p) == Sum(p[..0]) + p[0];
      assert Mean(p) == col[0].value;
    }
  }

  /** Where defined, the rolling deviation is non-negative, and its square is
      the sample variance of the window's present values. */
  lemma RollingStdNonNegative(sqrt: real -> real, col: seq<Option<real>>, i: nat)
    requires IsSqrt(sqrt)
    requires i < |col| && RollingStd(sqrt, col)[i].Some?
    ensures RollingStd(sqrt, col)[i].value >= 0.0
    ensures Square(RollingStd(sqrt, col)[i].value) == SampleVariance(Present(Window(col, i)))
  {
    var p := Present(Window(col, i));
    var v := SampleVariance(p);
    assert RollingStd(sqrt, col)[i] == Some(sqrt(v));
    SqrtOfVariance(sqrt, v, sqrt(v));
  }

  lemma SqrtOfVariance(sqrt: real -> real, v: real, r: real)
    requires IsSqrt(sqrt) && v >= 0.0 && r == sqrt(v)
    ensures r >= 0.0 && Square(r) == v
  {
  }

  /** On a column without gaps: the mean at row i is the plain sum of the
      window's min(i + 1, 5) values divided by that count, and the deviation is
      defined on every row but the first. */
  lemma RollingOfComplete(sqrt: real -> real, col: seq<Option<real>>, i: nat)
    requires forall j :: 0 <= j < |col| ==> col[j].Some?
    requires i < |col|
    ensures var w := Window(col, i);
            RollingMean(col)[i] == Some(Sum(Present(w)) / (|w| as real))
    ensures RollingStd(sqrt, col)[i].Some? <==> i >= 1
  {
    var w := Window(col, i);
    PresentOfComplete(w);
  }

  /** The values 1 to 7, without gaps. */
  const ONE_TO_SEVEN: seq<Option<real>> :=
    [Some(1.0), Some(2.0), Some(3.0), Some(4.0), Some(5.0), Some(6.0), Some(7.0)]

  /** On the values 1 to 7: row 0's mean is 1, row 4's is the mean of rows 0
      to 4, row 6's the mean of rows 2 to 6. */
  lemma RollingMeanExample()
    ensures RollingMean(ONE_TO_SEVEN)[0] == Some(1.0)
    ensures RollingMean(ONE_TO_SEVEN)[4] == Some(3.0)
    ensures RollingMean(ONE_TO_SEVEN)[6] == Some(5.0)
  {
    FirstMean(ONE_TO_SEVEN);
    ExampleRow(4, 1.0);
    ExampleRow(6, 3.0);
  }

  lemma ExampleRow(i: nat, a: real)
    requires 4 <= i < 7 && a == (i - 3) as real
    ensures RollingMean(ONE_TO_SEVEN)[i] == Some(a + 2.0)
  {
    var col := ONE_TO_SEVEN;
    assert forall j :: 0 <= j < |col| ==> col[j] == Some((j + 1) as real);
    WindowOfFive(col, i, a, a + 1.0, a + 2.0, a + 3.0, a + 4.0);
  }

  /** Row 0's mean is the row's own value. */
  lemma FirstMean(col: seq<Option<real>>)
    requires |col| > 0
    ensures RollingMean(col)[0] == col[0]
  {
    FirstRow(x => x, col);
  }

  /** The mean at a row whose full window of a column without gaps holds
      a, b, c, d, e. */
  lemma WindowOfFive(col: seq<Option<real>>, i: nat, a: real, b: real, c: real, d: real, e: real)
    requires forall j :: 0 <= j < |col| ==> col[j].Some?
    requires 4 <= i < |col|
    requires col[i - 4] == Some(a) && col[i - 3] == Some(b) && col[i - 2] == Some(c)
    requires col[i - 1] == Some(d) && col[i] == Some(e)
    ensures RollingMean(col)[i] == Some((a + b + c + d + e) / 5.0)
  {
    var w := Window(col, i);
    assert w == [Some(a), Some(b), Some(c), Some(d), Some(e)];
    PresentOfFive(a, b, c, d, e);
    MeanOfFive(a, b, c, d, e);
    assert RollingMean(col)[i] == MeanAt(col, i);
  }

  lemma PresentOfFive(a: real, b: real, c: real, d: real, e: real)
    ensures Present([Some(a), Some(b), Some(c), Some(d), Some(e)]) == [a, b, c, d, e]
  {
    var w := [Some(a), Some(b), Some(c), Some(d), Some(e)];
    PresentOfComplete(w);
  }

  lemma MeanOfFive(a: real, b: real, c: real, d: real, e: real)
    ensures MeanOf([a, b, c, d, e]) == Some((a + b + c + d + e) / 5.0)
  {
    SumOfFive(a, b, c, d, e);
    MeanIsAverage([a, b, c, d, e]);
  }

  lemma MeanIsAverage(p: seq<real>)
    requires |p| == 5
    ensures Mean(p) == Sum(p) / 5.0
  {
  }

  lemma SumOfFive(a: real, b: real, c: real, d: real, e: real)
    ensures Sum([a, b, c, d, e]) == a + b + c + d + e
  {
    assert Sum([a]) == a by { assert [a][..0] == []; }
    assert Sum([a, b]) == a + b by { assert [a, b][..1] == [a]; }
    assert Sum([a, b, c]) == a + b + c by { assert [a, b, c][..2] == [a, b]; }
    assert Sum([a, b, c, d]) == a + b + c + d by { assert [a, b, c, d][..3] == [a, b, c]; }
    assert [a, b, c, d, e][..4] == [a, b, c, d];
  }

  // ------------------------------------------------- running-sum algorithm

  /** Consecutive windows: the next one starts at the same row or one later. */
  lemma WindowStartStep(i: nat)
    ensures WindowStart(i + 1) == WindowStart(i) || WindowStart(i + 1) == WindowStart(i) + 1
    ensures WindowStart(i) <= i
  {
  }

  /** Present values of `col[lo..hi + 1]` extend those of `col[lo..hi]` by `col[hi]`. */
  lemma PresentExtend(col: seq<Option<real>>, lo: nat, hi: nat)
    requires lo <= hi < |col|
    ensures Present(col[lo..hi + 1]) == Present(col[lo..hi]) + Present([col[hi]])
  {
    assert col[lo..hi + 1] == col[lo..hi] + [col[hi]];
    PresentAppend(col[lo..hi], [col[hi]]);
  }

  /** Present values of `col[lo..hi]` are `col[lo]`'s followed by those of `col[lo + 1..hi]`. */
  lemma PresentShrink(col: seq<Option<real>>, lo: nat, hi: nat)
    requires lo < hi <= |col|
    ensures Present(col[lo..hi]) == Present([col[lo]]) + Present(col[lo + 1..hi])
  {
    assert col[lo..hi] == [col[lo]] + col[lo + 1..hi];
    PresentAppend([col[lo]], col[lo + 1..hi]);
  }

  /** The running accumulator: count, sum and sum of squares of the present
      values in the current window. */
  datatype Sums = Sums(count: int, sum: real, sumSq: real)

  /** `acc` describes exactly the present values of `col[lo..hi]`. */
  ghost predicate Tracks(col: seq<Option<real>>, lo: nat, hi: nat, acc: Sums)
    requires lo <= hi <= |col|
  {
    var p := Present(col[lo..hi]);
    acc.count == |p| && acc.sum == Sum(p) && acc.sumSq == SumOfSquares(p)
  }

  function Enter(acc: Sums, c: Option<real>): Sums {
    if c.Some? then Sums(acc.count + 1, acc.sum + c.value, acc.sumSq + Square(c.value)) else acc
  }

  function Leave(acc: Sums, c: Option<real>): Sums {
    if c.Some? then Sums(acc.count - 1, acc.sum - c.value, acc.sumSq - Square(c.value)) else acc
  }

  /** The statistics of a window from its running sums. */
  function MeanFromSums(acc: Sums): Option<real> {
    if acc.count >= 1 then Some(acc.sum / (acc.count as real)) else None
  }

  function StdFromSums(sqrt: real -> real, acc: Sums): Option<real> {
    if acc.count >= 2 then
      Some(sqrt(VarianceOfSums(acc.count as real, acc.sum, acc.sumSq)))
    else
      None
  }

  /** Adding (sign 1) or removing (sign -1) one cell to the running sums. */
  lemma SumsOfOneCell(c: Option<real>)
    ensures |Present([c])| == (if c.Some? then 1 else 0)
    ensures Sum(Present([c])) == (if c.Some? then c.value else 0.0)
    ensures SumOfSquares(Present([c])) == (if c.Some? then Square(c.value) else 0.0)
  {
    PresentSingle(c);
    if c.Some? {
      var p := [c.value];
      assert p[..0] == [];
    }
  }

  lemma TracksEnter(col: seq<Option<real>>, lo: nat, hi: nat, acc: Sums)
    requires lo <= hi < |col| && Tracks(col, lo, hi, acc)
    ensures Tracks(col, lo, hi + 1, Enter(acc, col[hi]))
  {
    PresentExtend(col, lo, hi);
    SumsOfOneCell(col[hi]);
    SumAppend(Present(col[lo..hi]), Present([col[hi]]));
  }

  lemma TracksLeave(col: seq<Option<real>>, lo: nat, hi: nat, acc: Sums)
    requires lo < hi <= |col| && Tracks(col, lo, hi, acc)
    ensures Tracks(col, lo + 1, hi, Leave(acc, col[lo]))
  {
    var a, b := Present([col[lo]]), Present(col[lo + 1..hi]);
    PresentShrink(col, lo, hi);
    SumsOfOneCell(col[lo]);
    SumAppend(a, b);
    LeaveArith(acc, col[lo], |a|, Sum(a), SumOfSquares(a), |b|, Sum(b), SumOfSquares(b));
  }

  lemma LeaveArith(acc: Sums, c: Option<real>, n: int, s: real, q: real, n': int, s': real, q': real)
    requires n == (if c.Some? then 1 else 0)
    requires s == (if c.Some? then c.value else 0.0)
    requires q == (if c.Some? then Square(c.value) else 0.0)
    requires acc.count == n + n' && acc.sum == s + s' && acc.sumSq == q + q'
    ensures Leave(acc, c) == Sums(n', s', q')
  {
  }

  /** Sums that track row i's window give row i's rolling statistics. */
  lemma TracksWindow(sqrt: real -> real, col: seq<Option<real>>, i: nat, acc: Sums)
    requires i < |col| && WindowStart(i) <= i
    requires Tracks(col, WindowStart(i), i + 1, acc)
    ensures MeanFromSums(acc) == MeanAt(col, i)
    ensures StdFromSums(sqrt, acc) == StdAt(sqrt, col, i)
  {
    var w := Window(col, i);
    assert col[WindowStart(i)..i + 1] == w;
    SumsGiveStatistics(sqrt, Present(w), acc);
  }

  /** Count, sum and sum of squares determine the mean and the sample deviation. */
  lemma SumsGiveStatistics(sqrt: real -> real, p: seq<real>, acc: Sums)
    requires acc.count == |p| && acc.sum == Sum(p) && acc.sumSq == SumOfSquares(p)
    ensures MeanFromSums(acc) == MeanOf(p)
    ensures StdFromSums(sqrt, acc) == StdOf(sqrt, p)
  {
    SumsGiveMean(p, acc);
    SumsGiveStd(sqrt, p, acc);
  }

  lemma SumsGiveMean(p: seq<real>, acc: Sums)
    requires acc.count == |p| && acc.sum == Sum(p)
    ensures MeanFromSums(acc) == MeanOf(p)
  {
  }

  lemma SumsGiveStd(sqrt: real -> real, p: seq<real>, acc: Sums)
    requires acc.count == |p| && acc.sum == Sum(p) && acc.sumSq == SumOfSquares(p)
    ensures StdFromSums(sqrt, acc) == StdOf(sqrt, p)
  {
    if |p| >= 2 {
      VarianceFromSums(p, acc.count as real, acc.sum, acc.sumSq);
    }
  }

  /** The O(1)-per-row sliding-window accumulator: it keeps the count, sum and
      sum of squares of the present values in the window, adds the entering
      row and drops the leaving one, and produces exactly the windowed rolling
      mean and deviation. */
  method RollingRunning(sqrt: real -> real, col: seq<Option<real>>)
    returns (means: seq<Option<real>>, stds: seq<Option<real>>)
    ensures means == RollingMean(col)
    ensures stds == RollingStd(sqrt, col)
  {
    means, stds := [], [];
    var acc := Sums(0, 0.0, 0.0);
    var i := 0;
    while i < |col|
      invariant i <= |col| && WindowStart(i) <= i
      invariant means == RollingMean(col)[..i] && stds == RollingStd(sqrt, col)[..i]
      invariant Tracks(col, WindowStart(i), i, acc)
    {
      var lo := WindowStart(i);
      acc := Admit(col, lo, i, acc);
      var mean, std := Emit(sqrt, col, i, acc);
      ExtendPrefix(RollingMean(col), means, i, mean);
      ExtendPrefix(RollingStd(sqrt, col), stds, i, std);
      means, stds := means + [mean], stds + [std];
      WindowStartStep(i);
      if WindowStart(i + 1) != lo {
        acc := Evict(col, lo, i + 1, acc);
      }
      i := i + 1;
    }
    assert means == RollingMean(col)[..|col|];
  }

  lemma ExtendPrefix<T>(r: seq<T>, prefix: seq<T>, i: nat, x: T)
    requires i < |r| && prefix == r[..i] && x == r[i]
    ensures prefix + [x] == r[..i + 1]
  {
  }

  /** Row `hi` enters the window `lo..hi`. */
  method Admit(col: seq<Option<real>>, lo: nat, hi: nat, acc: Sums) returns (next: Sums)
    requires lo <= hi < |col| && Tracks(col, lo, hi, acc)
    ensures Tracks(col, lo, hi + 1, next)
  {
    TracksEnter(col, lo, hi, acc);
    next := Enter(acc, col[hi]);
  }

  /** Row `lo` leaves the window `lo..hi`. */
  method Evict(col: seq<Option<real>>, lo: nat, hi: nat, acc: Sums) returns (next: Sums)
    requires lo < hi <= |col| && Tracks(col, lo, hi, acc)
    ensures Tracks(col, lo + 1, hi, next)
  {
    TracksLeave(col, lo, hi, acc);
    next := Leave(acc, col[lo]);
  }

  /** The statistics of row i, read off the sums of its window. */
  method Emit(sqrt: real -> real, col: seq<Option<real>>, i: nat, acc: Sums)
    returns (mean: Option<real>, std: Option<real>)
    requires i < |col| && WindowStart(i) <= i
    requires Tracks(col, WindowStart(i), i + 1, acc)
    ensures mean == RollingMean(col)[i]
    ensures std == RollingStd(sqrt, col)[i]
  {
    TracksWindow(sqrt, col, i, acc);
    mean, std := MeanFromSums(acc), StdFromSums(sqrt, acc);
  }

  /** The rolling stage for one column: adds its mean and deviation columns.
      A missing column raises KeyError, a string column raises DataError. */
  function AddRollingFor(sqrt: real -> real, t: Table, name: string, meanName: string, stdName: string)
    : (r: Result<Table, Error>)
    requires t.WellFormed()
    ensures r.Ok? <==> t.HasNumeric(name)
    ensures r.Err? ==> r.error == Fault(t, name)
    ensures r.Ok? ==> r.value.WellFormed() && r.value.rows == t.rows
  {
    match Require(t, [name], [name])
    case Some(e) => Err(e)
    case None =>
      var col := t.columns[name].values;
      Ok(t.With(meanName, RollingMean(col)).With(stdName, RollingStd(sqrt, col)))
  }

  /** What one stage does to the column named `k`: the two written names hold
      the statistics of the source, every other column is unchanged. */
  lemma AddRollingForColumn(sqrt: real -> real, t: Table, name: string, meanName: string, stdName: string, k: string)
    requires t.WellFormed() && meanName != stdName && t.HasNumeric(name)
    ensures var r := AddRollingFor(sqrt, t, name, meanName, stdName).value;
            && (k in r.columns <==> k in t.columns || k == meanName || k == stdName)
            && (k in t.columns && k != meanName && k != stdName ==> r.columns[k] == t.columns[k])
            && (k == meanName ==> r.columns[k] == Numeric(RollingMean(t.columns[name].values)))
            && (k == stdName ==> r.columns[k] == Numeric(RollingStd(sqrt, t.columns[name].values)))
  {
  }

  /** One pass of the rolling loop: the column it reads and the names of the
      mean and deviation columns it writes. */
  datatype Stage = Stage(source: string, meanName: string, stdName: string)

  /** The loop `for col in [...]`: the stages run in order, each on the
      table the previous one produced; the first source column that is
      missing or not numeric raises. */
  function RunStages(sqrt: real -> real, t: Table, stages: seq<Stage>): (r: Result<Table, Error>)
    requires t.WellFormed()
    ensures r.Ok? ==> r.value.WellFormed() && r.value.rows == t.rows
    decreases |stages|
  {
    if |stages| == 0 then Ok(t)
    else
      var s := stages[0];
      var t1 :- AddRollingFor(sqrt, t, s.source, s.meanName, s.stdName);
      RunStages(sqrt, t1, stages[1..])
  }

  /** The names the stages write. */
  function Written(stages: seq<Stage>): (w: set<string>)
    ensures forall i :: 0 <= i < |stages| ==> stages[i].meanName in w && stages[i].stdName in w
    decreases |stages|
  {
    if |stages| == 0 then {}
    else {stages[0].meanName, stages[0].stdName} + Written(stages[1..])
  }

  /** No stage writes a column a later stage reads, each stage writes two
      different names, and no two stages write the same name. */
  predicate Separated(stages: seq<Stage>)
    decreases |stages|
  {
    |stages| == 0 ||
    (var s := stages[0];
     && s.meanName != s.stdName
     && (forall j :: 1 <= j < |stages| ==> stages[j].source != s.meanName && stages[j].source != s.stdName)
     && s.meanName !in Written(stages[1..]) && s.stdName !in Written(stages[1..])
     && Separated(stages[1..]))
  }

  /** Every source the stages read is a numeric column of `t`. */
  predicate SourcesNumeric(t: Table, stages: seq<Stage>)
  {
    forall i :: 0 <= i < |stages| ==> t.HasNumeric(stages[i].source)
  }

  /** The first pass of the loop on a table whose first source is numeric:
      the rest of the loop continues from its result, in which every later
      source column is as it was. */
  lemma StageStep(sqrt: real -> real, t: Table, stages: seq<Stage>) returns (t1: Table)
    requires t.WellFormed() && |stages| > 0 && Separated(stages) && t.HasNumeric(stages[0].source)
    ensures t1.WellFormed() && Separated(stages[1..])
    ensures t1 == AddRollingFor(sqrt, t, stages[0].source, stages[0].meanName, stages[0].stdName).value
    ensures RunStages(sqrt, t, stages) == RunStages(sqrt, t1, stages[1..])
    ensures forall j :: 1 <= j < |stages| ==> SameColumn(t1, t, stages[j].source)
  {
    var s := stages[0];
    t1 := AddRollingFor(sqrt, t, s.source, s.meanName, s.stdName).value;
    forall j | 1 <= j < |stages|
      ensures SameColumn(t1, t, stages[j].source)
    {
      AddRollingForColumn(sqrt, t, s.source, s.meanName, s.stdName, stages[j].source);
    }
  }

  /** Column `k` is present in both tables or in neither, and equal when present. */
  predicate SameColumn(t1: Table, t: Table, k: string)
  {
    (k in t1.columns <==> k in t.columns) && (k in t.columns ==> t1.columns[k] == t.columns[k])
  }

  /** Whether the sources of a prefix of the stages are numeric, read off the
      first stage in `t` and the remaining ones in `t1`. */
  lemma SourcesShift(t: Table, t1: Table, stages: seq<Stage>, n: nat)
    requires 0 < n <= |stages|
    requires forall j :: 1 <= j < |stages| ==> SameColumn(t1, t, stages[j].source)
    ensures SourcesNumeric(t, stages[..n]) <==>
              t.HasNumeric(stages[0].source) && SourcesNumeric(t1, stages[1..][..n - 1])
  {
    var pre := stages[1..][..n - 1];
    assert forall j :: 0 <= j < |pre| ==> pre[j] == stages[..n][j + 1];
    assert forall j :: 1 <= j < |stages| ==> (t1.HasNumeric(stages[j].source) <==> t.HasNumeric(stages[j].source));
  }

  /** The loop succeeds exactly when every source is numeric; otherwise it
      raises the error of the first source, in loop order, that is not. */
  lemma RunStagesOutcome(sqrt: real -> real, t: Table, stages: seq<Stage>)
    requires t.WellFormed() && Separated(stages)
    ensures RunStages(sqrt, t, stages).Ok? <==> SourcesNumeric(t, stages)
    ensures forall i :: 0 <= i < |stages| && SourcesNumeric(t, stages[..i]) && !t.HasNumeric(stages[i].source) ==>
              RunStages(sqrt, t, stages) == Err(Fault(t, stages[i].source))
  {
    RunStagesSucceeds(sqrt, t, stages);
    forall i | 0 <= i < |stages| && SourcesNumeric(t, stages[..i]) && !t.HasNumeric(stages[i].source)
      ensures RunStages(sqrt, t, stages) == Err(Fault(t, stages[i].source))
    {
      RunStagesFails(sqrt, t, stages, i);
    }
  }

  lemma {:induction false} RunStagesSucceeds(sqrt: real -> real, t: Table, stages: seq<Stage>)
    requires t.WellFormed() && Separated(stages)
    ensures RunStages(sqrt, t, stages).Ok? <==> SourcesNumeric(t, stages)
    decreases |stages|
  {
    if |stages| > 0 && t.HasNumeric(stages[0].source) {
      var t1 := StageStep(sqrt, t, stages);
      var rest := stages[1..];
      RunStagesSucceeds(sqrt, t1, rest);
      assert stages[..|stages|] == stages && rest[..|rest|] == rest;
      SourcesShift(t, t1, stages, |stages|);
    }
  }

  /** Stage `i` is the first whose source is not numeric: the loop raises
      that source's error. */
  lemma {:induction false} RunStagesFails(sqrt: real -> real, t: Table, stages: seq<Stage>, i: nat)
    requires t.WellFormed() && Separated(stages) && i < |stages|
    requires SourcesNumeric(t, stages[..i]) && !t.HasNumeric(stages[i].source)
    ensures RunStages(sqrt, t, stages) == Err(Fault(t, stages[i].source))
    decreases |stages|
  {
    if i > 0 {
      assert stages[..i][0] == stages[0];
      var t1 := StageStep(sqrt, t, stages);
      SourcesShift(t, t1, stages, i);
      assert stages[1..][i - 1] == stages[i];
      assert SameColumn(t1, t, stages[i].source);
      RunStagesFails(sqrt, t1, stages[1..], i - 1);
    }
  }

  /** After a successful loop, column `k` exists exactly when it existed or
      was written, and a column no stage writes is unchanged. */
  lemma {:induction false} RunStagesKeep(sqrt: real -> real, t: Table, stages: seq<Stage>, k: string)
    requires t.WellFormed() && Separated(stages) && SourcesNumeric(t, stages)
    ensures RunStages(sqrt, t, stages).Ok?
    ensures var r := RunStages(sqrt, t, stages).value;
            && (k in r.columns <==> k in t.columns || k in Written(stages))
            && (k in t.columns && k !in Written(stages) ==> r.columns[k] == t.columns[k])
    decreases |stages|
  {
    RunStagesOutcome(sqrt, t, stages);
    if |stages| > 0 {
      var s := stages[0];
      var t1 := StageStep(sqrt, t, stages);
      assert stages[..|stages|] == stages && stages[1..][..|stages| - 1] == stages[1..];
      SourcesShift(t, t1, stages, |stages|);
      AddRollingForColumn(sqrt, t, s.source, s.meanName, s.stdName, k);
      RunStagesKeep(sqrt, t1, stages[1..], k);
    }
  }

  /** After a successful loop, each stage's two columns hold the rolling
      statistics of its source column as the input table had it. */
  lemma {:induction false} RunStagesWritten(sqrt: real -> real, t: Table, stages: seq<Stage>, i: nat)
    requires t.WellFormed() && Separated(stages) && SourcesNumeric(t, stages) && i < |stages|
    ensures RunStages(sqrt, t, stages).Ok?
    ensures var r := RunStages(sqrt, t, stages).value;
            var s := stages[i];
            && s.meanName in r.columns && s.stdName in r.columns
            && r.columns[s.meanName] == Numeric(RollingMean(t.columns[s.source].values))
            && r.columns[s.stdName] == Numeric(RollingStd(sqrt, t.columns[s.source].values))
    decreases |stages|
  {
    RunStagesOutcome(sqrt, t, stages);
    var s := stages[0];
    var t1 := StageStep(sqrt, t, stages);
    var rest := stages[1..];
    assert stages[..|stages|] == stages && rest[..|rest|] == rest;
    SourcesShift(t, t1, stages, |stages|);
    if i == 0 {
      AddRollingForColumn(sqrt, t, s.source, s.meanName, s.stdName, s.meanName);
      AddRollingForColumn(sqrt, t, s.source, s.meanName, s.stdName, s.stdName);
      RunStagesKeep(sqrt, t1, rest, s.meanName);
      RunStagesKeep(sqrt, t1, rest, s.stdName);
    } else {
      assert rest[i - 1] == stages[i];
      assert SameColumn(t1, t, stages[i].source);
      RunStagesWritten(sqrt, t1, rest, i - 1);
    }
  }

  /** The three passes of the pipeline's rolling loop, in source order. */
  const ROLLING_STAGES: seq<Stage> :=
    [Stage(AIR, AIR_MEAN, AIR_STD), Stage(PROCESS, PROCESS_MEAN, PROCESS_STD), Stage(TORQUE, TORQUE_MEAN, TORQUE_STD)]

  /** The rolling stage of the pipeline: the loop over air temperature,
      process temperature and torque. */
  function AddRolling(sqrt: real -> real, t: Table): (r: Result<Table, Error>)
    requires t.WellFormed()
    ensures r.Ok? ==> r.value.WellFormed() && r.value.rows == t.rows
  {
    RunStages(sqrt, t, ROLLING_STAGES)
  }

  /** The six columns the rolling stage adds. */
  const ROLLING_NAMES: set<string> :=
    {AIR_MEAN, AIR_STD, PROCESS_MEAN, PROCESS_STD, TORQUE_MEAN, TORQUE_STD}

  lemma RollingNamesSeparated()
    ensures Separated(ROLLING_STAGES)
    ensures Written(ROLLING_STAGES) == ROLLING_NAMES
  {
    NamesDistinct();
    assert NAMES[1] == AIR && NAMES[2] == PROCESS && NAMES[4] == TORQUE;
    assert NAMES[9] == AIR_MEAN && NAMES[10] == AIR_STD && NAMES[11] == PROCESS_MEAN;
    assert NAMES[12] == PROCESS_STD && NAMES[13] == TORQUE_MEAN && NAMES[14] == TORQUE_STD;
    var s1 := ROLLING_STAGES[1..];
    var s2 := s1[1..];
    assert s1 == [Stage(PROCESS, PROCESS_MEAN, PROCESS_STD), Stage(TORQUE, TORQUE_MEAN, TORQUE_STD)];
    assert s2 == [Stage(TORQUE, TORQUE_MEAN, TORQUE_STD)];
    assert s2[1..] == [];
    assert Written(s2) == {TORQUE_MEAN, TORQUE_STD};
    assert Written(s1) == {PROCESS_MEAN, PROCESS_STD, TORQUE_MEAN, TORQUE_STD};
    assert Separated(s2);
    assert Separated(s1);
  }

  /** The rolling stage succeeds exactly when the three source columns are
      numeric, and otherwise raises on the first of them that is not. */
  lemma AddRollingOutcome(sqrt: real -> real, t: Table)
    requires t.WellFormed()
    ensures AddRolling(sqrt, t).Ok? <==> t.HasNumeric(AIR) && t.HasNumeric(PROCESS) && t.HasNumeric(TORQUE)
    ensures !t.HasNumeric(AIR) ==> AddRolling(sqrt, t) == Err(Fault(t, AIR))
    ensures t.HasNumeric(AIR) && !t.HasNumeric(PROCESS) ==> AddRolling(sqrt, t) == Err(Fault(t, PROCESS))
    ensures t.HasNumeric(AIR) && t.HasNumeric(PROCESS) && !t.HasNumeric(TORQUE) ==>
              AddRolling(sqrt, t) == Err(Fault(t, TORQUE))
  {
    RollingNamesSeparated();
    RunStagesOutcome(sqrt, t, ROLLING_STAGES);
    var st := ROLLING_STAGES;
    assert st[0].source == AIR && st[1].source == PROCESS && st[2].source == TORQUE;
    assert st[..0] == [] && st[..1] == [st[0]] && st[..2] == [st[0], st[1]];
  }

  /** On success the rolling stage adds the six rolling columns, computed from
      the three source columns, and leaves every other column alone. */
  lemma AddRollingColumns(sqrt: real -> real, t: Table)
    requires t.WellFormed() && t.HasNumeric(AIR) && t.HasNumeric(PROCESS) && t.HasNumeric(TORQUE)
    ensures AddRolling(sqrt, t).Ok?
    ensures var r := AddRolling(sqrt, t).value;
            && r.columns.Keys == t.columns.Keys + ROLLING_NAMES
            && (forall k :: k in t.columns && k !in ROLLING_NAMES ==> r.columns[k] == t.columns[k])
            && r.columns[AIR_MEAN] == Numeric(RollingMean(t.columns[AIR].values))
            && r.columns[AIR_STD] == Numeric(RollingStd(sqrt, t.columns[AIR].values))
            && r.columns[PROCESS_MEAN] == Numeric(RollingMean(t.columns[PROCESS].values))
            && r.columns[PROCESS_STD] == Numeric(RollingStd(sqrt, t.columns[PROCESS].values))
            && r.columns[TORQUE_MEAN] == Numeric(RollingMean(t.columns[TORQUE].values))
            && r.columns[TORQUE_STD] == Numeric(RollingStd(sqrt, t.columns[TORQUE].values))
  {
    RollingNamesSeparated();
    var st := ROLLING_STAGES;
    assert SourcesNumeric(t, st);
    RunStagesOutcome(sqrt, t, st);
    var r := RunStages(sqrt, t, st).value;
    forall k | true
      ensures k in r.columns <==> k in t.columns || k in ROLLING_NAMES
      ensures k in t.columns && k !in ROLLING_NAMES ==> r.columns[k] == t.columns[k]
    {
      RunStagesKeep(sqrt, t, st, k);
    }
    RunStagesWritten(sqrt, t, st, 0);
    RunStagesWritten(sqrt, t, st, 1);
    RunStagesWritten(sqrt, t, st, 2);
  }
}
