/** Min-max scaling to [0, 1], fitted and applied column by column:
      fit:        lo = smallest present value, hi = largest present value
      transform:  x -> (x - lo) / span, span = hi - lo, or 1 when hi == lo
      inverse:    y -> y * span + lo
    Missing cells are ignored by the fit and stay missing in the transform;
    a column without any present value has no range, and every cell of it
    stays missing. */
module Scaling {
  import opened Wrappers
  import opened Stats
  import opened Tables

  /** The observed range of one column. */
  datatype Range = Range(lo: real, hi: real)

  /** A fitted scaler: one range per feature, in the order the features were
      given. */
  datatype Scaler = Scaler(features: seq<string>, ranges: seq<Option<Range>>) {
    predicate Valid() {
      && |features| == |ranges|
      && (forall i, j :: 0 <= i < j < |features| ==> features[i] != features[j])
      && (forall i :: 0 <= i < |ranges| && ranges[i].Some? ==> ranges[i].value.lo <= ranges[i].value.hi)
    }
  }

  /** The divisor of the transform: a zero span is replaced by 1, so a
      constant column maps to 0 instead of dividing by zero. */
  function Span(r: Range): (s: real)
    ensures s > 0.0 || r.hi < r.lo
    ensures r.lo < r.hi ==> s == r.hi - r.lo
    ensures r.hi == r.lo ==> s == 1.0
  {
    if r.hi - r.lo == 0.0 then 1.0 else r.hi - r.lo
  }

  function ScaleValue(r: Range, x: real): real
    requires r.lo <= r.hi
  {
    (x - r.lo) / Span(r)
  }

  function UnscaleValue(r: Range, y: real): real
  {
    y * Span(r) + r.lo
  }

  // ------------------------------------------------------------- fitting

  /** The range of the present values of a column: none exactly when every
      cell is missing; otherwise both ends are values of the column and every
      present value lies between them. */
  function FitColumn(col: seq<Option<real>>): (r: Option<Range>)
    ensures r.None? <==> forall i :: 0 <= i < |col| ==> col[i].None?
    ensures r.Some? ==> r.value.lo <= r.value.hi
    ensures r.Some? ==> Some(r.value.lo) in col && Some(r.value.hi) in col
    ensures r.Some? ==> forall i :: 0 <= i < |col| && col[i].Some? ==> r.value.lo <= col[i].value <= r.value.hi
  {
    var p := Present(col);
    PresentEmpty(col);
    if |p| == 0 then
      None
    else
      var lo, hi := Min(p), Max(p);
      assert forall i :: 0 <= i < |col| && col[i].Some? ==> lo <= col[i].value <= hi by {
        forall i | 0 <= i < |col| && col[i].Some? ensures lo <= col[i].value <= hi {
          assert Some(col[i].value) in col;
          var k :| 0 <= k < |p| && p[k] == col[i].value;
        }
      }
      assert p[0] in p;
      Some(Range(lo, hi))
  }

  // ----------------------------------------------------------- transform

  function ScaleCell(r: Option<Range>, c: Option<real>): Option<real>
    requires r.Some? ==> r.value.lo <= r.value.hi
  {
    if r.Some? && c.Some? then Some(ScaleValue(r.value, c.value)) else None
  }

  function UnscaleCell(r: Option<Range>, c: Option<real>): Option<real>
  {
    if r.Some? && c.Some? then Some(UnscaleValue(r.value, c.value)) else None
  }

  /** Scaling one column: a cell stays present exactly when it was present
      and the column has a range. */
  function TransformColumn(r: Option<Range>, col: seq<Option<real>>): (s: seq<Option<real>>)
    requires r.Some? ==> r.value.lo <= r.value.hi
    ensures |s| == |col|
    ensures forall i :: 0 <= i < |s| ==> (s[i].Some? <==> r.Some? && col[i].Some?)
  {
    seq(|col|, i requires 0 <= i < |col| => ScaleCell(r, col[i]))
  }

  function InverseColumn(r: Option<Range>, col: seq<Option<real>>): (s: seq<Option<real>>)
    ensures |s| == |col|
    ensures forall i :: 0 <= i < |s| ==> (s[i].Some? <==> r.Some? && col[i].Some?)
  {
    seq(|col|, i requires 0 <= i < |col| => UnscaleCell(r, col[i]))
  }

  // ---------------------------------------------------------- properties

  /** A value inside the range lands in [0, 1]. */
  lemma ScaleInUnit(r: Range, x: real)
    requires r.lo <= x <= r.hi
    ensures 0.0 <= ScaleValue(r, x) <= 1.0
  {
    var s := Span(r);
    if r.lo < r.hi {
      DivideInUnit(x - r.lo, s);
    }
  }

  lemma DivideInUnit(a: real, s: real)
    requires s > 0.0 && 0.0 <= a <= s
    ensures 0.0 <= a / s <= 1.0
  {
  }

  /** The smallest value maps to 0, and, when the range is not a single
      point, the largest maps to 1. */
  lemma ScaleEnds(r: Range)
    requires r.lo <= r.hi
    ensures ScaleValue(r, r.lo) == 0.0
    ensures r.lo < r.hi ==> ScaleValue(r, r.hi) == 1.0
  {
    if r.lo < r.hi {
      DivideSelf(r.hi - r.lo);
    }
  }

  lemma DivideSelf(a: real)
    requires a != 0.0
    ensures a / a == 1.0
  {
  }

  /** Scaling preserves order, and strict order too. */
  lemma ScaleMonotone(r: Range, x: real, y: real)
    requires r.lo <= r.hi
    ensures x <= y ==> ScaleValue(r, x) <= ScaleValue(r, y)
    ensures x < y ==> ScaleValue(r, x) < ScaleValue(r, y)
  {
    var s := Span(r);
    DivideMonotone(x - r.lo, y - r.lo, s);
  }

  lemma DivideMonotone(a: real, b: real, s: real)
    requires s > 0.0
    ensures a <= b ==> a / s <= b / s
    ensures a < b ==> a / s < b / s
  {
  }

  /** The inverse transform undoes the transform, and the other way round. */
  lemma ScaleRoundTrip(r: Range, x: real, y: real)
    requires r.lo <= r.hi
    ensures UnscaleValue(r, ScaleValue(r, x)) == x
    ensures ScaleValue(r, UnscaleValue(r, y)) == y
  {
    var s := Span(r);
    DivideMultiply(x - r.lo, s);
    MultiplyDivide(y, s);
  }

  lemma DivideMultiply(a: real, s: real)
    requires s != 0.0
    ensures a / s * s == a
  {
  }

  lemma MultiplyDivide(y: real, s: real)
    requires s != 0.0
    ensures y * s / s == y
  {
  }

  /** Fitting a column and transforming it: every present cell lands in
      [0, 1], the smallest present value becomes 0 and, unless all present
      values are equal, the largest becomes 1; missing cells stay missing. */
  lemma FitTransformInUnit(col: seq<Option<real>>)
    ensures var s := TransformColumn(FitColumn(col), col);
            && (forall i :: 0 <= i < |col| ==> (s[i].Some? <==> col[i].Some?))
            && (forall i :: 0 <= i < |col| && s[i].Some? ==> 0.0 <= s[i].value <= 1.0)
            && ((exists i :: 0 <= i < |col| && col[i].Some?) ==>
                  (exists i :: 0 <= i < |col| && s[i] == Some(0.0)))
  {
    var r := FitColumn(col);
    var s := TransformColumn(r, col);
    forall i | 0 <= i < |col| && s[i].Some?
      ensures 0.0 <= s[i].value <= 1.0
    {
      ScaleInUnit(r.value, col[i].value);
    }
    if exists i :: 0 <= i < |col| && col[i].Some? {
      var k :| 0 <= k < |col| && col[k] == Some(r.value.lo);
      ScaleEnds(r.value);
      assert s[k] == Some(0.0);
    }
  }

  /** When the fitted column is not constant, its largest present value
      becomes exactly 1. */
  lemma FitTransformReachesOne(col: seq<Option<real>>)
    requires FitColumn(col).Some? && FitColumn(col).value.lo < FitColumn(col).value.hi
    ensures exists i :: 0 <= i < |col| && TransformColumn(FitColumn(col), col)[i] == Some(1.0)
  {
    var r := FitColumn(col).value;
    var k :| 0 <= k < |col| && col[k] == Some(r.hi);
    ScaleEnds(r);
    assert TransformColumn(FitColumn(col), col)[k] == Some(1.0);
  }

  /** A column whose present values are all equal scales to 0 everywhere it
      is present. */
  lemma FitTransformConstant(col: seq<Option<real>>, v: real)
    requires forall i :: 0 <= i < |col| && col[i].Some? ==> col[i].value == v
    ensures forall i :: 0 <= i < |col| && col[i].Some? ==> TransformColumn(FitColumn(col), col)[i] == Some(0.0)
  {
    var r := FitColumn(col);
    if r.Some? {
      assert r.value.lo == v && r.value.hi == v;
    }
  }

  /** The inverse transform of a fitted column gives back the column. */
  lemma FitRoundTrip(col: seq<Option<real>>)
    ensures InverseColumn(FitColumn(col), TransformColumn(FitColumn(col), col)) == col
  {
    var r := FitColumn(col);
    var back := InverseColumn(r, TransformColumn(r, col));
    forall i | 0 <= i < |col|
      ensures back[i] == col[i]
    {
      if col[i].Some? {
        ScaleRoundTrip(r.value, col[i].value, 0.0);
      }
    }
  }

  // -------------------------------------------------------------- tables

  /** Fitting on the listed columns of a table. */
  function Fit(t: Table, names: seq<string>): (s: Scaler)
    requires forall i :: 0 <= i < |names| ==> names[i] in t.columns && t.columns[names[i]].Numeric?
    ensures s.features == names && |s.ranges| == |names|
    ensures forall i :: 0 <= i < |names| ==> s.ranges[i] == FitColumn(t.columns[names[i]].values)
    ensures (forall i, j :: 0 <= i < j < |names| ==> names[i] != names[j]) ==> s.Valid()
  {
    Scaler(names, seq(|names|, i requires 0 <= i < |names| => FitColumn(t.columns[names[i]].values)))
  }

  /** The position of a feature in the scaler. */
  function IndexOf(names: seq<string>, k: string): (i: nat)
    requires k in names
    ensures i < |names| && names[i] == k
  {
    if names[0] == k then 0 else 1 + IndexOf(names[1..], k)
  }

  /** Applying a scaler to a table: each listed column is replaced by its
      scaled version, all other columns are kept. */
  function Transform(s: Scaler, t: Table): (r: Table)
    requires s.Valid() && t.WellFormed()
    requires forall i :: 0 <= i < |s.features| ==> s.features[i] in t.columns && t.columns[s.features[i]].Numeric?
    ensures r.WellFormed() && r.rows == t.rows
    ensures r.columns.Keys == t.columns.Keys
    ensures forall k :: k in t.columns && k !in s.features ==> r.columns[k] == t.columns[k]
    ensures forall i :: 0 <= i < |s.features| ==>
              r.columns[s.features[i]] == Numeric(TransformColumn(s.ranges[i], t.columns[s.features[i]].values))
  {
    assert forall i :: 0 <= i < |s.features| ==> IndexOf(s.features, s.features[i]) == i;
    var cols := map k | k in t.columns ::
      if k in s.features then
        var i := IndexOf(s.features, k);
        Numeric(TransformColumn(s.ranges[i], t.columns[k].values))
      else
        t.columns[k];
    Table(t.rows, cols)
  }
}
