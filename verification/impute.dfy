/** Missing-value handling: `df.fillna(df.median(numeric_only=True))`. Each
    numeric column's gaps are filled with the median of that column's present
    values; a column with no present value has a NaN median, and filling with
    NaN leaves it as it is. String columns are not in the median series and are
    left untouched. */
module Imputation {
  import opened Wrappers
  import opened Stats
  import opened Tables

  /** The fill value of one numeric column: its median, or nothing when every
      cell is missing. */
  function FillValue(col: seq<Option<real>>): (r: Option<real>)
    ensures r.None? <==> forall i :: 0 <= i < |col| ==> col[i].None?
    ensures r.Some? ==> |Present(col)| > 0 && r.value == Median(Present(col))
  {
    var p := Present(col);
    if |p| == 0 then
      None
    else
      assert forall i :: 0 <= i < |col| && col[i].Some? ==> col[i].value in p;
      Some(Median(p))
  }

  function ImputeColumn(col: seq<Option<real>>): (r: seq<Option<real>>)
    ensures |r| == |col|
    ensures forall i :: 0 <= i < |col| && col[i].Some? ==> r[i] == col[i]
    ensures forall i :: 0 <= i < |col| && col[i].None? ==> r[i] == FillValue(col)
  {
    match FillValue(col)
    case None => col
    case Some(m) => seq(|col|, i requires 0 <= i < |col| => if col[i].Some? then col[i] else Some(m))
  }

  /** A column with at least one present value has no gap left, and every
      filled cell holds a value that splits the column's present values in half. */
  lemma ImputeFillsEveryGap(col: seq<Option<real>>, i: nat)
    requires exists j :: 0 <= j < |col| && col[j].Some?
    requires i < |col|
    ensures ImputeColumn(col)[i].Some?
    ensures col[i].None? ==>
              var p := Present(col);
              var v := ImputeColumn(col)[i].value;
              2 * AtMost(p, v) >= |p| && 2 * AtLeast(p, v) >= |p|
  {
    if col[i].None? {
      MedianSplitsInHalf(Present(col));
    }
  }

  /** A column with no present value comes back unchanged. */
  lemma ImputeAllMissing(col: seq<Option<real>>)
    requires forall i :: 0 <= i < |col| ==> col[i].None?
    ensures ImputeColumn(col) == col
  {
  }

  /** Filling twice is filling once. */
  lemma ImputeIdempotent(col: seq<Option<real>>)
    ensures ImputeColumn(ImputeColumn(col)) == ImputeColumn(col)
  {
    var r := ImputeColumn(col);
    if FillValue(col).Some? {
      assert forall i :: 0 <= i < |r| ==> r[i].Some?;
    }
  }

  function ImputeCell(c: Column): Column
  {
    match c
    case Numeric(v) => Numeric(ImputeColumn(v))
    case Text(_) => c
  }

  /** The whole-table fill: same rows, same column names, string columns
      untouched, each numeric column filled from its own median. */
  function ImputeTable(t: Table): (r: Table)
    requires t.WellFormed()
    ensures r.WellFormed() && r.rows == t.rows && r.columns.Keys == t.columns.Keys
    ensures forall k :: k in t.columns && t.columns[k].Text? ==> r.columns[k] == t.columns[k]
    ensures forall k :: k in t.columns && t.columns[k].Numeric? ==>
              r.columns[k] == Numeric(ImputeColumn(t.columns[k].values))
  {
    Table(t.rows, map k | k in t.columns :: ImputeCell(t.columns[k]))
  }

  /** After the fill no numeric column with a present value has a gap. */
  lemma ImputedTableComplete(t: Table, k: string, i: nat)
    requires t.WellFormed() && t.HasNumeric(k) && i < t.rows
    requires exists j :: 0 <= j < t.rows && t.columns[k].values[j].Some?
    ensures ImputeTable(t).columns[k].values[i].Some?
  {
    ImputeFillsEveryGap(t.columns[k].values, i);
  }
}
