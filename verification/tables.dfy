/** The in-memory table the pipeline transforms: named columns, every one
    holding exactly `rows` cells, rows positionally aligned. A numeric column
    holds reals; a categorical column holds strings; a missing cell (NaN or
    None) is `None` in either. */
module Tables {
  import opened Wrappers

  datatype Column =
    | Numeric(values: seq<Option<real>>)
    | Text(labels: seq<Option<string>>)
  {
    function Length(): nat {
      match this
      case Numeric(v) => |v|
      case Text(l) => |l|
    }
  }

  datatype Table = Table(rows: nat, columns: map<string, Column>) {

    /** Every column has one cell per row. */
    predicate WellFormed() {
      forall k :: k in columns ==> columns[k].Length() == rows
    }

    predicate HasNumeric(name: string) {
      name in columns && columns[name].Numeric?
    }

    /** Assigning a numeric column, as `df[name] = ...` does: a new name is
        added, an existing one is overwritten. */
    function With(name: string, values: seq<Option<real>>): (r: Table)
      requires WellFormed() && |values| == rows
      ensures r.WellFormed() && r.rows == rows
      ensures r.columns.Keys == columns.Keys + {name}
      ensures r.columns[name] == Numeric(values)
      ensures forall k :: k in columns && k != name ==> r.columns[k] == columns[k]
    {
      Table(rows, columns[name := Numeric(values)])
    }
  }

  // The column names the pipeline reads and writes.
  const TYPE := "Type"
  const AIR := "Air temperature [K]"
  const PROCESS := "Process temperature [K]"
  const SPEED := "Rotational speed [rpm]"
  const TORQUE := "Torque [Nm]"
  const TOOL_WEAR := "Tool wear [min]"
  const FAILURE := "Failure"
  const TEMP_DIFF := "Temp_Diff"
  const RATIO := "Torque_RPM_Ratio"
  const AIR_MEAN := "Air temperature [K]_Rolling_Mean"
  const AIR_STD := "Air temperature [K]_Rolling_Std"
  const PROCESS_MEAN := "Process temperature [K]_Rolling_Mean"
  const PROCESS_STD := "Process temperature [K]_Rolling_Std"
  const TORQUE_MEAN := "Torque [Nm]_Rolling_Mean"
  const TORQUE_STD := "Torque [Nm]_Rolling_Std"

  /** Every name above, in order; no two are equal. */
  const NAMES: seq<string> := [TYPE, AIR, PROCESS, SPEED, TORQUE, TOOL_WEAR, FAILURE, TEMP_DIFF, RATIO,
                               AIR_MEAN, AIR_STD, PROCESS_MEAN, PROCESS_STD, TORQUE_MEAN, TORQUE_STD]

  lemma NamesDistinct()
    ensures forall i, j :: 0 <= i < j < |NAMES| ==> NAMES[i] != NAMES[j]
  {
  }

  /** Why a stage raises instead of returning a table. */
  datatype Error =
    | MissingColumn(name: string)   // pandas KeyError on `df[name]`
    | NotNumeric(name: string)      // arithmetic, rolling or scaling on a string column
    | NonFinite(name: string)       // sklearn rejects an infinite input value
    | NoSamples                     // sklearn refuses to fit or transform zero rows

  /** The error a single-column numeric operation raises on a column that is
      not numeric: KeyError when it is absent, a type error when it holds strings. */
  function Fault(t: Table, name: string): Error {
    if name in t.columns then NotNumeric(name) else MissingColumn(name)
  }

  /** The column lookups of one statement: first every name must exist (in
      evaluation order), then every column used arithmetically must be numeric
      (in the order the operations touch them). */
  function Require(t: Table, lookups: seq<string>, numeric: seq<string>): (r: Option<Error>)
    ensures r.None? <==>
              (forall i :: 0 <= i < |lookups| ==> lookups[i] in t.columns) &&
              (forall i :: 0 <= i < |numeric| ==> numeric[i] in t.columns ==> t.columns[numeric[i]].Numeric?)
    ensures r.None? ==> forall k :: k in lookups ==> k in t.columns
    ensures r.None? ==> forall k :: k in numeric && k in t.columns ==> t.columns[k].Numeric?
    ensures r.Some? && r.value.MissingColumn? ==> r.value.name in lookups && r.value.name !in t.columns
    ensures r.Some? && r.value.NotNumeric? ==> r.value.name in numeric && r.value.name in t.columns && t.columns[r.value.name].Text?
    ensures r.Some? ==> r.value.MissingColumn? || r.value.NotNumeric?
  {
    match FirstMissing(t, lookups)
    case Some(k) => Some(MissingColumn(k))
    case None =>
      match FirstText(t, numeric)
      case Some(k) => Some(NotNumeric(k))
      case None => None
  }

  function FirstMissing(t: Table, names: seq<string>): (r: Option<string>)
    ensures r.None? <==> forall i :: 0 <= i < |names| ==> names[i] in t.columns
    ensures r.Some? ==> r.value in names && r.value !in t.columns
  {
    if |names| == 0 then None
    else if names[0] !in t.columns then Some(names[0])
    else
      var rest := FirstMissing(t, names[1..]);
      assert forall i :: 1 <= i < |names| ==> names[i] == names[1..][i - 1];
      rest
  }

  function FirstText(t: Table, names: seq<string>): (r: Option<string>)
    ensures r.None? <==> forall i :: 0 <= i < |names| ==> names[i] in t.columns ==> t.columns[names[i]].Numeric?
    ensures r.Some? ==> r.value in names && r.value in t.columns && t.columns[r.value].Text?
  {
    if |names| == 0 then None
    else if names[0] in t.columns && t.columns[names[0]].Text? then Some(names[0])
    else
      var rest := FirstText(t, names[1..]);
      assert forall i :: 1 <= i < |names| ==> names[i] == names[1..][i - 1];
      rest
  }
}
