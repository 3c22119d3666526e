/** The binary failure label: `df['Type'].apply(lambda x: 0 if x == 'No Failure' else 1)`.
    Only the exact string "No Failure" gives 0; any other string, a missing
    value, or a number (which never equals a string) gives 1. */
module Labels {
  import opened Wrappers
  import opened Tables

  const NO_FAILURE := "No Failure"

  function FailureFlag(c: Column, i: nat): real
    requires i < c.Length()
  {
    if c.Text? && c.labels[i] == Some(NO_FAILURE) then 0.0 else 1.0
  }

  /** The label column: one flag per row, 0 exactly for "No Failure", 1 otherwise. */
  function FailureColumn(c: Column): (r: seq<Option<real>>)
    ensures |r| == c.Length()
    ensures forall i :: 0 <= i < |r| ==> r[i] == Some(0.0) || r[i] == Some(1.0)
    ensures forall i :: 0 <= i < |r| ==> (r[i] == Some(0.0) <==> c.Text? && c.labels[i] == Some(NO_FAILURE))
  {
    seq(c.Length(), i requires 0 <= i < c.Length() => Some(FailureFlag(c, i)))
  }

  /** Adds the `Failure` column; a table without `Type` raises KeyError. */
  function AddFailure(t: Table): (r: Result<Table, Error>)
    requires t.WellFormed()
    ensures r.Err? <==> TYPE !in t.columns
    ensures r.Err? ==> r.error == MissingColumn(TYPE)
    ensures r.Ok? ==> r.value.WellFormed() && r.value.rows == t.rows
    ensures r.Ok? ==> r.value.columns.Keys == t.columns.Keys + {FAILURE}
    ensures r.Ok? ==> forall k :: k in t.columns && k != FAILURE ==> r.value.columns[k] == t.columns[k]
    ensures r.Ok? ==> r.value.columns[FAILURE] == Numeric(FailureColumn(t.columns[TYPE]))
  {
    if TYPE !in t.columns then Err(MissingColumn(TYPE))
    else Ok(t.With(FAILURE, FailureColumn(t.columns[TYPE])))
  }
}
