/** Per-row engineered features:
      Temp_Diff        = Process temperature - Air temperature
      Torque_RPM_Ratio = Torque / (Rotational speed + 1e-6)
    A missing operand makes the result missing (NaN propagates). A zero
    denominator gives 0/0 = NaN when the torque is 0, and an infinity
    otherwise; the infinity is not a real number and the scaler later rejects
    it, so the model marks such a row (`RatioOverflows`) instead of
    representing it. */
module Features {
  import opened Wrappers
  import opened Tables

  /** The small constant added to the speed so that a speed of exactly 0 does
      not divide by zero. */
  const EPSILON: real := 0.000001

  /** The row-wise difference `a - b`, with the defining property stated as
      its inverse: adding `b` back gives `a`. */
  function Difference(a: seq<Option<real>>, b: seq<Option<real>>): (r: seq<Option<real>>)
    requires |a| == |b|
    ensures |r| == |a|
    ensures forall i :: 0 <= i < |r| ==> (r[i].Some? <==> a[i].Some? && b[i].Some?)
    ensures forall i :: 0 <= i < |r| && r[i].Some? ==> r[i].value + b[i].value == a[i].value
  {
    seq(|a|, i requires 0 <= i < |a| =>
      if a[i].Some? && b[i].Some? then Some(a[i].value - b[i].value) else None)
  }

  /** One row of the ratio, or None for NaN (a missing operand, or 0/0). */
  function RatioCell(torque: Option<real>, speed: Option<real>): Option<real>
  {
    if torque.Some? && speed.Some? && speed.value + EPSILON != 0.0 then
      Some(torque.value / (speed.value + EPSILON))
    else
      None
  }

  /** The row-wise ratio: defined wherever both operands are present and the
      shifted speed is non-zero, in particular wherever the speed is not
      negative; multiplying back by the shifted speed gives the torque. */
  function Ratio(torque: seq<Option<real>>, speed: seq<Option<real>>): (r: seq<Option<real>>)
    requires |torque| == |speed|
    ensures |r| == |torque|
    ensures forall i :: 0 <= i < |r| ==>
              (r[i].Some? <==> torque[i].Some? && speed[i].Some? && speed[i].value + EPSILON != 0.0)
    ensures forall i :: 0 <= i < |r| && torque[i].Some? && speed[i].Some? && speed[i].value >= 0.0 ==>
              r[i].Some?
    ensures forall i :: 0 <= i < |r| && r[i].Some? ==>
              r[i].value * (speed[i].value + EPSILON) == torque[i].value
  {
    seq(|torque|, i requires 0 <= i < |torque| => RatioCell(torque[i], speed[i]))
  }

  /** Some row divides a non-zero torque by exactly zero, giving an infinity. */
  predicate RatioOverflows(torque: seq<Option<real>>, speed: seq<Option<real>>)
    requires |torque| == |speed|
  {
    exists i :: 0 <= i < |torque| && torque[i].Some? && speed[i].Some? &&
      speed[i].value + EPSILON == 0.0 && torque[i].value != 0.0
  }

  /** The feature stage, with pandas' evaluation order: the line computing
      `Temp_Diff` looks up the process then the air temperature and then
      subtracts; the line computing the ratio looks up torque then speed, adds
      to the speed, then divides the torque. */
  function AddFeatures(t: Table): (r: Result<Table, Error>)
    requires t.WellFormed()
    ensures r.Ok? <==> t.HasNumeric(PROCESS) && t.HasNumeric(AIR) && t.HasNumeric(TORQUE) && t.HasNumeric(SPEED)
    ensures r.Ok? ==> r.value.WellFormed() && r.value.rows == t.rows
    ensures r.Ok? ==> r.value.columns.Keys == t.columns.Keys + {TEMP_DIFF, RATIO}
    ensures r.Ok? ==> forall k :: k in t.columns && k != TEMP_DIFF && k != RATIO ==> r.value.columns[k] == t.columns[k]
    ensures r.Ok? ==> r.value.columns[TEMP_DIFF] == Numeric(Difference(t.columns[PROCESS].values, t.columns[AIR].values))
    ensures r.Ok? ==> r.value.columns[RATIO] == Numeric(Ratio(t.columns[TORQUE].values, t.columns[SPEED].values))
  {
    match Require(t, [PROCESS, AIR], [PROCESS, AIR])
    case Some(e) => Err(e)
    case None =>
      var diff := Difference(t.columns[PROCESS].values, t.columns[AIR].values);
      var t1 := t.With(TEMP_DIFF, diff);
      match Require(t1, [TORQUE, SPEED], [SPEED, TORQUE])
      case Some(e) => Err(e)
      case None =>
        Ok(t1.With(RATIO, Ratio(t1.columns[TORQUE].values, t1.columns[SPEED].values)))
  }
}
