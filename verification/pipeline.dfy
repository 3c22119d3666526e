/** The whole preprocessing pipeline, stage by stage:
      1. fill every numeric gap with its column's median;
      2. add the binary `Failure` label from `Type`;
      3. add `Temp_Diff` and `Torque_RPM_Ratio`;
      4. add the rolling mean and deviation of air temperature, process
         temperature and torque;
      5. fit a min-max scaler on the thirteen numeric feature columns and
         replace them by their scaled values.
    It returns the transformed table together with the fitted scaler, or the
    error the first failing step raises. */
module Pipeline {
  import opened Wrappers
  import opened Tables
  import opened Imputation
  import opened Labels
  import opened Features
  import opened Rolling
  import opened Scaling

  /** The columns the scaler is fitted on, in this order. */
  const SCALED: seq<string> :=
    [AIR, PROCESS, SPEED, TORQUE, TOOL_WEAR, TEMP_DIFF, RATIO,
     AIR_MEAN, AIR_STD, PROCESS_MEAN, PROCESS_STD, TORQUE_MEAN, TORQUE_STD]

  /** The nine columns the pipeline adds. */
  const DERIVED: set<string> := {FAILURE, TEMP_DIFF, RATIO} + ROLLING_NAMES

  /** Stages 1 to 4: the engineered table, before scaling. */
  function Engineer(sqrt: real -> real, t: Table): (r: Result<Table, Error>)
    requires t.WellFormed()
    ensures r.Ok? ==> r.value.WellFormed() && r.value.rows == t.rows
  {
    var t0 := ImputeTable(t);
    var t1 :- AddFailure(t0);
    var t2 :- AddFeatures(t1);
    AddRolling(sqrt, t2)
  }

  /** Stage 5 on the engineered table: the column lookups, then the scaler's
      input checks (numeric, finite, at least one row), then fit and transform. */
  function Scale(e: Table, overflow: bool): (r: Result<(Table, Scaler), Error>)
    requires e.WellFormed()
    ensures r.Ok? ==> r.value.0.WellFormed() && r.value.0.rows == e.rows
  {
    match Require(e, SCALED, SCALED)
    case Some(err) => Err(err)
    case None =>
      if overflow then Err(NonFinite(RATIO))
      else if e.rows == 0 then Err(NoSamples)
      else
        ScaledDistinct();
        var s := Fit(e, SCALED);
        Ok((Transform(s, e), s))
  }

  /** `preprocess_data`: the transformed table and the fitted scaler. */
  function PreprocessData(sqrt: real -> real, t: Table): (r: Result<(Table, Scaler), Error>)
    requires t.WellFormed()
    ensures r.Ok? ==> r.value.0.WellFormed() && r.value.0.rows == t.rows
  {
    var e :- Engineer(sqrt, t);
    var imputed := ImputeTable(t);
    var overflow := imputed.HasNumeric(TORQUE) && imputed.HasNumeric(SPEED) &&
                    RatioOverflows(imputed.columns[TORQUE].values, imputed.columns[SPEED].values);
    Scale(e, overflow)
  }

  lemma ScaledDistinct()
    ensures forall i, j :: 0 <= i < j < |SCALED| ==> SCALED[i] != SCALED[j]
    ensures forall i :: 0 <= i < |SCALED| ==> SCALED[i] != FAILURE
  {
    NamesDistinct();
    assert SCALED == NAMES[1..6] + NAMES[7..];
  }

  /** The input columns the pipeline reads are none of the columns it adds. */
  lemma InputsNotDerived()
    ensures TYPE !in DERIVED && AIR !in DERIVED && PROCESS !in DERIVED
    ensures SPEED !in DERIVED && TORQUE !in DERIVED && TOOL_WEAR !in DERIVED
  {
  }

  /** The three columns added before the rolling stage are distinct and are
      not rolling columns. */
  lemma EarlyNamesDistinct()
    ensures FAILURE != TEMP_DIFF && FAILURE != RATIO && TEMP_DIFF != RATIO
    ensures FAILURE !in ROLLING_NAMES && TEMP_DIFF !in ROLLING_NAMES && RATIO !in ROLLING_NAMES
  {
  }

  // ------------------------------------------------------ stages 1 to 4

  /** The fill changes no column's kind. */
  lemma ImputeKeepsKind(t: Table, k: string)
    requires t.WellFormed()
    ensures k in ImputeTable(t).columns <==> k in t.columns
    ensures ImputeTable(t).HasNumeric(k) <==> t.HasNumeric(k)
  {
  }

  /** Engineering succeeds exactly when `Type` exists and the four physical
      measurements used arithmetically are numeric; without `Type` it is the
      label stage's KeyError. */
  lemma EngineerOutcome(sqrt: real -> real, t: Table)
    requires t.WellFormed()
    ensures Engineer(sqrt, t).Ok? <==>
              TYPE in t.columns && t.HasNumeric(AIR) && t.HasNumeric(PROCESS) &&
              t.HasNumeric(TORQUE) && t.HasNumeric(SPEED)
    ensures TYPE !in t.columns ==> Engineer(sqrt, t) == Err(MissingColumn(TYPE))
  {
    ImputeKeepsKind(t, TYPE);
    if TYPE in t.columns {
      var t1 := LabelStage(sqrt, t);
      if AddFeatures(t1).Ok? {
        var t2 := AddFeatures(t1).value;
        assert t2.HasNumeric(AIR) && t2.HasNumeric(PROCESS) && t2.HasNumeric(TORQUE);
        AddRollingOutcome(sqrt, t2);
      }
    }
  }

  /** With `Type` present, the label stage succeeds, keeps the kind of every
      measurement, and engineering continues with the feature stage. */
  lemma LabelStage(sqrt: real -> real, t: Table) returns (t1: Table)
    requires t.WellFormed() && TYPE in t.columns
    ensures AddFailure(ImputeTable(t)) == Ok(t1) && t1.WellFormed()
    ensures t1.HasNumeric(AIR) == t.HasNumeric(AIR) && t1.HasNumeric(PROCESS) == t.HasNumeric(PROCESS)
    ensures t1.HasNumeric(TORQUE) == t.HasNumeric(TORQUE) && t1.HasNumeric(SPEED) == t.HasNumeric(SPEED)
    ensures Engineer(sqrt, t) == match AddFeatures(t1)
                                 case Err(e) => Err(e)
                                 case Ok(t2) => AddRolling(sqrt, t2)
  {
    ImputeKeepsKind(t, TYPE);
    t1 := AddFailure(ImputeTable(t)).value;
    InputsNotDerived();
    LabelKeepsKind(t, t1, AIR);
    LabelKeepsKind(t, t1, PROCESS);
    LabelKeepsKind(t, t1, TORQUE);
    LabelKeepsKind(t, t1, SPEED);
  }

  /** The fill and the label stage change no other column's kind. */
  lemma LabelKeepsKind(t: Table, t1: Table, k: string)
    requires t.WellFormed() && AddFailure(ImputeTable(t)) == Ok(t1) && k != FAILURE
    ensures t1.HasNumeric(k) <==> t.HasNumeric(k)
  {
    ImputeKeepsKind(t, k);
  }

  /** The condition under which engineering succeeds. */
  predicate Engineerable(t: Table) {
    TYPE in t.columns && t.HasNumeric(AIR) && t.HasNumeric(PROCESS) &&
    t.HasNumeric(TORQUE) && t.HasNumeric(SPEED)
  }

  /** A numeric input column after the median fill. */
  function Filled(t: Table, k: string): seq<Option<real>>
    requires t.HasNumeric(k)
  {
    ImputeColumn(t.columns[k].values)
  }

  /** The intermediate tables of a successful engineering run: the label
      and feature stages succeed, and the rolling stage sees the filled air
      temperature, process temperature and torque. */
  lemma EngineerStages(sqrt: real -> real, t: Table) returns (t1: Table, t2: Table)
    requires t.WellFormed() && Engineerable(t)
    ensures AddFailure(ImputeTable(t)) == Ok(t1)
    ensures AddFeatures(t1) == Ok(t2)
    ensures Engineer(sqrt, t) == AddRolling(sqrt, t2)
    ensures t2.WellFormed() && t2.HasNumeric(AIR) && t2.HasNumeric(PROCESS) && t2.HasNumeric(TORQUE)
    ensures t2.columns.Keys == t.columns.Keys + {FAILURE, TEMP_DIFF, RATIO}
    ensures t2.columns[AIR].values == Filled(t, AIR)
    ensures t2.columns[PROCESS].values == Filled(t, PROCESS)
    ensures t2.columns[TORQUE].values == Filled(t, TORQUE)
  {
    EngineerOutcome(sqrt, t);
    t1 := AddFailure(ImputeTable(t)).value;
    t2 := AddFeatures(t1).value;
    StageColumns(t, t1, t2);
  }

  lemma StageColumns(t: Table, t1: Table, t2: Table)
    requires t.WellFormed() && Engineerable(t)
    requires AddFailure(ImputeTable(t)) == Ok(t1) && AddFeatures(t1) == Ok(t2)
    ensures t2.WellFormed() && t2.HasNumeric(AIR) && t2.HasNumeric(PROCESS) && t2.HasNumeric(TORQUE)
    ensures t2.columns.Keys == t.columns.Keys + {FAILURE, TEMP_DIFF, RATIO}
    ensures t2.columns[AIR].values == Filled(t, AIR)
    ensures t2.columns[PROCESS].values == Filled(t, PROCESS)
    ensures t2.columns[TORQUE].values == Filled(t, TORQUE)
  {
    InputsNotDerived();
    EarlyStagesKeep(t, t1, t2, AIR);
    EarlyStagesKeep(t, t1, t2, PROCESS);
    EarlyStagesKeep(t, t1, t2, TORQUE);
    EarlyStagesKeys(t, t1, t2);
  }

  /** The label and feature stages keep every input column they do not
      write as the fill left it. */
  lemma EarlyStagesKeep(t: Table, t1: Table, t2: Table, k: string)
    requires t.WellFormed()
    requires AddFailure(ImputeTable(t)) == Ok(t1) && AddFeatures(t1) == Ok(t2)
    requires k in t.columns && k != FAILURE && k != TEMP_DIFF && k != RATIO
    ensures k in t2.columns && t2.columns[k] == ImputeTable(t).columns[k]
  {
  }

  lemma EarlyStagesKeys(t: Table, t1: Table, t2: Table)
    requires t.WellFormed()
    requires AddFailure(ImputeTable(t)) == Ok(t1) && AddFeatures(t1) == Ok(t2)
    ensures t2.columns.Keys == t.columns.Keys + {FAILURE, TEMP_DIFF, RATIO}
  {
  }

  /** A column exists after engineering exactly when it was an input or is
      one of the nine derived columns. */
  lemma EngineerHas(sqrt: real -> real, t: Table, k: string)
    requires t.WellFormed() && Engineerable(t)
    ensures Engineer(sqrt, t).Ok?
    ensures k in Engineer(sqrt, t).value.columns <==> k in t.columns || k in DERIVED
  {
    var t1, t2 := EngineerStages(sqrt, t);
    AddRollingColumns(sqrt, t2);
  }

  /** Engineering adds exactly the nine derived columns. */
  lemma EngineerKeys(sqrt: real -> real, t: Table)
    requires t.WellFormed() && Engineerable(t)
    ensures Engineer(sqrt, t).Ok?
    ensures Engineer(sqrt, t).value.columns.Keys == t.columns.Keys + DERIVED
  {
    EngineerOutcome(sqrt, t);
    forall k ensures k in Engineer(sqrt, t).value.columns <==> k in t.columns || k in DERIVED {
      EngineerHas(sqrt, t, k);
    }
  }

  /** Engineering leaves every input column it does not overwrite as the fill
      left it. */
  lemma EngineerFrame(sqrt: real -> real, t: Table, k: string)
    requires t.WellFormed() && Engineerable(t)
    requires k in t.columns && k !in DERIVED
    ensures Engineer(sqrt, t).Ok?
    ensures k in Engineer(sqrt, t).value.columns
    ensures Engineer(sqrt, t).value.columns[k] == ImputeTable(t).columns[k]
  {
    var t1, t2 := EngineerStages(sqrt, t);
    AddRollingColumns(sqrt, t2);
  }

  /** The label and the two engineered features, computed from the filled
      input columns. */
  lemma EngineerFeatures(sqrt: real -> real, t: Table)
    requires t.WellFormed() && Engineerable(t)
    ensures Engineer(sqrt, t).Ok?
    ensures var e := Engineer(sqrt, t).value;
            && FAILURE in e.columns && TEMP_DIFF in e.columns && RATIO in e.columns
            && e.columns[FAILURE] == Numeric(FailureColumn(ImputeTable(t).columns[TYPE]))
            && e.columns[TEMP_DIFF] == Numeric(Difference(Filled(t, PROCESS), Filled(t, AIR)))
            && e.columns[RATIO] == Numeric(Ratio(Filled(t, TORQUE), Filled(t, SPEED)))
  {
    var t1, t2 := EngineerStages(sqrt, t);
    EarlyNamesDistinct();
    InputsNotDerived();
    AddRollingColumns(sqrt, t2);
  }

  /** The six rolling columns, computed from the filled temperatures and torque. */
  lemma EngineerRolling(sqrt: real -> real, t: Table)
    requires t.WellFormed() && Engineerable(t)
    ensures Engineer(sqrt, t).Ok?
    ensures var e := Engineer(sqrt, t).value;
            && ROLLING_NAMES <= e.columns.Keys
            && e.columns[AIR_MEAN] == Numeric(RollingMean(Filled(t, AIR)))
            && e.columns[AIR_STD] == Numeric(RollingStd(sqrt, Filled(t, AIR)))
            && e.columns[PROCESS_MEAN] == Numeric(RollingMean(Filled(t, PROCESS)))
            && e.columns[PROCESS_STD] == Numeric(RollingStd(sqrt, Filled(t, PROCESS)))
            && e.columns[TORQUE_MEAN] == Numeric(RollingMean(Filled(t, TORQUE)))
            && e.columns[TORQUE_STD] == Numeric(RollingStd(sqrt, Filled(t, TORQUE)))
  {
    var t1, t2 := EngineerStages(sqrt, t);
    AddRollingColumns(sqrt, t2);
  }

  // ------------------------------------------------------------ stage 5

  /** Every column the scaler is fitted on exists and is numeric. */
  predicate ScalerReady(e: Table) {
    forall i :: 0 <= i < |SCALED| ==> SCALED[i] in e.columns && e.columns[SCALED[i]].Numeric?
  }

  /** Scaling succeeds exactly when the thirteen columns are numeric, no ratio
      is infinite and there is at least one row; the checks come in that order. */
  lemma ScaleOutcome(e: Table, overflow: bool)
    requires e.WellFormed()
    ensures Scale(e, overflow).Ok? <==> ScalerReady(e) && !overflow && e.rows > 0
    ensures ScalerReady(e) && overflow ==> Scale(e, overflow) == Err(NonFinite(RATIO))
    ensures ScalerReady(e) && !overflow && e.rows == 0 ==> Scale(e, overflow) == Err(NoSamples)
    ensures !ScalerReady(e) ==>
              Scale(e, overflow).Err? && (Scale(e, overflow).error.MissingColumn? || Scale(e, overflow).error.NotNumeric?)
  {
  }

  /** On success the scaler is the one fitted on the thirteen columns, each of
      them is replaced by its scaled version, and every other column is kept. */
  lemma ScaleColumns(e: Table, overflow: bool)
    requires e.WellFormed() && ScalerReady(e) && !overflow && e.rows > 0
    ensures Scale(e, overflow).Ok?
    ensures var (out, s) := Scale(e, overflow).value;
            && s == Fit(e, SCALED) && s.Valid()
            && out.columns.Keys == e.columns.Keys
            && (forall k :: k in e.columns && k !in SCALED ==> out.columns[k] == e.columns[k])
            && (forall i :: 0 <= i < |SCALED| ==>
                  out.columns[SCALED[i]] == Numeric(TransformColumn(s.ranges[i], e.columns[SCALED[i]].values)))
  {
    ScaledDistinct();
  }

  // ------------------------------------------------------------ end to end

  /** Every scaled column except the tool wear, which is passed through from
      the input, is numeric after engineering. */
  lemma EngineeredFeaturesNumeric(sqrt: real -> real, t: Table)
    requires t.WellFormed() && Engineerable(t)
    ensures Engineer(sqrt, t).Ok?
    ensures var e := Engineer(sqrt, t).value;
            && e.HasNumeric(AIR) && e.HasNumeric(PROCESS) && e.HasNumeric(SPEED) && e.HasNumeric(TORQUE)
            && e.HasNumeric(TEMP_DIFF) && e.HasNumeric(RATIO)
            && e.HasNumeric(AIR_MEAN) && e.HasNumeric(AIR_STD) && e.HasNumeric(PROCESS_MEAN)
            && e.HasNumeric(PROCESS_STD) && e.HasNumeric(TORQUE_MEAN) && e.HasNumeric(TORQUE_STD)
  {
    InputsNotDerived();
    EngineerFrame(sqrt, t, AIR);
    EngineerFrame(sqrt, t, PROCESS);
    EngineerFrame(sqrt, t, SPEED);
    EngineerFrame(sqrt, t, TORQUE);
    ImputeKeepsKind(t, AIR);
    ImputeKeepsKind(t, PROCESS);
    ImputeKeepsKind(t, SPEED);
    ImputeKeepsKind(t, TORQUE);
    EngineerFeatures(sqrt, t);
    EngineerRolling(sqrt, t);
  }

  /** The tool wear column reaches the scaler as the input had it: present
      exactly when it was present, numeric exactly when it was numeric. */
  lemma EngineeredToolWear(sqrt: real -> real, t: Table)
    requires t.WellFormed() && Engineerable(t)
    ensures Engineer(sqrt, t).Ok?
    ensures TOOL_WEAR in Engineer(sqrt, t).value.columns <==> TOOL_WEAR in t.columns
    ensures Engineer(sqrt, t).value.HasNumeric(TOOL_WEAR) <==> t.HasNumeric(TOOL_WEAR)
  {
    InputsNotDerived();
    EngineerHas(sqrt, t, TOOL_WEAR);
    ImputeKeepsKind(t, TOOL_WEAR);
    if TOOL_WEAR in t.columns {
      EngineerFrame(sqrt, t, TOOL_WEAR);
    }
  }

  /** A table whose twelve computed or measured feature columns are numeric
      passes the scaler's column checks exactly when the tool wear is
      numeric too, and otherwise fails on the tool wear. */
  lemma ReadyUnlessToolWear(e: Table)
    requires e.HasNumeric(AIR) && e.HasNumeric(PROCESS) && e.HasNumeric(SPEED) && e.HasNumeric(TORQUE)
    requires e.HasNumeric(TEMP_DIFF) && e.HasNumeric(RATIO)
    requires e.HasNumeric(AIR_MEAN) && e.HasNumeric(AIR_STD) && e.HasNumeric(PROCESS_MEAN)
    requires e.HasNumeric(PROCESS_STD) && e.HasNumeric(TORQUE_MEAN) && e.HasNumeric(TORQUE_STD)
    ensures ScalerReady(e) <==> e.HasNumeric(TOOL_WEAR)
    ensures Require(e, SCALED, SCALED) == if e.HasNumeric(TOOL_WEAR) then None else Some(Fault(e, TOOL_WEAR))
  {
    forall i | 0 <= i < |SCALED| && i != 4
      ensures e.HasNumeric(SCALED[i])
    {
      assert i in {0, 1, 2, 3, 5, 6, 7, 8, 9, 10, 11, 12};
    }
    assert SCALED[4] == TOOL_WEAR;
    var r := Require(e, SCALED, SCALED);
    if r.Some? {
      assert r.value.name == TOOL_WEAR;
    }
  }

  /** After engineering, the scaler's column checks pass exactly when the
      tool wear is numeric, and otherwise fail on the tool wear. */
  lemma EngineerReady(sqrt: real -> real, t: Table)
    requires t.WellFormed() && Engineerable(t)
    ensures Engineer(sqrt, t).Ok?
    ensures ScalerReady(Engineer(sqrt, t).value) <==> t.HasNumeric(TOOL_WEAR)
    ensures Require(Engineer(sqrt, t).value, SCALED, SCALED) ==
              if t.HasNumeric(TOOL_WEAR) then None else Some(Fault(t, TOOL_WEAR))
  {
    EngineeredFeaturesNumeric(sqrt, t);
    EngineeredToolWear(sqrt, t);
    ReadyUnlessToolWear(Engineer(sqrt, t).value);
  }

  /** Some filled row divides a non-zero torque by a zero speed. */
  predicate Overflows(t: Table)
    requires t.WellFormed() && t.HasNumeric(TORQUE) && t.HasNumeric(SPEED)
  {
    RatioOverflows(Filled(t, TORQUE), Filled(t, SPEED))
  }

  /** `preprocess_data` returns a table exactly when `Type` exists, the five
      measurements are numeric, no ratio is infinite and there is at least
      one row; otherwise it raises the error of the first failing step. */
  lemma PreprocessOutcome(sqrt: real -> real, t: Table)
    requires t.WellFormed()
    ensures PreprocessData(sqrt, t).Ok? <==>
              Engineerable(t) && t.HasNumeric(TOOL_WEAR) && !Overflows(t) && t.rows > 0
    ensures TYPE !in t.columns ==> PreprocessData(sqrt, t) == Err(MissingColumn(TYPE))
    ensures !Engineerable(t) ==>
              Engineer(sqrt, t).Err? && PreprocessData(sqrt, t) == Err(Engineer(sqrt, t).error)
    ensures Engineerable(t) && !t.HasNumeric(TOOL_WEAR) ==>
              PreprocessData(sqrt, t) == Err(Fault(t, TOOL_WEAR))
    ensures Engineerable(t) && t.HasNumeric(TOOL_WEAR) && Overflows(t) ==>
              PreprocessData(sqrt, t) == Err(NonFinite(RATIO))
    ensures Engineerable(t) && t.HasNumeric(TOOL_WEAR) && !Overflows(t) && t.rows == 0 ==>
              PreprocessData(sqrt, t) == Err(NoSamples)
  {
    EngineerOutcome(sqrt, t);
    if Engineerable(t) {
      var e := Engineer(sqrt, t).value;
      EngineerReady(sqrt, t);
      var imputed := ImputeTable(t);
      var overflow := imputed.HasNumeric(TORQUE) && imputed.HasNumeric(SPEED) &&
                      RatioOverflows(imputed.columns[TORQUE].values, imputed.columns[SPEED].values);
      assert overflow == Overflows(t);
      assert PreprocessData(sqrt, t) == Scale(e, overflow);
      ScaleOutcome(e, overflow);
    }
  }

  /** A successful run, taken apart: the engineered table passed every check
      and the result is its scaling. */
  lemma PreprocessParts(sqrt: real -> real, t: Table) returns (e: Table)
    requires t.WellFormed() && PreprocessData(sqrt, t).Ok?
    ensures Engineerable(t) && t.HasNumeric(TOOL_WEAR) && t.rows > 0
    ensures Engineer(sqrt, t) == Ok(e)
    ensures e.WellFormed() && ScalerReady(e) && e.rows == t.rows
    ensures PreprocessData(sqrt, t) == Scale(e, false)
  {
    PreprocessOutcome(sqrt, t);
    e := Engineer(sqrt, t).value;
    EngineerReady(sqrt, t);
  }

  /** The output has the input's rows and columns plus the nine derived
      columns. */
  lemma PreprocessShape(sqrt: real -> real, t: Table)
    requires t.WellFormed() && PreprocessData(sqrt, t).Ok?
    ensures var out := PreprocessData(sqrt, t).value.0;
            && out.rows == t.rows
            && out.columns.Keys == t.columns.Keys + DERIVED
    ensures t.columns.Keys !! DERIVED ==>
              |PreprocessData(sqrt, t).value.0.columns.Keys| == |t.columns.Keys| + 9
  {
    var e := PreprocessParts(sqrt, t);
    EngineerKeys(sqrt, t);
    ScaleColumns(e, false);
    if t.columns.Keys !! DERIVED {
      DerivedCount();
    }
  }

  lemma DerivedCount()
    ensures |DERIVED| == 9
  {
    EarlyNamesDistinct();
    RollingNamesSeparated();
    assert |ROLLING_NAMES| == 6;
  }

  /** The label does not depend on the fill: a `Type` column of strings is
      left alone, and a numeric one labels every row as a failure before and
      after. */
  lemma LabelIgnoresFill(t: Table)
    requires t.WellFormed() && TYPE in t.columns
    ensures FailureColumn(ImputeTable(t).columns[TYPE]) == FailureColumn(t.columns[TYPE])
  {
    var before, after := FailureColumn(t.columns[TYPE]), FailureColumn(ImputeTable(t).columns[TYPE]);
    assert |before| == |after|;
    forall i | 0 <= i < |before| ensures before[i] == after[i] {
    }
  }

  /** The output's `Failure` column is the unscaled label computed from the
      input's `Type`: 0 for "No Failure", 1 for every other value. */
  lemma PreprocessLabel(sqrt: real -> real, t: Table)
    requires t.WellFormed() && PreprocessData(sqrt, t).Ok?
    ensures TYPE in t.columns
    ensures var out := PreprocessData(sqrt, t).value.0;
            && FAILURE in out.columns
            && out.columns[FAILURE] == Numeric(FailureColumn(t.columns[TYPE]))
  {
    var e := PreprocessParts(sqrt, t);
    EngineerFeatures(sqrt, t);
    ScaleColumns(e, false);
    ScaledDistinct();
    LabelIgnoresFill(t);
  }

  /** Every input column that is neither derived nor scaled (identifiers,
      `Type`, any other column) comes out as the fill left it. */
  lemma PreprocessPassthrough(sqrt: real -> real, t: Table, k: string)
    requires t.WellFormed() && PreprocessData(sqrt, t).Ok?
    requires k in t.columns && k !in DERIVED && k !in SCALED
    ensures var out := PreprocessData(sqrt, t).value.0;
            && k in out.columns
            && out.columns[k] == ImputeTable(t).columns[k]
  {
    var e := PreprocessParts(sqrt, t);
    EngineerFrame(sqrt, t, k);
    ScaleColumns(e, false);
  }

  /** The returned scaler: fitted on the thirteen feature columns of the
      engineered table, in order, one observed range per column. */
  lemma PreprocessScaler(sqrt: real -> real, t: Table)
    requires t.WellFormed() && PreprocessData(sqrt, t).Ok?
    ensures Engineer(sqrt, t).Ok? && ScalerReady(Engineer(sqrt, t).value)
    ensures var s := PreprocessData(sqrt, t).value.1;
            var e := Engineer(sqrt, t).value;
            && s.features == SCALED && s.Valid()
            && (forall i :: 0 <= i < |SCALED| ==> s.ranges[i] == FitColumn(e.columns[SCALED[i]].values))
  {
    var e := PreprocessParts(sqrt, t);
    ScaleColumns(e, false);
  }

  /** Each scaled column: present exactly where the unscaled column is,
      every present value in [0, 1], and the scaler's inverse transform gives
      the unscaled column back. */
  lemma ScaledColumn(e: Table, i: nat)
    requires e.WellFormed() && ScalerReady(e) && e.rows > 0 && i < |SCALED|
    ensures Scale(e, false).Ok?
    ensures var (out, s) := Scale(e, false).value;
            var before := e.columns[SCALED[i]].values;
            && SCALED[i] in out.columns && out.columns[SCALED[i]].Numeric?
            && var after := out.columns[SCALED[i]].values;
            && |after| == |before|
            && (forall j :: 0 <= j < |after| ==> (after[j].Some? <==> before[j].Some?))
            && (forall j :: 0 <= j < |after| && after[j].Some? ==> 0.0 <= after[j].value <= 1.0)
            && InverseColumn(s.ranges[i], after) == before
  {
    ScaleColumns(e, false);
    var col := e.columns[SCALED[i]].values;
    FitTransformInUnit(col);
    FitRoundTrip(col);
  }

  /** The same for the output of `preprocess_data`, relative to the
      engineered table. */
  lemma PreprocessScaledColumn(sqrt: real -> real, t: Table, i: nat)
    requires t.WellFormed() && PreprocessData(sqrt, t).Ok? && i < |SCALED|
    ensures Engineer(sqrt, t).Ok? && ScalerReady(Engineer(sqrt, t).value)
    ensures var (out, s) := PreprocessData(sqrt, t).value;
            var before := Engineer(sqrt, t).value.columns[SCALED[i]].values;
            && SCALED[i] in out.columns && out.columns[SCALED[i]].Numeric?
            && var after := out.columns[SCALED[i]].values;
            && |after| == |before|
            && (forall j :: 0 <= j < |after| ==> (after[j].Some? <==> before[j].Some?))
            && (forall j :: 0 <= j < |after| && after[j].Some? ==> 0.0 <= after[j].value <= 1.0)
            && InverseColumn(s.ranges[i], after) == before
  {
    var e := PreprocessParts(sqrt, t);
    ScaledColumn(e, i);
  }

  /** The five measured columns are the first five scaled ones and none of
      them is derived. */
  lemma MeasuredIndex(k: string) returns (i: nat)
    requires k in {AIR, PROCESS, SPEED, TORQUE, TOOL_WEAR}
    ensures i < 5 && SCALED[i] == k && k !in DERIVED
  {
    InputsNotDerived();
    i := if k == AIR then 0 else if k == PROCESS then 1 else if k == SPEED then 2
         else if k == TORQUE then 3 else 4;
  }

  /** The fill leaves no gap in a numeric column with at least one value. */
  lemma FilledComplete(t: Table, k: string)
    requires t.WellFormed() && t.HasNumeric(k)
    requires exists j :: 0 <= j < t.rows && t.columns[k].values[j].Some?
    ensures forall j :: 0 <= j < t.rows ==> ImputeTable(t).columns[k].values[j].Some?
  {
    forall j | 0 <= j < t.rows ensures ImputeTable(t).columns[k].values[j].Some? {
      ImputedTableComplete(t, k, j);
    }
  }

  /** Scaling a column without gaps leaves no gap. */
  lemma ScaledComplete(e: Table, i: nat)
    requires e.WellFormed() && ScalerReady(e) && e.rows > 0 && i < |SCALED|
    requires forall j :: 0 <= j < e.rows ==> e.columns[SCALED[i]].values[j].Some?
    ensures Scale(e, false).Ok?
    ensures var out := Scale(e, false).value.0;
            && SCALED[i] in out.columns && out.columns[SCALED[i]].Numeric?
            && forall j :: 0 <= j < out.rows ==> out.columns[SCALED[i]].values[j].Some?
  {
    ScaledColumn(e, i);
  }

  /** A measured input column with at least one value has no missing cell
      left in the output. */
  lemma PreprocessNoGaps(sqrt: real -> real, t: Table, k: string)
    requires t.WellFormed() && PreprocessData(sqrt, t).Ok?
    requires k in {AIR, PROCESS, SPEED, TORQUE, TOOL_WEAR}
    requires t.HasNumeric(k) && exists j :: 0 <= j < t.rows && t.columns[k].values[j].Some?
    ensures var out := PreprocessData(sqrt, t).value.0;
            && k in out.columns && out.columns[k].Numeric?
            && forall j :: 0 <= j < out.rows ==> out.columns[k].values[j].Some?
  {
    var e := PreprocessParts(sqrt, t);
    var i := MeasuredIndex(k);
    EngineerFrame(sqrt, t, k);
    FilledComplete(t, k);
    ScaledComplete(e, i);
  }
}
