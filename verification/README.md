# Predictive-maintenance preprocessing, modelled in Dafny

This project models `preprocess_data` (src/preprocess.py), the pipeline that
turns the raw machine-sensor table into the feature table used for failure
prediction. In order, the pipeline:

1. fills every gap in a numeric column with that column's median;
2. derives the binary `Failure` label from `Type`;
3. adds `Temp_Diff` (process minus air temperature) and `Torque_RPM_Ratio`
   (torque over speed plus 1e-6);
4. adds the trailing five-row rolling mean and sample standard deviation of
   the air temperature, the process temperature and the torque;
5. fits a min-max scaler on thirteen numeric columns and replaces them with
   their scaled values.

It returns the scaled table together with the fitted scaler.

The model represents the table as `Tables.Table`: a row count plus a map from
column name to column. A column holds either numbers (`Numeric`) or strings
(`Text`), and a missing cell (NaN or None) is `None`. Reals stand in for
floats. The statistics the libraries compute are defined exactly over the
reals in `Stats`:

- NaN-skipping sum, mean and sample variance;
- minimum and maximum;
- median by sorting.

Each stage is a pure function, and a failing step is an `Error` value:

- `MissingColumn` is pandas' KeyError;
- `NotNumeric` is arithmetic on a string column;
- `NonFinite` is the scaler rejecting an infinite ratio;
- `NoSamples` is the scaler refusing an empty table.

The errors come in the order Python would raise them.

Modules, one per stage:

- `Wrappers`: `Option` and `Result`.
- `Stats`: present values, sums, mean, variance, minimum and maximum, sorting and the median.
- `Tables`: the table, the column names, and the column lookups with their errors.
- `Imputation`: the median fill (stage 1).
- `Labels`: the `Failure` label (stage 2).
- `Features`: `Temp_Diff` and `Torque_RPM_Ratio` (stage 3).
- `Rolling`: rolling statistics (stage 4). `RollingMean` and `RollingStd` give the windowed definition, and `RollingRunning` is a running-sum algorithm proved equal to it.
- `Scaling`: the min-max scaler: fit, transform and inverse transform (stage 5).
- `Pipeline`: the whole of `preprocess_data`, with end-to-end properties.

The function that models `preprocess_data` (src/preprocess.py:9-36) is
`Pipeline.PreprocessData`. It is the composition of `Pipeline.Engineer`, which
models stages 1 to 4 (lines 12-24), and `Pipeline.Scale`, which models stage 5
(lines 27-34). These three functions only compute. What they do is stated by
the lemmas in the "## Model" table: the `Preprocess*` rows for the whole
pipeline, the `Engineer*` rows for stages 1 to 4, and the `Scale*` rows for
stage 5. The rolling loop `for col in [...]` (lines 22-24) is
`Rolling.RunStages`, a fold over a list of `Rolling.Stage` passes. Each pass
names its source column and the two columns it writes. `Rolling.AddRolling`
runs it on the three passes of the source.

A few library behaviours decide the edge cases; the model follows them:

- A column with no present value has a NaN median, so the fill leaves it unchanged.
- The deviation of a window with fewer than two present values is NaN. This includes row 0.
- The scaler fits on present values only and leaves missing cells missing.
- A constant column has a zero range, which the scaler replaces by 1, so the column scales to 0.

## Model

| member | source | states |
|---|---|---|
| Stats.Present | src/preprocess.py:12 | a value is among those the median and the other statistics see exactly when some cell holds it |
| Stats.PresentCounts | src/preprocess.py:12 | each value occurs among the present values exactly as often as a cell holds it, so the median sees every repeat |
| Stats.PresentAppend | src/preprocess.py:12 | the present values of two consecutive row ranges are those of the first followed by those of the second, so row order is kept |
| Stats.Sort | src/preprocess.py:12 | sorting yields an ascending permutation of the values |
| Stats.MedianOfSorted | src/preprocess.py:12 | for any ascending arrangement of the values, the median is its middle element when the count is odd and the mean of its two middle elements when it is even |
| Stats.MedianSplitsInHalf | src/preprocess.py:12 | at least half of the values lie at or below the median and at least half at or above it |
| Stats.VarianceFromSums | src/preprocess.py:24 | the sample variance equals (q - s*s/n)/(n - 1) computed from the count, sum and sum of squares |
| Imputation.FillValue | src/preprocess.py:12 | a column's fill value is absent exactly when every cell is missing, and otherwise is the median of its present values |
| Imputation.ImputeColumn | src/preprocess.py:12 | present cells are kept and every missing cell receives the column's fill value |
| Imputation.ImputeFillsEveryGap | src/preprocess.py:12 | a column with one present value has no gap left, and each filled value splits the present values in half |
| Imputation.ImputeAllMissing | src/preprocess.py:12 | an all-missing column (NaN median) comes back unchanged |
| Imputation.ImputeIdempotent | src/preprocess.py:12 | filling a second time changes nothing |
| Imputation.ImputeTable | src/preprocess.py:12 | same rows and column names; string columns untouched; each numeric column filled from its own median |
| Imputation.ImputedTableComplete | src/preprocess.py:12 | after the fill, a numeric column that had a value has a value in every row |
| Labels.FailureColumn | src/preprocess.py:15 | every label is 0 or 1, and it is 0 exactly when `Type` is the string "No Failure" |
| Labels.AddFailure | src/preprocess.py:15 | fails with KeyError exactly when `Type` is absent; otherwise adds only `Failure` and keeps every other column |
| Features.Difference | src/preprocess.py:18 | a row's difference is present exactly when both operands are, and adding the air temperature back gives the process temperature |
| Features.Ratio | src/preprocess.py:19 | present exactly when both operands are and speed + 1e-6 is non-zero (always when speed >= 0); multiplying back by the denominator gives the torque |
| Features.AddFeatures | src/preprocess.py:18-19 | succeeds exactly when the four operands are numeric columns; adds exactly the two features with those contents and keeps every other column |
| Rolling.Window | src/preprocess.py:23 | row i's window has min(i + 1, 5) cells, the rows max(0, i - 4) to i |
| Rolling.RollingMeanInWindow | src/preprocess.py:23 | the rolling mean is present exactly when its window has a present value, and then lies between the window's smallest and largest values |
| Rolling.FirstRow | src/preprocess.py:23-24 | row 0's mean is the row's own value and row 0's deviation is missing |
| Rolling.RollingStdNonNegative | src/preprocess.py:24 | where defined, the deviation is non-negative and its square is the window's sample variance |
| Rolling.RollingOfComplete | src/preprocess.py:23-24 | on a column without gaps the mean is the window's sum over its size, and the deviation is defined on every row after the first |
| Rolling.RollingMeanExample | src/preprocess.py:23 | on the values 1..7 the means at rows 0, 4 and 6 are 1, 3 and 5 |
| Rolling.RollingRunning | src/preprocess.py:22-24 | a running count, sum and sum of squares, updated as rows enter and leave the window, yields exactly the windowed mean and deviation of every row |
| Rolling.AddRollingFor | src/preprocess.py:23-24 | the two statements for one column succeed exactly when the column is numeric, and otherwise raise that column's KeyError or type error |
| Rolling.AddRollingForColumn | src/preprocess.py:23-24 | one column's statements add exactly its mean and deviation columns and keep every other column |
| Rolling.RunStagesOutcome | src/preprocess.py:22-24 | for any list of passes whose written names are separate, the loop succeeds exactly when every source is numeric, and otherwise raises the error of the first source in loop order that is not |
| Rolling.RunStagesKeep | src/preprocess.py:22-24 | after the loop, a column exists exactly when it existed or some pass wrote it, and a column no pass writes is unchanged |
| Rolling.RunStagesWritten | src/preprocess.py:22-24 | after the loop, each pass's mean and deviation columns hold the rolling statistics of its source column as the input held it |
| Rolling.AddRollingOutcome | src/preprocess.py:22-24 | the rolling stage fails on the first of air temperature, process temperature and torque that is missing or not numeric |
| Rolling.AddRollingColumns | src/preprocess.py:22-24 | the rolling stage adds exactly the six named columns with the windowed statistics of their sources and keeps every other column |
| Scaling.Span | src/preprocess.py:34 | the divisor is max - min whenever the range is not a single point, and exactly 1 for a single-point range, so the fitted scaler maps a constant column's x to x - min |
| Scaling.FitColumn | src/preprocess.py:34 | no range exactly when every cell is missing; otherwise both ends occur in the column and bound every present value |
| Scaling.ScaleInUnit | src/preprocess.py:34 | a value inside the fitted range scales into [0, 1] |
| Scaling.ScaleEnds | src/preprocess.py:34 | the minimum scales to 0, and the maximum scales to 1 unless the range is a single point |
| Scaling.ScaleMonotone | src/preprocess.py:34 | scaling preserves order and strict order |
| Scaling.ScaleRoundTrip | src/preprocess.py:34 | the inverse transform undoes the transform and the other way round |
| Scaling.FitTransformInUnit | src/preprocess.py:34 | a fitted and transformed column keeps its missing cells, lies in [0, 1], and reaches 0 |
| Scaling.FitTransformReachesOne | src/preprocess.py:34 | a column that is not constant reaches exactly 1 |
| Scaling.FitTransformConstant | src/preprocess.py:34 | a constant column scales to 0 everywhere it is present |
| Scaling.FitRoundTrip | src/preprocess.py:34 | the fitted scaler's inverse transform gives back the original column |
| Scaling.Fit | src/preprocess.py:27-34 | the scaler records one fitted range per listed column, in order, and is valid for distinct names |
| Scaling.Transform | src/preprocess.py:34 | same rows and columns; each listed column is replaced by its scaled values and every other column is kept |
| Pipeline.EngineerOutcome | src/preprocess.py:12-24 | stages 1 to 4 succeed exactly when `Type` exists and the four measurements are numeric; without `Type` they fail with its KeyError |
| Pipeline.EngineerKeys | src/preprocess.py:15-24 | stages 1 to 4 add exactly the nine derived columns |
| Pipeline.EngineerFrame | src/preprocess.py:12-24 | every input column not overwritten comes out of stages 1 to 4 as the fill left it |
| Pipeline.EngineerFeatures | src/preprocess.py:12-19 | the label and the two features are computed from the filled input columns |
| Pipeline.EngineerRolling | src/preprocess.py:12-24 | the six rolling columns are computed from the filled air temperature, process temperature and torque |
| Pipeline.EngineerReady | src/preprocess.py:28-34 | after engineering, the scaler's column checks pass exactly when the tool wear is numeric, and otherwise fail on the tool wear |
| Pipeline.ScaleOutcome | src/preprocess.py:34 | scaling succeeds exactly when the thirteen columns are numeric, no value is infinite and a row exists; the checks come in that order |
| Pipeline.ScaleColumns | src/preprocess.py:27-34 | the returned scaler is the one fitted on the thirteen columns; those columns are replaced by their scaled values and every other column is kept |
| Pipeline.ScaledColumn | src/preprocess.py:34 | each scaled column keeps its missing cells, lies in [0, 1], and the scaler's inverse gives back the unscaled column |
| Pipeline.PreprocessOutcome | src/preprocess.py:9-36 | the pipeline returns exactly when `Type` exists, the five measurements are numeric, no ratio is infinite and a row exists; otherwise it raises the first failing step's error |
| Pipeline.PreprocessShape | src/preprocess.py:9-36 | the output keeps the row count and has the input's columns plus the nine derived ones, nine more when the names are new |
| Pipeline.PreprocessLabel | src/preprocess.py:15 | the output's `Failure` column is the unscaled 0/1 label of the input's `Type` |
| Pipeline.PreprocessPassthrough | src/preprocess.py:9-36 | any input column that is neither derived nor scaled comes out as the fill left it |
| Pipeline.PreprocessScaler | src/preprocess.py:27-36 | the returned scaler covers the thirteen columns in order, holding each engineered column's fitted range |
| Pipeline.PreprocessScaledColumn | src/preprocess.py:27-34 | every scaled output column lies in [0, 1], keeps the engineered column's missing cells, and un-scales back to it |
| Pipeline.PreprocessNoGaps | src/preprocess.py:12 | a measured input column with one value has no missing cell in the output |

## Left out

- `load_data` (src/preprocess.py:5-7) and the script entry point (src/preprocess.py:38-42): they read and write CSV files and print.
- The DataFrame's column order: a table is a map from name to column.
- Floating point. Arithmetic is exact over the reals. The one overflow modelled is a non-zero torque divided by speed + 1e-6 == 0, which gives an infinity the scaler rejects. Other overflows to infinity and rounding are not modelled.
- The scaler treats a range below ten machine epsilons as zero. The model treats only an exactly zero range as zero.
- Square root: Dafny's reals have none, so the rolling deviation takes the square root as a parameter `sqrt`. The lemmas about the deviation require `Rolling.IsSqrt(sqrt)`.
- pandas' dtype inference. A column is either numeric or strings, and a numeric `Type` column labels every row 1.
- Mixed-type object columns are not modelled.
- pandas' KeyError for a multi-column lookup lists every missing name. The model reports the first one.
- Text columns without a present cell. pandas raises nothing for such a column, whether the table has no rows or every cell of the column is missing: the subtraction, the `+ 1e-6` and the division work on the present cells only, `.rolling()` turns the missing cells into float NaN, and the scaler accepts NaN. The model still reports `NotNumeric` for every `Text` column an arithmetic step or the scaler reads, and for an empty table it reports that error before the scaler's empty-table error.
- pandas' own rolling-window internals. `Rolling.RollingRunning` is a running-sum algorithm proved equal to the windowed definition, not a transcription of the library's code.
- The scaler's options beyond the defaults, such as `feature_range` and `clip`. The scaler is modelled with the default range [0, 1].
- Features.AddFeatures: states when the feature stage fails but not which error it raises. Its error order follows the source statement by statement in the function body.
- Pipeline.EngineerOutcome: states the exact error only for a missing `Type`. For the feature and rolling stages it states only that the run fails; `Rolling.AddRollingOutcome` gives the rolling stage's exact error.
