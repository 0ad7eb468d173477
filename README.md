# A Dafny model of the unlockGNN Gaussian-process core

This project models the part of unlockGNN that trains a Gaussian process on
features taken from a pretrained graph network, and proves properties of that
model.

- **`GPTrainer.train_model`** is the epoch loop. Each epoch it:
  - runs one optimisation step and counts it;
  - refreshes the cached predictions that the requested metrics need;
  - computes those metrics with `getattr` and writes them into the trainer's float slots;
  - yields one dictionary per epoch;
  - keeps the best validation NLL and, when the trainer has a checkpoint manager, saves a checkpoint on every strict improvement;
  - breaks off once a counter that starts at 1, and is reset to 1 on each improvement, reaches a truthy `patience`. That happens after `patience - 1` consecutive epochs without improvement (one epoch when `patience` is 1).
- **`GPMetrics`** holds the metrics: `mae`, `sharpness`, `variation`, `residuals`, the percentile-interval coverage `pis`, and `calibration_err`.
- **`convert_index_points`** is the shape arithmetic that turns an (N, D) array into GP index points.
- **`GPDataParser`** computes the scaling factor (the largest absolute layer output over the training set) and divides feature vectors by it.

## Modules

- `wrappers.dfy` defines `Option` and `Result`.
- `floats.dfy` defines `Floats.Float`: exact reals plus NaN, -inf and +inf, with IEEE comparison, addition, squaring and division. The code relies on each special value:
  - every metric slot starts as NaN;
  - the best NLL starts at +inf;
  - the quantile bounds at levels 0 and 1 are infinite;
  - numpy turns a division by zero into an infinity or NaN.
- `index_points.dfy` (module `IndexPoints`) holds `convert_index_points`, modelled on the array's shape.
- `gp_metrics.dfy` (module `GPMetrics`) holds:
  - the metrics as functions of the cached predictions and the validation data;
  - the class `Metrics`, which holds the cache that `update_mean` and `update_stddevs` overwrite.
- `gp_trainer.dfy` (module `GPTrainer`) holds the loop, in two parts:
  - **The specification.** `Epoch` is one pass of the loop body. `Run` is the loop drained to its end. Lemmas over `Run` state what the loop promises.
  - **The class `Trainer`.** It holds the fields the loop updates in place: the step counter, the loss, the metric slots, and logs of checkpoint saves and model exports. Its methods run the same loop. `TrainModel` is proved to end in the state `Run` describes.
- `data_processing.dfy` (module `DataProcessing`) holds:
  - the scaling factor;
  - the class `DataParser`, with its static `Create` for the constructor's three paths and `ToInput` for `structures_to_input`.

## Inputs the model takes as parameters

The library's numerics are not modelled. They enter as values:

- **Each epoch of a call:** the loss returned by `optimize_cycle`, plus the regression model's NLL, means and stddevs after that step. These are `model(k)` of type `GPTrainer.EpochOracle`.
- **The quantiles:** the 100 standard-normal quantiles `norm.quantile(linspace(0, 1, 100))`.
- **`np.sqrt`.**
- **The network's layer outputs.**

## Where the code and its documentation disagree

The model follows the code in each case:

- **Early stopping.** The docstring of `patience` (sse_gnn/gp/gp_trainer.py:228-230) calls it the number of epochs without improvement after which training stops. The counter, though, starts at 1 and is reset to 1 on an improvement (lines 249 and 278), and the loop breaks once it reaches `patience` (lines 281-283). With `patience = 3` the loop therefore breaks at the second epoch after the last improvement, not the third. `GPTrainer.EarlyStop` states the exact count as `EpochsToStop`.
- **Metric names.** The docstring of `metrics` (lines 232-233) says the valid metrics are those of `GPMetrics`. In the code only a name `getattr` cannot resolve raises the `ValueError` "Invalid metric" (lines 262-267). That happens in the first epoch, after one optimisation step (`GPTrainer.InvalidMetricFailsAtOnce`). A name that resolves but has no float slot raises a `KeyError` from the assignment loop in the first epoch (lines 269-270, `GPTrainer.MissingSlotFailsAtOnce`). Such names include `residuals`, `pis` and any other member of the object.
- **Recomputation.** The comment above the two dependency tables (line 336) says they list which properties need the mean and the standard deviation updated. The stddev table leaves out `calibration_err` and `pis`, which read the stddevs. The specification functions take the table as a parameter, and `GPTrainer.SourceDependencies` is the table as written. The `Trainer` class runs that table, as the code does. The corrected table is kept beside it for the finding below.
- **Index points.** The docstring of `convert_index_points` (sse_gnn/gp/gp_trainer.py:21-22) says it extends the number of dimensions by `array.shape[1] - 1`. For D >= 1 the code does that (line 34, `IndexPoints.MatrixShape`). For D = 0 the docstring would drop an axis, but `(1,) * -1` is empty and the code leaves the shape as it was (`IndexPoints.DegenerateWidthUnchanged`).

## Model

| member | source | states |
|---|---|---|
| IndexPoints.Ones | sse_gnn/gp/gp_trainer.py:34 | `(1,) * k` is k ones, and empty when k is not positive |
| IndexPoints.ConvertIndexPoints | sse_gnn/gp/gp_trainer.py:33-35 | It raises exactly for arrays of rank below two. Otherwise the new shape keeps the old one as a prefix and appends `shape[1] - 1` ones (none when that count is not positive). |
| IndexPoints.ElementCountPreserved | sse_gnn/gp/gp_trainer.py:33-35 | The new shape holds exactly as many elements as the array, so the reshape into a tensor is valid for every input of rank two or more |
| IndexPoints.MatrixShape | sse_gnn/gp/gp_trainer.py:33-35 | An (N, D) matrix with D >= 1 becomes (N, D, 1, ..., 1), of rank D + 1 with N * D elements |
| IndexPoints.DegenerateWidthUnchanged | sse_gnn/gp/gp_trainer.py:34 | With D = 0 the repetition count is negative and the shape is unchanged |
| GPMetrics.Residuals | sse_gnn/gp/gp_trainer.py:426 | One residual per point, with observation + residual = mean |
| GPMetrics.Mae | sse_gnn/gp/gp_trainer.py:377 | NaN exactly on an empty validation set; otherwise a non-negative number |
| GPMetrics.MaeZeroIff | sse_gnn/gp/gp_trainer.py:377 | On a non-empty set the MAE is 0 if and only if every mean equals its observation |
| GPMetrics.SharpnessZeroIff | sse_gnn/gp/gp_trainer.py:387 | On non-empty stddevs the sharpness is 0 if and only if every stddev is 0 |
| GPMetrics.SumSquaresZeroIff | sse_gnn/gp/gp_trainer.py:387 | A sum of squares is 0 if and only if every term is 0 |
| GPMetrics.SumSquaresPositive | sse_gnn/gp/gp_trainer.py:387 | One non-zero term makes a sum of squares positive |
| GPMetrics.Sharpness | sse_gnn/gp/gp_trainer.py:387 | NaN exactly for no stddevs. Otherwise, given a square root that is one, its value is the non-negative root of the mean squared stddev. |
| GPMetrics.Variation | sse_gnn/gp/gp_trainer.py:399-402 | NaN for no stddevs |
| GPMetrics.VariationOfOnePoint | sse_gnn/gp/gp_trainer.py:399-402 | A single point divides by mean * 0, and the result is 0 / 0 = NaN |
| GPMetrics.VariationOfConstant | sse_gnn/gp/gp_trainer.py:399-402 | Identical non-zero stddevs over two or more points have a coefficient of variation of exactly 0 |
| GPMetrics.Levels | sse_gnn/gp/gp_trainer.py:473 | `linspace(0, 1, 100)`: the i-th level is i / 99, so the 100 levels rise strictly from 0 to 1 |
| GPMetrics.Normalised | sse_gnn/gp/gp_trainer.py:469 | One normalised residual per point, equal to residual / stddev wherever the stddev is non-zero |
| GPMetrics.CountAtMost | sse_gnn/gp/gp_trainer.py:479 | The count of values at or below a bound never exceeds the number of values |
| GPMetrics.CountAtMostMonotone | sse_gnn/gp/gp_trainer.py:479 | Raising the bound never lowers the count |
| GPMetrics.CountAtInfinities | sse_gnn/gp/gp_trainer.py:479 | With no NaN, every value is at most +inf and none is at most -inf |
| GPMetrics.Pis | sse_gnn/gp/gp_trainer.py:469-485 | The predicted side is the levels. The observed side has, for each of the 100 bounds, the count of normalised residuals at or below it divided by the number of points. |
| GPMetrics.PisAt | sse_gnn/gp/gp_trainer.py:478-483 | On a non-empty set each observed coverage is the plain quotient count / n |
| GPMetrics.PisObservedInUnitInterval | sse_gnn/gp/gp_trainer.py:478-483 | On a non-empty set every observed coverage is a number in [0, 1]; on an empty set every one is NaN |
| GPMetrics.PisMonotone | sse_gnn/gp/gp_trainer.py:474-483 | Sorted bounds give non-decreasing observed coverage |
| GPMetrics.PisEndpoints | sse_gnn/gp/gp_trainer.py:469-483 | With no zero stddev, the level-0 bound (-inf) covers no residual and the level-1 bound (+inf) covers all of them |
| GPMetrics.Gaps | sse_gnn/gp/gp_trainer.py:415 | The gaps between levels and numeric coverage, index by index |
| GPMetrics.GapsFinite | sse_gnn/gp/gp_trainer.py:415 | Without NaN coverage, the float sum of squared gaps is the exact real sum of squares |
| GPMetrics.GapsNaN | sse_gnn/gp/gp_trainer.py:415 | Any NaN coverage makes the sum NaN |
| GPMetrics.SumSquaredGaps | sse_gnn/gp/gp_trainer.py:415 | `np.sum(np.square(...))` of the gaps is never negative, is NaN exactly when some observed coverage is NaN, and is a number when every coverage is |
| GPMetrics.SumSquaresAtMost | sse_gnn/gp/gp_trainer.py:415 | Squares that are termwise no larger give a sum no larger |
| GPMetrics.SumSquaresBelow | sse_gnn/gp/gp_trainer.py:415 | Squares termwise no larger, and strictly smaller at one index, give a strictly smaller sum |
| GPMetrics.CalibrationErr | sse_gnn/gp/gp_trainer.py:405-415 | On a non-empty set the calibration error is a non-negative number; with no validation point it is NaN |
| GPMetrics.CalibrationErrZero | sse_gnn/gp/gp_trainer.py:414-415 | The calibration error is 0 if and only if the observed coverage equals every nominal level |
| GPMetrics.Attribute | sse_gnn/gp/gp_trainer.py:263-265 | `getattr` on a resolving name gives:<br>- a float exactly for the five scalar metrics;<br>- a vector exactly for `residuals`;<br>- the interval pair exactly for `pis`;<br>- a non-metric member otherwise. |
| GPMetrics.AttributeReads | sse_gnn/gp/gp_trainer.py:377-426 | No metric outside `mae`, `calibration_err`, `residuals` and `pis` changes with the means. No metric outside `sharpness`, `variation`, `calibration_err` and `pis` changes with the stddevs. |
| GPMetrics.Metrics.constructor | sse_gnn/gp/gp_trainer.py:340-349 | Construction caches the model's initial means and stddevs |
| GPMetrics.Metrics.UpdateMean | sse_gnn/gp/gp_trainer.py:351-353 | `update_mean` replaces the cached means and leaves the stddevs |
| GPMetrics.Metrics.UpdateStddevs | sse_gnn/gp/gp_trainer.py:355-357 | `update_stddevs` replaces the cached stddevs and leaves the means |
| GPTrainer.WithNll | sse_gnn/gp/gp_trainer.py:245-247 | When tracking, "nll" is in the list. The list changes exactly when tracking and "nll" was absent, and then only by appending "nll". |
| GPTrainer.WithNllTwice | sse_gnn/gp/gp_trainer.py:245-247 | Because the append is in place, a list used by an earlier tracking call gets nothing more appended |
| GPTrainer.Refresh | sse_gnn/gp/gp_trainer.py:257-260 | The means are replaced exactly when a requested metric is in the mean table, and the stddevs exactly when one is in the stddev table |
| GPTrainer.Truthy | sse_gnn/gp/gp_trainer.py:275 | `patience` is falsy exactly when it is None or 0 |
| GPTrainer.Tracking | sse_gnn/gp/gp_trainer.py:245 | The loop tracks the NLL unless there is neither a manager nor a truthy patience |
| GPTrainer.FirstInvalid | sse_gnn/gp/gp_trainer.py:262-267 | None exactly when every name resolves. Otherwise the first name in list order that does not resolve, the one the comprehension fails on. |
| GPTrainer.MetricDict | sse_gnn/gp/gp_trainer.py:263-265 | One key per requested name, each holding `getattr` of that name; every key with a slot holds a float |
| GPTrainer.AssignSlots | sse_gnn/gp/gp_trainer.py:269-270 | The set of slots is unchanged. It raises exactly when a requested name has no slot. The KeyError names the first such name, and every name before it has already been assigned. Otherwise every requested slot holds its metric's float. Slots not requested keep their values. |
| GPTrainer.FirstOutsideShift | sse_gnn/gp/gp_trainer.py:269-270 | The first missing name of the tail is the first of the whole list when the head has a slot |
| GPTrainer.Measure | sse_gnn/gp/gp_trainer.py:262-273 | It raises exactly when some name has no slot, and then yields nothing. Otherwise it yields one dictionary of the requested metrics plus "loss", each metric being the value stored from the cache. |
| GPTrainer.Snapshot | sse_gnn/gp/gp_trainer.py:272-273 | The yielded dictionary is the metric dictionary plus the key "loss" holding the epoch's loss |
| GPTrainer.AssignedFacts | sse_gnn/gp/gp_trainer.py:269-273 | A complete assignment pass leaves every requested metric in its slot, and the snapshot reports exactly those values and the loss |
| GPTrainer.RecordFacts | sse_gnn/gp/gp_trainer.py:262-273 | The dictionary, the assignments and the snapshot of one epoch: the slots keep their keys, it raises exactly without all slots, and otherwise the snapshot reports the stored values |
| GPTrainer.Track | sse_gnn/gp/gp_trainer.py:275-288 | The best never rises. A strict improvement resets the counter to 1 and saves a checkpoint with a manager. Anything else (NaN included) adds one to the counter and breaks exactly when a truthy patience is reached. Without tracking nothing changes. |
| GPTrainer.Advance | sse_gnn/gp/gp_trainer.py:253-260 | The step stores the new loss, adds one to the counter and refreshes the cache |
| GPTrainer.Finish | sse_gnn/gp/gp_trainer.py:262-288 | The loop body after the step keeps the step, the loss and the cache. It raises exactly when a name has no slot, and then yields and saves nothing. |
| GPTrainer.Epoch | sse_gnn/gp/gp_trainer.py:252-288 | One pass of the loop body. It raises exactly when a name has no slot, with `InvalidMetric` exactly for an unresolved name. Otherwise it yields the stored metrics and the loss, stores the epoch's NLL, and applies the tracking rules above. |
| GPTrainer.InitialBest | sse_gnn/gp/gp_trainer.py:240-243 | The best starts at the stored NLL, or at +inf when that is NaN; it is never NaN |
| GPTrainer.Run | sse_gnn/gp/gp_trainer.py:252-288 | The drained loop keeps the trainer's invariant. It raises exactly when it runs at least one epoch and some requested name has no slot. |
| GPTrainer.RunCounts | sse_gnn/gp/gp_trainer.py:252-288 | Earlier yields are kept. Steps taken equal the dictionaries yielded, plus one if the call raised, and are at most `epochs`. The best never rises. |
| GPTrainer.RunYields | sse_gnn/gp/gp_trainer.py:272-273 | The j-th dictionary yielded reports the requested metrics as floats and the loss of the j-th epoch |
| GPTrainer.EpochSaves | sse_gnn/gp/gp_trainer.py:275-280 | An epoch saves nothing, or (only with a manager) one checkpoint keyed by the incremented step whose NLL is the new, strictly lower best |
| GPTrainer.RunSaves | sse_gnn/gp/gp_trainer.py:275-280 | Checkpoints are only appended, never without a manager. Each one saved by the call has an increasing step and an NLL strictly below the one saved before it and below the starting best. |
| GPTrainer.InvalidMetricFailsAtOnce | sse_gnn/gp/gp_trainer.py:262-267 | An unresolved name raises `InvalidMetric` in the first epoch, after one step and before any metric or yield |
| GPTrainer.MissingSlotFailsAtOnce | sse_gnn/gp/gp_trainer.py:269-270 | When every name resolves, the first name without a slot raises `MissingSlot` naming it, in the first epoch, after one step, with no yield and no save |
| GPTrainer.EpochsToStop | sse_gnn/gp/gp_trainer.py:281-283 | The least positive number of further non-improving epochs that brings the counter to the patience |
| GPTrainer.EpochWithoutImprovement | sse_gnn/gp/gp_trainer.py:281-288 | A non-improving epoch under a truthy patience keeps the best and the saves, adds one to the counter, and breaks exactly when the counter reaches the patience |
| GPTrainer.EarlyStop | sse_gnn/gp/gp_trainer.py:281-288 | With a truthy patience and no later improvement, the call yields exactly `EpochsToStop` more dictionaries and breaks, with the best and the saves unchanged |
| GPTrainer.PatienceZeroIsNone | sse_gnn/gp/gp_trainer.py:275 | A patience of 0 is falsy: the whole call behaves as with no patience |
| GPTrainer.EpochPatienceZero | sse_gnn/gp/gp_trainer.py:275-283 | One epoch under a patience of 0 is identical to the epoch under no patience |
| GPTrainer.CacheKept | sse_gnn/gp/gp_trainer.py:257-260 | A cached prediction that no requested metric needs is never refreshed during a call |
| GPTrainer.OnePointCoverage | sse_gnn/gp/gp_trainer.py:469-483 | With one validation point, each observed coverage is 1 when its normalised residual is at most the bound and 0 otherwise |
| GPTrainer.OnePointGaps | sse_gnn/gp/gp_trainer.py:415 | The 100 gaps of one point: each level minus that point's 0-or-1 coverage at the level's bound |
| GPTrainer.OnePointGapsAre | sse_gnn/gp/gp_trainer.py:414-415 | With one point every coverage is a number and the gaps are those of `OnePointGaps` |
| GPTrainer.OnePointCalibration | sse_gnn/gp/gp_trainer.py:414-415 | With one point the calibration error is the sum of squares of `OnePointGaps` |
| GPTrainer.LevelGapSquares | sse_gnn/gp/gp_trainer.py:414-415 | At each level in [0, 1], a residual of 2 covers no more than a residual of 1; where the bound lies in [1, 2) the larger residual's gap squares strictly larger |
| GPTrainer.StaleCalibrationUnderstates | sse_gnn/gp/gp_trainer.py:414-415 | For any quantile bounds with the normal quantiles' signs and one bound in [1, 2), one point observed at 0 and predicted at 1 has a strictly smaller calibration error with stddev 1 than with stddev 0.5 |
| GPTrainer.SourceTableKeepsStddevs | sse_gnn/gp/gp_trainer.py:257-260 | As written: with `calibration_err` requested and no stddev metric, the epoch stores the calibration error of the current means and the old stddevs |
| GPTrainer.SourceTableReportsStaleCalibration | sse_gnn/gp/gp_trainer.py:337-338 | As written: for every such choice of bounds, a call requesting only `calibration_err` stores an error strictly below that of the model after the step |
| GPTrainer.IntendedTableIsCurrent | sse_gnn/gp/gp_trainer.py:337-338 | Corrected table: every value an epoch stores is the metric of the model as it is after that step |
| GPTrainer.IntendedMatchesReaders | sse_gnn/gp/gp_trainer.py:337-338 | The corrected table lists each metric under exactly the predictions it reads |
| GPTrainer.RefreshedIsCurrent | sse_gnn/gp/gp_trainer.py:257-260 | After the refresh the corrected table calls for, every requested metric from the cache equals that of the current model |
| GPTrainer.Unset | sse_gnn/gp/gp_trainer.py:109-131 | A new trainer has the five slots, all NaN |
| GPTrainer.MetricList.constructor | sse_gnn/gp/gp_trainer.py:245-247 | The caller's list, which `train_model` appends to in place, holds the given names |
| GPTrainer.Trainer.constructor | sse_gnn/gp/gp_trainer.py:101-156 | With a checkpoint directory holding a checkpoint, the step, loss and slots are restored from it. Otherwise the step is 0 and the loss and all five slots are NaN. |
| GPTrainer.Trainer.Start | sse_gnn/gp/gp_trainer.py:240-249 | A call starts from the stored step, loss and slots, with the counter at 1, nothing yielded, and the best at the stored NLL or +inf when that is NaN |
| GPTrainer.Trainer.AssignMetrics | sse_gnn/gp/gp_trainer.py:269-270 | The assignment loop on the trainer's slots ends exactly as `AssignSlots` |
| GPTrainer.Trainer.RecordMetrics | sse_gnn/gp/gp_trainer.py:262-273 | The dictionary, assignments and yield on the fields end as `Measure` |
| GPTrainer.Trainer.TrackNll | sse_gnn/gp/gp_trainer.py:275-288 | The tracking on the fields ends as `Track`, appending to the saves only with a manager |
| GPTrainer.Trainer.TrainEpoch | sse_gnn/gp/gp_trainer.py:253-288 | One loop pass on the trainer and the metrics cache ends in the state `Epoch` gives |
| GPTrainer.Trainer.FinishEpoch | sse_gnn/gp/gp_trainer.py:262-288 | The pass after the refresh ends as the specification's metric-and-tracking part |
| GPTrainer.Trainer.RunEpochs | sse_gnn/gp/gp_trainer.py:252-288 | The epoch loop ends with the outcome, yields, steps, loss, slots and saves of `Run` |
| GPTrainer.Trainer.TrainModel | sse_gnn/gp/gp_trainer.py:213-291 | It appends "nll" to the caller's list exactly when needed and ends in the state of `Run` with the dependency table as written, from the stored state. It exports once when the loop did not raise and a save directory is truthy. |
| DataProcessing.MaxAbs | data_processing.py:130-131 | The largest absolute entry of a non-empty vector: it bounds every entry, and some entry reaches it |
| DataProcessing.MaxAbsOfRows | data_processing.py:130-132 | The largest absolute entry over all vectors: it bounds every entry, and some entry reaches it |
| DataProcessing.ScalingFactor | data_processing.py:114-132 | It raises without training data, on an empty frame and on an empty vector. Otherwise it gives a non-negative factor that bounds every absolute entry and is reached by one. |
| DataProcessing.Scale | data_processing.py:106 | A vector divided entry by entry by the factor, with numpy's division |
| DataProcessing.ScaleAll | data_processing.py:100 | Every vector divided by the factor, in order |
| DataProcessing.ScaledEntryBound | data_processing.py:100 | For a positive factor, a scaled entry lies in [-1, 1] exactly when the entry lies within the factor, and has magnitude 1 when the entry reaches it |
| DataProcessing.DataParser.Create | data_processing.py:68-100 | It raises when neither or both of the factor and the training data are given. With the factor alone there is no training data. With the data alone, the factor is computed (or its error raised) and the stored column is divided by it. |
| DataProcessing.DataParser.ToInput | data_processing.py:102-106 | One input per structure, each entry being the layer output divided by the stored factor |
| DataProcessing.TrainingColumnInUnitRange | data_processing.py:96-100 | With a non-zero factor computed from the training data, every stored entry is in [-1, 1] and some entry is -1 or 1 |
| DataProcessing.ZeroFactorGivesNaN | data_processing.py:96-100 | All-zero training outputs give a factor of 0, and every stored entry is 0 / 0 = NaN |

## Left out

- The library numerics are inputs, not models. This covers:
  - the kernel, the Adam step in `optimize_cycle` and `log_prob`;
  - the regression model's means and stddevs;
  - the normal quantiles and `np.sqrt`.
- Floating point rounding and signed zeros are not modelled. Floats are exact reals plus NaN and the infinities.
- GPMetrics.Sharpness: the root-mean-square property holds only when the square-root input really is a square root. The model takes `np.sqrt` as a parameter.
- GPMetrics.Variation: its own contract states only the empty case. Its values are stated by `VariationOfOnePoint` and `VariationOfConstant`, not in general.
- GPMetrics.Mae: `tf.losses.mae` and numpy's reductions are taken as exact means.
- Screen and disk effects are out of scope:
  - `tqdm` and `print`;
  - the checkpoint files, where `max_to_keep=1` keeps only the last save but the model keeps a log of all saves;
  - `tf.saved_model.save` itself, recorded as an `Export`.
- GPTrainer.Trainer.constructor: restoring the amplitude and the length scale is not modelled, because the kernel parameters are not part of the model. Building the kernel, the prior and the optimiser is not modelled either.
- GPTrainer.Trainer.TrainModel: `training_steps` is an unbounded integer. The int32 wrap-around of the TensorFlow variable is not modelled.
- GPTrainer.Trainer.TrainModel: the generator is modelled as drained to its end. A caller that stops iterating early is not modelled.
- GPTrainer.Trainer.TrainModel: `save_dir` is modelled as an optional string, and its truthiness as non-emptiness (`NonEmptyDir`). A `Path` is always truthy.
- GPTrainer.AssignSlots: the assignment walks the names in list order. `metric_dict` is built from the list in that order, and a repeated name keeps its first position with the same value, so the walk meets the names as the dictionary holds them. A name that is unresolved and without a slot at once raises the `ValueError` first, as in the code.
- `DataParser`: the frame keeps only its `layer_out` column. The `structure` column and the copy of the other columns are not modelled.
- `_calc_layer_outs`, `ConcatExtractor`, `load_model`, `get_model`, `predict`, the plotting methods and the `__main__` scripts are not part of this model. The layer outputs enter as already squeezed vectors.

## Findings

| source | as written | input that shows it | evidently intended | confidence | as-written member | corrected member |
|---|---|---|---|---|---|---|
| sse_gnn/gp/gp_trainer.py:337-338 | `REQUIRES_STDDEV` omits `calibration_err` and `pis`, which read the stddevs. With metrics `["calibration_err"]` alone, the loop never refreshes the stddevs, and the calibration error it stores and yields mixes the current means with the stddevs the model had when the call began. | One validation point observed at 0.0, predicted mean 1.0. The cached stddev is 1.0 and the stddev after the first step is 0.5. Any quantile bounds with the normal quantiles' signs and one bound in [1, 2) will do; the normal quantile at level 90/99 is about 1.335. The stored error is strictly below the current model's. | Every metric that reads the stddevs is listed under `REQUIRES_STDDEV`, so each stored value is the metric of the current model | not executed | GPTrainer.SourceTableReportsStaleCalibration | GPTrainer.IntendedTableIsCurrent |

The specification functions `Epoch` and `Run` take the dependency table as a parameter, and every lemma over them that names no table holds for either one. The as-written table is `GPTrainer.SourceDependencies` and the corrected one is `GPTrainer.IntendedDependencies`. The `Trainer` class runs the table as written.
