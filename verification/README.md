# EdgePHM edge node — a Dafny model of the per-tick analytics

This project models the analytics loop of the EdgePHM edge node
(`borda_adaptativa.py`). On every tick the node reads a motor sample (current,
temperature, vibration). It turns the sample into a health index (HI) in [0, 1]
and appends it to the history `hi_hist`. Once 200 readings have arrived it
calibrates a baseline (`mu` = mean, `sigma` = population standard deviation of
the history). From then on it smooths the history exponentially (`suavizar`,
alpha 0.15), feeds the ADWIN drift detector and the TTF regression, and derives
the risk and TTF estimate. It decides the operating state (`estado`: Drift >
Falha > Reparo > Normal), adapts the baseline in Normal and Reparo, and emits a
metrics record. Finally it applies the operator's recalibrate and repair flags.

The model is functional. `EdgeNode.Engine` is an immutable record of the loop's
global state: optional baseline, `estado`, `hi_hist`, `tick`, plus what the
detector and the regression have been fed. `EdgeNode.Step` is one pass of the
`while True` body. Arithmetic is over `real`.

Modules (one file each):

- `Prelude` (prelude.dfy): `Option`, `Min`/`Max`/`Abs`/`Clamp`, `Last`, `AllIn`.
- `HealthIndex` (health_index.dfy): the weighted, clamped index.
- `Smoothing` (smoothing.dfy): `suavizar`, the smoothed value and its derivative.
- `BaselineEstimator` (baseline.dfy): mean, population variance, calibration, the adaptive update.
- `Decision` (decision.dfy): the state decision, risk, TTF and regression target.
- `EdgeNode` (edge_node.dfy): the engine state and one loop iteration (`Step`).
- `EdgeNodeFacts` (edge_node_facts.dfy): properties of one or two iterations.
- `Trace` (trace.dfy): the loop over many iterations, with flags that persist until consumed.

Per-tick inputs stand in for the foreign collaborators:

- the reading is an `Option` (None when the CSV cannot be read);
- the ADWIN flag is a boolean;
- the regression's `predict_one` is an arbitrary real;
- the two flag files are booleans;
- numpy's square root is a function parameter `sqrt`. Lemmas that need it to be
  a square root assume `BaselineEstimator.IsSqrt(sqrt)`.

## Notes on the code's behaviour

The model follows the code in each of these cases.

- Recalibration (`recalibrar_baseline`, lines 66-71) resets the baseline and the
  detector but keeps `hi_hist` and `tick`. The next reading therefore meets the
  condition `mu is None and tick >= 200` as soon as the count of readings allows
  it. When the recalibrating iteration leaves at least 199 readings, the very
  next reading recomputes the baseline from the entire history, and
  Recalibrando lasts one iteration (`EdgeNodeFacts.RecalibrationLastsOneTick`).
  When it leaves fewer, Recalibrando lasts until the 200th reading, like the
  first calibration (`EdgeNodeFacts.RecalibrationWaitsForCount`).
- The smoothed value is recomputed from the full history on every tick.
  `Smoothing.SmoothSnoc` proves this equals the incremental update.
- The repair flag is applied after the recalibrate flag. During calibration it
  sets Reparo while no baseline exists. The state then stays Reparo until
  calibration sets Normal.
- The flags are checked only on iterations that read a sample: an iteration
  without a reading skips them, so a raised flag waits for the next reading
  (`Trace.FlagReachesFirstReading`).
- For current 5, temperature 35 and vibration 0.5 the index is
  1 - (0.2 + 0.105 + 0.015) = 0.68 (`HealthIndex.IndexExample`).

## Model

| member | source | states |
|---|---|---|
| `HealthIndex.Weighted` | borda_adaptativa.py:97 | the unclamped combination is at most 1 for non-negative sensor values, below 1 as soon as one of them is positive, and exactly 1 for an all-zero reading |
| `HealthIndex.Index` | borda_adaptativa.py:97-98 | HI is always in [0, 1]; it equals the weighted combination when that lies in [0, 1], and 0 or 1 when it falls below or above |
| `HealthIndex.IndexAntitone` | borda_adaptativa.py:97-98 | raising current, temperature or vibration (others fixed or raised too) never raises HI |
| `HealthIndex.IndexStrictlyDecreasing` | borda_adaptativa.py:97 | inside the unclamped range, raising any sensor value strictly lowers HI |
| `HealthIndex.IndexExample` | borda_adaptativa.py:97 | current 5, temperature 35, vibration 0.5 give HI = 0.68 |
| `Prelude.Clamp` | borda_adaptativa.py:98 | `max(lo, min(hi, x))` lies in [lo, hi], is `x` inside the range and the nearer bound outside it |
| `Prelude.ClampMonotone` | borda_adaptativa.py:98 | clamping preserves order |
| `Smoothing.Blend` | borda_adaptativa.py:63 | one smoothing step lies between the new sample and the previous smoothed value, and moves 0.15 of the way from the latter to the former |
| `Smoothing.SmoothFrom` | borda_adaptativa.py:61-63 | the smoothing loop extends its accumulator by one value per remaining sample and never rewrites what it has built |
| `Smoothing.Smooth` | borda_adaptativa.py:57-64 | `suavizar` keeps the length, returns the empty history unchanged and starts from the first sample |
| `Smoothing.SmoothIsSmoothing` | borda_adaptativa.py:57-64 | the loop's output satisfies the recurrence s[0] = v[0], s[i] = 0.15 v[i] + 0.85 s[i-1] |
| `Smoothing.SmoothingCharacterised` | borda_adaptativa.py:57-64 | a sequence satisfies that recurrence if and only if it is `suavizar`'s output |
| `Smoothing.SmoothSnoc` | borda_adaptativa.py:57-64 | prefix-consistency: smoothing xs + [x] gives smoothing of xs followed by 0.15 x + 0.85 last(smoothing of xs) |
| `Smoothing.SmoothBounded` | borda_adaptativa.py:61-63 | if every sample lies in [lo, hi], so does every smoothed value |
| `Smoothing.SmoothConstant` | borda_adaptativa.py:57-64 | a constant history smooths to the same constant |
| `Smoothing.Smoothed` | borda_adaptativa.py:115 | `hi_suav` is the only sample of a one-sample history, 0.15 hi + 0.85 (previous smoothed) otherwise, and lies within any bounds every sample respects |
| `Smoothing.Derivative` | borda_adaptativa.py:116 | `hi_deriv` is 0 for a one-sample history and otherwise 0.15 (hi - previous smoothed) |
| `Smoothing.ConstantHasNoTrend` | borda_adaptativa.py:115-116 | for a constant history the smoothed value is that constant and the derivative is 0 |
| `BaselineEstimator.Mean` | borda_adaptativa.py:105 | `np.mean` lies within any bounds every sample respects |
| `BaselineEstimator.PopVariance` | borda_adaptativa.py:106 | the population variance (`np.std` squared) is non-negative and zero for a constant sequence |
| `BaselineEstimator.Calibrate` | borda_adaptativa.py:104-106 | calibrated `mu` is in [0, 1] for a history in [0, 1]; `sigma` >= 0 with `sigma`² equal to the population variance; a constant window gives `sigma` = 0 |
| `BaselineEstimator.CalibrateConstant` | borda_adaptativa.py:105-106 | a constant window c calibrates to `mu` = c, `sigma` = 0 |
| `BaselineEstimator.Adapt` | borda_adaptativa.py:143-145 | new `mu` lies between old `mu` and the smoothed value; because `sigma` uses the updated `mu`, new `sigma` = 0.99 `sigma` + 0.0099 abs(smoothed - old `mu`); `sigma` >= 0 is preserved |
| `BaselineEstimator.AdaptKeepsUnitMean` | borda_adaptativa.py:144 | `mu` stays in [0, 1] when it and the smoothed value are in [0, 1] |
| `Decision.Decide` | borda_adaptativa.py:130-140 | Drift iff the flag is set; Falha iff no drift and smoothed < `mu` - 2 `sigma`; Normal iff no drift and abs(smoothed - `mu`) <= 2 `sigma`; with `sigma` >= 0, Reparo iff no drift and smoothed > `mu` + 2 `sigma`; never a calibration state |
| `Decision.ZeroSigmaThresholds` | borda_adaptativa.py:135-140 | with `sigma` = 0, any value below `mu` is Falha, above is Reparo, and only `mu` itself is Normal |
| `Decision.ThresholdsAreStrict` | borda_adaptativa.py:135-140 | a smoothed value exactly on `mu` +- 2 `sigma` is Normal |
| `Decision.Ttf` | borda_adaptativa.py:124 | `TTF_estimado` >= 1 for any prediction; it is 1 exactly when the prediction is >= 0.999, and otherwise 1000 (1 - prediction) |
| `Decision.TtfAntitone` | borda_adaptativa.py:124 | a larger prediction never yields a larger TTF |
| `Decision.Risk` | borda_adaptativa.py:125 | `risco` is in [0, 100], and equals (1 - smoothed) 100 for a smoothed value in [0, 1] |
| `Decision.Target` | borda_adaptativa.py:120 | the regression target is >= 0, equals 1 - smoothed for smoothed <= 1, and is <= 1 for smoothed >= 0 |
| `Decision.RiskIsScaledTarget` | borda_adaptativa.py:120-125 | for smoothed >= 0 the risk is 100 times the regression target, and risk is non-increasing in the smoothed value |
| `EdgeNode.Assess` | borda_adaptativa.py:104-156 | calibration when no baseline and tick >= 200; metrics iff a baseline existed; drift event iff a baseline existed and the flag is set; nothing but the reading kept while calibrating |
| `EdgeNode.Monitor` | borda_adaptativa.py:110-156 | the detector is fed the raw HI and the regression the sample (smoothed, derivative, target); the state is the decision on the smoothed value; the baseline adapts only in Normal/Reparo (line 143); the record carries the tick, the raw HI, `suavizar`'s last value, the derivative, the TTF of the prediction (>= 1) and the risk of the smoothed value (in [0, 100]), and the state decided |
| `EdgeNode.ApplyCommands` | borda_adaptativa.py:161-168 | recalibrate drops the baseline, resets the detector and sets Recalibrando, keeping history, tick and training; repair then forces Reparo and touches nothing else |
| `EdgeNode.Step` | borda_adaptativa.py:81-170 | no reading: nothing changes and the flags stay pending; a reading consumes both flags, advances the tick and appends HI; metrics are emitted iff a baseline existed, with the new tick, the reading's HI, the smoothed value and derivative of the extended history, the TTF of the prediction (>= 1), the risk of the smoothed value (in [0, 100]) and the state decided before the flags apply |
| `EdgeNodeFacts.InitValid` | borda_adaptativa.py:27-30 | the initial state (no baseline, Calibrando, empty history, tick 0) satisfies the invariant |
| `EdgeNodeFacts.MonitorKeepsRanges` | borda_adaptativa.py:110-145 | the calibrated branch keeps the detector's inputs and the regression's samples in [0, 1], `mu` in [0, 1] and `sigma` >= 0, and reports a smoothed value in [0, 1] |
| `EdgeNodeFacts.StepPreservesValid` | borda_adaptativa.py:87-145 | every iteration keeps history length = tick, all HI in [0, 1], `mu` in [0, 1], `sigma` >= 0, tick >= 200 once calibrated, and no baseline in Calibrando/Recalibrando; emitted HI and smoothed values are in [0, 1] |
| `EdgeNodeFacts.CalibrationCollects` | borda_adaptativa.py:87-104 | while `mu` is None and tick < 200 an iteration only appends HI and increments tick, emitting nothing |
| `EdgeNodeFacts.CalibrationCompletes` | borda_adaptativa.py:104-108 | the first iteration with `mu` None and tick >= 200 sets `mu` to the mean of the whole history, `sigma` >= 0 with `sigma`² the population variance, and Normal, with no record |
| `EdgeNodeFacts.ReportedTrend` | borda_adaptativa.py:115-116 | the reported smoothed value is 0.15 hi + 0.85 (previous smoothed) and the derivative 0.15 (hi - previous smoothed) |
| `EdgeNodeFacts.ConstantInputHasNoTrend` | borda_adaptativa.py:115-116 | a constant history reports that constant as smoothed value and derivative 0 |
| `EdgeNodeFacts.StateDecision` | borda_adaptativa.py:130-140 | once calibrated: Drift iff the flag is set, with a drift event carrying the raw HI; else Falha/Reparo/Normal by strict comparison of the smoothed value with `mu` +- 2 `sigma` |
| `EdgeNodeFacts.BaselineAdaptsOnlyInNormalOrRepair` | borda_adaptativa.py:143-145 | the baseline never returns to None here; it is unchanged in Drift/Falha, adapted in Normal/Reparo (the test `estado in ["Normal", "Reparo"]`), and keeps `sigma` >= 0 |
| `EdgeNodeFacts.RepairOnlySetsMode` | borda_adaptativa.py:165-168 | a repair flag changes only the state (to Reparo) relative to the same iteration without it |
| `EdgeNodeFacts.RecalibrateResetsBaseline` | borda_adaptativa.py:66-71 | a recalibrate flag drops the baseline, resets the detector and sets Recalibrando (Reparo if repair is also set), keeping everything else including history and tick |
| `EdgeNodeFacts.RecalibrationLastsOneTick` | borda_adaptativa.py:66-71 | when the recalibrating iteration leaves at least 199 readings, the next reading recalibrates from the whole history (old history plus both new HIs) and returns to Normal without a record |
| `EdgeNodeFacts.RecalibrationWaitsForCount` | borda_adaptativa.py:66-71 | when the recalibrating iteration leaves fewer than 199 readings, the next reading keeps Recalibrando, no baseline and no record |
| `Trace.Raise` | borda_adaptativa.py:161-168 | a flag file persists until consumed: each flag is up exactly when it was pending or has been raised, so no flag comes up that nobody raised; raising nothing keeps the pending flags, and raising onto nothing pending gives the raised ones |
| `Trace.Run` | borda_adaptativa.py:81-170 | after any sequence of iterations the history is the old one plus the HI of every iteration that had a reading, the tick grew by that count, the flags still pending are those raised since the last reading, and there are no more drift events than metrics records, nor more records than readings |
| `Trace.RunPreservesValid` | borda_adaptativa.py:81-170 | the invariant holds after any number of iterations |
| `Trace.RunUnfolds` | borda_adaptativa.py:81-170 | iteration j of the loop is one pass of the body from the state the first j iterations left, handed the flags pending from them together with those raised since |
| `Trace.FlagReachesFirstReading` | borda_adaptativa.py:83-168 | a flag raised once reaches a later iteration exactly when no iteration in between read a sample: iterations without a reading skip the flag checks, the first one with a reading consumes it |
| `Trace.FlagAppliedOnce` | borda_adaptativa.py:161-168 | a flag raised once is handed to no iteration with a reading after the first one: each command is applied exactly once |
| `Trace.PlainStepWhileCalibrating` | borda_adaptativa.py:87-108 | with no baseline and fewer than 200 readings, a plain reading is recorded without any record, and the baseline is calibrated from the extended history exactly when the count reaches 200 |
| `Trace.FirstCalibration` | borda_adaptativa.py:87-108 | from the initial state, the first 199 plain readings leave Calibrando with no baseline and no records; the 200th calibrates from exactly those 200 HIs and enters Normal |

## Left out

- ADWIN (`drift.ADWIN`, lines 23, 70, 112, 130) is a foreign library. Its flag is a per-tick boolean input. Its state is represented only by the values fed to it since its last reset (`detectorFeed`).
- The TTF regression (`LinearRegression` with SGD, lines 25, 121, 124) and the unused `StandardScaler` (line 24) are foreign. `predict_one` is a per-tick real input. Training is represented by the list of samples handed to `learn_one`.
- numpy's square root inside `np.std` is a function parameter. `IsSqrt` states what the lemmas assume of it.
- BaselineEstimator.Calibrate: states `sigma`² equals the population variance rather than `sigma` = `np.std`, because the model has no square root of its own. It proves a constant window gives `sigma` = 0, not the converse.
- I/O is not modelled: reading the CSV (`ler_simulador`), writing the metrics and drift files, timestamps, `round`, `print` and `time.sleep` (lines 35-55, 147-170). The metrics record and drift event are returned values, without timestamp or rounding.
- A failing `float(...)` conversion of a CSV column (lines 92-94) would abort the loop. It is not modelled; readings are taken as numbers.
- `ler_simulador` returns the last CSV row whether or not it is new, so one sample may be processed on several ticks. The model processes whatever reading it is given.
- Flag files are modelled as booleans: existence is the flag, deletion is consuming it.
- Floating-point rounding and NaN are not modelled; all arithmetic is exact over `real`.
- The dashboard (`painel_edgephm.py`) is UI and plotting. The simulator (`simulador_fisico_drift.py`) is a random process writing a CSV. Neither is part of this model.
