# Praecor vital-sign pipeline in Dafny

This project models the estimation core of the Praecor sepsis-monitoring
demo and proves properties of that model. The core samples heart rate (HR)
and mean arterial pressure (MAP) one at a time. It smooths each channel
with a scalar Kalman filter, and it estimates the HR trend as an
ordinary-least-squares (OLS) slope over a sliding window. A two-hypothesis
Bayes engine fuses the two filtered channels into a sepsis risk, and the
architecture page classifies every processed sample as CRITICAL, WARNING or
STABLE. A second, simpler simulator hook keeps a bounded heart-rate history,
appends one sample per tick, and applies a three-sample-mean drift rule.

The arithmetic uses exact `real` numbers. Each stateful object of the source
is a Dafny class whose methods update fields in place:

* `KalmanFilter`, with an explicit `Uninitialized | Tracking(x, cov)` state
  in place of the source's NaN sentinel;
* `DriftDetector`, whose window is pushed and then shifted on overflow;
* `VitalSimulator`, the state of the hook;
* `ArchitecturePipeline`, the state of the page.

The methods of the four stages are proved against pure specification
functions: `Step`, `Slide`, `Slope`, `Append`, `AppendLog` and
`CalculateRisk`; `Reset` is specified with `SeedHistory`, and the remaining
methods state their new or returned state directly.  The lemmas then prove
properties of those functions.

Modules and files:

| file | module | models |
|---|---|---|
| `reals.dfy` | `Reals` | absolute value and small lemmas of ordered-field arithmetic |
| `seqs.dfy` | `Seqs` | JavaScript's `arr.slice(-k)`, used for the history, the analysis window and the log |
| `kalman.dfy` | `Kalman` | `KalmanFilter` in app/lib/algorithms.ts |
| `drift.dfy` | `Drift` | `DriftDetector` in app/lib/algorithms.ts |
| `risk.dfy` | `Risk` | `BayesianNetwork.calculateRisk` in app/lib/algorithms.ts |
| `simulator.dfy` | `Simulator` | the tick, the history and the analysis in app/hooks/useVitalSimulator.ts |
| `architecture.dfy` | `Architecture` | the pipeline effect, the status flags and the log in app/architecture/page.tsx |

The filter's covariance update is written `predCov - K*C*predCov`, as in
the source; `Kalman.GainShrinks` proves that it equals `predCov*(1 - K*C)`.

## Model

| member | source | states |
|---|---|---|
| `Seqs.Last` | app/hooks/useVitalSimulator.ts:74 | `slice(-k)` for k ≥ 1: the last k elements in order, or all of them when there are fewer |
| `Seqs.AppendThenLast` | app/hooks/useVitalSimulator.ts:74 | appending and keeping the last k gives at most k elements, the new one last, preceded by the last k-1 old ones in order |
| `Kalman.PredictCov` | app/lib/algorithms.ts:27 | the predicted covariance A*cov*A + Q is at least Q for a non-negative covariance |
| `Kalman.PredictX` | app/lib/algorithms.ts:26 | the predicted estimate A·x + B·u; with A = 1, B = 0, C = 1 it is the previous estimate |
| `Kalman.Innovation` | app/lib/algorithms.ts:30 | the gain's denominator C*predCov*C + R equals C²·predCov + R and is at least R > 0, so the division is defined |
| `Kalman.Gain` | app/lib/algorithms.ts:30 | the gain predCov·C·(1/(C·predCov·C + R)), defined for every valid configuration; `Kalman.GainShrinks` proves K·C in [0, 1) |
| `Kalman.UpdateCov` | app/lib/algorithms.ts:32 | the updated covariance predCov - K*C*predCov lies in [0, predCov] |
| `Kalman.Step` | app/lib/algorithms.ts:20-33 | one `filter` call always leaves the filter tracking with a non-negative covariance |
| `Kalman.NextCov` | app/lib/algorithms.ts:26-32 | the next covariance of a tracking filter does not depend on the estimate, the measurement or the control input |
| `Kalman.Run` | app/lib/algorithms.ts:20-35 | feeding a sequence of measurements keeps the covariance non-negative, and any non-empty sequence leaves the filter tracking |
| `Kalman.CovAfter` | app/lib/algorithms.ts:21-32 | the covariance after k calls from a fresh filter is non-negative |
| `Kalman.FirstCall` | app/lib/algorithms.ts:21-23 | the first call sets the estimate to z/C and the covariance to R/C² |
| `Kalman.LaterCall` | app/lib/algorithms.ts:26-32 | a later call predicts A·x + B·u and A²·cov + Q, then corrects with K = predCov·C/(C²·predCov + R), giving estimate predX + K(z - C·predX) and covariance predCov - K·C·predCov |
| `Kalman.GainShrinks` | app/lib/algorithms.ts:30-32 | K·C lies in [0, 1), and predCov - K·C·predCov equals predCov·(1 - K·C) |
| `Kalman.UpdateCovClosedForm` | app/lib/algorithms.ts:30-32 | the updated covariance equals predCov·R/(C²·predCov + R) |
| `Kalman.EstimateMovesTowardMeasurement` | app/lib/algorithms.ts:26-31 | with A=1, B=0, C=1 the new estimate lies between the old estimate and z, and is no farther from z |
| `Kalman.NextCovMonotone` | app/lib/algorithms.ts:27-32 | a larger covariance never yields a smaller next covariance |
| `Kalman.UpdateCovMonotone` | app/lib/algorithms.ts:30-32 | the update step is monotone in the predicted covariance |
| `Kalman.ClosedFormMonotone` | app/lib/algorithms.ts:32 | the closed form P·R/(C²·P + R) is monotone in P |
| `Kalman.ShrinkBelowLimit` | app/lib/algorithms.ts:32 | the updated covariance never exceeds R/C² |
| `Kalman.SecondCallShrinks` | app/lib/algorithms.ts:21-32 | the second call's covariance is at most the first call's R/C² |
| `Kalman.CovarianceNonIncreasing` | app/lib/algorithms.ts:21-32 | from a fresh filter the covariance never increases from one call to the next |
| `Kalman.RunCovariance` | app/lib/algorithms.ts:20-35 | after k calls and then a sequence zs, the covariance is the one after k+\|zs\| calls, whatever the measurements |
| `Kalman.RunCovarianceNonIncreasing` | app/lib/algorithms.ts:20-35 | one more measurement never increases the covariance of a fresh filter fed a sequence |
| `Kalman.ConstantInputHeld` | app/lib/algorithms.ts:26-31 | with A=1, B=0, C=1, a filter fed a constant z (starting fresh or at z) keeps its estimate exactly at z |
| `Kalman.KalmanFilter.constructor` | app/lib/algorithms.ts:10-18 | a new filter stores its five parameters and has no estimate yet |
| `Kalman.KalmanFilter.Filter` | app/lib/algorithms.ts:20-35 | the new state is `Step` of the old state, and the returned value is the stored estimate |
| `Kalman.KalmanFilter.GetUncertainty` | app/lib/algorithms.ts:37-39 | returns the stored covariance and changes nothing; there is no value before the first call |
| `Drift.Slide` | app/lib/algorithms.ts:95-98 | push then shift on overflow: the length grows by one up to windowSize, and the result is the tail of window + [value] |
| `Drift.SlideIsFifo` | app/lib/algorithms.ts:95-98 | the window stays within its size, the new value is last, nothing is evicted below capacity, and only the oldest value is evicted at capacity |
| `Drift.Accumulate` | app/lib/algorithms.ts:111-116 | the four running sums of the loop, position by position; `Drift.AccumulateIndexSums` and `Drift.AccumulateLine` give their closed forms |
| `Drift.Slope` | app/lib/algorithms.ts:103-118 | the least-squares slope of the window against the indices 0..n-1, 0 below two points; `Drift.WindowDenominatorPositive` shows it never divides by zero, `Drift.LinearWindowSlope` that it recovers m from any line |
| `Drift.AccumulateIndexSums` | app/lib/algorithms.ts:111-115 | the running Σi and Σi² depend only on n: n(n-1)/2 and n(n-1)(2n-1)/6 |
| `Drift.DenominatorClosed` | app/lib/algorithms.ts:118 | 12·(n·Σi² - (Σi)²) = n²(n²-1), which is positive for n ≥ 2 |
| `Drift.WindowDenominatorPositive` | app/lib/algorithms.ts:118 | from two points on, the slope's denominator is positive |
| `Drift.AccumulateLine` | app/lib/algorithms.ts:111-116 | the running sums of a line m·i + b are m·Σi + n·b and m·Σi² + b·Σi |
| `Drift.LineSlopeAlgebra` | app/lib/algorithms.ts:118 | the slope formula applied to the sums of a line gives m |
| `Drift.LinearWindowSlope` | app/lib/algorithms.ts:103-118 | any window of n ≥ 2 values with y_i = m·i + b at every position i has slope exactly m |
| `Drift.FiveRisingPoints` | app/lib/algorithms.ts:94-119 | a detector of size 5 fed 1, 2, 3, 4, 5 holds exactly those values and reports slope 1 |
| `Drift.ShortWindowFlat` | app/lib/algorithms.ts:103 | fewer than two points give slope 0 |
| `Drift.DriftDetector.constructor` | app/lib/algorithms.ts:89-92 | a new detector has an empty window of the given size |
| `Drift.DriftDetector.AddPoint` | app/lib/algorithms.ts:94-100 | the new window is `Slide` of the old one and stays within its size, and the returned value is that window's `Slope` |
| `Drift.DriftDetector.CalculateSlope` | app/lib/algorithms.ts:102-120 | the loop of running sums returns `Slope(window)`, which is 0 below two points and never divides by zero |
| `Risk.Clamp01` | app/lib/algorithms.ts:77 | the result lies in [0, 1]; it equals the input inside the interval, 0 below it and 1 above it |
| `Risk.ChannelLikelihoods` | app/lib/algorithms.ts:59-64 | all four per-channel likelihoods are probabilities strictly between 0 and 1 |
| `Risk.Combine` | app/lib/algorithms.ts:67-68 | the joint likelihoods of probabilities are strictly between 0 and 1 |
| `Risk.Evidence` | app/lib/algorithms.ts:71 | p_data = L_s·p + L_h·(1-p); `Risk.EvidencePositive` and `Risk.FuseIsBayes` prove it positive for the likelihoods the engine computes |
| `Risk.Posterior` | app/lib/algorithms.ts:71-77 | the guarded, clamped posterior lies in [0, 1], and is 0 when the evidence is 0 |
| `Risk.Fuse` | app/lib/algorithms.ts:71-77 | the posterior under the 0.10 prior is a probability |
| `Risk.CalculateRisk` | app/lib/algorithms.ts:54-78 | the risk is always in [0, 1] |
| `Risk.PosteriorIsBayes` | app/lib/algorithms.ts:71-77 | with non-negative likelihoods and non-zero evidence, the clamp is inactive and the posterior is exactly L_s·p / (L_s·p + L_h·(1-p)) |
| `Risk.PosteriorOfUninformativeEvidence` | app/lib/algorithms.ts:71-77 | equal likelihoods under both hypotheses return the prior |
| `Risk.PosteriorMonotone` | app/lib/algorithms.ts:71-77 | a larger sepsis likelihood and a smaller healthy likelihood never lower the posterior |
| `Risk.PosteriorAgainstPrior` | app/lib/algorithms.ts:71-77 | evidence favouring health (L_s ≤ L_h) gives risk at most the prior; evidence favouring sepsis gives at least the prior |
| `Risk.FuseIsBayes` | app/lib/algorithms.ts:67-77 | for joint likelihoods in (0, 1) the evidence is positive, and the risk is Bayes' rule, strictly inside (0, 1) |
| `Risk.FuseMonotone` | app/lib/algorithms.ts:71-77 | the fused risk is monotone in the sepsis likelihood and antitone in the healthy likelihood |
| `Risk.CombineMonotone` | app/lib/algorithms.ts:67-68 | stronger per-channel sepsis evidence and weaker healthy evidence give a larger L_s and a smaller L_h |
| `Risk.RiskIsBayes` | app/lib/algorithms.ts:54-78 | `calculateRisk` never takes its zero-evidence branch; its result is Bayes' rule itself, strictly between 0 and 1 |
| `Risk.RiskMonotoneInHeartRate` | app/lib/algorithms.ts:54-78 | with an increasing logistic, a higher HR never lowers the risk |
| `Risk.RiskAntitoneInMap` | app/lib/algorithms.ts:54-78 | with an increasing logistic, a higher MAP never raises the risk |
| `Simulator.CurrentHR` | app/hooks/useVitalSimulator.ts:87 | the newest sample's heart rate, or 75 with no history |
| `Simulator.SumHR` | app/hooks/useVitalSimulator.ts:94-95 | the `reduce` summing heart rates from the left; `Simulator.SumOfThree` gives its value on three samples |
| `Simulator.Analyze` | app/hooks/useVitalSimulator.ts:90-106 | below 10 samples: slope 0, not drifting, NORMAL; drifting exactly when there are at least 10 samples and the slope exceeds 4 |
| `Simulator.AnalysisSlope` | app/hooks/useVitalSimulator.ts:93-97 | with at least 10 samples, the slope is the mean of the 3 newest samples minus the mean of the oldest 3 of the last 10, in history indices |
| `Simulator.StatusPriority` | app/hooks/useVitalSimulator.ts:99-103 | with at least 10 samples: CRITICAL_FAILURE exactly when HR ≥ 100 (drift or not), DRIFT_WARNING exactly when drifting and not critical, NORMAL otherwise; below 10 samples the status is NORMAL whatever the heart rate (`Simulator.Analyze`) |
| `Simulator.SteadyRiseSlope` | app/hooks/useVitalSimulator.ts:93-97 | a history whose last ten samples rise by d per sample has slope 7d, whatever precedes them |
| `Simulator.SteadyClimbDrifts` | app/hooks/useVitalSimulator.ts:93-98 | a history whose last ten samples climb by 1 per sample is flagged as drifting |
| `Simulator.FlatHistoryNotDrifting` | app/hooks/useVitalSimulator.ts:91-98 | a history whose last ten samples are flat has slope 0 and is never drifting |
| `Simulator.SeededClimbDrifts` | app/hooks/useVitalSimulator.ts:28-32 | scenario B after a reset: any seed samples followed by ten or more samples climbing by 1 each, as line 61 produces without noise, are flagged as drifting |
| `Simulator.Round` | app/hooks/useVitalSimulator.ts:65 | `Math.round`: an integer within half a unit, with halves rounded up |
| `Simulator.RoundTenth` | app/hooks/useVitalSimulator.ts:65 | rounding to one decimal moves the value by at most 0.05 |
| `Simulator.BaseHR` | app/hooks/useVitalSimulator.ts:55-61 | the noise-free heart rate: 75 in scenario A, 75 + t in scenario B |
| `Simulator.Noise` | app/hooks/useVitalSimulator.ts:58-63 | the noise lies in [-3, 3) in scenario A and in [-2, 2) in scenario B |
| `Simulator.NewHeartRate` | app/hooks/useVitalSimulator.ts:55-65 | the new sample lies within 3.05 of 75 in scenario A, and within 2.05 of 75 + t in scenario B |
| `Simulator.SeedSample` | app/hooks/useVitalSimulator.ts:28-32 | a seed sample's heart rate lies in [74, 76), and its trend is 0 |
| `Simulator.SeedHistory` | app/hooks/useVitalSimulator.ts:28-32 | one seed sample per random draw, in order |
| `Simulator.Append` | app/hooks/useVitalSimulator.ts:74 | the history keeps at most 30 samples, the new one last, after the 29 newest old ones in order |
| `Simulator.SeededHistoryNormal` | app/hooks/useVitalSimulator.ts:28-34 | a freshly seeded history is long enough to analyse, its slope lies in (-2, 2), and its status is NORMAL |
| `Simulator.VitalSimulator.constructor` | app/hooks/useVitalSimulator.ts:16-22 | empty history, not running, scenario A, both counters 0 |
| `Simulator.VitalSimulator.Reset` | app/hooks/useVitalSimulator.ts:24-35 | stops, zeroes both counters and installs the 20 seed samples |
| `Simulator.VitalSimulator.SetRunning` | app/hooks/useVitalSimulator.ts:17 | sets only the running flag |
| `Simulator.VitalSimulator.SetScenario` | app/hooks/useVitalSimulator.ts:18 | sets only the scenario |
| `Simulator.VitalSimulator.Tick` | app/hooks/useVitalSimulator.ts:45-79 | the counter always advances; at 30 it stops, shows 30 and appends nothing; before that it appends one rounded sample, keeping the 30 newest, and shows the counter |
| `Architecture.IsCritical` | app/architecture/page.tsx:99 | critical: risk above 0.8 |
| `Architecture.IsDriftDetected` | app/architecture/page.tsx:100 | drift: slope above 0.3 in absolute value |
| `Architecture.IsWarning` | app/architecture/page.tsx:101 | warning: risk above 0.4 or drift, and not critical |
| `Architecture.IsStable` | app/architecture/page.tsx:102 | stable: neither critical nor warning; `Architecture.ExactlyOneStatus` shows the three flags partition every state |
| `Architecture.Classify` | app/architecture/page.tsx:172-216 | the banner is CRITICAL exactly when risk > 0.8, WARNING exactly when the warning flag holds, STABLE exactly when the stable flag holds |
| `Architecture.ExactlyOneStatus` | app/architecture/page.tsx:99-102 | exactly one of the critical, warning and stable flags holds |
| `Architecture.StableMeansQuiet` | app/architecture/page.tsx:99-102 | stable exactly when risk ≤ 0.4 and \|slope\| ≤ 0.3 |
| `Architecture.Tag` | app/architecture/page.tsx:143-145 | a log line is an alert exactly when risk > 0.8; otherwise it reports drift exactly when \|slope\| > 0.3, and HIGH exactly when risk > 0.5 |
| `Architecture.TagAgreesWithStatus` | app/architecture/page.tsx:143-145 | a risk-reading line is never critical, and a drift report or a HIGH reading is always a warning |
| `Architecture.AppendLog` | app/architecture/page.tsx:148 | the log keeps at most 9 lines: the previous last 8, then the new line |
| `Architecture.AppendLogKeepsNewest` | app/architecture/page.tsx:148 | below 9 lines nothing is dropped; beyond that only the oldest lines are dropped |
| `Architecture.FirstSamplePassesThrough` | app/architecture/page.tsx:122-128 | the first sample through fresh default filters comes out unchanged, and gives slope 0 |
| `Architecture.ArchitecturePipeline.CurrentData` | app/architecture/page.tsx:88 | the stable scenario's samples when the stable scenario is selected, the sepsis scenario's otherwise |
| `Architecture.ArchitecturePipeline.RawPoint` | app/architecture/page.tsx:88-89 | `currentData[currentIndex % length]` is always a sample of the scenario |
| `Architecture.ArchitecturePipeline.constructor` | app/architecture/page.tsx:80-85 | both filters are built fresh with R=1, Q=1, A=1, B=0, C=1, and the detector with window 10 |
| `Architecture.ArchitecturePipeline.Process` | app/architecture/page.tsx:116-150 | HR and MAP each step their own filter; the filtered HR (not the raw one) feeds the detector; both filtered values feed the risk, which is in [0, 1]; the log gains one line |
| `Architecture.ArchitecturePipeline.Advance` | app/architecture/page.tsx:108-110 | the index advances modulo the scenario length, so it stays a valid index |
| `Architecture.ArchitecturePipeline.TogglePlaying` | app/architecture/page.tsx:244 | the play button flips only the playing flag |
| `Architecture.ArchitecturePipeline.ScenarioChange` | app/architecture/page.tsx:153-159 | pauses, switches scenario, rewinds to 0 and clears the log; the filters and the detector keep their state |

## Left out

- The constructors do not validate their configuration, and non-finite samples are not rejected: the model has no NaN or infinity to reject.
- `Math.exp` inside `sigmoid` (app/lib/algorithms.ts:80-82) is not modelled. The logistic is a parameter: any function with results strictly between 0 and 1. The monotonicity lemmas also require it to be increasing, as the real logistic is.
- IEEE-754 behaviour is not modelled: rounding, overflow, underflow and NaN propagation. The model uses exact reals. As a consequence, the zero-evidence branch of `calculateRisk` is unreachable in the model (`Risk.RiskIsBayes`). It can be reached in floating point when both likelihoods underflow. `Risk.Posterior` keeps the guard and proves it separately.
- Kalman.KalmanFilter.constructor: requires R > 0, Q ≥ 0 and C ≠ 0, which the source does not check. R > 0 and Q ≥ 0 keep predCov ≥ 0 and the denominator C²·predCov + R positive in every state. With C = 0 the first call divides by zero. With R ≤ 0 or Q < 0 the denominator can reach 0, for instance on the second call with R = Q = 0, or with R = 1, Q = −2, A = 1, C = 1. Every filter the source builds uses R=1, Q=1, C=1.
- Kalman.KalmanFilter.GetUncertainty: returns no value before the first call, where the source returns NaN.
- Drift.DriftDetector.constructor: takes a natural window size; negative or fractional sizes are not modelled.
- `Math.random` is replaced by its result in [0, 1). The draws are a parameter: of `Simulator.VitalSimulator.Tick`, and of `Simulator.VitalSimulator.Reset` (20 draws).
- Timestamps (`Date`, `toLocaleTimeString`, `toISOString`) and the `trend` field's meaning are not modelled. `trend` is always 0.
- Log text is not modelled: the `toFixed` number formatting and the string assembly. A log line is the processed state plus its tag (alert, drift report, risk level).
- React scheduling is left to the caller:
  - when the processing effect re-runs;
  - `setInterval` and `setTimeout` timing;
  - the asynchronous application of state setters.

  Each method is one callback, run to completion.
- Simulator.VitalSimulator.Tick: requires that the simulator is running, because the interval exists only while it runs.
- Architecture.ArchitecturePipeline.Advance: requires that the page is playing, for the same reason.
- `dataRef` in the hook always holds the same list as the history, so it is not a separate field.
- The node animation state (`activeNode`, `hoveredNode`, `scrollRef`) and all rendering are not modelled.
- The scenario generators in app/data/patient_scenarios.ts (`seededNoise`, `Math.sin`) are not part of this model. The two scenarios are constructor parameters with the generated lengths, 60 and 40. Only their HR and MAP fields are kept; `timestamp` and `o2` are not read by the pipeline.
- The `priors` map of `BayesianNetwork` is the constant `Risk.SepsisPrior` (0.10).
- The risk scenarios "healthy-like inputs give risk below 0.1" and "clearly adverse inputs give risk above 0.8" depend on the values of `Math.exp`. They are not proved. `Risk.PosteriorAgainstPrior` proves the part that does not depend on them: evidence favouring health keeps the risk at or below the prior 0.10.
