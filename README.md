# Emergency-siren detector: temporal decision logic

This project models the last stage of the emergency-vehicle siren detector in
`Paper-3/em_detection.py`. That stage turns the classifier's per-frame
probabilities into one clip-level verdict in two steps:

- `predict_probability` is a sliding-window smoother. It fills a window with
  the first `N` scores and labels it 1 when the window mean is strictly above
  `th`, else 0. For every later score it evicts the oldest entry (`pop(0)`),
  appends the new score and labels the new window the same way.
- `predict_output` labels the clip 1 when the mean of those 0/1 labels is
  strictly above 0.5, else 0.

The classifier is opaque. Its per-frame scores are the input `scores: seq<real>`.
`N` and `th` are parameters; the source fixes them at 10 and 0.5. Scores and
means are exact reals, so a mean that lands exactly on `th` is decided in exact
arithmetic, and the strict `>` sends it to 0.

Layout:

- `window_stats.dfy` (module `WindowStats`): sums and means of score windows, the
  sum of a label list, and the arithmetic lemmas the decision logic uses.
- `em_detection.dfy` (module `EmDetection`): the labels, the smoothing method,
  the vote, the clip-level method, and the properties proved about them.

`PredictProbability` is a method with the source's two loops. The window is a
local `seq<real>` that the second loop shortens by one (`pop(0)`) and then
extends by one (`append`). Loop invariants tie that window to `Replay`, the
pop/append history written as a function. They also tie the labels built so far
to the reference definition `Labels`, in which label `k` is the label of
`scores[k..k+N]`.

When the scores are fewer than `N`, the source's index into the score list in
the fill loop goes out of range and raises an exception. The model returns
`Failure(ScoreIndexOutOfRange)` at the same point, and `PredictOutput`
propagates it.

## Model

| member | source | states |
|---|---|---|
| `EmDetection.PredictProbability` | Paper-3/em_detection.py:209-249 | fails exactly when there are fewer than `N` scores; otherwise returns exactly the reference labels, so label `k` is the label of `scores[k..k+N]` |
| `EmDetection.Label` | Paper-3/em_detection.py:228-233 | one window gives a label that is 0 or 1 |
| `EmDetection.LabelsMeaning` | Paper-3/em_detection.py:221-249 | with at least `N` scores there are exactly `len(scores) - N + 1` labels, so at least one; each label is 0 or 1; label `k` is 1 iff `Sum(scores[k..k+N]) > th * N`; a window whose mean equals `th` gets 0 |
| `EmDetection.Replay` | Paper-3/em_detection.py:221-239 | the window holds exactly `N` scores after the fill and after every pop/append pair |
| `EmDetection.ReplayIsLastN` | Paper-3/em_detection.py:235-239 | FIFO eviction: after reading `scores[..i]` the window is exactly `scores[i-N..i]` |
| `WindowStats.MeanVersusThreshold` | Paper-3/em_detection.py:240-242 | the window mean is above `th` iff the sum is above `th * len`, and equals `th` iff the sum equals `th * len` |
| `EmDetection.Vote` | Paper-3/em_detection.py:256-259 | the clip label is 0 or 1; it is 1 iff the label list is non-empty and twice its sum exceeds its length (an empty list's NaN mean gives 0) |
| `EmDetection.HalfVersusMean` | Paper-3/em_detection.py:256 | a mean of integer labels is above 0.5 iff twice their sum exceeds their count |
| `WindowStats.LabelSumCountsOnes` | Paper-3/em_detection.py:256 | for 0/1 labels the sum of the labels is the number of 1s |
| `EmDetection.MajorityVote` | Paper-3/em_detection.py:256-259 | on 0/1 labels the clip label is 1 iff strictly more than half the labels are 1; exactly half gives 0 |
| `EmDetection.PredictOutput` | Paper-3/em_detection.py:253-259 | fails exactly when there are fewer than `N` scores; otherwise returns the vote over the reference labels, which is 1 iff strictly more than half of the `len(scores) - N + 1` labels are 1 |
| `EmDetection.AtMostThresholdIsNonEmergency` | Paper-3/em_detection.py:221-259 | if no score exceeds `th` (for example a constant stream exactly at `th`), every label is 0 and the clip is 0 |
| `EmDetection.AboveThresholdIsEmergency` | Paper-3/em_detection.py:221-259 | if every score is strictly above `th`, every label is 1 and the clip is 1 |
| `EmDetection.AllOnesVote` | Paper-3/em_detection.py:256-259 | a non-empty list of 1 labels sums to its length and votes 1 |
| `EmDetection.FadeOutScenario` | Paper-3/em_detection.py:209-259 | ten scores of 0.9 then ten of 0.1, with `N = 10` and `th = 0.5`, give labels `[1,1,1,1,1,0,0,0,0,0,0]` and clip label 0. The sixth window's mean is exactly 0.5, so that label is 0 |
| `WindowStats.SumConcat` | Paper-3/em_detection.py:240 | the sum of two joined windows is the sum of their sums |
| `WindowStats.SumConst` | Paper-3/em_detection.py:240 | a window of one repeated score `c` sums to `c * len` |
| `WindowStats.SumAtMost` | Paper-3/em_detection.py:240 | a window whose scores are all at most `c` sums to at most `c * len` |
| `WindowStats.SumAbove` | Paper-3/em_detection.py:240 | a non-empty window whose scores are all above `c` sums to more than `c * len` |

## Left out

- Band-pass filtering (`butter_bandpass_filter`) and envelope extraction (`preprocess`): floating-point signal processing delegated to scipy, whose code is not part of this model.
- Feature extraction and framing (`audioFeatureExtraction.stFeatureExtraction`, `extract_mfccs`): a foreign library and a function not defined in the shown code. The mismatch between the 34-wide training features and the `reshape(1,12)` at prediction time is therefore not modelled.
- The classifier (`build_model`, `run_model`, `load_model`, `model.predict`): Keras internals. Its scores are the input sequence of the model, and no range such as [0,1] is assumed for them.
- Scaling and shuffling (`prepare_data_train`, `prepare_data_test`), and the `scaler.transform` call in `predict_probability`, whose result is discarded: they have no effect on the decision logic.
- File globbing, audio loading, plotting, confusion matrices and metric printing in `main` and `clip_level_prediction`: I/O and reporting only.
- Floating-point rounding of `np.mean`: scores and means are exact reals.
- `N` is required to be at least 1. The source always uses 10; with 0 it would raise on the first `pop(0)`.
