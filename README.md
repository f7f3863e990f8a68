# TrustScore scoring and tree export, modelled in Dafny

TrustScore is a demo that rates a tenant with a score from 300 to 900.
The score comes from four inputs: payment streak in months, average
payment delay in days, a utility-bill consistency percentage, and a
LinkedIn check. This project models the two parts of the repository that
contain real logic.

- **Browser scoring (script.js).** The page builds the feature vector
  `[streak, delay, utility/100, linkedin ? 1 : 0]`. It adds up the linear
  score from the intercept, one coefficient at a time. It applies
  `Math.round` and then clamps the result to 300..900. `updateRiskUI`
  then picks a tier: Low Risk from 750 up, High Risk below 600, Medium
  Risk otherwise. The page state that `loadModel`, `updateSimulation` and
  the input listeners change is the class `Scoring.Dashboard`. The result
  of `fetch('model.json')` is a parameter. A failed fetch installs the
  fallback weights and attaches no listeners. A successful fetch installs
  `data.weights`, which is absent in a document without a `weights` entry,
  and attaches the listeners.
- **Training-side export (train-rf.py, train-xgb.py).** Each script draws
  labels in the 300..900 band; the random draws are parameters
  (`Synthetic.Sample`). The shared `recurse` turns sklearn's parallel-array
  tree encoding into a nested `Leaf`/`Split` tree (`SklearnTree.Export`).
  The scripts then assemble the forest document and the gradient-boosting
  document.

The score before rounding, the coefficients, the thresholds and the
training formula before truncation are `real`; the rounded page score and
the training labels are integers. `Math.round(x)` is `(x + 0.5).Floor`
and Python's `int(x)` truncates toward zero (`Synthetic.PyInt`).
JavaScript's `NaN` appears when the weights have fewer than four
coefficients. It is modelled as `None`/`Shown.NaN`, and its tier is Medium
Risk, since both comparisons in `updateRiskUI` fail on `NaN`.

Three facts about the code shape the model:

- Only the browser scores, and it only uses linear weights read from
  `data.weights` in `model.json` (script.js:28-32). training_script.py
  writes that shape (training_script.py:53-56). train-linear.py writes a
  top-level `intercept`/`coefficients` document to `model_linear.json`
  (train-linear.py:24-30), a file the page never fetches. If a document of
  that shape were served as `model.json`, `modelWeights` would be undefined
  and nothing would be scored. No code in the repository evaluates the
  exported trees, so the model has no tree evaluator.
- The code rounds before it clamps (script.js:79).
  `Scoring.RoundThenClampIsClampThenRound` shows that clamping first gives
  the same integer.
- Nothing checks the number of coefficients. A missing coefficient makes
  the score `NaN`, and the page shows `NaN` with Medium Risk.

The model also shows a quirk of the train-rf.py labels. The 1.5 delay
multiplier for streaks under 3 also enlarges the bonus of early payers, who
have a negative delay. So going from a 2-month to a 3-month streak drops the
label from 610 to 590 (`ForestExport.EarlyPayerStreakInversion`). For
delays of zero or more, a longer streak never lowers the label.

## Model

| member | source | states |
|---|---|---|
| `ScoreRange.Clamp` | script.js:79 | the result is always in 300..900; a value already in range is unchanged, one below becomes 300, one above becomes 900 |
| `ScoreRange.ClampMonotone` | script.js:79 | clamping never reverses the order of two scores |
| `ScoreRange.ClampIdempotent` | script.js:79 | clamping a clamped score changes nothing |
| `Scoring.FallbackWeights` | script.js:47-50 | the fallback weights have intercept 500 and four coefficients |
| `Scoring.Features` | script.js:65-70 | the vector has exactly 4 entries: streak, delay, a utility entry equal to the slider value divided by 100 (within 0..1 for a slider in 0..100), and a LinkedIn entry that is 0 or 1, 1 exactly when checked |
| `Scoring.LinearScore` | script.js:73-76 | the loop's result is the intercept plus each feature times its coefficient, accumulated in index order; it is `NaN` exactly when some feature has no coefficient |
| `Scoring.FourFeatureScore` | script.js:65-76 | with four coefficients, the score is intercept + streak·c0 + delay·c1 + (utility/100)·c2 + (c3 if LinkedIn is checked) |
| `Scoring.MissingCoefficientIsNaN` | script.js:74-75 | weights with fewer than four coefficients produce `NaN` |
| `Scoring.Round` | script.js:79 | `Math.round` gives the integer within half a unit of its argument, halves going up |
| `Scoring.FinalScore` | script.js:79 | rounding then clamping always gives 300..900, and stays within half a unit of the raw score when the raw score is inside the band |
| `Scoring.Display` | script.js:79 | the clamped value is `NaN` exactly when the raw score is, and otherwise in 300..900 |
| `Scoring.RoundedInRangeUnchanged` | script.js:79 | an integer score in 300..900 passes through rounding and clamping unchanged |
| `Scoring.RoundThenClampIsClampThenRound` | script.js:79 | rounding before clamping gives the same score as clamping before rounding |
| `Scoring.FinalScoreMonotone` | script.js:79 | a higher raw score never gives a lower displayed score |
| `Scoring.Tier` | script.js:86-99 | Low Risk iff score ≥ 750, High Risk iff score < 600, Medium Risk iff 600 ≤ score < 750 (so 600 and 749 are Medium) |
| `Scoring.TierOf` | script.js:83-99 | a `NaN` score gets Medium Risk; a numeric score gets the tier of `Tier` |
| `Scoring.TierMonotone` | script.js:91-99 | a higher score never gets a worse tier under High < Medium < Low |
| `Scoring.Simulate` | script.js:61-83 | the shown value is `NaN` exactly when the weights have fewer than four coefficients, and otherwise in 300..900 |
| `Scoring.FallbackZeroScores500` | script.js:47-79 | with the fallback weights, the all-zero inputs score exactly 500 (High Risk) |
| `Scoring.FallbackMonotone` | script.js:47-79 | with the fallback weights, a longer streak, a shorter delay, a higher utility reading or a LinkedIn check never lowers the score or the tier |
| `Scoring.Dashboard.constructor` | script.js:2 | the page starts with no weights, no listeners and nothing computed |
| `Scoring.Dashboard.LoadModel` | script.js:26-52 | a failed fetch installs the fallback weights and attaches no listeners; a successful one installs `data.weights` (possibly absent) and attaches the listeners; the shown score is untouched |
| `Scoring.Dashboard.UpdateSimulation` | script.js:55-84 | without weights the shown score and tier are left unchanged; with weights the shown score is the clamped linear score and the tier is its tier; the weights are untouched and the risk display always matches the score |
| `Scoring.Dashboard.OnInput` | script.js:39-41 | an input event recalculates only when the listeners were attached |
| `Scoring.Dashboard.Start` | script.js:19-23 | on page load the installed weights are those `LoadModel` installs, so later input events score with them; the fallback path shows the fallback score, a document without weights shows nothing new, and a document with weights shows its score |
| `Synthetic.Row` | train-rf.py:19 | the training row is `[streak, delay, utility, linkedin]` in that order |
| `FeatureOrder.TrainingRowMatchesBrowserFeatures` | script.js:64-70 | the browser's feature vector is exactly the training row of the same profile (utility as a fraction, LinkedIn as 0 or 1), so the order of the training row at train-rf.py:19 agrees with the browser's |
| `Synthetic.PyInt` | train-rf.py:20 | Python's `int` of a float truncates toward zero |
| `Synthetic.PyIntMonotone` | train-rf.py:20 | truncation never reverses the order of two values |
| `SklearnTree.Export` | train-rf.py:34-45 | a node exports as a leaf carrying its value exactly when its feature is `TREE_UNDEFINED`, otherwise as a split carrying its own feature index and threshold; the nesting depth is at most the number of nodes from that node on |
| `SklearnTree.LeafCountIsReachableLeaves` | train-rf.py:41-45 | the exported tree has exactly as many leaves as there are reachable nodes with undefined feature |
| `ForestExport.PenaltyMultiplier` | train-rf.py:16 | the delay penalty is multiplied by 1.5 exactly when streak < 3, otherwise by 1.0 |
| `ForestExport.Label` | train-rf.py:18-20 | every random-forest training label lies in 300..900 |
| `ForestExport.LabelNonIncreasingInDelay` | train-rf.py:15-20 | a longer delay never raises the label |
| `ForestExport.LabelNonDecreasingInStreakWhenLate` | train-rf.py:16-20 | for a delay of zero or more, a longer streak never lowers the label |
| `ForestExport.EarlyPayerStreakInversion` | train-rf.py:15-20 | for drawable inputs, streak 2 with delay −5 is labelled 610 but streak 3 only 590 |
| `ForestExport.GenerateData` | train-rf.py:7-20 | the loop yields one row and one label per draw, in draw order, every label in 300..900 |
| `ForestExport.PyIndex` | train-rf.py:30 | indexing the name list succeeds exactly for indices in −len..len−1 and yields a listed name |
| `ForestExport.FeatureNames` | train-rf.py:29-32 | the list has one entry per node: "undefined!" for an undefined feature, otherwise the feature's name; it raises (`None`) exactly when some node's defined feature is outside the name list |
| `ForestExport.UndefinedNameExactlyForLeaves` | train-rf.py:29-32 | when no feature is itself named "undefined!", a node's name is "undefined!" exactly when its feature is undefined |
| `ForestExport.TreeToDict` | train-rf.py:27-47 | the export raises exactly when the name list does, and otherwise is the export of node 0 |
| `ForestExport.FourFeatureTreeExports` | train-rf.py:57 | a tree whose features are all undefined or in 0..3 exports successfully with the four fixed names |
| `ForestExport.BuildForest` | train-rf.py:50-57 | the document has type "forest", `n_estimators` equal to the number of trees and estimators, and `trees[k]` is the export of estimator k in order; it aborts exactly when some estimator's export raises |
| `GbmExport.DelayPenalty` | train-xgb.py:17 | the −100 penalty applies exactly when delay > 20 and linkedin == 0 |
| `GbmExport.Label` | train-xgb.py:15-20 | every gradient-boosting training label lies in 300..900 |
| `GbmExport.LabelNonIncreasingInDelay` | train-xgb.py:15-20 | a longer delay never raises the label, the penalty included |
| `GbmExport.LabelNonDecreasingInStreak` | train-xgb.py:15-20 | a longer streak never lowers the label |
| `GbmExport.LinkedInNeverLowersLabel` | train-xgb.py:15-20 | a LinkedIn profile never lowers the label |
| `GbmExport.GenerateData` | train-xgb.py:7-20 | the loop yields one row and one label per draw, in draw order, every label in 300..900 |
| `GbmExport.Mean` | train-xgb.py:44 | the mean times the number of labels is their sum |
| `GbmExport.MeanWithinBounds` | train-xgb.py:44 | the mean of labels that lie within bounds lies within the same bounds |
| `GbmExport.TreeToDict` | train-xgb.py:27-39 | the export is the shared `recurse` export of node 0, a leaf exactly when node 0's feature is undefined |
| `GbmExport.BuildGbm` | train-xgb.py:42-51 | the document has type "gbm", the given learning rate, `init_score` equal to the label mean (so in 300..900 when the labels are), and one tree per stage, the export of that stage's `estimator[0]`, in stage order |

## Left out

- DOM reads and writes other than the score and tier values, the label and colour strings, and the `style` updates are not modelled. They are presentation only.
- `fetch`, `async`/`await` and the JSON parse are not modelled. Their outcome is the `FetchOutcome` parameter of `LoadModel`.
- `initCharts` and Chart.js are not modelled. They are a foreign rendering library with hard-coded demo data.
- `parseInt` of the slider strings is not modelled. The inputs arrive as integers.
- Model documents whose `intercept` or coefficients are not numbers are not modelled. Only a short coefficient list produces `NaN` here.
- IEEE floating-point rounding is not captured, because all arithmetic is on `real`.
- The random draws, sklearn's `fit`, `json.dump` and the file writes are not modelled. The draws are the `samples` parameter, and the fitted trees are the `TreeArrays` parameters.
- training_script.py and train-linear.py are not part of this model. Their only logic is a label clamp that the modelled scripts already cover.
- In train-rf.py, the unused `name = feature_name[node]` lookup is not modelled. It cannot fail once `feature_name` has been built.
- SklearnTree.Export: requires every split node's children to be numbered after it and inside the arrays. sklearn guarantees this, but the scripts do not check it. A cyclic encoding would make Python's recursion fail, and the model does not cover that case.
- SklearnTree.LeafCountIsReachableLeaves: also requires that no node is reachable through both children of a split. This holds for sklearn trees. An encoding with shared nodes would duplicate leaves.
- GbmExport.Mean: requires at least one label. The script always generates 1000, and `np.mean` of an empty list, which gives `NaN`, is not modelled.
- GbmExport.BuildGbm: requires at least one label (see `Mean`) and one regressor per boosting stage. sklearn's `estimators_` always has one regressor per stage.
