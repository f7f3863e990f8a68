/** train-rf.py: the synthetic labels with the streak-dependent delay
    penalty, the random-forest variant of `tree_to_dict` (which first builds
    the `feature_name` list), and the `forest_data` document. */
module ForestExport {
  import opened Optional
  import opened ScoreRange
  import opened Synthetic
  import opened SklearnTree

  /** The names passed to `tree_to_dict` for every estimator. */
  const FeatureNameList: seq<string> := ["streak", "delay", "utility", "linkedin"]

  /** The name given to a leaf node in `feature_name`. */
  const UndefinedName: string := "undefined!"

  /** The forest document: `type`, `n_estimators` and `trees`. */
  datatype ForestDoc = ForestDoc(kind: string, nEstimators: int, trees: seq<Tree>)

  /** `1.5 if streak < 3 else 1.0`. */
  function PenaltyMultiplier(streak: int): (m: real)
    ensures m == 1.5 <==> streak < 3
    ensures m == 1.0 <==> streak >= 3
  {
    if streak < 3 then 1.5 else 1.0
  }

  /** `true_score` before truncation. */
  function TrueScore(s: Sample): real
  {
    500.0 + (s.streak * 10) as real - s.delay as real * 12.0 * PenaltyMultiplier(s.streak)
      + s.utility * 100.0 + (s.linkedin * 50) as real
  }

  /** `max(300, min(900, int(true_score)))`. */
  function Label(s: Sample): (y: int)
    ensures MinScore <= y <= MaxScore
  {
    Clamp(PyInt(TrueScore(s)))
  }

  /** A longer delay never raises the label. */
  lemma LabelNonIncreasingInDelay(a: Sample, b: Sample)
    requires a.streak == b.streak && a.utility == b.utility && a.linkedin == b.linkedin
    requires a.delay <= b.delay
    ensures Label(b) <= Label(a)
  {
    var m := PenaltyMultiplier(a.streak);
    assert b.delay as real * 12.0 * m >= a.delay as real * 12.0 * m;
    PyIntMonotone(TrueScore(b), TrueScore(a));
  }

  /** For a delay of zero or more, a longer streak never lowers the label. */
  lemma LabelNonDecreasingInStreakWhenLate(a: Sample, b: Sample)
    requires a.delay == b.delay && a.utility == b.utility && a.linkedin == b.linkedin
    requires a.streak <= b.streak && a.delay >= 0
    ensures Label(a) <= Label(b)
  {
    var ma, mb := PenaltyMultiplier(a.streak), PenaltyMultiplier(b.streak);
    assert a.delay as real * 12.0 * ma >= a.delay as real * 12.0 * mb;
    PyIntMonotone(TrueScore(a), TrueScore(b));
  }

  /** For an early payer the 1.5 multiplier enlarges a bonus, so reaching a
      three-month streak lowers the label (610 at streak 2, 590 at 3). */
  lemma EarlyPayerStreakInversion()
    ensures Drawn(Sample(2, -5, 0.0, 0)) && Drawn(Sample(3, -5, 0.0, 0))
    ensures Label(Sample(2, -5, 0.0, 0)) == 610
    ensures Label(Sample(3, -5, 0.0, 0)) == 590
  {
  }

  /** The generation loop: one feature row and one label per draw. */
  method GenerateData(samples: seq<Sample>) returns (x: seq<seq<real>>, y: seq<int>)
    requires |samples| == SampleCount
    ensures |x| == |samples| && |y| == |samples|
    ensures forall k :: 0 <= k < |samples| ==> x[k] == Row(samples[k]) && y[k] == Label(samples[k])
    ensures forall k :: 0 <= k < |y| ==> MinScore <= y[k] <= MaxScore
  {
    x, y := [], [];
    var i := 0;
    while i < |samples|
      invariant 0 <= i <= |samples|
      invariant |x| == i && |y| == i
      invariant forall k :: 0 <= k < i ==> x[k] == Row(samples[k]) && y[k] == Label(samples[k])
    {
      x := x + [Row(samples[i])];
      y := y + [Label(samples[i])];
      i := i + 1;
    }
  }

  /** Python's `names[i]`: negative indices count from the end, and an
      index outside the list raises `IndexError` (`None`). */
  function PyIndex(names: seq<string>, i: int): (r: Option<string>)
    ensures r.Some? <==> -|names| <= i < |names|
    ensures r.Some? ==> r.value in names
  {
    if 0 <= i < |names| then Some(names[i])
    else if -|names| <= i < 0 then Some(names[|names| + i])
    else None
  }

  /** The `feature_name` comprehension over every node of `tree_.feature`. */
  function FeatureNames(features: seq<int>, names: seq<string>): (r: Option<seq<string>>)
    ensures r.Some? <==> forall i :: 0 <= i < |features| && features[i] != TreeUndefined ==>
                           -|names| <= features[i] < |names|
    ensures r.Some? ==> |r.value| == |features|
    ensures r.Some? ==> forall i :: 0 <= i < |features| ==>
      if features[i] == TreeUndefined then r.value[i] == UndefinedName
      else Some(r.value[i]) == PyIndex(names, features[i])
  {
    if features == [] then Some([])
    else
      var head := if features[0] == TreeUndefined then Some(UndefinedName) else PyIndex(names, features[0]);
      var tail := FeatureNames(features[1..], names);
      if head.None? || tail.None? then None
      else Some([head.value] + tail.value)
  }

  /** When no name in the list is "undefined!", a node's name is
      "undefined!" exactly when its feature is undefined. */
  lemma UndefinedNameExactlyForLeaves(features: seq<int>, names: seq<string>, i: int)
    requires UndefinedName !in names
    requires FeatureNames(features, names).Some? && 0 <= i < |features|
    ensures FeatureNames(features, names).value[i] == UndefinedName <==> features[i] == TreeUndefined
  {
  }

  /** `tree_to_dict(tree, feature_names)`: `IndexError` from the name list
      (`None`) when a node's feature has no name, else the export of node 0. */
  function TreeToDict(t: TreeArrays, names: seq<string>): (r: Option<Tree>)
    requires WellFormed(t)
    ensures r.Some? <==> FeatureNames(t.feature, names).Some?
    ensures r.Some? ==> r.value == Export(t, 0)
  {
    var featureName := FeatureNames(t.feature, names);
    if featureName.None? then None else Some(Export(t, 0))
  }

  /** A tree fitted on the four features names every split, so its export
      with the fixed name list succeeds. */
  lemma FourFeatureTreeExports(t: TreeArrays)
    requires WellFormed(t)
    requires forall i :: 0 <= i < |t.feature| ==> t.feature[i] == TreeUndefined || 0 <= t.feature[i] < 4
    ensures TreeToDict(t, FeatureNameList) == Some(Export(t, 0))
  {
  }

  /** The `forest_data` loop: `n_estimators` is the number of estimators and
      `trees[k]` is the export of estimator `k`; the first estimator whose
      export raises aborts the script (`None`). */
  method BuildForest(estimators: seq<TreeArrays>) returns (doc: Option<ForestDoc>)
    requires forall k :: 0 <= k < |estimators| ==> WellFormed(estimators[k])
    ensures doc.Some? <==> forall k :: 0 <= k < |estimators| ==> TreeToDict(estimators[k], FeatureNameList).Some?
    ensures doc.Some? ==> doc.value.kind == "forest"
    ensures doc.Some? ==> doc.value.nEstimators == |doc.value.trees| == |estimators|
    ensures doc.Some? ==> forall k :: 0 <= k < |estimators| ==> doc.value.trees[k] == Export(estimators[k], 0)
  {
    var forest := ForestDoc("forest", |estimators|, []);
    var i := 0;
    while i < |estimators|
      invariant 0 <= i <= |estimators|
      invariant forest.kind == "forest" && forest.nEstimators == |estimators| && |forest.trees| == i
      invariant forall k :: 0 <= k < i ==> TreeToDict(estimators[k], FeatureNameList) == Some(forest.trees[k])
    {
      var exported := TreeToDict(estimators[i], FeatureNameList);
      if exported.None? {
        return None;
      }
      forest := forest.(trees := forest.trees + [exported.value]);
      i := i + 1;
    }
    doc := Some(forest);
  }
}
