/** train-xgb.py: the synthetic labels with the late-and-unverified
    penalty, `tree_to_dict` on each boosting stage, and the `gbm_data`
    document with its mean-label `init_score`. */
module GbmExport {
  import opened ScoreRange
  import opened Synthetic
  import opened SklearnTree

  /** The gbm document: `type`, `init_score`, `learning_rate` and `trees`. */
  datatype GbmDoc = GbmDoc(kind: string, initScore: real, learningRate: real, trees: seq<Tree>)

  /** The `score -= 100` penalty: applied exactly to a delay over 20 days
      without LinkedIn. */
  function DelayPenalty(s: Sample): (p: real)
    ensures p == 100.0 <==> s.delay > 20 && s.linkedin == 0
    ensures p == 0.0 <==> !(s.delay > 20 && s.linkedin == 0)
  {
    if s.delay > 20 && s.linkedin == 0 then 100.0 else 0.0
  }

  /** `score` before truncation; LinkedIn enters only through the penalty. */
  function TrueScore(s: Sample): real
  {
    500.0 + (s.streak * 10) as real - (s.delay * 12) as real + s.utility * 100.0 - DelayPenalty(s)
  }

  /** `max(300, min(900, int(score)))`. */
  function Label(s: Sample): (y: int)
    ensures MinScore <= y <= MaxScore
  {
    Clamp(PyInt(TrueScore(s)))
  }

  /** A longer delay never raises the label. */
  lemma LabelNonIncreasingInDelay(a: Sample, b: Sample)
    requires a.streak == b.streak && a.utility == b.utility && a.linkedin == b.linkedin
    requires a.delay <= b.delay
    ensures Label(b) <= Label(a)
  {
  }

  /** A longer streak never lowers the label. */
  lemma LabelNonDecreasingInStreak(a: Sample, b: Sample)
    requires a.delay == b.delay && a.utility == b.utility && a.linkedin == b.linkedin
    requires a.streak <= b.streak
    ensures Label(a) <= Label(b)
  {
  }

  /** A LinkedIn profile never lowers the label. */
  lemma LinkedInNeverLowersLabel(s: Sample)
    ensures Label(s.(linkedin := 0)) <= Label(s.(linkedin := 1))
  {
  }

  /** The generation loop: one feature row and one label per draw. */
  method GenerateData(samples: seq<Sample>) returns (x: seq<seq<real>>, y: seq<int>)
    requires |samples| == SampleCount
    ensures |x| == |samples| && |y| == |samples|
    ensures forall k :: 0 <= k < |samples| ==> x[k] == Row(samples[k]) && y[k] == Label(samples[k])
    ensures forall k :: 0 <= k < |y| ==> MinScore <= y[k] <= MaxScore
  {
    x, y := [], [];
    var i := 0;
    while i < |samples|
      invariant 0 <= i <= |samples|
      invariant |x| == i && |y| == i
      invariant forall k :: 0 <= k < i ==> x[k] == Row(samples[k]) && y[k] == Label(samples[k])
    {
      x := x + [Row(samples[i])];
      y := y + [Label(samples[i])];
      i := i + 1;
    }
  }

  /** Sum of the labels. */
  function Sum(ys: seq<int>): int
  {
    if ys == [] then 0 else Sum(ys[..|ys| - 1]) + ys[|ys| - 1]
  }

  /** `np.mean(y)`: the sum divided by the count. */
  function Mean(ys: seq<int>): (m: real)
    requires |ys| > 0
    ensures m * |ys| as real == Sum(ys) as real
  {
    Sum(ys) as real / |ys| as real
  }

  /** Every label in `lo..hi` puts their sum in `|ys|*lo .. |ys|*hi`. */
  lemma {:induction false} SumBounds(ys: seq<int>, lo: int, hi: int)
    requires forall k :: 0 <= k < |ys| ==> lo <= ys[k] <= hi
    ensures |ys| * lo <= Sum(ys) <= |ys| * hi
  {
    if ys != [] {
      SumBounds(ys[..|ys| - 1], lo, hi);
    }
  }

  /** The mean of labels in `lo..hi` lies in `lo..hi`. */
  lemma MeanWithinBounds(ys: seq<int>, lo: int, hi: int)
    requires |ys| > 0
    requires forall k :: 0 <= k < |ys| ==> lo <= ys[k] <= hi
    ensures lo as real <= Mean(ys) <= hi as real
  {
    SumBounds(ys, lo, hi);
    var n := |ys| as real;
    assert Mean(ys) * n == Sum(ys) as real;
    assert lo as real * n <= Mean(ys) * n <= hi as real * n;
  }

  /** `tree_to_dict(tree)`: the export of node 0. */
  function TreeToDict(t: TreeArrays): (r: Tree)
    requires WellFormed(t)
    ensures r.Leaf? <==> t.feature[0] == TreeUndefined
    ensures r == Export(t, 0)
  {
    Export(t, 0)
  }

  /** The `gbm_data` loop: one tree per boosting stage, taken from the
      stage's single regressor `estimator[0]`, in stage order. The
      `init_score` is the label mean, so it lies in 300..900 when the
      labels do. */
  method BuildGbm(stages: seq<seq<TreeArrays>>, learningRate: real, labels: seq<int>) returns (doc: GbmDoc)
    requires |labels| > 0
    requires forall k :: 0 <= k < |stages| ==> |stages[k]| > 0 && WellFormed(stages[k][0])
    ensures doc.kind == "gbm" && doc.learningRate == learningRate
    ensures doc.initScore * |labels| as real == Sum(labels) as real
    ensures (forall k :: 0 <= k < |labels| ==> MinScore <= labels[k] <= MaxScore) ==>
              MinScore as real <= doc.initScore <= MaxScore as real
    ensures |doc.trees| == |stages|
    ensures forall k :: 0 <= k < |stages| ==> doc.trees[k] == Export(stages[k][0], 0)
  {
    doc := GbmDoc("gbm", Mean(labels), learningRate, []);
    if forall k :: 0 <= k < |labels| ==> MinScore <= labels[k] <= MaxScore {
      MeanWithinBounds(labels, MinScore, MaxScore);
    }
    var i := 0;
    while i < |stages|
      invariant 0 <= i <= |stages|
      invariant doc.kind == "gbm" && doc.learningRate == learningRate && doc.initScore == Mean(labels)
      invariant |doc.trees| == i
      invariant forall k :: 0 <= k < i ==> doc.trees[k] == Export(stages[k][0], 0)
    {
      doc := doc.(trees := doc.trees + [TreeToDict(stages[i][0])]);
      i := i + 1;
    }
  }
}
