/** The browser scoring path of script.js: the fixed four-entry feature
    vector, the linear score accumulated from the intercept, `Math.round`
    followed by the 300..900 clamp, the risk tier, and the page state that
    `loadModel` and `updateSimulation` update. Numbers are modelled as
    `real`; JavaScript's `NaN` is modelled explicitly where the code can
    produce it. */
module Scoring {
  import opened Optional
  import opened ScoreRange

  /** The slider and checkbox readings, already parsed to integers. */
  datatype Inputs = Inputs(streak: int, delay: int, utilityPercent: int, linkedin: bool)

  /** The `weights` object of a model document: the intercept and the
      coefficients in feature order. */
  datatype Weights = Weights(intercept: real, coefficients: seq<real>)

  /** The value `score` holds once clamped: an integer, or `NaN`. */
  datatype Shown = Num(n: int) | NaN

  /** The three risk tiers, declared from worst to best. */
  datatype Risk = HighRisk | MediumRisk | LowRisk

  /** What fetching `model.json` produced: a failure (network error, bad
      status, unparsable body), or a parsed document whose `weights` entry
      may be absent. */
  datatype FetchOutcome = FetchFailed | Fetched(weights: Option<Weights>)

  /** Position of a tier in the order High < Medium < Low. */
  function Rank(t: Risk): nat
  {
    match t
    case HighRisk => 0
    case MediumRisk => 1
    case LowRisk => 2
  }

  /** The weights `loadModel` installs when the model cannot be fetched. */
  function FallbackWeights(): (w: Weights)
    ensures w.intercept == 500.0 && |w.coefficients| == 4
  {
    Weights(500.0, [10.0, -12.0, 100.0, 50.0])
  }

  /** The feature vector `[streak, delay, utility/100, linkedin ? 1 : 0]`. */
  function Features(inp: Inputs): (f: seq<real>)
    ensures |f| == 4
    ensures f[0] == inp.streak as real && f[1] == inp.delay as real
    ensures f[2] * 100.0 == inp.utilityPercent as real
    ensures 0 <= inp.utilityPercent <= 100 ==> 0.0 <= f[2] <= 1.0
    ensures f[3] == 0.0 || f[3] == 1.0
    ensures f[3] == 1.0 <==> inp.linkedin
  {
    [inp.streak as real, inp.delay as real, inp.utilityPercent as real / 100.0,
     if inp.linkedin then 1.0 else 0.0]
  }

  /** `intercept + f[0]*c[0] + ... + f[k-1]*c[k-1]`, added left to right. */
  function Accumulate(intercept: real, f: seq<real>, c: seq<real>, k: nat): real
    requires k <= |f| && k <= |c|
  {
    if k == 0 then intercept else Accumulate(intercept, f, c, k - 1) + f[k - 1] * c[k - 1]
  }

  /** The unrounded score: `NaN` (`None`) as soon as a feature has no
      coefficient, since `val * undefined` is `NaN` and stays so. */
  function Raw(w: Weights, f: seq<real>): Option<real>
  {
    if |f| <= |w.coefficients| then Some(Accumulate(w.intercept, f, w.coefficients, |f|)) else None
  }

  /** The dot-product loop of `updateSimulation`. */
  method LinearScore(w: Weights, features: seq<real>) returns (score: Option<real>)
    ensures score == Raw(w, features)
    ensures score.None? <==> |w.coefficients| < |features|
  {
    score := Some(w.intercept);
    var index := 0;
    while index < |features|
      invariant 0 <= index <= |features|
      invariant score == if index <= |w.coefficients|
                         then Some(Accumulate(w.intercept, features, w.coefficients, index))
                         else None
    {
      if score.Some? && index < |w.coefficients| {
        assert Accumulate(w.intercept, features, w.coefficients, index + 1)
            == score.value + features[index] * w.coefficients[index];
        score := Some(score.value + features[index] * w.coefficients[index]);
      } else {
        score := None;
      }
      index := index + 1;
    }
  }

  /** With four or more coefficients, the score is the intercept plus one
      term per input, the utility slider scaled to a fraction. */
  lemma FourFeatureScore(w: Weights, inp: Inputs)
    requires |w.coefficients| >= 4
    ensures Raw(w, Features(inp)) == Some(
      w.intercept
      + inp.streak as real * w.coefficients[0]
      + inp.delay as real * w.coefficients[1]
      + inp.utilityPercent as real / 100.0 * w.coefficients[2]
      + (if inp.linkedin then w.coefficients[3] else 0.0))
  {
    var f, c := Features(inp), w.coefficients;
    var total := w.intercept
      + inp.streak as real * w.coefficients[0]
      + inp.delay as real * w.coefficients[1]
      + inp.utilityPercent as real / 100.0 * w.coefficients[2]
      + (if inp.linkedin then w.coefficients[3] else 0.0);
    assert Accumulate(w.intercept, f, c, 1) == w.intercept + f[0] * c[0];
    assert Accumulate(w.intercept, f, c, 2) == Accumulate(w.intercept, f, c, 1) + f[1] * c[1];
    assert Accumulate(w.intercept, f, c, 3) == Accumulate(w.intercept, f, c, 2) + f[2] * c[2];
    assert Accumulate(w.intercept, f, c, 4) == Accumulate(w.intercept, f, c, 3) + f[3] * c[3];
    assert f[3] * c[3] == if inp.linkedin then c[3] else 0.0;
    assert Accumulate(w.intercept, f, c, 4) == total;
    assert Raw(w, f) == Some(total);
  }

  /** A model document lacking coefficients yields `NaN`. */
  lemma MissingCoefficientIsNaN(w: Weights, inp: Inputs)
    requires |w.coefficients| < 4
    ensures Raw(w, Features(inp)).None?
  {
  }

  /** `Math.round`: the nearest integer, halves going toward +infinity. */
  function Round(x: real): (r: int)
    ensures x - 0.5 < r as real <= x + 0.5
  {
    (x + 0.5).Floor
  }

  /** Step C: round first, then clamp to 300..900. */
  function FinalScore(raw: real): (s: int)
    ensures MinScore <= s <= MaxScore
    ensures MinScore as real - 0.5 <= raw < MaxScore as real + 0.5 ==> raw - 0.5 < s as real <= raw + 0.5
  {
    Clamp(Round(raw))
  }

  /** `Math.max(300, Math.min(900, Math.round(score)))`, `NaN` staying `NaN`. */
  function Display(raw: Option<real>): (s: Shown)
    ensures s.NaN? <==> raw.None?
    ensures s.Num? ==> MinScore <= s.n <= MaxScore
  {
    match raw
    case None => NaN
    case Some(x) => Num(FinalScore(x))
  }

  /** An integer score already in range passes through unchanged. */
  lemma RoundedInRangeUnchanged(n: int)
    requires MinScore <= n <= MaxScore
    ensures FinalScore(n as real) == n
  {
  }

  /** `max(300, min(900, x))` on reals. */
  function ClampReal(x: real): (r: real)
    ensures MinScore as real <= r <= MaxScore as real
    ensures MinScore as real <= x <= MaxScore as real ==> r == x
  {
    if x > MaxScore as real then MaxScore as real
    else if x < MinScore as real then MinScore as real
    else x
  }

  /** Rounding then clamping gives the same integer as clamping then
      rounding, so the order used by the code is immaterial. */
  lemma RoundThenClampIsClampThenRound(x: real)
    ensures FinalScore(x) == Round(ClampReal(x))
  {
  }

  /** A higher unrounded score never displays lower. */
  lemma FinalScoreMonotone(x: real, y: real)
    requires x <= y
    ensures FinalScore(x) <= FinalScore(y)
  {
  }

  /** The tier chosen by `updateRiskUI`. */
  function Tier(score: int): (t: Risk)
    ensures t == LowRisk <==> score >= 750
    ensures t == HighRisk <==> score < 600
    ensures t == MediumRisk <==> 600 <= score < 750
  {
    if score >= 750 then LowRisk else if score < 600 then HighRisk else MediumRisk
  }

  /** The tier of the displayed value: both comparisons fail on `NaN`, so
      it keeps the initial "Medium Risk". */
  function TierOf(s: Shown): (t: Risk)
    ensures s.NaN? ==> t == MediumRisk
    ensures s.Num? ==> (t == LowRisk <==> s.n >= 750) && (t == HighRisk <==> s.n < 600)
  {
    match s
    case NaN => MediumRisk
    case Num(n) => Tier(n)
  }

  /** A higher score never gets a worse tier. */
  lemma TierMonotone(a: int, b: int)
    requires a <= b
    ensures Rank(Tier(a)) <= Rank(Tier(b))
  {
  }

  /** The score and tier the page shows for one set of inputs. */
  function Simulate(w: Weights, inp: Inputs): (s: Shown)
    ensures s.NaN? <==> |w.coefficients| < 4
    ensures s.Num? ==> MinScore <= s.n <= MaxScore
  {
    Display(Raw(w, Features(inp)))
  }

  /** With the fallback weights, all-zero inputs score exactly 500. */
  lemma FallbackZeroScores500()
    ensures Simulate(FallbackWeights(), Inputs(0, 0, 0, false)) == Num(500)
    ensures TierOf(Simulate(FallbackWeights(), Inputs(0, 0, 0, false))) == HighRisk
  {
  }

  /** With the fallback weights, a longer streak, a shorter delay, a higher
      utility reading or a LinkedIn check never lowers the score or the tier. */
  lemma FallbackMonotone(a: Inputs, b: Inputs)
    requires a.streak <= b.streak && a.delay >= b.delay
    requires a.utilityPercent <= b.utilityPercent
    requires a.linkedin ==> b.linkedin
    ensures Simulate(FallbackWeights(), a).Num? && Simulate(FallbackWeights(), b).Num?
    ensures Simulate(FallbackWeights(), a).n <= Simulate(FallbackWeights(), b).n
    ensures Rank(TierOf(Simulate(FallbackWeights(), a))) <= Rank(TierOf(Simulate(FallbackWeights(), b)))
  {
    var w := FallbackWeights();
    FourFeatureScore(w, a);
    FourFeatureScore(w, b);
    var ra := Raw(w, Features(a)).value;
    var rb := Raw(w, Features(b)).value;
    assert ra <= rb;
    FinalScoreMonotone(ra, rb);
    TierMonotone(FinalScore(ra), FinalScore(rb));
  }

  /** The page: the global `modelWeights`, whether the input listeners are
      attached, and the score and tier last written to the page (`None`
      until the first calculation). */
  class Dashboard {
    var modelWeights: Option<Weights>
    var listening: bool
    var shown: Option<Shown>
    var risk: Option<Risk>

    /** The risk display always matches the score display, and a numeric
        score on the page is in 300..900. */
    ghost predicate Valid()
      reads this
    {
      && (shown.None? <==> risk.None?)
      && (shown.Some? ==> risk == Some(TierOf(shown.value)))
      && (shown.Some? && shown.value.Num? ==> MinScore <= shown.value.n <= MaxScore)
    }

    /** The page before any script has run: `modelWeights = null`. */
    constructor ()
      ensures Valid()
      ensures modelWeights == None && !listening && shown == None && risk == None
    {
      modelWeights := None;
      listening := false;
      shown := None;
      risk := None;
    }

    /** `loadModel`: install `data.weights` and attach the input listeners,
        or install the fallback weights if anything failed. */
    method LoadModel(outcome: FetchOutcome)
      requires Valid()
      modifies this
      ensures Valid()
      ensures modelWeights == match outcome
                              case FetchFailed => Some(FallbackWeights())
                              case Fetched(w) => w
      ensures listening == (old(listening) || outcome.Fetched?)
      ensures shown == old(shown) && risk == old(risk)
    {
      match outcome {
        case Fetched(w) =>
          modelWeights := w;
          listening := true;
        case FetchFailed =>
          modelWeights := Some(FallbackWeights());
      }
    }

    /** `updateSimulation`: without weights nothing is computed; otherwise
        the score and its tier are written to the page. */
    method UpdateSimulation(inp: Inputs)
      requires Valid()
      modifies this
      ensures Valid()
      ensures modelWeights == old(modelWeights) && listening == old(listening)
      ensures old(modelWeights).None? ==> shown == old(shown) && risk == old(risk)
      ensures old(modelWeights).Some? ==>
        && shown == Some(Simulate(old(modelWeights).value, inp))
        && risk == Some(TierOf(shown.value))
    {
      if modelWeights.None? {
        return;
      }
      var features := Features(inp);
      var score := LinearScore(modelWeights.value, features);
      var s := Display(score);
      shown := Some(s);
      risk := Some(TierOf(s));
    }

    /** An `input` event on a slider or the checkbox: it recalculates only
        if `loadModel` attached the listeners. */
    method OnInput(inp: Inputs)
      requires Valid()
      modifies this
      ensures Valid()
      ensures modelWeights == old(modelWeights) && listening == old(listening)
      ensures !old(listening) || old(modelWeights).None? ==> shown == old(shown) && risk == old(risk)
      ensures old(listening) && old(modelWeights).Some? ==>
        shown == Some(Simulate(old(modelWeights).value, inp))
    {
      if listening {
        UpdateSimulation(inp);
      }
    }

    /** The `DOMContentLoaded` handler: load the model, then compute once. */
    method Start(outcome: FetchOutcome, inp: Inputs)
      requires Valid()
      modifies this
      ensures Valid()
      ensures modelWeights == match outcome
                              case FetchFailed => Some(FallbackWeights())
                              case Fetched(w) => w
      ensures outcome == FetchFailed ==> shown == Some(Simulate(FallbackWeights(), inp)) && listening == old(listening)
      ensures outcome == Fetched(None) ==> shown == old(shown) && risk == old(risk) && listening
      ensures outcome.Fetched? && outcome.weights.Some? ==>
        shown == Some(Simulate(outcome.weights.value, inp)) && listening
    {
      LoadModel(outcome);
      UpdateSimulation(inp);
    }
  }
}
