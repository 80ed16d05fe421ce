/** The result records of an analysis run, the fixed metric configuration and the page score. */
module Metrics {

  /** One named heuristic score with its fixed weight and description. */
  datatype Metric = Metric(name: string, score: real, weight: real, description: string)

  /** The verdict for one page; pageNumber counts from 1. */
  datatype PageAnalysisResult = PageAnalysisResult(pageNumber: nat, overallScore: real, metrics: seq<Metric>)

  /** What analyzing a page yields before the orchestrator numbers it. */
  datatype PageSummary = PageSummary(overallScore: real, metrics: seq<Metric>)

  /** The verdict for a whole document. */
  datatype AnalysisResult = AnalysisResult(
    overallScore: real,
    pageCount: nat,
    averageMetrics: seq<Metric>,
    pageResults: seq<PageAnalysisResult>)

  /** One entry of the metric configuration table. */
  datatype MetricConfig = MetricConfig(weight: real, description: string)

  const TextClarityName: string := "Text Clarity"
  const NoiseLevelName: string := "Noise Level"
  const SkewRotationName: string := "Skew / Rotation"

  const TextClarity: MetricConfig := MetricConfig(55.0,
    "Measures sharpness, contrast, and text uniformity. A high score indicates clear, printed text. " +
    "Lower scores can be due to blur, low contrast, or handwritten text.")
  const NoiseLevel: MetricConfig := MetricConfig(20.0,
    "Estimates the amount of random speckles or marks on the page. Lower noise results in a higher score.")
  const SkewRotation: MetricConfig := MetricConfig(25.0,
    "Detects if the document is tilted. A perfectly aligned document scores higher, " +
    "as skew can confuse OCR engines.")

  /** The configuration of a metric, looked up by its name. */
  function ConfigFor(name: string): (c: MetricConfig)
    requires name in {TextClarityName, NoiseLevelName, SkewRotationName}
  {
    if name == TextClarityName then TextClarity
    else if name == NoiseLevelName then NoiseLevel
    else SkewRotation
  }

  /** The metric names of a page, in the order the page lists them. */
  function Names(ms: seq<Metric>): (r: seq<string>)
    ensures |r| == |ms|
    ensures forall i :: 0 <= i < |ms| ==> r[i] == ms[i].name
  {
    seq(|ms|, i requires 0 <= i < |ms| => ms[i].name)
  }

  const StandardNames: seq<string> := [TextClarityName, NoiseLevelName, SkewRotationName]

  /** The three metrics of one page, in the fixed order clarity, noise, skew. */
  function PageMetrics(clarity: real, noise: real, skew: real): (ms: seq<Metric>)
    ensures Names(ms) == StandardNames
    ensures forall i :: 0 <= i < 3 ==>
      ms[i].weight == ConfigFor(ms[i].name).weight && ms[i].description == ConfigFor(ms[i].name).description
    ensures ms[0].score == clarity && ms[1].score == noise && ms[2].score == skew
  {
    [ Metric(TextClarityName, clarity, TextClarity.weight, TextClarity.description),
      Metric(NoiseLevelName, noise, NoiseLevel.weight, NoiseLevel.description),
      Metric(SkewRotationName, skew, SkewRotation.weight, SkewRotation.description) ]
  }

  /** Left-to-right sum of the weights. */
  function TotalWeight(ms: seq<Metric>): real
  {
    if |ms| == 0 then 0.0 else TotalWeight(ms[..|ms| - 1]) + ms[|ms| - 1].weight
  }

  /** Left-to-right sum of score times weight. */
  function WeightedSum(ms: seq<Metric>): real
  {
    if |ms| == 0 then 0.0
    else WeightedSum(ms[..|ms| - 1]) + ms[|ms| - 1].score * ms[|ms| - 1].weight
  }

  /** The weighted mean of the metric scores: the overall score of a page. */
  function PageScore(ms: seq<Metric>): real
    requires TotalWeight(ms) != 0.0
  {
    WeightedSum(ms) / TotalWeight(ms)
  }

  predicate ScoresWithin(ms: seq<Metric>, lo: real, hi: real) {
    forall i :: 0 <= i < |ms| ==> lo <= ms[i].score <= hi
  }

  predicate NonNegativeWeights(ms: seq<Metric>) {
    forall i :: 0 <= i < |ms| ==> ms[i].weight >= 0.0
  }

  lemma {:induction false} WeightedSumBounds(ms: seq<Metric>, lo: real, hi: real)
    requires NonNegativeWeights(ms) && ScoresWithin(ms, lo, hi)
    ensures lo * TotalWeight(ms) <= WeightedSum(ms) <= hi * TotalWeight(ms)
    ensures TotalWeight(ms) >= 0.0
  {
    if |ms| > 0 {
      var m := ms[|ms| - 1];
      WeightedSumBounds(ms[..|ms| - 1], lo, hi);
      ProductBounds(lo, m.score, hi, m.weight);
    }
  }

  lemma {:induction false} ProductBounds(lo: real, x: real, hi: real, w: real)
    requires lo <= x <= hi && w >= 0.0
    ensures lo * w <= x * w <= hi * w
  {
    assert x * w - lo * w == (x - lo) * w;
    assert hi * w - x * w == (hi - x) * w;
  }

  /** A weighted mean with non-negative weights lies between the smallest and the largest score. */
  lemma {:induction false} PageScoreBetween(ms: seq<Metric>, lo: real, hi: real)
    requires NonNegativeWeights(ms) && ScoresWithin(ms, lo, hi)
    requires TotalWeight(ms) != 0.0
    ensures lo <= PageScore(ms) <= hi
  {
    WeightedSumBounds(ms, lo, hi);
    QuotientBetween(lo, WeightedSum(ms), hi, TotalWeight(ms));
  }

  lemma {:induction false} QuotientBetween(lo: real, x: real, hi: real, t: real)
    requires t > 0.0 && lo * t <= x <= hi * t
    ensures lo <= x / t <= hi
  {
    var q := x / t;
    assert q * t == x;
    assert (q - lo) * t >= 0.0;
    assert (hi - q) * t >= 0.0;
  }

  /** With the weights 55, 20 and 25 the page score is 0.55 clarity + 0.20 noise + 0.25 skew. */
  lemma PageScoreOfThree(clarity: real, noise: real, skew: real)
    ensures TotalWeight(PageMetrics(clarity, noise, skew)) == 100.0
    ensures PageScore(PageMetrics(clarity, noise, skew)) ==
      (55.0 * clarity + 20.0 * noise + 25.0 * skew) / 100.0
  {
    var ms := PageMetrics(clarity, noise, skew);
    assert ms[..2][..1][..0] == [];
    assert TotalWeight(ms[..1]) == 55.0 && WeightedSum(ms[..1]) == clarity * 55.0;
    assert TotalWeight(ms[..2]) == 75.0 && WeightedSum(ms[..2]) == clarity * 55.0 + noise * 20.0;
    assert WeightedSum(ms) == clarity * 55.0 + noise * 20.0 + skew * 25.0;
  }

  /** A page whose three metric scores all lie in [0, 100] gets an overall score in [0, 100]. */
  lemma {:induction false} PageScoreInRange(clarity: real, noise: real, skew: real)
    requires 0.0 <= clarity <= 100.0 && 0.0 <= noise <= 100.0 && 0.0 <= skew <= 100.0
    ensures TotalWeight(PageMetrics(clarity, noise, skew)) == 100.0
    ensures 0.0 <= PageScore(PageMetrics(clarity, noise, skew)) <= 100.0
  {
    PageScoreOfThree(clarity, noise, skew);
    PageScoreBetween(PageMetrics(clarity, noise, skew), 0.0, 100.0);
  }

  /** Equal metric scores give that score back: all 100 gives 100 and all 0 gives 0. */
  lemma {:induction false} PageScoreOfEqualScores(v: real)
    ensures TotalWeight(PageMetrics(v, v, v)) == 100.0
    ensures PageScore(PageMetrics(v, v, v)) == v
  {
    PageScoreOfThree(v, v, v);
  }
}
