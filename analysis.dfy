/**
 * The orchestrator: every page is analyzed by the three heuristics, scored with the weighted
 * mean of its metrics, numbered from 1, and the document is summarized by the mean page score
 * and the per-metric averages.
 */
module Analysis {
  import opened Pixels
  import opened Metrics
  import opened Aggregation
  import Stats
  import opened Counting
  import Noise
  import Skew
  import Uniformity
  import opened Clarity

  /** One progress report: the page about to be analyzed and the page count. */
  datatype Progress = Progress(currentPage: nat, totalPages: nat)

  /**
   * What one analysis run is given: the rendered bitmap of every page, the random draws the
   * clarity sampler makes on each page, the rounded projection `round(x sin a + y cos a)` of the
   * skew search and the direction binning of the uniformity pass.
   */
  predicate PagesReady(pages: seq<Image>, draws: seq<seq<Draw>>) {
    |draws| == |pages| && forall i :: 0 <= i < |pages| ==> Sampleable(pages[i]) && ValidDraws(draws[i])
  }

  /** The metrics and weighted score of one page. */
  function PageSummaryOf(img: Image, draws: seq<Draw>, proj: (real, int, int) -> int, bin: (int, int) -> Uniformity.Bin)
    : (r: PageSummary)
    requires Sampleable(img) && DrawsInRange(draws)
    ensures Names(r.metrics) == StandardNames
    ensures r.metrics[0].score == ClarityScore(img, draws, bin)
    ensures r.metrics[1].score == Noise.NoiseScore(img.data)
    ensures r.metrics[2].score == Skew.SkewScore(img, proj)
    ensures r.overallScore == (55.0 * r.metrics[0].score + 20.0 * r.metrics[1].score + 25.0 * r.metrics[2].score) / 100.0
  {
    var ms := PageMetrics(ClarityScore(img, draws, bin), Noise.NoiseScore(img.data), Skew.SkewScore(img, proj));
    PageScoreOfThree(ms[0].score, ms[1].score, ms[2].score);
    PageSummary(PageScore(ms), ms)
  }

  /** The summaries of the pages, in page order; each depends on its own page only. */
  function Summaries(pages: seq<Image>, draws: seq<seq<Draw>>, proj: (real, int, int) -> int,
                     bin: (int, int) -> Uniformity.Bin): (r: seq<PageSummary>)
    requires PagesReady(pages, draws)
    ensures |r| == |pages|
  {
    seq(|pages|, i requires 0 <= i < |pages| => PageSummaryOf(pages[i], draws[i], proj, bin))
  }

  /** The page summaries, numbered from 1. */
  function Numbered(summaries: seq<PageSummary>): (r: seq<PageAnalysisResult>)
    ensures |r| == |summaries|
  {
    seq(|summaries|, i requires 0 <= i < |summaries| =>
      PageAnalysisResult(i + 1, summaries[i].overallScore, summaries[i].metrics))
  }

  /** The document result built from the summaries of its pages. */
  function Summarize(summaries: seq<PageSummary>): AnalysisResult
    requires |summaries| >= 1
  {
    var results := Numbered(summaries);
    AnalysisResult(DocumentScore(results), |summaries|, AverageMetrics(AllMetrics(results)), results)
  }

  /** The result of analyzing a document. */
  function Analysis(pages: seq<Image>, draws: seq<seq<Draw>>, proj: (real, int, int) -> int,
                    bin: (int, int) -> Uniformity.Bin): AnalysisResult
    requires |pages| >= 1 && PagesReady(pages, draws)
  {
    Summarize(Summaries(pages, draws, proj, bin))
  }

  /** The progress reports for the first n of total pages, one per page, before it is analyzed. */
  function Reports(n: nat, total: nat): (r: seq<Progress>)
    ensures |r| == n
    ensures forall i :: 0 <= i < n ==> r[i] == Progress(i + 1, total)
  {
    seq(n, i requires 0 <= i < n => Progress(i + 1, total))
  }

  // ---------------------------------------------------------------------------------------------
  // The analyzers

  method AnalyzeSinglePage(img: Image, draws: seq<Draw>, proj: (real, int, int) -> int,
                           bin: (int, int) -> Uniformity.Bin) returns (summary: PageSummary)
    requires Sampleable(img) && ValidDraws(draws)
    ensures summary == PageSummaryOf(img, draws, proj, bin)
    ensures 0.0 <= summary.overallScore <= 100.0
  {
    var clarityScore := AnalyzeClarity(img, draws, bin);
    var noiseScore := Noise.AnalyzeNoise(img.data);
    var skewScore := Skew.AnalyzeSkew(img, proj);
    var metrics := PageMetrics(clarityScore, noiseScore, skewScore);
    PageScoreInRange(clarityScore, noiseScore, skewScore);
    var totalWeight := TotalWeight(metrics);
    var overallScore := WeightedSum(metrics) / totalWeight;
    summary := PageSummary(overallScore, metrics);
  }

  method AnalyzePdfQuality(pages: seq<Image>, draws: seq<seq<Draw>>, proj: (real, int, int) -> int,
                           bin: (int, int) -> Uniformity.Bin) returns (result: AnalysisResult, progress: seq<Progress>)
    requires |pages| >= 1 && PagesReady(pages, draws)
    ensures result == Analysis(pages, draws, proj, bin)
    ensures progress == Reports(|pages|, |pages|)
  {
    ghost var summaries := Summaries(pages, draws, proj, bin);
    var pageResults: seq<PageAnalysisResult> := [];
    var numPages := |pages|;
    progress := [];
    for i := 1 to numPages + 1
      invariant pageResults == Numbered(summaries[..i - 1])
      invariant progress == Reports(i - 1, numPages)
    {
      ReportsStep(i - 1, numPages);
      progress := progress + [Progress(i, numPages)];
      var singlePageResult := AnalyzeSinglePage(pages[i - 1], draws[i - 1], proj, bin);
      NumberedStep(summaries, i);
      pageResults := pageResults + [PageAnalysisResult(i, singlePageResult.overallScore, singlePageResult.metrics)];
    }
    assert summaries[..numPages] == summaries;
    var overallScore := Stats.Sum(OverallScores(pageResults)) / numPages as real;
    var averageMetrics := CalculateAverageMetrics(pageResults);
    result := AnalysisResult(overallScore, numPages, averageMetrics, pageResults);
  }

  lemma {:induction false} ReportsStep(n: nat, total: nat)
    ensures Reports(n + 1, total) == Reports(n, total) + [Progress(n + 1, total)]
  {
  }

  lemma {:induction false} NumberedStep(summaries: seq<PageSummary>, i: nat)
    requires 1 <= i <= |summaries|
    ensures Numbered(summaries[..i]) == Numbered(summaries[..i - 1]) +
      [PageAnalysisResult(i, summaries[i - 1].overallScore, summaries[i - 1].metrics)]
  {
  }

  // ---------------------------------------------------------------------------------------------
  // Properties of a run

  /** A page summary with the three standard metrics, every score in [0, 100]. */
  predicate InRange(s: PageSummary) {
    && Names(s.metrics) == StandardNames
    && (forall k :: 0 <= k < 3 ==> 0.0 <= s.metrics[k].score <= 100.0)
    && 0.0 <= s.overallScore <= 100.0
  }

  /** The three metric scores of a page and its weighted score lie in [0, 100]. */
  lemma {:induction false} PageInRange(img: Image, draws: seq<Draw>, proj: (real, int, int) -> int, bin: (int, int) -> Uniformity.Bin)
    requires Sampleable(img) && DrawsInRange(draws)
    ensures InRange(PageSummaryOf(img, draws, proj, bin))
  {
    var s := PageSummaryOf(img, draws, proj, bin);
    Noise.SampleScoreInRange(Noise.Samples(img.data));
    Skew.SkewScoreInRange(img, proj);
    ClarityIsWeightedMix(img, draws, bin);
    assert 0.0 <= s.metrics[0].score <= 100.0;
    PageScoreInRange(s.metrics[0].score, s.metrics[1].score, s.metrics[2].score);
  }

  lemma {:induction false} SummariesInRange(pages: seq<Image>, draws: seq<seq<Draw>>, proj: (real, int, int) -> int,
                         bin: (int, int) -> Uniformity.Bin)
    requires PagesReady(pages, draws)
    ensures forall i :: 0 <= i < |pages| ==> InRange(Summaries(pages, draws, proj, bin)[i])
  {
    forall i | 0 <= i < |pages| ensures InRange(Summaries(pages, draws, proj, bin)[i]) {
      PageInRange(pages[i], draws[i], proj, bin);
    }
  }

  /**
   * A run reports pageCount pages, numbered 1 to pageCount in order, each carrying its own
   * page's summary.
   */
  lemma {:induction false} AnalysisPages(pages: seq<Image>, draws: seq<seq<Draw>>, proj: (real, int, int) -> int,
                      bin: (int, int) -> Uniformity.Bin)
    requires |pages| >= 1 && PagesReady(pages, draws)
    ensures var a := Analysis(pages, draws, proj, bin);
      && a.pageCount == |pages| == |a.pageResults|
      && (forall i :: 0 <= i < |pages| ==>
            var s := PageSummaryOf(pages[i], draws[i], proj, bin);
            a.pageResults[i] == PageAnalysisResult(i + 1, s.overallScore, s.metrics))
  {
    var summaries := Summaries(pages, draws, proj, bin);
    assert Analysis(pages, draws, proj, bin).pageResults == Numbered(summaries);
  }

  /**
   * The document score and every average of a run lie in [0, 100]; the averages are clarity,
   * noise and skew, in that order.
   */
  lemma {:induction false} AnalysisScores(pages: seq<Image>, draws: seq<seq<Draw>>, proj: (real, int, int) -> int,
                       bin: (int, int) -> Uniformity.Bin)
    requires |pages| >= 1 && PagesReady(pages, draws)
    ensures var a := Analysis(pages, draws, proj, bin);
      && 0.0 <= a.overallScore <= 100.0
      && Names(a.averageMetrics) == StandardNames
      && (forall k :: 0 <= k < 3 ==> 0.0 <= a.averageMetrics[k].score <= 100.0)
  {
    var summaries := Summaries(pages, draws, proj, bin);
    SummariesInRange(pages, draws, proj, bin);
    var r := Numbered(summaries);
    assert StandardPages(r);
    DocumentScoreInRange(r);
    AverageMetricsInRange(r);
  }

  // ---------------------------------------------------------------------------------------------
  // A blank page

  /**
   * A page of one light colour (luma at least 128) has clarity 30 (no local variance, no edges),
   * noise 100 (a single colour) and skew 100 (nothing dark to project), so it scores 61.5.
   */
  lemma {:induction false} BlankPageScore(img: Image, c: (byte, byte, byte), draws: seq<Draw>, proj: (real, int, int) -> int,
                       bin: (int, int) -> Uniformity.Bin)
    requires Sampleable(img) && DrawsInRange(draws) && Solid(img, c)
    requires 299 * c.0 + 587 * c.1 + 114 * c.2 >= 128000
    ensures var s := PageSummaryOf(img, draws, proj, bin);
      s.metrics[0].score == 30.0 && s.metrics[1].score == 100.0 && s.metrics[2].score == 100.0
      && s.overallScore == 61.5
  {
    var l := 0.299 * c.0 as real + 0.587 * c.1 as real + 0.114 * c.2 as real;
    forall k | 0 <= k < img.width * img.height ensures PixelLuma(img.data, k) == l {
      assert Rgb(img.data, k) == c;
    }
    FlatPageClarity(img, l, draws, bin);
    BlankPageNoise(img, c);
    forall k | 0 <= k < img.width * img.height ensures !IsDark(img.data, 4 * k) {
      assert Rgb(img.data, k) == c;
    }
    Skew.BlankPageScoresFull(img, proj);
  }

  /** Every sampled pixel of a page of one colour has the same quantized colour: noise 100. */
  lemma {:induction false} BlankPageNoise(img: Image, c: (byte, byte, byte))
    requires WellFormed(img) && Solid(img, c)
    ensures Noise.NoiseScore(img.data) == 100.0
  {
    var data := img.data;
    var samples := Noise.Samples(data);
    var color := Noise.Color(Noise.Quantize(c.0), Noise.Quantize(c.1), Noise.Quantize(c.2));
    forall k | 0 <= k < |samples| ensures samples[k] == color {
      Noise.SampleOffset(|data|, k);
      assert Rgb(data, 8 * k) == c;
    }
    FirstSeenConstant(samples, color);
  }
}
