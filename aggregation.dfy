/** The document-level aggregation: average metrics by name and the mean page score. */
module Aggregation {
  import opened Metrics
  import opened Counting
  import Stats

  /** Every page's metrics, page after page. */
  function AllMetrics(results: seq<PageAnalysisResult>): seq<Metric>
  {
    if |results| == 0 then []
    else AllMetrics(results[..|results| - 1]) + results[|results| - 1].metrics
  }

  /** Left-to-right sum of the scores of the metrics called name. */
  function ScoreTotal(ms: seq<Metric>, name: string): real
  {
    if |ms| == 0 then 0.0
    else ScoreTotal(ms[..|ms| - 1], name) + (if ms[|ms| - 1].name == name then ms[|ms| - 1].score else 0.0)
  }

  /** The first metric called name. */
  function FirstWith(ms: seq<Metric>, name: string): (m: Metric)
    requires name in Names(ms)
    ensures m in ms && m.name == name
  {
    ms[IndexOf(Names(ms), name)]
  }

  /** The averaged metric for name: the first occurrence's name, weight and description, and the mean score. */
  function AverageOf(ms: seq<Metric>, name: string): Metric
    requires name in Names(ms)
  {
    var first := FirstWith(ms, name);
    Metric(first.name, ScoreTotal(ms, name) / Count(Names(ms), name) as real, first.weight, first.description)
  }

  /** One averaged metric per distinct name, in first-seen order. */
  function AverageMetrics(ms: seq<Metric>): seq<Metric>
  {
    var order := FirstSeen(Names(ms));
    seq(|order|, k requires 0 <= k < |order| => AverageOf(ms, order[k]))
  }

  /** One entry of the running totals, keyed by metric name. */
  datatype MetricTotal = MetricTotal(totalScore: real, count: nat, config: Metric)

  /** What the running total for name n must hold once the metrics seen have been added. */
  ghost function Expected(seen: seq<Metric>, n: string): MetricTotal
    requires n in Names(seen)
  {
    MetricTotal(ScoreTotal(seen, n), Count(Names(seen), n), FirstWith(seen, n).(score := 0.0))
  }

  /** The running totals once the metrics seen have been added: one entry per name seen. */
  ghost function TotalsOf(seen: seq<Metric>): map<string, MetricTotal>
  {
    map n | n in Names(seen) :: Expected(seen, n)
  }

  /** The totals and their key order describe exactly the metrics seen so far. */
  ghost predicate Tracks(totals: map<string, MetricTotal>, order: seq<string>, seen: seq<Metric>)
  {
    totals == TotalsOf(seen) && order == FirstSeen(Names(seen))
  }

  lemma {:induction false} NamesSnoc(ms: seq<Metric>, m: Metric)
    ensures Names(ms + [m]) == Names(ms) + [m.name]
  {
  }

  lemma {:induction false} FirstWithSnoc(ms: seq<Metric>, m: Metric, n: string)
    requires n in Names(ms + [m])
    ensures FirstWith(ms + [m], n) == if n in Names(ms) then FirstWith(ms, n) else m
  {
    NamesSnoc(ms, m);
    if n in Names(ms) {
      IndexOfSnoc(Names(ms), m.name, n);
    } else {
      assert IndexOf(Names(ms + [m]), n) == |ms|;
    }
  }

  /** The totals after one more metric, as the accumulation loop builds them. */
  function Accumulate(totals: map<string, MetricTotal>, m: Metric): map<string, MetricTotal>
  {
    var started := Opened(totals, m);
    var t := started[m.name];
    started[m.name := t.(totalScore := t.totalScore + m.score, count := t.count + 1)]
  }

  /** The totals with an empty entry, carrying m's configuration, for a name not seen before. */
  function Opened(totals: map<string, MetricTotal>, m: Metric): (r: map<string, MetricTotal>)
    ensures m.name in r
  {
    if m.name in totals then totals else totals[m.name := MetricTotal(0.0, 0, m.(score := 0.0))]
  }

  /** One step of the accumulation loop keeps the totals in step with the metrics seen. */
  lemma {:induction false} TrackStep(totals: map<string, MetricTotal>, order: seq<string>, seen: seq<Metric>, m: Metric)
    requires Tracks(totals, order, seen)
    ensures Tracks(Accumulate(totals, m), if m.name in totals then order else order + [m.name], seen + [m])
  {
    var t1 := Accumulate(totals, m);
    var t2 := TotalsOf(seen + [m]);
    assert t1 == t2 by {
      forall n | n in t1 ensures n in t2 && t1[n] == t2[n] {
        TrackValue(totals, seen, m, n);
      }
      forall n | n in t2 ensures n in t1 {
        TrackKey(totals, seen, m, n);
      }
    }
    assert (if m.name in totals then order else order + [m.name]) == FirstSeen(Names(seen + [m])) by {
      NamesSnoc(seen, m);
      FirstSeenSnoc(Names(seen), m.name);
      assert m.name in totals <==> m.name in FirstSeen(Names(seen));
    }
  }

  /** A name tracked after one more metric was tracked before or is that metric's name. */
  lemma {:induction false} TrackKey(totals: map<string, MetricTotal>, seen: seq<Metric>, m: Metric, n: string)
    requires totals == TotalsOf(seen)
    requires n in TotalsOf(seen + [m])
    ensures n in Accumulate(totals, m)
  {
    NamesSnoc(seen, m);
    assert n in Names(seen) || n == m.name;
  }

  lemma {:induction false} TrackValue(totals: map<string, MetricTotal>, seen: seq<Metric>, m: Metric, n: string)
    requires totals == TotalsOf(seen)
    requires n in Accumulate(totals, m)
    ensures n in Names(seen + [m])
    ensures Accumulate(totals, m)[n] == Expected(seen + [m], n)
  {
    NamesSnoc(seen, m);
    assert n in Names(seen + [m]);
    ExpectedSnoc(seen, m, n);
  }

  /** The expected entry for n after one more metric m, from the one before it. */
  lemma {:induction false} ExpectedSnoc(seen: seq<Metric>, m: Metric, n: string)
    requires n in Names(seen + [m])
    ensures Expected(seen + [m], n) ==
      if n !in Names(seen) then MetricTotal(0.0 + m.score, 0 + 1, m.(score := 0.0))
      else
        var e := Expected(seen, n);
        if n == m.name then e.(totalScore := e.totalScore + m.score, count := e.count + 1) else e
  {
    var s := seen + [m];
    NamesSnoc(seen, m);
    assert s[..|seen|] == seen;
    FirstWithSnoc(seen, m, n);
    CountSnoc(Names(seen), m.name, n);
    assert ScoreTotal(s, n) == ScoreTotal(seen, n) + (if m.name == n then m.score else 0.0);
    if n !in Names(seen) {
      ScoreTotalAbsent(seen, n);
    }
  }

  lemma {:induction false} ScoreTotalAbsent(ms: seq<Metric>, n: string)
    requires n !in Names(ms)
    ensures ScoreTotal(ms, n) == 0.0
  {
    if |ms| > 0 {
      assert Names(ms[..|ms| - 1]) == Names(ms)[..|ms| - 1];
      ScoreTotalAbsent(ms[..|ms| - 1], n);
    }
  }

  /** The output list built from the totals: one metric per key, in key order, scored with the mean. */
  function Averages(totals: map<string, MetricTotal>, order: seq<string>): seq<Metric>
    requires forall k :: 0 <= k < |order| ==> order[k] in totals && totals[order[k]].count > 0
  {
    seq(|order|, k requires 0 <= k < |order| =>
      var t := totals[order[k]];
      Metric(t.config.name, t.totalScore / t.count as real, t.config.weight, t.config.description))
  }

  lemma {:induction false} TracksAverages(totals: map<string, MetricTotal>, order: seq<string>, seen: seq<Metric>)
    requires Tracks(totals, order, seen)
    ensures forall k :: 0 <= k < |order| ==> order[k] in totals && totals[order[k]].count > 0
    ensures Averages(totals, order) == AverageMetrics(seen)
  {
    assert forall k :: 0 <= k < |order| ==> order[k] in Names(seen);
  }

  lemma {:induction false} PrefixStep(before: seq<Metric>, ms: seq<Metric>, j: nat)
    requires j < |ms|
    ensures before + ms[..j + 1] == (before + ms[..j]) + [ms[j]]
  {
    assert ms[..j + 1] == ms[..j] + [ms[j]];
  }

  lemma {:induction false} AllMetricsStep(results: seq<PageAnalysisResult>, i: nat)
    requires i < |results|
    ensures AllMetrics(results[..i + 1]) == AllMetrics(results[..i]) + results[i].metrics
  {
    assert results[..i + 1][..i] == results[..i];
  }

  /** Averages each metric name's scores over all pages, keeping names in first-seen order. */
  method CalculateAverageMetrics(pageResults: seq<PageAnalysisResult>) returns (averages: seq<Metric>)
    ensures averages == AverageMetrics(AllMetrics(pageResults))
  {
    var metricTotals: map<string, MetricTotal> := map[];
    var order: seq<string> := [];
    for i := 0 to |pageResults|
      invariant Tracks(metricTotals, order, AllMetrics(pageResults[..i]))
    {
      metricTotals, order := AddPageMetrics(metricTotals, order, AllMetrics(pageResults[..i]), pageResults[i].metrics);
      AllMetricsStep(pageResults, i);
    }
    assert pageResults[..|pageResults|] == pageResults;
    TracksAverages(metricTotals, order, AllMetrics(pageResults));
    averages := Averages(metricTotals, order);
  }

  /** The inner loop of the accumulation: adds one page's metrics to the running totals. */
  method AddPageMetrics(totals: map<string, MetricTotal>, order: seq<string>, ghost seen: seq<Metric>,
                        metrics: seq<Metric>)
    returns (metricTotals: map<string, MetricTotal>, keys: seq<string>)
    requires Tracks(totals, order, seen)
    ensures Tracks(metricTotals, keys, seen + metrics)
  {
    metricTotals, keys := totals, order;
    ghost var added := seen;
    assert seen + metrics[..0] == seen;
    for j := 0 to |metrics|
      invariant added == seen + metrics[..j]
      invariant Tracks(metricTotals, keys, added)
    {
      var metric := metrics[j];
      TrackStep(metricTotals, keys, added, metric);
      metricTotals, keys := AddMetric(metricTotals, keys, metric);
      PrefixStep(seen, metrics, j);
      added := added + [metric];
    }
    assert metrics[..|metrics|] == metrics;
  }

  /** The loop body of the accumulation: opens an entry for a new name, then adds the score. */
  method AddMetric(totals: map<string, MetricTotal>, order: seq<string>, metric: Metric)
    returns (metricTotals: map<string, MetricTotal>, keys: seq<string>)
    ensures metricTotals == Accumulate(totals, metric)
    ensures keys == if metric.name in totals then order else order + [metric.name]
  {
    metricTotals, keys := totals, order;
    ghost var started := Opened(metricTotals, metric);
    if metric.name !in metricTotals {
      metricTotals := metricTotals[metric.name := MetricTotal(0.0, 0, metric.(score := 0.0))];
      keys := keys + [metric.name];
    }
    assert metricTotals == started;
    var t := metricTotals[metric.name];
    metricTotals := metricTotals[metric.name := t.(totalScore := t.totalScore + metric.score, count := t.count + 1)];
  }

  /** The averaged metrics carry each distinct name once, in order of first appearance. */
  lemma {:induction false} AverageMetricsNames(ms: seq<Metric>)
    ensures Names(AverageMetrics(ms)) == FirstSeen(Names(ms))
    ensures Distinct(Names(AverageMetrics(ms)))
    ensures forall n :: n in Names(AverageMetrics(ms)) <==> n in Names(ms)
    ensures forall i, j :: 0 <= i < j < |AverageMetrics(ms)| ==>
      IndexOf(Names(ms), AverageMetrics(ms)[i].name) < IndexOf(Names(ms), AverageMetrics(ms)[j].name)
  {
    FirstSeenOrdered(Names(ms));
  }

  /** Each averaged metric has its name's mean score and its first occurrence's weight and description. */
  lemma {:induction false} AverageMetricsEntries(ms: seq<Metric>, k: nat)
    requires k < |AverageMetrics(ms)|
    ensures var a := AverageMetrics(ms)[k];
            && a.name in Names(ms)
            && Count(Names(ms), a.name) > 0
            && a.score == ScoreTotal(ms, a.name) / Count(Names(ms), a.name) as real
            && a.weight == FirstWith(ms, a.name).weight
            && a.description == FirstWith(ms, a.name).description
  {
  }

  /** Per-page scores of the k-th metric. */
  function Column(results: seq<PageAnalysisResult>, k: nat): (s: seq<real>)
    requires forall p :: 0 <= p < |results| ==> k < |results[p].metrics|
    ensures |s| == |results|
  {
    seq(|results|, p requires 0 <= p < |results| => results[p].metrics[k].score)
  }

  predicate StandardPages(results: seq<PageAnalysisResult>) {
    forall p :: 0 <= p < |results| ==> Names(results[p].metrics) == StandardNames
  }

  lemma {:induction false} ScoreTotalAppend(a: seq<Metric>, b: seq<Metric>, n: string)
    ensures ScoreTotal(a + b, n) == ScoreTotal(a, n) + ScoreTotal(b, n)
  {
    if |b| > 0 {
      assert (a + b)[..|a + b| - 1] == a + b[..|b| - 1];
      ScoreTotalAppend(a, b[..|b| - 1], n);
    } else {
      assert a + b == a;
    }
  }

  lemma {:induction false} CountAppend(a: seq<string>, b: seq<string>, n: string)
    ensures Count(a + b, n) == Count(a, n) + Count(b, n)
  {
    if |b| > 0 {
      assert (a + b)[..|a + b| - 1] == a + b[..|b| - 1];
      CountAppend(a, b[..|b| - 1], n);
    } else {
      assert a + b == a;
    }
  }

  lemma {:induction false} NamesAppend(a: seq<Metric>, b: seq<Metric>)
    ensures Names(a + b) == Names(a) + Names(b)
  {
  }

  lemma {:induction false} StandardNamesDistinct()
    ensures Distinct(StandardNames)
  {
    assert TextClarityName[0] != NoiseLevelName[0];
    assert TextClarityName[0] != SkewRotationName[0];
    assert NoiseLevelName[0] != SkewRotationName[0];
  }

  lemma {:induction false} StandardPageTotals(ms: seq<Metric>, k: nat)
    requires Names(ms) == StandardNames && k < 3
    ensures ScoreTotal(ms, StandardNames[k]) == ms[k].score
    ensures Count(Names(ms), StandardNames[k]) == 1
  {
    var n := StandardNames[k];
    StandardNamesDistinct();
    assert ms[0].name == StandardNames[0] && ms[1].name == StandardNames[1] && ms[2].name == StandardNames[2];
    assert ms[..2][..1] == ms[..1] && ms[..1][..0] == [];
    assert ScoreTotal(ms[..1], n) == (if k == 0 then ms[0].score else 0.0);
    assert ScoreTotal(ms[..2], n) == ScoreTotal(ms[..1], n) + (if k == 1 then ms[1].score else 0.0);
    assert ScoreTotal(ms, n) == ScoreTotal(ms[..2], n) + (if k == 2 then ms[2].score else 0.0);
    var ns := StandardNames;
    assert ns[..2][..1] == ns[..1] && ns[..1][..0] == [];
    assert Count(ns[..1], n) == (if k == 0 then 1 else 0);
    assert Count(ns[..2], n) == Count(ns[..1], n) + (if k == 1 then 1 else 0);
    assert Count(ns, n) == Count(ns[..2], n) + (if k == 2 then 1 else 0);
  }

  /** Over standard pages, each standard name's total is its column sum and its count the page count. */
  lemma {:induction false} StandardTotals(results: seq<PageAnalysisResult>, k: nat)
    requires StandardPages(results) && k < 3
    ensures ScoreTotal(AllMetrics(results), StandardNames[k]) == Stats.Sum(Column(results, k))
    ensures Count(Names(AllMetrics(results)), StandardNames[k]) == |results|
  {
    if |results| > 0 {
      var pre, last := results[..|results| - 1], results[|results| - 1];
      var n := StandardNames[k];
      assert StandardPages(pre);
      StandardTotals(pre, k);
      var a := AllMetrics(pre);
      assert AllMetrics(results) == a + last.metrics;
      StandardPageTotals(last.metrics, k);
      assert ScoreTotal(AllMetrics(results), n) == Stats.Sum(Column(results, k)) by {
        ScoreTotalAppend(a, last.metrics, n);
        assert Column(results, k)[..|results| - 1] == Column(pre, k);
      }
      assert Count(Names(AllMetrics(results)), n) == |results| by {
        NamesAppend(a, last.metrics);
        CountAppend(Names(a), Names(last.metrics), n);
      }
    }
  }

  lemma {:induction false} FirstSeenStandard()
    ensures FirstSeen(StandardNames) == StandardNames
  {
    var a, b, c := StandardNames[0], StandardNames[1], StandardNames[2];
    StandardNamesDistinct();
    assert a != b && a != c && b != c;
    assert FirstSeen([a]) == [a] by {
      FirstSeenSnoc([], a);
      assert [] + [a] == [a];
    }
    assert FirstSeen([a, b]) == [a, b] by {
      FirstSeenSnoc([a], b);
      assert [a] + [b] == [a, b];
    }
    assert FirstSeen([a, b, c]) == [a, b, c] by {
      FirstSeenSnoc([a, b], c);
      assert [a, b] + [c] == [a, b, c];
    }
    assert StandardNames == [a, b, c];
  }

  /** Over standard pages, names are first seen in the fixed order, all on the first page. */
  lemma {:induction false} StandardFirstSeen(results: seq<PageAnalysisResult>)
    requires |results| > 0 && StandardPages(results)
    ensures FirstSeen(Names(AllMetrics(results))) == StandardNames
    ensures forall k :: 0 <= k < 3 ==>
      StandardNames[k] in Names(AllMetrics(results)) &&
      FirstWith(AllMetrics(results), StandardNames[k]) == results[0].metrics[k]
  {
    var pre, last := results[..|results| - 1], results[|results| - 1];
    var a := AllMetrics(pre);
    assert AllMetrics(results) == a + last.metrics;
    NamesAppend(a, last.metrics);
    if |pre| == 0 {
      assert AllMetrics(results) == last.metrics;
      FirstPageFirstSeen(last.metrics);
    } else {
      assert StandardPages(pre);
      StandardFirstSeen(pre);
      assert pre[0] == results[0];
      LaterPageFirstSeen(a, last.metrics);
    }
  }

  lemma {:induction false} FirstPageFirstSeen(ms: seq<Metric>)
    requires Names(ms) == StandardNames
    ensures FirstSeen(Names(ms)) == StandardNames
    ensures forall k :: 0 <= k < 3 ==> StandardNames[k] in Names(ms) && FirstWith(ms, StandardNames[k]) == ms[k]
  {
    StandardNamesDistinct();
    FirstSeenStandard();
    forall k | 0 <= k < 3 ensures IndexOf(Names(ms), StandardNames[k]) == k {
      assert StandardNames[k] in StandardNames;
    }
  }

  lemma {:induction false} LaterPageFirstSeen(a: seq<Metric>, ms: seq<Metric>)
    requires Names(ms) == StandardNames
    requires FirstSeen(Names(a)) == StandardNames
    ensures FirstSeen(Names(a + ms)) == StandardNames
    ensures forall k :: 0 <= k < 3 ==> FirstWith(a + ms, StandardNames[k]) == FirstWith(a, StandardNames[k])
  {
    NamesAppend(a, ms);
    forall i | 0 <= i < |Names(ms)| ensures Names(ms)[i] in Names(a) {
      assert Names(ms)[i] == StandardNames[i];
      assert StandardNames[i] in FirstSeen(Names(a));
    }
    FirstSeenAppendSeen(Names(a), Names(ms));
    forall k | 0 <= k < 3 ensures FirstWith(a + ms, StandardNames[k]) == FirstWith(a, StandardNames[k]) {
      assert StandardNames[k] in FirstSeen(Names(a));
      IndexOfAppend(Names(a), Names(ms), StandardNames[k]);
    }
  }

  /** Appending elements already seen leaves the first-seen order unchanged. */
  lemma {:induction false} FirstSeenAppendSeen(a: seq<string>, b: seq<string>)
    requires forall i :: 0 <= i < |b| ==> b[i] in a
    ensures FirstSeen(a + b) == FirstSeen(a)
  {
    if |b| > 0 {
      var b0 := b[..|b| - 1];
      FirstSeenAppendSeen(a, b0);
      assert a + b == (a + b0) + [b[|b| - 1]];
      FirstSeenSnoc(a + b0, b[|b| - 1]);
    } else {
      assert a + b == a;
    }
  }

  lemma {:induction false} IndexOfAppend(a: seq<string>, b: seq<string>, x: string)
    requires x in a
    ensures IndexOf(a + b, x) == IndexOf(a, x)
  {
    var k := IndexOf(a, x);
    assert (a + b)[k] == x;
    assert forall j :: 0 <= j < k ==> (a + b)[j] == a[j];
  }

  /** Pages that all carry clarity, noise and skew average to exactly those three metrics, in that
      order, each scored with the mean of its per-page scores. */
  lemma {:induction false} StandardAverageMetrics(results: seq<PageAnalysisResult>)
    requires |results| > 0 && StandardPages(results)
    ensures |AverageMetrics(AllMetrics(results))| == 3
    ensures Names(AverageMetrics(AllMetrics(results))) == StandardNames
    ensures forall k :: 0 <= k < 3 ==>
      var a := AverageMetrics(AllMetrics(results))[k];
      && a.score == Stats.Mean(Column(results, k))
      && a.weight == results[0].metrics[k].weight
      && a.description == results[0].metrics[k].description
  {
    StandardFirstSeen(results);
    AverageMetricsNames(AllMetrics(results));
    forall k | 0 <= k < 3
      ensures var a := AverageMetrics(AllMetrics(results))[k];
        && a.score == Stats.Mean(Column(results, k))
        && a.weight == results[0].metrics[k].weight
        && a.description == results[0].metrics[k].description
    {
      StandardEntry(results, k);
    }
  }

  lemma {:induction false} StandardEntry(results: seq<PageAnalysisResult>, k: nat)
    requires |results| > 0 && StandardPages(results) && k < 3
    requires FirstSeen(Names(AllMetrics(results))) == StandardNames
    requires StandardNames[k] in Names(AllMetrics(results))
    requires FirstWith(AllMetrics(results), StandardNames[k]) == results[0].metrics[k]
    ensures k < |AverageMetrics(AllMetrics(results))|
    ensures AverageMetrics(AllMetrics(results))[k].score == Stats.Mean(Column(results, k))
    ensures AverageMetrics(AllMetrics(results))[k].weight == results[0].metrics[k].weight
    ensures AverageMetrics(AllMetrics(results))[k].description == results[0].metrics[k].description
  {
    var ms := AllMetrics(results);
    var n := StandardNames[k];
    assert AverageMetrics(ms)[k] == AverageOf(ms, n);
    StandardTotals(results, k);
  }

  /** The per-page overall scores, in page order. */
  function OverallScores(results: seq<PageAnalysisResult>): (s: seq<real>)
    ensures |s| == |results|
  {
    seq(|results|, p requires 0 <= p < |results| => results[p].overallScore)
  }

  /** The document score: the unweighted mean of the page scores. */
  function DocumentScore(results: seq<PageAnalysisResult>): real
    requires |results| > 0
  {
    Stats.Mean(OverallScores(results))
  }

  /** Page scores in [0, 100] give a document score in [0, 100]. */
  lemma {:induction false} DocumentScoreInRange(results: seq<PageAnalysisResult>)
    requires |results| > 0
    requires forall p :: 0 <= p < |results| ==> 0.0 <= results[p].overallScore <= 100.0
    ensures 0.0 <= DocumentScore(results) <= 100.0
  {
    Stats.MeanBetween(OverallScores(results), 0.0, 100.0);
  }

  /** Standard pages whose metric scores lie in [0, 100] average to three metrics in [0, 100]. */
  lemma {:induction false} AverageMetricsInRange(results: seq<PageAnalysisResult>)
    requires |results| > 0 && StandardPages(results)
    requires forall p, k :: 0 <= p < |results| && 0 <= k < 3 ==> 0.0 <= results[p].metrics[k].score <= 100.0
    ensures Names(AverageMetrics(AllMetrics(results))) == StandardNames
    ensures forall k :: 0 <= k < 3 ==> 0.0 <= AverageMetrics(AllMetrics(results))[k].score <= 100.0
  {
    StandardAverageMetrics(results);
    var a := AverageMetrics(AllMetrics(results));
    forall k | 0 <= k < 3
      ensures 0.0 <= a[k].score <= 100.0
    {
      assert a[k].score == Stats.Mean(Column(results, k));
      ColumnInRange(results, k);
    }
  }

  lemma {:induction false} ColumnInRange(results: seq<PageAnalysisResult>, k: nat)
    requires |results| > 0 && k < 3 && StandardPages(results)
    requires forall p, k :: 0 <= p < |results| && 0 <= k < 3 ==> 0.0 <= results[p].metrics[k].score <= 100.0
    ensures 0.0 <= Stats.Mean(Column(results, k)) <= 100.0
  {
    var col := Column(results, k);
    assert forall p :: 0 <= p < |col| ==> 0.0 <= col[p] <= 100.0;
    Stats.MeanBetween(col, 0.0, 100.0);
  }
}
