/** The noise heuristic: quantized colour counts, the two dominant colours, and the share of the rest. */
module Noise {
  import opened Pixels
  import opened Counting

  /** `Math.round(c / 16)`: the nearest of the 17 levels 0 .. 16, halves rounded up. */
  function Quantize(c: byte): (q: nat)
    ensures q <= 16
    ensures q as real - 0.5 <= c as real / 16.0 < q as real + 0.5
  {
    var q := (c + 8) / 16;
    assert 16 * q <= c + 8 < 16 * q + 16;
    assert c as real / 16.0 == (c as real + 8.0) / 16.0 - 0.5;
    q
  }

  /** A quantized colour. The source keys it by the string "r,g,b"; distinct colours give distinct strings. */
  datatype Color = Color(r: nat, g: nat, b: nat)

  /** The quantized colour of the pixel whose red sample is at offset i. */
  function ColorAt(data: seq<byte>, i: nat): (c: Color)
    requires i + 2 < |data|
    ensures c.r <= 16 && c.g <= 16 && c.b <= 16
  {
    Color(Quantize(data[i]), Quantize(data[i + 1]), Quantize(data[i + 2]))
  }

  /** How many offsets 0, 32, 64, ... lie below n. */
  function SampleCount(n: nat): nat {
    (n + 31) / 32
  }

  lemma {:induction false} SampleOffset(n: nat, k: nat)
    requires n % 4 == 0 && k < SampleCount(n)
    ensures 32 * k + 3 < n
  {
    var q, r := (n + 31) / 32, (n + 31) % 32;
    assert n + 31 == 32 * q + r && 0 <= r < 32;
    assert 32 * k + 32 <= 32 * q;
    var m := n / 4;
    assert n == 4 * m;
    assert 8 * k < m;
  }

  /** The colours of every eighth pixel (every 32nd byte), in buffer order. */
  function Samples(data: seq<byte>): (s: seq<Color>)
    requires |data| % 4 == 0
    ensures |s| == SampleCount(|data|)
  {
    seq(SampleCount(|data|), k requires 0 <= k < SampleCount(|data|) =>
      SampleOffset(|data|, k);
      ColorAt(data, 32 * k))
  }

  /** The dictionary of colour counts once the colours of s have been tallied. */
  function CountsOf(s: seq<Color>): (m: map<Color, nat>)
    ensures forall c :: c in m <==> c in s
  {
    map c | c in s :: Count(s, c)
  }

  /** The count of each key, in key order: the values of `Object.entries`. */
  function Tally(keys: seq<Color>, s: seq<Color>): (vals: seq<nat>)
    ensures |vals| == |keys|
    ensures forall k :: 0 <= k < |keys| ==> vals[k] == Count(s, keys[k])
  {
    seq(|keys|, k requires 0 <= k < |keys| => Count(s, keys[k]))
  }

  /** The earliest index, other than skip, holding the largest value; -1 when there is none. */
  function Best(vals: seq<nat>, skip: int): (k: int)
    ensures -1 <= k < |vals|
    ensures k == -1 <==> |vals| <= (if 0 <= skip < |vals| then 1 else 0)
    ensures k >= 0 ==> k != skip
    ensures k >= 0 ==> forall i :: 0 <= i < |vals| && i != skip ==> vals[i] <= vals[k]
    ensures k >= 0 ==> forall i :: 0 <= i < k && i != skip ==> vals[i] < vals[k]
  {
    if |vals| == 0 then -1
    else
      var last := |vals| - 1;
      var b := Best(vals[..last], skip);
      assert forall i :: 0 <= i < last ==> vals[..last][i] == vals[i];
      if last == skip then b
      else if b == -1 || vals[last] > vals[b] then last
      else b
  }

  /** Best is the only index with its characterization. */
  lemma {:induction false} BestUnique(vals: seq<nat>, skip: int, k: int)
    requires 0 <= k < |vals| && k != skip
    requires forall i :: 0 <= i < |vals| && i != skip ==> vals[i] <= vals[k]
    requires forall i :: 0 <= i < k && i != skip ==> vals[i] < vals[k]
    ensures Best(vals, skip) == k
  {
  }

  /**
   * perm lists the entry indices in a stable descending order of their values: a permutation of
   * 0 .. |vals|-1 (rank gives each index's position), non-increasing in value, equal values kept
   * in their original order.
   */
  predicate StableDescending(vals: seq<nat>, perm: seq<nat>, rank: seq<nat>)
  {
    && |perm| == |vals| && |rank| == |vals|
    && (forall j :: 0 <= j < |perm| ==> perm[j] < |vals|)
    && (forall m :: 0 <= m < |vals| ==> rank[m] < |perm| && perm[rank[m]] == m)
    && (forall i, j :: 0 <= i < j < |perm| ==>
          vals[perm[i]] > vals[perm[j]] || (vals[perm[i]] == vals[perm[j]] && perm[i] < perm[j]))
  }

  /**
   * The first two entries of a stable sort by descending count are the earliest largest entry
   * and the earliest largest of the others: what the background and foreground picks use.
   */
  lemma {:induction false} StableSortHead(vals: seq<nat>, perm: seq<nat>, rank: seq<nat>)
    requires StableDescending(vals, perm, rank) && |vals| >= 1
    ensures perm[0] == Best(vals, -1)
    ensures |vals| >= 2 ==> perm[1] == Best(vals, perm[0])
  {
    SortFirst(vals, perm, rank);
    if |vals| >= 2 {
      SortSecond(vals, perm, rank);
    }
  }

  lemma {:induction false} SortFirst(vals: seq<nat>, perm: seq<nat>, rank: seq<nat>)
    requires StableDescending(vals, perm, rank) && |vals| >= 1
    ensures perm[0] == Best(vals, -1)
  {
    var p := perm[0];
    forall m | 0 <= m < |vals| ensures vals[m] <= vals[p] && (m < p ==> vals[m] < vals[p]) {
      var j := rank[m];
      if j > 0 {
        assert vals[p] > vals[perm[j]] || (vals[p] == vals[perm[j]] && p < perm[j]);
      }
    }
    BestUnique(vals, -1, p);
  }

  lemma {:induction false} SortSecond(vals: seq<nat>, perm: seq<nat>, rank: seq<nat>)
    requires StableDescending(vals, perm, rank) && |vals| >= 2
    ensures perm[1] == Best(vals, perm[0])
  {
    var p, q := perm[0], perm[1];
    assert q != p by {
      assert vals[p] > vals[q] || p < q;
    }
    forall m | 0 <= m < |vals| && m != p ensures vals[m] <= vals[q] && (m < q ==> vals[m] < vals[q]) {
      var j := rank[m];
      assert j != 0;
      if j > 1 {
        assert vals[q] > vals[perm[j]] || (vals[q] == vals[perm[j]] && q < perm[j]);
      }
    }
    BestUnique(vals, p, q);
  }

  /**
   * The background and foreground colours: the most frequent colour, earliest on ties, and the
   * most frequent of the others, earliest on ties.
   */
  function Dominant(s: seq<Color>): (r: (Color, Color))
    requires |FirstSeen(s)| >= 2
    ensures r.0 in s && r.1 in s && r.0 != r.1
    ensures forall c :: c in s ==> Count(s, c) <= Count(s, r.0)
    ensures forall c :: c in s && c != r.0 ==> Count(s, c) <= Count(s, r.1)
  {
    var keys := FirstSeen(s);
    FirstSeenDistinct(s);
    var vals := Tally(keys, s);
    var b0 := Best(vals, -1);
    var b1 := Best(vals, b0);
    assert forall c :: c in s ==> c in keys && vals[IndexOf(keys, c)] == Count(s, c);
    (keys[b0], keys[b1])
  }

  /** Sum of the counts of the keys that are neither bg nor fg. */
  function NoisyCount(keys: seq<Color>, s: seq<Color>, bg: Color, fg: Color): nat
  {
    if |keys| == 0 then 0
    else
      var last := keys[|keys| - 1];
      NoisyCount(keys[..|keys| - 1], s, bg, fg) + (if last != bg && last != fg then Count(s, last) else 0)
  }

  /** `Math.max(0, x)`. */
  function Max0(x: real): real {
    if x > 0.0 then x else 0.0
  }

  /** The score for noisy samples out of total: three points off per percent, never below 0. */
  function Penalty(noisy: nat, total: nat): real
    requires total > 0
  {
    Max0(100.0 - (noisy as real / total as real * 100.0) * 3.0)
  }

  /** The score of s when bg and fg are taken for background and foreground. */
  function PairScore(s: seq<Color>, bg: Color, fg: Color): real
    requires |s| > 0
  {
    Penalty(NoisyCount(FirstSeen(s), s, bg, fg), |s|)
  }

  /** The noise score of the sampled colours s. */
  function SampleScore(s: seq<Color>): real
  {
    if |FirstSeen(s)| < 2 then 100.0
    else PairScore(s, Dominant(s).0, Dominant(s).1)
  }

  /** The noise score of a page buffer. */
  function NoiseScore(data: seq<byte>): real
    requires |data| % 4 == 0
  {
    SampleScore(Samples(data))
  }

  // ---------------------------------------------------------------------------------------------
  // The analyzer

  lemma {:induction false} CountsStep(s: seq<Color>, c: Color)
    ensures CountsOf(s + [c]) == CountsOf(s)[c := (if c in CountsOf(s) then CountsOf(s)[c] else 0) + 1]
  {
    var m1, m2 := CountsOf(s + [c]), CountsOf(s)[c := (if c in CountsOf(s) then CountsOf(s)[c] else 0) + 1];
    forall d | d in m1 ensures d in m2 && m1[d] == m2[d] {
      CountSnoc(s, c, d);
      if d == c && c !in s {
        assert Count(s, c) == 0;
      }
    }
    assert m1.Keys == m2.Keys;
  }

  lemma {:induction false} SamplesPrefix(data: seq<byte>, j: nat)
    requires |data| % 4 == 0 && j < SampleCount(|data|)
    ensures 32 * j + 2 < |data|
    ensures Samples(data)[..j + 1] == Samples(data)[..j] + [ColorAt(data, 32 * j)]
  {
    SampleOffset(|data|, j);
    assert Samples(data)[..j + 1] == Samples(data)[..j] + [Samples(data)[j]];
  }

  lemma {:induction false} LoopBound(n: nat, i: nat, j: nat)
    requires i == 32 * j
    ensures j < SampleCount(n) <==> i < n
  {
  }

  /** The counting loop: tallies the quantized colour of every 32nd byte, keys in insertion order. */
  method CountColors(data: seq<byte>) returns (colorCounts: map<Color, nat>, keys: seq<Color>)
    requires |data| % 4 == 0
    ensures colorCounts == CountsOf(Samples(data))
    ensures keys == FirstSeen(Samples(data))
  {
    ghost var s := Samples(data);
    colorCounts, keys := map[], [];
    var i := 0;
    ghost var j := 0;
    while i < |data|
      invariant i == 32 * j && j <= |s|
      invariant colorCounts == CountsOf(s[..j])
      invariant keys == FirstSeen(s[..j])
      decreases |data| - i
    {
      LoopBound(|data|, i, j);
      SamplesPrefix(data, j);
      var key := ColorAt(data, i);
      CountsStep(s[..j], key);
      FirstSeenSnoc(s[..j], key);
      colorCounts, keys := AddSample(colorCounts, keys, key);
      i, j := i + 32, j + 1;
    }
    LoopBound(|data|, i, j);
    assert s[..j] == s;
  }

  /** The loop body of the counting: `(colorCounts[key] || 0) + 1`, a new key going last. */
  method AddSample(counts: map<Color, nat>, order: seq<Color>, key: Color)
    returns (colorCounts: map<Color, nat>, keys: seq<Color>)
    ensures colorCounts == counts[key := (if key in counts then counts[key] else 0) + 1]
    ensures keys == if key in counts then order else order + [key]
  {
    keys := order;
    if key !in counts {
      keys := keys + [key];
    }
    colorCounts := counts[key := (if key in counts then counts[key] else 0) + 1];
  }

  lemma {:induction false} NoisyStep(keys: seq<Color>, s: seq<Color>, bg: Color, fg: Color, k: nat)
    requires k < |keys|
    ensures NoisyCount(keys[..k + 1], s, bg, fg) ==
      NoisyCount(keys[..k], s, bg, fg) + (if keys[k] != bg && keys[k] != fg then Count(s, keys[k]) else 0)
    ensures SumCounts(keys[..k + 1], s) == SumCounts(keys[..k], s) + Count(s, keys[k])
  {
    assert keys[..k + 1][..k] == keys[..k];
  }

  /** The second pass over the entries: samples of other colours, and all samples. */
  method SumEntries(keys: seq<Color>, vals: seq<nat>, ghost s: seq<Color>, bg: Color, fg: Color)
    returns (noisyPixels: nat, totalPixels: nat)
    requires vals == Tally(keys, s)
    ensures noisyPixels == NoisyCount(keys, s, bg, fg)
    ensures totalPixels == SumCounts(keys, s)
  {
    noisyPixels, totalPixels := 0, 0;
    for k := 0 to |keys|
      invariant noisyPixels == NoisyCount(keys[..k], s, bg, fg)
      invariant totalPixels == SumCounts(keys[..k], s)
    {
      NoisyStep(keys, s, bg, fg, k);
      if keys[k] != bg && keys[k] != fg {
        noisyPixels := noisyPixels + vals[k];
      }
      totalPixels := totalPixels + vals[k];
    }
    assert keys[..|keys|] == keys;
  }

  /** Scores the noise of a page: 100 with fewer than two colours, else the penalty for the rest. */
  method AnalyzeNoise(data: seq<byte>) returns (score: real)
    requires |data| % 4 == 0
    ensures score == NoiseScore(data)
    ensures |FirstSeen(Samples(data))| < 2 ==> score == 100.0
    ensures 0.0 <= score <= 100.0
  {
    var colorCounts, keys := CountColors(data);
    ghost var s := Samples(data);
    var entries := seq(|keys|, k requires 0 <= k < |keys| => colorCounts[keys[k]]);
    assert entries == Tally(keys, s);
    var bgColor := Best(entries, -1);
    var fgColor := if bgColor < 0 then -1 else Best(entries, bgColor);
    SampleScoreInRange(s);
    if bgColor < 0 || fgColor < 0 {
      return 100.0;
    }
    var noisyPixels, totalPixels := SumEntries(keys, entries, s, keys[bgColor], keys[fgColor]);
    FirstSeenCountsAll(s);
    var noisePercentage := (noisyPixels as real / totalPixels as real) * 100.0;
    score := Max0(100.0 - noisePercentage * 3.0);
  }

  // ---------------------------------------------------------------------------------------------
  // Properties

  /** Leaving out two distinct keys leaves the total less their two counts. */
  lemma {:induction false} NoisySplit(keys: seq<Color>, s: seq<Color>, bg: Color, fg: Color)
    requires Distinct(keys) && bg != fg
    ensures NoisyCount(keys, s, bg, fg)
      + (if bg in keys then Count(s, bg) else 0)
      + (if fg in keys then Count(s, fg) else 0) == SumCounts(keys, s)
  {
    if |keys| > 0 {
      var ks, k := keys[..|keys| - 1], keys[|keys| - 1];
      assert keys == ks + [k];
      assert Distinct(ks);
      assert k !in ks;
      NoisySplit(ks, s, bg, fg);
    }
  }

  /** With two or more colours, the noisy samples are all samples but those of the two dominant colours. */
  lemma {:induction false} SampleScoreFormula(s: seq<Color>)
    requires |FirstSeen(s)| >= 2
    ensures Count(s, Dominant(s).0) + Count(s, Dominant(s).1) <= |s|
    ensures SampleScore(s) == Penalty(|s| - Count(s, Dominant(s).0) - Count(s, Dominant(s).1), |s|)
  {
    var d := Dominant(s);
    assert SampleScore(s) == PairScore(s, d.0, d.1);
    PairScoreFormula(s, d.0, d.1);
  }

  /** Taking any two distinct present colours as the pair, the rest are noise. */
  lemma {:induction false} PairScoreFormula(s: seq<Color>, bg: Color, fg: Color)
    requires bg in s && fg in s && bg != fg
    ensures Count(s, bg) + Count(s, fg) <= |s|
    ensures PairScore(s, bg, fg) == Penalty(|s| - Count(s, bg) - Count(s, fg), |s|)
  {
    PairScoreSwap(s, bg, fg, bg, fg);
  }

  /** The pair's score only depends on how many samples the pair covers. */
  lemma {:induction false} PairScoreSwap(s: seq<Color>, bg: Color, fg: Color, a: Color, b: Color)
    requires bg in s && fg in s && bg != fg
    requires Count(s, a) + Count(s, b) == Count(s, bg) + Count(s, fg)
    ensures Count(s, a) + Count(s, b) <= |s|
    ensures PairScore(s, bg, fg) == Penalty(|s| - Count(s, a) - Count(s, b), |s|)
  {
    PairNoise(s, bg, fg);
    PenaltyOfSplit(NoisyCount(FirstSeen(s), s, bg, fg), Count(s, a), Count(s, b), |s|);
  }

  lemma {:induction false} PairNoise(s: seq<Color>, bg: Color, fg: Color)
    requires bg in s && fg in s && bg != fg
    ensures NoisyCount(FirstSeen(s), s, bg, fg) + Count(s, bg) + Count(s, fg) == |s|
  {
    FirstSeenCountsAll(s);
    FirstSeenDistinct(s);
    NoisySplit(FirstSeen(s), s, bg, fg);
  }

  lemma {:induction false} PenaltyOfSplit(noisy: nat, a: nat, b: nat, total: nat)
    requires noisy + a + b == total && total > 0
    ensures a + b <= total && Penalty(noisy, total) == Penalty(total - a - b, total)
  {
  }

  /** Whichever tied colours are kept, the score depends only on the two largest counts. */
  lemma {:induction false} SampleScoreAnyTopPair(s: seq<Color>, a: Color, b: Color)
    requires a in s && b in s && a != b
    requires forall c, d :: c in s && d in s && c != d ==> Count(s, c) + Count(s, d) <= Count(s, a) + Count(s, b)
    ensures Count(s, a) + Count(s, b) <= |s|
    ensures SampleScore(s) == Penalty(|s| - Count(s, a) - Count(s, b), |s|)
  {
    TwoDistinct(s, a, b);
    var bg, fg := Dominant(s).0, Dominant(s).1;
    assert Count(s, a) + Count(s, b) == Count(s, bg) + Count(s, fg) by {
      assert Count(s, bg) + Count(s, fg) <= Count(s, a) + Count(s, b);
      if a == bg {
        assert Count(s, b) <= Count(s, fg);
      } else if b == bg {
        assert Count(s, a) <= Count(s, fg);
      } else {
        assert Count(s, a) <= Count(s, fg) && Count(s, b) <= Count(s, fg);
        assert Count(s, a) <= Count(s, bg) && Count(s, b) <= Count(s, bg);
      }
    }
    PairScoreSwap(s, bg, fg, a, b);
  }

  lemma {:induction false} TwoDistinct(s: seq<Color>, a: Color, b: Color)
    requires a in s && b in s && a != b
    ensures |FirstSeen(s)| >= 2
  {
    var keys := FirstSeen(s);
    assert a in keys && b in keys;
    var i, j := IndexOf(keys, a), IndexOf(keys, b);
    assert i != j;
  }

  /** The score lies in [0, 100]. */
  lemma {:induction false} SampleScoreInRange(s: seq<Color>)
    ensures 0.0 <= SampleScore(s) <= 100.0
  {
    if |FirstSeen(s)| >= 2 {
      PairScoreInRange(s, Dominant(s).0, Dominant(s).1);
    }
  }

  lemma {:induction false} PairScoreInRange(s: seq<Color>, bg: Color, fg: Color)
    requires bg in s && fg in s && bg != fg
    ensures 0.0 <= PairScore(s, bg, fg) <= 100.0
  {
    PairNoise(s, bg, fg);
    PenaltyInRange(NoisyCount(FirstSeen(s), s, bg, fg), |s|);
  }

  lemma {:induction false} PenaltyInRange(noisy: nat, total: nat)
    requires 0 < total && noisy <= total
    ensures 0.0 <= Penalty(noisy, total) <= 100.0
  {
    assert noisy as real / total as real >= 0.0;
  }

  /** A page of exactly two quantized colours, say text and paper, has no noise. */
  lemma {:induction false} TwoColorsScoreFull(s: seq<Color>)
    requires |FirstSeen(s)| == 2
    ensures SampleScore(s) == 100.0
  {
    TwoKeysCoverAll(s, Dominant(s).0, Dominant(s).1);
    PairScoreCovering(s, Dominant(s).0, Dominant(s).1);
  }

  /** A pair that covers every sample leaves no noise. */
  lemma {:induction false} PairScoreCovering(s: seq<Color>, bg: Color, fg: Color)
    requires bg in s && fg in s && bg != fg
    requires Count(s, bg) + Count(s, fg) == |s|
    ensures PairScore(s, bg, fg) == 100.0
  {
    PairNoise(s, bg, fg);
    PenaltyNone(NoisyCount(FirstSeen(s), s, bg, fg), |s|);
  }

  lemma {:induction false} PenaltyNone(noisy: nat, total: nat)
    requires noisy == 0 && total > 0
    ensures Penalty(noisy, total) == 100.0
  {
  }

  lemma {:induction false} TwoKeysCoverAll(s: seq<Color>, a: Color, b: Color)
    requires |FirstSeen(s)| == 2 && a in s && b in s && a != b
    ensures Count(s, a) + Count(s, b) == |s|
  {
    var keys := FirstSeen(s);
    FirstSeenCountsAll(s);
    PairSum(keys, s, a, b);
  }

  lemma {:induction false} PairSum(keys: seq<Color>, s: seq<Color>, a: Color, b: Color)
    requires |keys| == 2 && a in keys && b in keys && a != b
    ensures SumCounts(keys, s) == Count(s, a) + Count(s, b)
  {
    assert keys[..1][..0] == [] && keys[..1][0] == keys[0];
    assert SumCounts(keys[..1], s) == Count(s, keys[0]);
    assert a == keys[0] || a == keys[1];
    assert b == keys[0] || b == keys[1];
  }

  /** The colour counts add up to one per sample: ceil(|data| / 32). */
  lemma {:induction false} CountsCoverSamples(data: seq<byte>)
    requires |data| % 4 == 0
    ensures SumCounts(FirstSeen(Samples(data)), Samples(data)) == (|data| + 31) / 32
  {
    FirstSeenCountsAll(Samples(data));
  }
}
