/**
 * The text-uniformity heuristic: a Sobel pass over the 8-bit grayscale page, a histogram of the
 * directions of the strong edges, and how far that histogram is from flat.
 */
module Uniformity {
  import opened Pixels
  import opened Counting
  import Stats

  /** One of the eight 45-degree direction sectors. */
  type Bin = b: int | 0 <= b < 8

  /** The grayscale page as stored into a `Uint8Array`: each luma truncated to an integer. */
  function Grayscale(data: seq<byte>): (g: seq<int>)
    requires |data| % 4 == 0
    ensures |g| == |data| / 4
    ensures forall k :: 0 <= k < |g| ==> 0 <= g[k] <= 255
    ensures forall k :: 0 <= k < |g| ==> g[k] as real <= Luma(data, 4 * k) < g[k] as real + 1.0
  {
    seq(|data| / 4, k requires 0 <= k < |data| / 4 => Gray8(data, 4 * k))
  }

  const SobelX: seq<seq<int>> := [[-1, 0, 1], [-2, 0, 2], [-1, 0, 1]]
  const SobelY: seq<seq<int>> := [[-1, -2, -1], [0, 0, 0], [1, 2, 1]]

  predicate IsKernel(kernel: seq<seq<int>>) {
    |kernel| == 3 && forall r :: 0 <= r < 3 ==> |kernel[r]| == 3
  }

  /** The grayscale value at column x of row y. */
  function Pixel(g: seq<int>, w: nat, h: nat, x: nat, y: nat): int
    requires |g| == w * h && x < w && y < h
  {
    PixelInBounds(w, h, x, y);
    g[y * w + x]
  }

  /** (x, y) is an interior pixel: all eight neighbours exist. */
  predicate Interior(w: nat, h: nat, x: nat, y: nat) {
    1 <= x && x + 1 < w && 1 <= y && y + 1 < h
  }

  /** The first n products of kernel row ky with the pixels of row y + ky - 1 around column x. */
  function KernelRow(g: seq<int>, w: nat, h: nat, x: nat, y: nat, kernel: seq<seq<int>>, ky: nat, n: nat): int
    requires |g| == w * h && Interior(w, h, x, y) && IsKernel(kernel) && ky < 3 && n <= 3
  {
    if n == 0 then 0
    else KernelRow(g, w, h, x, y, kernel, ky, n - 1) + Pixel(g, w, h, x + n - 2, y + ky - 1) * kernel[ky][n - 1]
  }

  /** The products of the first n kernel rows with the neighbourhood of (x, y), row by row. */
  function KernelSum(g: seq<int>, w: nat, h: nat, x: nat, y: nat, kernel: seq<seq<int>>, n: nat): int
    requires |g| == w * h && Interior(w, h, x, y) && IsKernel(kernel) && n <= 3
  {
    if n == 0 then 0
    else KernelSum(g, w, h, x, y, kernel, n - 1) + KernelRow(g, w, h, x, y, kernel, n - 1, 3)
  }

  /** Horizontal Sobel response at (x, y). */
  function Gx(g: seq<int>, w: nat, h: nat, x: nat, y: nat): int
    requires |g| == w * h && Interior(w, h, x, y)
  {
    KernelSum(g, w, h, x, y, SobelX, 3)
  }

  /** Vertical Sobel response at (x, y). */
  function Gy(g: seq<int>, w: nat, h: nat, x: nat, y: nat): int
    requires |g| == w * h && Interior(w, h, x, y)
  {
    KernelSum(g, w, h, x, y, SobelY, 3)
  }

  /** `sqrt(gx * gx + gy * gy) > 50`, in integers. */
  predicate Strong(gx: int, gy: int) {
    gx * gx + gy * gy > 2500
  }

  /**
   * The direction bins of the strong edges among the first n interior pixels of row y, left to
   * right. bin(gx, gy) stands for `floor(atan2(gy, gx)` in degrees, shifted into [0, 360), `/ 45)`.
   */
  function RowBins(g: seq<int>, w: nat, h: nat, y: nat, n: nat, bin: (int, int) -> Bin): seq<int>
    requires |g| == w * h && 1 <= y && y + 1 < h && n <= InnerCount(w)
  {
    if n == 0 then []
    else
      var gx, gy := Gx(g, w, h, n, y), Gy(g, w, h, n, y);
      RowBins(g, w, h, y, n - 1, bin) + (if Strong(gx, gy) then [bin(gx, gy) as int] else [])
  }

  /** The histogram start after the strong edges among the first n interior pixels of row y are added. */
  function RowHistogram(g: seq<int>, w: nat, h: nat, y: nat, n: nat, bin: (int, int) -> Bin,
                        start: seq<nat>): (r: seq<nat>)
    requires |g| == w * h && 1 <= y && y + 1 < h && n <= InnerCount(w)
    ensures |r| == |start|
  {
    if n == 0 then start
    else
      var gx, gy := Gx(g, w, h, n, y), Gy(g, w, h, n, y);
      var r := RowHistogram(g, w, h, y, n - 1, bin, start);
      if Strong(gx, gy) then Bump(r, bin(gx, gy) as int) else r
  }

  /** The number of interior columns (or rows) of a side of length n. */
  function InnerCount(n: nat): nat {
    if n >= 2 then n - 2 else 0
  }

  /** The direction bins of the strong edges in the first m interior rows, in scan order. */
  function GridBins(g: seq<int>, w: nat, h: nat, m: nat, bin: (int, int) -> Bin): seq<int>
    requires |g| == w * h && m <= InnerCount(h)
  {
    if m == 0 then []
    else GridBins(g, w, h, m - 1, bin) + RowBins(g, w, h, m, InnerCount(w), bin)
  }

  /** The direction bins of all strong edges of the page. */
  function EdgeBins(g: seq<int>, w: nat, h: nat, bin: (int, int) -> Bin): seq<int>
    requires |g| == w * h
  {
    GridBins(g, w, h, InnerCount(h), bin)
  }

  /** The histogram divided by the edge count. */
  function Normalized(hist: seq<nat>, count: nat): (p: seq<real>)
    requires count > 0
    ensures |p| == |hist|
    ensures forall i :: 0 <= i < |hist| ==> p[i] == hist[i] as real / count as real
  {
    seq(|hist|, i requires 0 <= i < |hist| => hist[i] as real / count as real)
  }

  const MaxVariance: real := 7.0 / 64.0

  /** `Math.min(100, x)`. */
  function Min100(x: real): real {
    if x < 100.0 then x else 100.0
  }

  /**
   * The score of a direction histogram over count strong edges: 100 with fewer than 1000 edges,
   * else the variance of the normalized bins around 1/8, as a percentage of 7/64, capped at 100.
   */
  function HistogramScore(hist: seq<nat>, count: nat): real
    requires |hist| == 8
  {
    if count < 1000 then 100.0
    else
      var normalizedVariance := Stats.SqDev(Normalized(hist, count), 1.0 / 8.0) / 8.0;
      Min100(normalizedVariance / MaxVariance * 100.0)
  }

  /** The uniformity score of a page. */
  function UniformityScore(img: Image, bin: (int, int) -> Bin): (r: real)
    requires WellFormed(img)
    ensures 0.0 <= r <= 100.0
  {
    var bins := EdgeBins(Grayscale(img.data), img.width, img.height, bin);
    HistogramScoreInRange(Histogram(bins, 8), |bins|);
    HistogramScore(Histogram(bins, 8), |bins|)
  }

  // ---------------------------------------------------------------------------------------------
  // The analyzer

  /** Fills the grayscale buffer, one truncated luma per pixel. */
  method ToGrayscale(data: seq<byte>, w: nat, h: nat) returns (grayscale: array<int>)
    requires |data| == 4 * (w * h)
    ensures grayscale.Length == w * h
    ensures grayscale[..] == Grayscale(data)
  {
    grayscale := new int[w * h](_ => 0);
    var i := 0;
    ghost var k := 0;
    while i < |data|
      invariant i == 4 * k && k <= w * h
      invariant forall p :: 0 <= p < k ==> grayscale[p] == Gray8(data, 4 * p)
      decreases |data| - i
    {
      grayscale[i / 4] := Gray8(data, i);
      i, k := i + 4, k + 1;
    }
    assert grayscale[..] == Grayscale(data);
  }

  /** The 3 x 3 kernel loops at (x, y): both Sobel responses, term by term. */
  method Gradient(grayscale: array<int>, w: nat, h: nat, x: nat, y: nat) returns (gx: int, gy: int)
    requires grayscale.Length == w * h && Interior(w, h, x, y)
    ensures gx == Gx(grayscale[..], w, h, x, y)
    ensures gy == Gy(grayscale[..], w, h, x, y)
  {
    ghost var g := grayscale[..];
    gx, gy := 0, 0;
    var ky := -1;
    while ky <= 1
      invariant -1 <= ky <= 2
      invariant gx == KernelSum(g, w, h, x, y, SobelX, ky + 1)
      invariant gy == KernelSum(g, w, h, x, y, SobelY, ky + 1)
    {
      gx, gy := KernelStep(grayscale, w, h, x, y, ky, gx, gy);
      ky := ky + 1;
    }
  }

  /** The inner kernel loop: adds row ky + 1 of both kernels. */
  method KernelStep(grayscale: array<int>, w: nat, h: nat, x: nat, y: nat, ky: int, gx0: int, gy0: int)
    returns (gx: int, gy: int)
    requires grayscale.Length == w * h && Interior(w, h, x, y) && -1 <= ky <= 1
    ensures gx == gx0 + KernelRow(grayscale[..], w, h, x, y, SobelX, ky + 1, 3)
    ensures gy == gy0 + KernelRow(grayscale[..], w, h, x, y, SobelY, ky + 1, 3)
  {
    ghost var g := grayscale[..];
    gx, gy := gx0, gy0;
    var kx := -1;
    while kx <= 1
      invariant -1 <= kx <= 2
      invariant gx == gx0 + KernelRow(g, w, h, x, y, SobelX, ky + 1, kx + 1)
      invariant gy == gy0 + KernelRow(g, w, h, x, y, SobelY, ky + 1, kx + 1)
    {
      PixelInBounds(w, h, x + kx, y + ky);
      var pixelVal := grayscale[(y + ky) * w + (x + kx)];
      assert pixelVal == Pixel(g, w, h, x + kx, y + ky);
      gx := gx + pixelVal * SobelX[ky + 1][kx + 1];
      gy := gy + pixelVal * SobelY[ky + 1][kx + 1];
      kx := kx + 1;
    }
  }

  /** Scores how uniform the stroke directions of a page are, from 0 to 100. */
  method CalculateTextUniformityScore(img: Image, bin: (int, int) -> Bin) returns (score: real)
    requires WellFormed(img)
    ensures score == UniformityScore(img, bin)
    ensures |EdgeBins(Grayscale(img.data), img.width, img.height, bin)| < 1000 ==> score == 100.0
    ensures 0.0 <= score <= 100.0
  {
    var w, h := img.width, img.height;
    var grayscale := ToGrayscale(img.data, w, h);
    ghost var g := grayscale[..];
    var angleHistogram := new nat[8](_ => 0);
    var strongEdgeCount := 0;
    assert angleHistogram[..] == Histogram([], 8);
    var y := 1;
    while y < h - 1
      invariant 1 <= y && y - 1 <= InnerCount(h)
      invariant grayscale[..] == g
      invariant angleHistogram[..] == Histogram(GridBins(g, w, h, y - 1, bin), 8)
      invariant strongEdgeCount == |GridBins(g, w, h, y - 1, bin)|
      decreases h - y
    {
      RowHistogramBins(g, w, h, y, InnerCount(w), bin, GridBins(g, w, h, y - 1, bin));
      strongEdgeCount := EdgeRow(grayscale, w, h, y, bin, angleHistogram, strongEdgeCount);
      y := y + 1;
    }
    ghost var bins := EdgeBins(g, w, h, bin);
    assert y - 1 == InnerCount(h);
    HistogramScoreInRange(Histogram(bins, 8), |bins|);
    if strongEdgeCount < 1000 {
      return 100.0;
    }
    var normalizedHistogram := seq(8, i requires 0 <= i < 8 reads angleHistogram =>
      angleHistogram[i] as real / strongEdgeCount as real);
    assert normalizedHistogram == Normalized(Histogram(bins, 8), |bins|);
    var normalizedVariance := Stats.SqDev(normalizedHistogram, 1.0 / 8.0) / 8.0;
    score := Min100(normalizedVariance / MaxVariance * 100.0);
  }

  /** The inner loop over the interior columns of row y: counts and bins its strong edges. */
  method EdgeRow(grayscale: array<int>, w: nat, h: nat, y: nat, bin: (int, int) -> Bin,
                 angleHistogram: array<nat>, count: nat)
    returns (strongEdgeCount: nat)
    requires grayscale.Length == w * h && angleHistogram.Length == 8 && 1 <= y && y + 1 < h
    modifies angleHistogram
    ensures angleHistogram[..] == RowHistogram(grayscale[..], w, h, y, InnerCount(w), bin, old(angleHistogram[..]))
    ensures strongEdgeCount == count + |RowBins(grayscale[..], w, h, y, InnerCount(w), bin)|
  {
    ghost var g := grayscale[..];
    ghost var start := angleHistogram[..];
    strongEdgeCount := count;
    var x := 1;
    while x < w - 1
      invariant 1 <= x && x - 1 <= InnerCount(w)
      invariant grayscale[..] == g
      invariant angleHistogram[..] == RowHistogram(g, w, h, y, x - 1, bin, start)
      invariant strongEdgeCount == count + |RowBins(g, w, h, y, x - 1, bin)|
      decreases w - x
    {
      var gx, gy := Gradient(grayscale, w, h, x, y);
      if gx * gx + gy * gy > 2500 {
        strongEdgeCount := strongEdgeCount + 1;
        var b := bin(gx, gy);
        angleHistogram[b] := angleHistogram[b] + 1;
      }
      x := x + 1;
    }
    assert x - 1 == InnerCount(w);
  }

  // ---------------------------------------------------------------------------------------------
  // Properties

  /** Counting a row into the histogram is histogramming the row's bins after the earlier ones. */
  lemma {:induction false} RowHistogramBins(g: seq<int>, w: nat, h: nat, y: nat, n: nat, bin: (int, int) -> Bin,
                                            before: seq<int>)
    requires |g| == w * h && 1 <= y && y + 1 < h && n <= InnerCount(w)
    ensures RowHistogram(g, w, h, y, n, bin, Histogram(before, 8)) == Histogram(before + RowBins(g, w, h, y, n, bin), 8)
  {
    if n == 0 {
      assert before + [] == before;
    } else {
      RowHistogramBins(g, w, h, y, n - 1, bin, before);
      var prev := before + RowBins(g, w, h, y, n - 1, bin);
      var gx, gy := Gx(g, w, h, n, y), Gy(g, w, h, n, y);
      if Strong(gx, gy) {
        assert before + RowBins(g, w, h, y, n, bin) == prev + [bin(gx, gy) as int];
        HistogramSnoc(prev, 8, bin(gx, gy) as int);
      } else {
        assert before + RowBins(g, w, h, y, n, bin) == prev;
      }
    }
  }

  /** A kernel row written out: its three products, left to right. */
  lemma {:induction false} KernelRowTerms(g: seq<int>, w: nat, h: nat, x: nat, y: nat, kernel: seq<seq<int>>, ky: nat)
    requires |g| == w * h && Interior(w, h, x, y) && IsKernel(kernel) && ky < 3
    ensures KernelRow(g, w, h, x, y, kernel, ky, 3) ==
      Pixel(g, w, h, x - 1, y + ky - 1) * kernel[ky][0]
      + Pixel(g, w, h, x, y + ky - 1) * kernel[ky][1]
      + Pixel(g, w, h, x + 1, y + ky - 1) * kernel[ky][2]
  {
    assert KernelRow(g, w, h, x, y, kernel, ky, 1) == Pixel(g, w, h, x - 1, y + ky - 1) * kernel[ky][0];
    assert KernelRow(g, w, h, x, y, kernel, ky, 2) ==
      KernelRow(g, w, h, x, y, kernel, ky, 1) + Pixel(g, w, h, x, y + ky - 1) * kernel[ky][1];
  }

  /** The kernel loops compute the textbook Sobel differences. */
  lemma {:induction false} SobelForms(g: seq<int>, w: nat, h: nat, x: nat, y: nat)
    requires |g| == w * h && Interior(w, h, x, y)
    ensures Gx(g, w, h, x, y) ==
      (Pixel(g, w, h, x + 1, y - 1) - Pixel(g, w, h, x - 1, y - 1))
      + 2 * (Pixel(g, w, h, x + 1, y) - Pixel(g, w, h, x - 1, y))
      + (Pixel(g, w, h, x + 1, y + 1) - Pixel(g, w, h, x - 1, y + 1))
    ensures Gy(g, w, h, x, y) ==
      (Pixel(g, w, h, x - 1, y + 1) - Pixel(g, w, h, x - 1, y - 1))
      + 2 * (Pixel(g, w, h, x, y + 1) - Pixel(g, w, h, x, y - 1))
      + (Pixel(g, w, h, x + 1, y + 1) - Pixel(g, w, h, x + 1, y - 1))
  {
    KernelSumTerms(g, w, h, x, y, SobelX);
    KernelSumTerms(g, w, h, x, y, SobelY);
    assert SobelX[0] == [-1, 0, 1] && SobelX[1] == [-2, 0, 2] && SobelX[2] == [-1, 0, 1];
    assert SobelY[0] == [-1, -2, -1] && SobelY[1] == [0, 0, 0] && SobelY[2] == [1, 2, 1];
  }

  /** A kernel sum written out: its nine products, row by row. */
  lemma {:induction false} KernelSumTerms(g: seq<int>, w: nat, h: nat, x: nat, y: nat, kernel: seq<seq<int>>)
    requires |g| == w * h && Interior(w, h, x, y) && IsKernel(kernel)
    ensures KernelSum(g, w, h, x, y, kernel, 3) ==
      KernelRow(g, w, h, x, y, kernel, 0, 3) + KernelRow(g, w, h, x, y, kernel, 1, 3) + KernelRow(g, w, h, x, y, kernel, 2, 3)
    ensures KernelRow(g, w, h, x, y, kernel, 0, 3) ==
      Pixel(g, w, h, x - 1, y - 1) * kernel[0][0] + Pixel(g, w, h, x, y - 1) * kernel[0][1]
      + Pixel(g, w, h, x + 1, y - 1) * kernel[0][2]
    ensures KernelRow(g, w, h, x, y, kernel, 1, 3) ==
      Pixel(g, w, h, x - 1, y) * kernel[1][0] + Pixel(g, w, h, x, y) * kernel[1][1]
      + Pixel(g, w, h, x + 1, y) * kernel[1][2]
    ensures KernelRow(g, w, h, x, y, kernel, 2, 3) ==
      Pixel(g, w, h, x - 1, y + 1) * kernel[2][0] + Pixel(g, w, h, x, y + 1) * kernel[2][1]
      + Pixel(g, w, h, x + 1, y + 1) * kernel[2][2]
  {
    KernelRowTerms(g, w, h, x, y, kernel, 0);
    KernelRowTerms(g, w, h, x, y, kernel, 1);
    KernelRowTerms(g, w, h, x, y, kernel, 2);
    assert KernelSum(g, w, h, x, y, kernel, 1) == KernelRow(g, w, h, x, y, kernel, 0, 3);
    assert KernelSum(g, w, h, x, y, kernel, 2) ==
      KernelRow(g, w, h, x, y, kernel, 0, 3) + KernelRow(g, w, h, x, y, kernel, 1, 3);
  }

  /** Every strong edge falls in one of the eight bins, so the bins add up to the edge count. */
  lemma {:induction false} HistogramCountsEdges(bins: seq<int>)
    requires forall i :: 0 <= i < |bins| ==> 0 <= bins[i] < 8
    ensures SumInts(Histogram(bins, 8)) == |bins|
  {
    HistogramTotal(bins, 8);
  }

  lemma {:induction false} RowBinsInRange(g: seq<int>, w: nat, h: nat, y: nat, n: nat, bin: (int, int) -> Bin)
    requires |g| == w * h && 1 <= y && y + 1 < h && n <= InnerCount(w)
    ensures |RowBins(g, w, h, y, n, bin)| <= n
    ensures forall i :: 0 <= i < |RowBins(g, w, h, y, n, bin)| ==> 0 <= RowBins(g, w, h, y, n, bin)[i] < 8
  {
    if n > 0 {
      RowBinsInRange(g, w, h, y, n - 1, bin);
    }
  }

  lemma {:induction false} GridBinsInRange(g: seq<int>, w: nat, h: nat, m: nat, bin: (int, int) -> Bin)
    requires |g| == w * h && m <= InnerCount(h)
    ensures |GridBins(g, w, h, m, bin)| <= InnerCount(w) * m
    ensures forall i :: 0 <= i < |GridBins(g, w, h, m, bin)| ==> 0 <= GridBins(g, w, h, m, bin)[i] < 8
  {
    if m > 0 {
      GridBinsInRange(g, w, h, m - 1, bin);
      RowBinsInRange(g, w, h, m, InnerCount(w), bin);
      MulSucc(m - 1, InnerCount(w));
      var a, b := GridBins(g, w, h, m - 1, bin), RowBins(g, w, h, m, InnerCount(w), bin);
      assert GridBins(g, w, h, m, bin) == a + b;
      forall i | 0 <= i < |a + b| ensures 0 <= (a + b)[i] < 8 {
        if i < |a| {
          assert (a + b)[i] == a[i];
        } else {
          assert (a + b)[i] == b[i - |a|];
        }
      }
    }
  }

  lemma {:induction false} MulSucc(a: nat, b: nat)
    ensures b * a + b == b * (a + 1)
  {
  }

  /**
   * Only the (w - 2) x (h - 2) interior pixels are examined, each at most once, and the direction
   * bins add up to the strong-edge count.
   */
  lemma {:induction false} EdgeHistogramTotal(g: seq<int>, w: nat, h: nat, bin: (int, int) -> Bin)
    requires |g| == w * h
    ensures |EdgeBins(g, w, h, bin)| <= InnerCount(w) * InnerCount(h)
    ensures SumInts(Histogram(EdgeBins(g, w, h, bin), 8)) == |EdgeBins(g, w, h, bin)|
  {
    var bins := EdgeBins(g, w, h, bin);
    GridBinsInRange(g, w, h, InnerCount(h), bin);
    assert bins == GridBins(g, w, h, InnerCount(h), bin);
    HistogramCountsEdges(bins);
  }

  /** The score lies in [0, 100]. */
  lemma {:induction false} HistogramScoreInRange(hist: seq<nat>, count: nat)
    requires |hist| == 8
    ensures 0.0 <= HistogramScore(hist, count) <= 100.0
  {
    if count >= 1000 {
      var v := Stats.SqDev(Normalized(hist, count), 1.0 / 8.0) / 8.0;
      assert v >= 0.0;
      assert v / MaxVariance * 100.0 >= 0.0;
    }
  }

  /** All strong edges in one direction: the normalized variance is exactly 7/64 and the score 100. */
  lemma {:induction false} OneBinScoresFull(hist: seq<nat>, count: nat, b: Bin)
    requires |hist| == 8 && count >= 1000
    requires hist[b] == count && forall i :: 0 <= i < 8 && i != b ==> hist[i] == 0
    ensures HistogramScore(hist, count) == 100.0
  {
    var p := Normalized(hist, count);
    assert p[b] == 1.0 by {
      assert count as real / count as real == 1.0;
    }
    assert forall i :: 0 <= i < 8 && i != b ==> p[i] == 0.0;
    OneHotSqDev(p, b, 8);
    assert p[..8] == p;
    assert Stats.SqDev(p, 1.0 / 8.0) / 8.0 == MaxVariance;
  }

  /** Squared deviations from 1/8 of a one-hot prefix of length n. */
  lemma {:induction false} OneHotSqDev(p: seq<real>, b: nat, n: nat)
    requires n <= |p| && b < |p|
    requires p[b] == 1.0 && forall i :: 0 <= i < |p| && i != b ==> p[i] == 0.0
    ensures Stats.SqDev(p[..n], 1.0 / 8.0) == n as real / 64.0 + (if b < n then 48.0 / 64.0 else 0.0)
  {
    if n > 0 {
      assert p[..n][..n - 1] == p[..n - 1];
      OneHotSqDev(p, b, n - 1);
    }
  }

  /** On a flat neighbourhood both Sobel responses vanish. */
  lemma {:induction false} FlatNoGradient(g: seq<int>, w: nat, h: nat, x: nat, y: nat, c: int)
    requires |g| == w * h && Interior(w, h, x, y)
    requires forall i :: 0 <= i < |g| ==> g[i] == c
    ensures Gx(g, w, h, x, y) == 0 && Gy(g, w, h, x, y) == 0
  {
    SobelForms(g, w, h, x, y);
    FlatPixel(g, w, h, x - 1, y - 1, c);
    FlatPixel(g, w, h, x, y - 1, c);
    FlatPixel(g, w, h, x + 1, y - 1, c);
    FlatPixel(g, w, h, x - 1, y, c);
    FlatPixel(g, w, h, x + 1, y, c);
    FlatPixel(g, w, h, x - 1, y + 1, c);
    FlatPixel(g, w, h, x, y + 1, c);
    FlatPixel(g, w, h, x + 1, y + 1, c);
  }

  lemma {:induction false} FlatPixel(g: seq<int>, w: nat, h: nat, x: nat, y: nat, c: int)
    requires |g| == w * h && x < w && y < h
    requires forall i :: 0 <= i < |g| ==> g[i] == c
    ensures Pixel(g, w, h, x, y) == c
  {
    PixelInBounds(w, h, x, y);
  }

  lemma {:induction false} RowFlat(g: seq<int>, w: nat, h: nat, y: nat, n: nat, bin: (int, int) -> Bin, c: int)
    requires |g| == w * h && 1 <= y && y + 1 < h && n <= InnerCount(w)
    requires forall i :: 0 <= i < |g| ==> g[i] == c
    ensures RowBins(g, w, h, y, n, bin) == []
  {
    if n > 0 {
      RowFlat(g, w, h, y, n - 1, bin, c);
      FlatNoGradient(g, w, h, n, y, c);
    }
  }

  lemma {:induction false} GridFlat(g: seq<int>, w: nat, h: nat, m: nat, bin: (int, int) -> Bin, c: int)
    requires |g| == w * h && m <= InnerCount(h)
    requires forall i :: 0 <= i < |g| ==> g[i] == c
    ensures GridBins(g, w, h, m, bin) == []
  {
    if m > 0 {
      GridFlat(g, w, h, m - 1, bin, c);
      RowFlat(g, w, h, m, InnerCount(w), bin, c);
    }
  }

  /** A page of one flat gray level has no edges, so its uniformity score is 100. */
  lemma {:induction false} FlatPageScoresFull(img: Image, bin: (int, int) -> Bin, c: int)
    requires WellFormed(img)
    requires forall i :: 0 <= i < |Grayscale(img.data)| ==> Grayscale(img.data)[i] == c
    ensures EdgeBins(Grayscale(img.data), img.width, img.height, bin) == []
    ensures UniformityScore(img, bin) == 100.0
  {
    GridFlat(Grayscale(img.data), img.width, img.height, InnerCount(img.height), bin, c);
  }
}
