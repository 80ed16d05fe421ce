/**
 * The text-clarity heuristic: the mean local luma variance over 5000 random 3x3 neighbourhoods,
 * turned into a sharpness score by a two-piece linear map, then mixed 70/30 with the
 * text-uniformity score.
 */
module Clarity {
  import opened Pixels
  import Stats
  import opened Uniformity

  /** The number of random neighbourhoods sampled per page. */
  const SampleTotal: nat := 5000

  /**
   * The two `Math.random()` results drawn for one sample, in the order they are drawn: first
   * the one that picks the column, then the one that picks the row.
   */
  datatype Draw = Draw(rx: real, ry: real)

  predicate InUnit(d: Draw) {
    0.0 <= d.rx < 1.0 && 0.0 <= d.ry < 1.0
  }

  predicate DrawsInRange(draws: seq<Draw>) {
    forall i :: 0 <= i < |draws| ==> InUnit(draws[i])
  }

  /** The random stream of one call: exactly one draw per sample, each in [0, 1). */
  predicate ValidDraws(draws: seq<Draw>) {
    |draws| == SampleTotal && DrawsInRange(draws)
  }

  /** A page large enough to hold one interior pixel. */
  predicate Sampleable(img: Image) {
    WellFormed(img) && img.width >= 3 && img.height >= 3
  }

  /** `floor(r * (n - 2)) + 1`: a uniform draw turned into an interior coordinate of a side of length n. */
  function SampleCoord(r: real, n: nat): (c: nat)
    requires 0.0 <= r < 1.0 && n >= 3
    ensures 1 <= c <= n - 2
  {
    var span := (n - 2) as real;
    assert r * span < span by {
      assert (1.0 - r) * span > 0.0;
    }
    var f := (r * span).Floor;
    assert 0 <= f < n - 2;
    f + 1
  }

  /** The lumas of the first n pixels of row y + dy around column x, left to right. */
  function RowSamples(data: seq<byte>, w: nat, h: nat, x: nat, y: nat, dy: int, n: nat): (r: seq<real>)
    requires |data| == 4 * (w * h) && Interior(w, h, x, y) && -1 <= dy <= 1 && n <= 3
    ensures |r| == n
  {
    if n == 0 then []
    else
      PixelInBounds(w, h, x + n - 2, y + dy);
      RowSamples(data, w, h, x, y, dy, n - 1) + [PixelLuma(data, PixelIndex(w, x + n - 2, y + dy))]
  }

  /** The lumas of the first m rows of the 3x3 neighbourhood of (x, y), in scan order. */
  function Window(data: seq<byte>, w: nat, h: nat, x: nat, y: nat, m: nat): (r: seq<real>)
    requires |data| == 4 * (w * h) && Interior(w, h, x, y) && m <= 3
    ensures |r| == 3 * m
  {
    if m == 0 then []
    else Window(data, w, h, x, y, m - 1) + RowSamples(data, w, h, x, y, m - 2, 3)
  }

  /** The population variance of the nine lumas around (x, y). */
  function LocalVariance(data: seq<byte>, w: nat, h: nat, x: nat, y: nat): (v: real)
    requires |data| == 4 * (w * h) && Interior(w, h, x, y)
    ensures v >= 0.0
  {
    Stats.Variance(Window(data, w, h, x, y, 3))
  }

  /** The local variance at the pixel one draw selects. */
  function DrawVariance(img: Image, d: Draw): (v: real)
    requires Sampleable(img) && InUnit(d)
    ensures v >= 0.0
  {
    var x := SampleCoord(d.rx, img.width);
    var y := SampleCoord(d.ry, img.height);
    LocalVariance(img.data, img.width, img.height, x, y)
  }

  /** The running total of the local variances selected by the draws, in draw order. */
  function TotalVariance(img: Image, draws: seq<Draw>): (t: real)
    requires Sampleable(img) && DrawsInRange(draws)
    ensures t >= 0.0
  {
    if |draws| == 0 then 0.0
    else
      var t0 := TotalVariance(img, draws[..|draws| - 1]);
      var v := DrawVariance(img, draws[|draws| - 1]);
      t0 + v
  }

  /** The mean variance over 5000 samples, as a percentage of 150. */
  function OriginalScore(totalVariance: real): real {
    totalVariance / SampleTotal as real / 150.0 * 100.0
  }

  /** The two-piece map that sends [0, 80) onto [0, 40) and [80, 100] onto [40, 100]. */
  function Remap(originalScore: real): real {
    if originalScore >= 80.0 then 40.0 + (originalScore - 80.0) * 3.0
    else originalScore * 0.5
  }

  /** `Math.max(0, Math.min(100, v))`. */
  function Clamp(v: real): (c: real)
    ensures 0.0 <= c <= 100.0
    ensures 0.0 <= v <= 100.0 ==> c == v
    ensures v < 0.0 ==> c == 0.0
    ensures v > 100.0 ==> c == 100.0
  {
    var m := if v < 100.0 then v else 100.0;
    if m > 0.0 then m else 0.0
  }

  /** The sharpness score for a given variance total. */
  function SharpnessScore(totalVariance: real): real {
    Clamp(Remap(OriginalScore(totalVariance)))
  }

  /** Sharpness weighs 0.7 and uniformity 0.3; the mix is clamped to [0, 100]. */
  function Combine(sharpness: real, uniformity: real): real {
    Clamp(sharpness * 0.7 + uniformity * 0.3)
  }

  /** The clarity score of a page, for the given random draws and direction binning. */
  function ClarityScore(img: Image, draws: seq<Draw>, bin: (int, int) -> Bin): real
    requires Sampleable(img) && DrawsInRange(draws)
  {
    Combine(SharpnessScore(TotalVariance(img, draws)), UniformityScore(img, bin))
  }

  // ---------------------------------------------------------------------------------------------
  // The analyzer

  method AnalyzeClarity(img: Image, draws: seq<Draw>, bin: (int, int) -> Bin) returns (score: real)
    requires Sampleable(img) && ValidDraws(draws)
    ensures score == ClarityScore(img, draws, bin)
    ensures 0.0 <= score <= 100.0
  {
    var data, width, height := img.data, img.width, img.height;
    var totalVariance := 0.0;
    var samples := SampleTotal;
    for i := 0 to samples
      invariant totalVariance == TotalVariance(img, draws[..i])
    {
      totalVariance := AddSample(img, draws, i, totalVariance);
    }
    assert draws[..samples] == draws;

    var avgVariance := totalVariance / samples as real;
    var originalScore := (avgVariance / 150.0) * 100.0;
    var sharpnessScore;
    if originalScore >= 80.0 {
      sharpnessScore := 40.0 + (originalScore - 80.0) * 3.0;
    } else {
      sharpnessScore := originalScore * 0.5;
    }
    sharpnessScore := Clamp(sharpnessScore);

    var uniformityScore := CalculateTextUniformityScore(img, bin);
    var combinedScore := (sharpnessScore * 0.7) + (uniformityScore * 0.3);
    score := Clamp(combinedScore);
  }

  /** One iteration of the sampling loop: draw a pixel, add the variance of its neighbourhood. */
  method AddSample(img: Image, draws: seq<Draw>, i: nat, total0: real) returns (totalVariance: real)
    requires Sampleable(img) && DrawsInRange(draws) && i < |draws|
    requires total0 == TotalVariance(img, draws[..i])
    ensures totalVariance == TotalVariance(img, draws[..i + 1])
  {
    var x := SampleCoord(draws[i].rx, img.width);
    var y := SampleCoord(draws[i].ry, img.height);
    var neighborhood := Neighbourhood(img.data, img.width, img.height, x, y);
    var mean := Stats.Sum(neighborhood) / 9.0;
    var variance := Stats.SqDev(neighborhood, mean) / 9.0;
    assert variance == DrawVariance(img, draws[i]);
    TotalVarianceSnoc(img, draws, i);
    totalVariance := total0 + variance;
  }

  lemma {:induction false} TotalVarianceSnoc(img: Image, draws: seq<Draw>, i: nat)
    requires Sampleable(img) && DrawsInRange(draws) && i < |draws|
    ensures TotalVariance(img, draws[..i + 1]) == TotalVariance(img, draws[..i]) + DrawVariance(img, draws[i])
  {
    assert draws[..i + 1][..i] == draws[..i];
  }

  /** The nine lumas around (x, y), row by row. */
  method Neighbourhood(data: seq<byte>, width: nat, height: nat, x: nat, y: nat) returns (neighborhood: seq<real>)
    requires |data| == 4 * (width * height) && Interior(width, height, x, y)
    ensures neighborhood == Window(data, width, height, x, y, 3)
  {
    neighborhood := [];
    for dy := -1 to 2
      invariant neighborhood == Window(data, width, height, x, y, dy + 1)
    {
      neighborhood := PushRow(data, width, height, x, y, dy, neighborhood);
    }
  }

  /** The inner loop: append the three lumas of row y + dy. */
  method PushRow(data: seq<byte>, width: nat, height: nat, x: nat, y: nat, dy: int, before: seq<real>)
    returns (neighborhood: seq<real>)
    requires |data| == 4 * (width * height) && Interior(width, height, x, y) && -1 <= dy <= 1
    ensures neighborhood == before + RowSamples(data, width, height, x, y, dy, 3)
  {
    neighborhood := before;
    for dx := -1 to 2
      invariant neighborhood == before + RowSamples(data, width, height, x, y, dy, dx + 1)
    {
      PixelInBounds(width, height, x + dx, y + dy);
      var index := ((y + dy) * width + (x + dx)) * 4;
      var grayscale := 0.299 * data[index] as real + 0.587 * data[index + 1] as real
        + 0.114 * data[index + 2] as real;
      neighborhood := neighborhood + [grayscale];
    }
  }

  // ---------------------------------------------------------------------------------------------
  // Properties of the sharpness map

  /**
   * The two pieces of the map meet at 80 (both give 40), so the map is continuous; below 80 it
   * falls away with slope 1/2 and above 80 it rises with slope 3.
   */
  lemma RemapContinuous(o: real)
    ensures Remap(80.0) == 40.0
    ensures o < 80.0 ==> Remap(80.0) - Remap(o) == (80.0 - o) * 0.5
    ensures o >= 80.0 ==> Remap(o) - Remap(80.0) == (o - 80.0) * 3.0
  {
  }

  /** The map never reverses the order of two scores. */
  lemma RemapMonotone(a: real, b: real)
    requires a <= b
    ensures Remap(a) <= Remap(b)
  {
  }

  /** The map sends [0, 100] onto [0, 100], fixing both ends. */
  lemma {:induction false} RemapRange(o: real)
    requires 0.0 <= o <= 100.0
    ensures 0.0 <= Remap(o) <= 100.0
    ensures Remap(0.0) == 0.0 && Remap(100.0) == 100.0
  {
  }

  lemma {:induction false} ClampMonotone(a: real, b: real)
    requires a <= b
    ensures Clamp(a) <= Clamp(b)
  {
  }

  /** More total variance never gives a lower sharpness score. */
  lemma {:induction false} SharpnessMonotone(t1: real, t2: real)
    requires t1 <= t2
    ensures SharpnessScore(t1) <= SharpnessScore(t2)
  {
    assert OriginalScore(t1) <= OriginalScore(t2);
    RemapMonotone(OriginalScore(t1), OriginalScore(t2));
    ClampMonotone(Remap(OriginalScore(t1)), Remap(OriginalScore(t2)));
  }

  /** Sharpness is 0 exactly when there is no variance, and 100 exactly from a mean variance of 150 up. */
  lemma {:induction false} SharpnessEnds(t: real)
    requires t >= 0.0
    ensures SharpnessScore(t) == 0.0 <==> t == 0.0
    ensures SharpnessScore(t) == 100.0 <==> t >= 750000.0
  {
  }

  /** Sharpness and uniformity both lie in [0, 100], so the outer clamp of the mix never binds. */
  lemma {:induction false} ClarityIsWeightedMix(img: Image, draws: seq<Draw>, bin: (int, int) -> Bin)
    requires Sampleable(img) && DrawsInRange(draws)
    ensures ClarityScore(img, draws, bin) ==
      0.7 * SharpnessScore(TotalVariance(img, draws)) + 0.3 * UniformityScore(img, bin)
  {
  }

  // ---------------------------------------------------------------------------------------------
  // A page of one luma

  /** Every pixel of the page has luma l. */
  predicate UniformLuma(img: Image, l: real)
    requires WellFormed(img)
  {
    forall k :: 0 <= k < img.width * img.height ==> PixelLuma(img.data, k) == l
  }

  lemma {:induction false} RowConstant(img: Image, l: real, x: nat, y: nat, dy: int, n: nat)
    requires WellFormed(img) && UniformLuma(img, l)
    requires Interior(img.width, img.height, x, y) && -1 <= dy <= 1 && n <= 3
    ensures forall i :: 0 <= i < n ==> RowSamples(img.data, img.width, img.height, x, y, dy, n)[i] == l
  {
    if n > 0 {
      RowConstant(img, l, x, y, dy, n - 1);
      PixelInBounds(img.width, img.height, x + n - 2, y + dy);
    }
  }

  lemma {:induction false} WindowConstant(img: Image, l: real, x: nat, y: nat, m: nat)
    requires WellFormed(img) && UniformLuma(img, l)
    requires Interior(img.width, img.height, x, y) && m <= 3
    ensures forall i :: 0 <= i < 3 * m ==> Window(img.data, img.width, img.height, x, y, m)[i] == l
  {
    if m > 0 {
      WindowConstant(img, l, x, y, m - 1);
      RowConstant(img, l, x, y, m - 2, 3);
    }
  }

  lemma {:induction false} FlatTotalVariance(img: Image, l: real, draws: seq<Draw>)
    requires Sampleable(img) && UniformLuma(img, l) && DrawsInRange(draws)
    ensures TotalVariance(img, draws) == 0.0
  {
    if |draws| > 0 {
      FlatTotalVariance(img, l, draws[..|draws| - 1]);
      var d := draws[|draws| - 1];
      var x := SampleCoord(d.rx, img.width);
      var y := SampleCoord(d.ry, img.height);
      WindowConstant(img, l, x, y, 3);
      Stats.ConstantVariance(Window(img.data, img.width, img.height, x, y, 3), l);
    }
  }

  /** The 8-bit grayscale of a page of one luma is one level throughout. */
  lemma {:induction false} FlatGrayscale(img: Image, l: real)
    requires Sampleable(img) && UniformLuma(img, l)
    ensures |Grayscale(img.data)| > 0
    ensures forall i :: 0 <= i < |Grayscale(img.data)| ==> Grayscale(img.data)[i] == Grayscale(img.data)[0]
  {
    MulLeq(3, img.width, img.height);
    var g := Grayscale(img.data);
    assert PixelLuma(img.data, 0) == l;
    forall i | 0 <= i < |g|
      ensures g[i] == g[0]
    {
      assert PixelLuma(img.data, i) == l;
    }
  }

  /** A blank page (every pixel the same luma) has sharpness 0 and uniformity 100: clarity 30. */
  lemma {:induction false} FlatPageClarity(img: Image, l: real, draws: seq<Draw>, bin: (int, int) -> Bin)
    requires Sampleable(img) && UniformLuma(img, l) && DrawsInRange(draws)
    ensures ClarityScore(img, draws, bin) == 30.0
  {
    FlatTotalVariance(img, l, draws);
    FlatGrayscale(img, l);
    FlatPageScoresFull(img, bin, Grayscale(img.data)[0]);
    BlankMix();
  }

  lemma {:induction false} BlankMix()
    ensures Combine(SharpnessScore(0.0), 100.0) == 30.0
  {
  }
}
