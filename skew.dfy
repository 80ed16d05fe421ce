/** The skew heuristic: binarize, project the dark pixels at 21 trial angles, keep the sharpest profile. */
module Skew {
  import opened Pixels
  import opened Counting
  import Stats

  /** Angle number k of the trial grid -5, -4.5, ..., 5 degrees. */
  function GridAngle(k: nat): real {
    -5.0 + k as real * 0.5
  }

  const AngleCount: nat := 21

  /**
   * The binary image: 1 for each pixel whose luma is below the threshold 128, else 0;
   * the same test as 299 R + 587 G + 114 B < 128000 in integers.
   */
  function Binary(data: seq<byte>): (bits: seq<int>)
    requires |data| % 4 == 0
    ensures |bits| == |data| / 4
    ensures forall k :: 0 <= k < |bits| ==> bits[k] == 0 || bits[k] == 1
    ensures forall k :: 0 <= k < |bits| ==> (bits[k] == 1 <==> IsDark(data, 4 * k))
  {
    seq(|data| / 4, k requires 0 <= k < |data| / 4 =>
      DarkIffLumaBelowThreshold(data, 4 * k);
      if Luma(data, 4 * k) < 128.0 then 1 else 0)
  }

  /**
   * The projection indices of the set pixels of row y at columns 0 .. x-1, left to right.
   * proj(angle, x, y) stands for `Math.round(x * sin + y * cos)` at that angle.
   */
  function RowIndices(bits: seq<int>, w: nat, y: nat, x: nat, angle: real, proj: (real, int, int) -> int): seq<int>
    requires x <= w && y * w + x <= |bits|
  {
    if x == 0 then []
    else
      RowIndices(bits, w, y, x - 1, angle, proj) + (if bits[y * w + x - 1] != 0 then [proj(angle, x - 1, y)] else [])
  }

  /** The projection indices of the set pixels of rows 0 .. y-1, in scan order. */
  function GridIndices(bits: seq<int>, w: nat, y: nat, angle: real, proj: (real, int, int) -> int): seq<int>
    requires y * w <= |bits|
  {
    if y == 0 then []
    else
      assert (y - 1) * w + w == y * w;
      GridIndices(bits, w, y - 1, angle, proj) + RowIndices(bits, w, y - 1, w, angle, proj)
  }

  /**
   * The bins start after the set pixels of row y at columns 0 .. x-1 have been added, each to the
   * bin its projection lands on (if any).
   */
  function RowProfile(bits: seq<int>, w: nat, y: nat, x: nat, angle: real, proj: (real, int, int) -> int,
                      start: seq<nat>): (p: seq<nat>)
    requires x <= w && y * w + x <= |bits|
    ensures |p| == |start|
  {
    if x == 0 then start
    else
      var p := RowProfile(bits, w, y, x - 1, angle, proj, start);
      if bits[y * w + x - 1] != 0 then Bump(p, proj(angle, x - 1, y)) else p
  }

  /** The h bins after rows 0 .. y-1 have been added, starting from zero. */
  function GridProfile(bits: seq<int>, w: nat, h: nat, y: nat, angle: real, proj: (real, int, int) -> int): (p: seq<nat>)
    requires y * w <= |bits|
    ensures |p| == h
  {
    if y == 0 then seq(h, _ => 0)
    else
      assert (y - 1) * w + w == y * w;
      RowProfile(bits, w, y - 1, w, angle, proj, GridProfile(bits, w, h, y - 1, angle, proj))
  }

  /** The projection profile at one angle: how many set pixels land on each of the h rows. */
  function Profile(bits: seq<int>, w: nat, h: nat, angle: real, proj: (real, int, int) -> int): (p: seq<nat>)
    requires |bits| == w * h
    ensures |p| == h
  {
    GridProfile(bits, w, h, h, angle, proj)
  }

  /** A floating-point result that may be NaN, as a variance over zero bins is. */
  datatype Num = Finite(value: real) | NaN

  /** `v > x`; false whenever v is NaN. */
  predicate Exceeds(v: Num, x: real) {
    v.Finite? && v.value > x
  }

  /** The variance of a profile: the mean squared deviation of its bins from their mean; NaN for no bins. */
  function ProfileVariance(profile: seq<nat>): Num
  {
    if |profile| == 0 then NaN else Finite(Stats.Variance(Stats.Reals(profile)))
  }

  /** The profile variance at each of the 21 trial angles. */
  function Variances(bits: seq<int>, w: nat, h: nat, proj: (real, int, int) -> int): (vs: seq<Num>)
    requires |bits| == w * h
    ensures |vs| == AngleCount
  {
    seq(AngleCount, k requires 0 <= k < AngleCount => ProfileVariance(Profile(bits, w, h, GridAngle(k), proj)))
  }

  /**
   * The angle search: the earliest index whose variance exceeds every earlier best, starting from a
   * best of 0, with that variance; index -1 and variance 0 when no variance is above 0.
   */
  function Pick(vs: seq<Num>): (r: (int, real))
    ensures -1 <= r.0 < |vs|
    ensures r.0 == -1 <==> forall i :: 0 <= i < |vs| ==> !Exceeds(vs[i], 0.0)
    ensures r.0 == -1 ==> r.1 == 0.0
    ensures r.0 >= 0 ==> vs[r.0] == Finite(r.1) && r.1 > 0.0
    ensures forall i :: 0 <= i < |vs| ==> !Exceeds(vs[i], r.1)
    ensures r.0 >= 0 ==> forall i :: 0 <= i < r.0 ==> vs[i] != Finite(r.1)
  {
    if |vs| == 0 then (-1, 0.0)
    else
      var n := |vs| - 1;
      var before := Pick(vs[..n]);
      assert forall i :: 0 <= i < n ==> vs[..n][i] == vs[i];
      if Exceeds(vs[n], before.1) then (n, vs[n].value) else before
  }

  /** The angle of a picked index; 0 when nothing was picked. */
  function AngleOf(k: int): real {
    if k < 0 then 0.0 else GridAngle(k)
  }

  /** The chosen skew angle; with no rows every variance is NaN and the angle stays 0. */
  function SkewAngle(img: Image, proj: (real, int, int) -> int): real
    requires WellFormed(img)
  {
    AngleOf(Pick(Variances(Binary(img.data), img.width, img.height, proj)).0)
  }

  function Abs(x: real): real {
    if x < 0.0 then -x else x
  }

  /** 15 points off per degree of skew, never below 0. */
  function AngleScore(angle: real): real {
    var score := 100.0 - Abs(angle) * 15.0;
    if score > 0.0 then score else 0.0
  }

  function SkewScore(img: Image, proj: (real, int, int) -> int): real
    requires WellFormed(img)
  {
    AngleScore(SkewAngle(img, proj))
  }

  // ---------------------------------------------------------------------------------------------
  // The analyzer

  /** Fills a zeroed buffer with 1 at every pixel darker than the threshold. */
  method Binarize(data: seq<byte>, w: nat, h: nat) returns (binary: array<int>)
    requires |data| == 4 * (w * h)
    ensures binary.Length == w * h
    ensures binary[..] == Binary(data)
  {
    binary := new int[w * h](_ => 0);
    var i := 0;
    ghost var k := 0;
    while i < |data|
      invariant i == 4 * k && k <= w * h
      invariant forall p :: 0 <= p < binary.Length ==>
        binary[p] == if p < k && Luma(data, 4 * p) < 128.0 then 1 else 0
      decreases |data| - i
    {
      var grayscale := Luma(data, i);
      if grayscale < 128.0 {
        binary[i / 4] := 1;
      }
      i, k := i + 4, k + 1;
    }
    assert binary[..] == Binary(data);
  }

  /** The projection profile at one angle, filled row by row. */
  method Project(binary: array<int>, w: nat, h: nat, angle: real, proj: (real, int, int) -> int)
    returns (projection: array<nat>)
    requires binary.Length == w * h
    ensures projection.Length == h
    ensures projection[..] == Profile(binary[..], w, h, angle, proj)
  {
    projection := new nat[h](_ => 0);
    assert projection[..] == GridProfile(binary[..], w, h, 0, angle, proj);
    for y := 0 to h
      invariant projection[..] == GridProfile(binary[..], w, h, y, angle, proj)
    {
      RowFits(y, w, h);
      ProjectRow(binary, w, h, y, angle, proj, projection);
    }
  }

  lemma {:induction false} RowFits(y: nat, w: nat, h: nat)
    requires y < h
    ensures (y + 1) * w <= w * h && y * w + w <= w * h
  {
    MulLeq(y + 1, h, w);
  }

  /** The inner loop: counts the set pixels of row y into the bins their projections land on. */
  method ProjectRow(binary: array<int>, w: nat, h: nat, y: nat, angle: real, proj: (real, int, int) -> int,
                    projection: array<nat>)
    requires binary.Length == w * h && projection.Length == h && (y + 1) * w <= w * h && y * w + w <= w * h
    requires projection[..] == GridProfile(binary[..], w, h, y, angle, proj)
    modifies projection
    ensures projection[..] == GridProfile(binary[..], w, h, y + 1, angle, proj)
  {
    ghost var start := projection[..];
    for x := 0 to w
      invariant projection[..] == RowProfile(binary[..], w, y, x, angle, proj, start)
    {
      RowIndexFits(y, w, x, binary.Length);
      if binary[y * w + x] != 0 {
        var p := proj(angle, x, y);
        if p >= 0 && p < h {
          projection[p] := projection[p] + 1;
        }
      }
    }
  }

  lemma {:induction false} RowIndexFits(y: nat, w: nat, x: nat, n: nat)
    requires y * w + w <= n && x < w
    ensures y * w + x < n
  {
  }

  lemma {:induction false} PickStep(vs: seq<Num>, k: nat)
    requires k < |vs|
    ensures Pick(vs[..k + 1]) == if Exceeds(vs[k], Pick(vs[..k]).1) then (k, vs[k].value) else Pick(vs[..k])
  {
    assert vs[..k + 1][..k] == vs[..k];
  }

  /** Scores the skew of a page: the trial angle with the sharpest profile, 15 points off per degree. */
  method AnalyzeSkew(img: Image, proj: (real, int, int) -> int) returns (score: real)
    requires WellFormed(img)
    ensures score == SkewScore(img, proj)
    ensures 25.0 <= score <= 100.0
  {
    var binary := Binarize(img.data, img.width, img.height);
    var bestAngle := SearchAngles(binary, img.width, img.height, proj);
    SkewScoreInRange(img, proj);
    var s := 100.0 - Abs(bestAngle) * 15.0;
    score := if s > 0.0 then s else 0.0;
  }

  /** The loop over the trial angles -5, -4.5, ..., 5, keeping the first strictly best variance. */
  method SearchAngles(binary: array<int>, w: nat, h: nat, proj: (real, int, int) -> int) returns (bestAngle: real)
    requires binary.Length == w * h
    ensures bestAngle == AngleOf(Pick(Variances(binary[..], w, h, proj)).0)
  {
    ghost var vs := Variances(binary[..], w, h, proj);
    var maxVariance := 0.0;
    bestAngle := 0.0;
    var angle := -5.0;
    ghost var k: nat := 0;
    while angle <= 5.0
      invariant k <= AngleCount && angle == GridAngle(k)
      invariant bestAngle == AngleOf(Pick(vs[..k]).0) && maxVariance == Pick(vs[..k]).1
      decreases AngleCount - k
    {
      PickStep(vs, k);
      bestAngle, maxVariance := TryAngle(binary, w, h, angle, proj, bestAngle, maxVariance);
      angle, k := angle + 0.5, k + 1;
    }
    assert vs[..k] == vs;
  }

  /** One trial angle: project, take the profile variance, and keep the angle when it beats the best so far. */
  method TryAngle(binary: array<int>, w: nat, h: nat, angle: real, proj: (real, int, int) -> int,
                  best: real, max: real)
    returns (bestAngle: real, maxVariance: real)
    requires binary.Length == w * h
    ensures var v := ProfileVariance(Profile(binary[..], w, h, angle, proj));
      (bestAngle, maxVariance) == if Exceeds(v, max) then (angle, v.value) else (best, max)
  {
    bestAngle, maxVariance := best, max;
    var projection := Project(binary, w, h, angle, proj);
    var variance := ProfileVariance(projection[..]);
    if Exceeds(variance, maxVariance) {
      maxVariance := variance.value;
      bestAngle := angle;
    }
  }

  // ---------------------------------------------------------------------------------------------
  // Properties

  /** The chosen angle is one of the 21 trial angles (0 is number 10). */
  lemma {:induction false} SkewAngleInGrid(img: Image, proj: (real, int, int) -> int)
    requires WellFormed(img)
    ensures exists k :: 0 <= k < AngleCount && SkewAngle(img, proj) == GridAngle(k)
  {
    var a := SkewAngle(img, proj);
    if a == 0.0 {
      assert GridAngle(10) == 0.0;
    } else {
      var k := Pick(Variances(Binary(img.data), img.width, img.height, proj)).0;
      assert k >= 0 && a == GridAngle(k);
    }
  }

  /** The skew score lies in [25, 100]: at most 5 degrees, 15 points each. */
  lemma {:induction false} SkewScoreInRange(img: Image, proj: (real, int, int) -> int)
    requires WellFormed(img)
    ensures 25.0 <= SkewScore(img, proj) <= 100.0
  {
    SkewAngleInGrid(img, proj);
    var k :| 0 <= k < AngleCount && SkewAngle(img, proj) == GridAngle(k);
    assert -5.0 <= GridAngle(k) <= 5.0;
  }

  /** Filling the bins row by row is histogramming the projection indices in scan order. */
  lemma {:induction false} RowProfileHistogram(bits: seq<int>, w: nat, h: nat, y: nat, x: nat, angle: real,
                                               proj: (real, int, int) -> int, before: seq<int>)
    requires x <= w && y * w + x <= |bits|
    ensures RowProfile(bits, w, y, x, angle, proj, Histogram(before, h))
         == Histogram(before + RowIndices(bits, w, y, x, angle, proj), h)
  {
    if x == 0 {
      assert before + [] == before;
    } else {
      RowProfileHistogram(bits, w, h, y, x - 1, angle, proj, before);
      var row := RowIndices(bits, w, y, x - 1, angle, proj);
      var prev := before + row;
      if bits[y * w + x - 1] != 0 {
        var p := proj(angle, x - 1, y);
        assert RowIndices(bits, w, y, x, angle, proj) == row + [p];
        assert before + (row + [p]) == prev + [p];
        HistogramSnoc(prev, h, p);
      } else {
        assert RowIndices(bits, w, y, x, angle, proj) == row + [];
        assert before + (row + []) == prev;
      }
    }
  }

  lemma {:induction false} GridProfileHistogram(bits: seq<int>, w: nat, h: nat, y: nat, angle: real,
                                                proj: (real, int, int) -> int)
    requires y * w <= |bits|
    ensures GridProfile(bits, w, h, y, angle, proj) == Histogram(GridIndices(bits, w, y, angle, proj), h)
  {
    if y > 0 {
      assert (y - 1) * w + w == y * w;
      GridProfileHistogram(bits, w, h, y - 1, angle, proj);
      RowProfileHistogram(bits, w, h, y - 1, w, angle, proj, GridIndices(bits, w, y - 1, angle, proj));
    }
  }

  /** Bin i of a profile is the number of set pixels whose projection is i. */
  lemma {:induction false} ProfileCounts(bits: seq<int>, w: nat, h: nat, angle: real, proj: (real, int, int) -> int)
    requires |bits| == w * h
    ensures forall i :: 0 <= i < h ==>
      Profile(bits, w, h, angle, proj)[i] == Count(GridIndices(bits, w, h, angle, proj), i)
  {
    GridProfileHistogram(bits, w, h, h, angle, proj);
    HistogramCounts(GridIndices(bits, w, h, angle, proj), h);
  }

  /** Number of set (non-zero) entries of a binary image. */
  function SetCount(bits: seq<int>): (n: nat)
    ensures n <= |bits|
  {
    if |bits| == 0 then 0 else SetCount(bits[..|bits| - 1]) + (if bits[|bits| - 1] != 0 then 1 else 0)
  }

  lemma {:induction false} SetCountStep(bits: seq<int>, n: nat)
    requires n < |bits|
    ensures SetCount(bits[..n + 1]) == SetCount(bits[..n]) + (if bits[n] != 0 then 1 else 0)
  {
    assert bits[..n + 1][..n] == bits[..n];
  }

  lemma {:induction false} RowLength(bits: seq<int>, w: nat, y: nat, x: nat, angle: real, proj: (real, int, int) -> int)
    requires x <= w && y * w + x <= |bits|
    ensures |RowIndices(bits, w, y, x, angle, proj)| + SetCount(bits[..y * w]) == SetCount(bits[..y * w + x])
  {
    if x > 0 {
      RowLength(bits, w, y, x - 1, angle, proj);
      SetCountStep(bits, y * w + x - 1);
    }
  }

  lemma {:induction false} GridLength(bits: seq<int>, w: nat, y: nat, angle: real, proj: (real, int, int) -> int)
    requires y * w <= |bits|
    ensures |GridIndices(bits, w, y, angle, proj)| == SetCount(bits[..y * w])
  {
    if y > 0 {
      assert (y - 1) * w + w == y * w;
      GridLength(bits, w, y - 1, angle, proj);
      RowLength(bits, w, y - 1, w, angle, proj);
    }
  }

  /**
   * Every projection profile has one bin per row and holds at most as many pixels as are set:
   * set pixels projecting outside 0 .. h-1 are dropped.
   */
  lemma {:induction false} ProfileTotal(bits: seq<int>, w: nat, h: nat, angle: real, proj: (real, int, int) -> int)
    requires |bits| == w * h
    ensures |Profile(bits, w, h, angle, proj)| == h
    ensures SumInts(Profile(bits, w, h, angle, proj)) <= SetCount(bits)
  {
    GridLength(bits, w, h, angle, proj);
    GridProfileHistogram(bits, w, h, h, angle, proj);
    HistogramTotal(GridIndices(bits, w, h, angle, proj), h);
    assert bits[..h * w] == bits;
  }

  lemma {:induction false} RowEmpty(bits: seq<int>, w: nat, y: nat, x: nat, angle: real, proj: (real, int, int) -> int)
    requires x <= w && y * w + x <= |bits|
    requires forall i :: 0 <= i < |bits| ==> bits[i] == 0
    ensures RowIndices(bits, w, y, x, angle, proj) == []
  {
    if x > 0 {
      RowEmpty(bits, w, y, x - 1, angle, proj);
    }
  }

  lemma {:induction false} GridEmpty(bits: seq<int>, w: nat, y: nat, angle: real, proj: (real, int, int) -> int)
    requires y * w <= |bits|
    requires forall i :: 0 <= i < |bits| ==> bits[i] == 0
    ensures GridIndices(bits, w, y, angle, proj) == []
  {
    if y > 0 {
      assert (y - 1) * w + w == y * w;
      GridEmpty(bits, w, y - 1, angle, proj);
      RowEmpty(bits, w, y - 1, w, angle, proj);
    }
  }

  /** A page without dark pixels has flat profiles, no variance above 0, angle 0 and score 100. */
  lemma {:induction false} BlankPageScoresFull(img: Image, proj: (real, int, int) -> int)
    requires WellFormed(img)
    requires forall k :: 0 <= k < img.width * img.height ==> !IsDark(img.data, 4 * k)
    ensures SkewAngle(img, proj) == 0.0
    ensures SkewScore(img, proj) == 100.0
  {
    var w, h := img.width, img.height;
    var bits := Binary(img.data);
    var vs := Variances(bits, w, h, proj);
    forall k | 0 <= k < AngleCount ensures !Exceeds(vs[k], 0.0) {
      GridEmpty(bits, w, h, GridAngle(k), proj);
      GridProfileHistogram(bits, w, h, h, GridAngle(k), proj);
      var profile := Profile(bits, w, h, GridAngle(k), proj);
      if h > 0 {
        assert forall i :: 0 <= i < h ==> profile[i] == 0;
        Stats.ConstantVariance(Stats.Reals(profile), 0.0);
      }
    }
  }
}
