/** The rasterized page that every analyzer reads, and the luma forms used on it. */
module Pixels {

  type byte = b: int | 0 <= b < 256

  /** A page bitmap: row-major RGBA samples, four bytes per pixel. */
  datatype Image = Image(width: nat, height: nat, data: seq<byte>)

  /** The buffer holds exactly width * height pixels of four samples each. */
  predicate WellFormed(img: Image) {
    |img.data| == 4 * (img.width * img.height)
  }

  /** Offset, in pixels, of column x of row y in a row-major image of width w. */
  function PixelIndex(w: nat, x: nat, y: nat): nat {
    y * w + x
  }

  lemma {:induction false} PixelInBounds(w: nat, h: nat, x: nat, y: nat)
    requires x < w && y < h
    ensures PixelIndex(w, x, y) < w * h
  {
    calc {
      PixelIndex(w, x, y);
      == y * w + x;
      <  y * w + w;
      == (y + 1) * w;
      <= { MulLeq(y + 1, h, w); }
      h * w;
    }
  }

  lemma {:induction false} MulLeq(a: nat, b: nat, c: nat)
    requires a <= b
    ensures a * c <= b * c
  {
    assert b * c == a * c + (b - a) * c;
  }

  /** Luma of the pixel whose red sample is at offset i: 0.299 R + 0.587 G + 0.114 B. */
  function Luma(data: seq<byte>, i: nat): (l: real)
    requires i + 2 < |data|
    ensures 0.0 <= l <= 255.0
  {
    0.299 * data[i] as real + 0.587 * data[i + 1] as real + 0.114 * data[i + 2] as real
  }

  /** Luma of pixel k, counting pixels rather than samples. */
  function PixelLuma(data: seq<byte>, k: nat): (l: real)
    requires 4 * k + 2 < |data|
    ensures 0.0 <= l <= 255.0
  {
    Luma(data, 4 * k)
  }

  /** The red, green and blue samples of pixel k. */
  function Rgb(data: seq<byte>, k: nat): (byte, byte, byte)
    requires 4 * k + 2 < |data|
  {
    (data[4 * k], data[4 * k + 1], data[4 * k + 2])
  }

  /** Every pixel of the page has the colour c. */
  predicate Solid(img: Image, c: (byte, byte, byte))
    requires WellFormed(img)
  {
    forall k :: 0 <= k < img.width * img.height ==> Rgb(img.data, k) == c
  }

  /** One thousand times the luma of the pixel at offset i, as an exact integer. */
  function LumaMilli(data: seq<byte>, i: nat): int
    requires i + 2 < |data|
  {
    299 * (data[i] as int) + 587 * (data[i + 1] as int) + 114 * (data[i + 2] as int)
  }

  /** The skew binarization test "luma below 128", in integers. */
  predicate IsDark(data: seq<byte>, i: nat)
    requires i + 2 < |data|
  {
    LumaMilli(data, i) < 128000
  }

  lemma DarkIffLumaBelowThreshold(data: seq<byte>, i: nat)
    requires i + 2 < |data|
    ensures IsDark(data, i) <==> Luma(data, i) < 128.0
  {
    assert Luma(data, i) * 1000.0 == LumaMilli(data, i) as real;
  }

  /** The luma stored into a Uint8Array: truncated toward zero, never outside 0..255. */
  function Gray8(data: seq<byte>, i: nat): (g: int)
    requires i + 2 < |data|
    ensures 0 <= g <= 255
    ensures g as real <= Luma(data, i) < g as real + 1.0
  {
    var m := LumaMilli(data, i);
    assert Luma(data, i) * 1000.0 == m as real;
    assert 1000 * (m / 1000) <= m < 1000 * (m / 1000) + 1000;
    m / 1000
  }
}
