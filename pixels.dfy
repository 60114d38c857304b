/** The pixel buffer every stage of the enhancer reads and writes: the
    browser's ImageData, a row-major raster of interleaved red, green, blue
    and alpha samples held in a Uint8ClampedArray.  Channel values are
    modelled as reals; a Uint8ClampedArray can only hold values in [0,255],
    which is part of the buffer's invariant. */
module Pixels {

  /** The colour channels of one pixel. */
  datatype Rgb = Rgb(r: real, g: real, b: real)

  /** Channel `c` (0 red, 1 green, 2 blue) of a colour. */
  function Channel(p: Rgb, c: nat): real
    requires c < 3
  {
    if c == 0 then p.r else if c == 1 then p.g else p.b
  }

  /** Channel-wise sum of two colours. */
  function Plus(a: Rgb, b: Rgb): Rgb {
    Rgb(a.r + b.r, a.g + b.g, a.b + b.b)
  }

  /** A colour with every channel multiplied by `w`. */
  function Scale(p: Rgb, w: real): Rgb {
    Rgb(p.r * w, p.g * w, p.b * w)
  }

  const Black := Rgb(0.0, 0.0, 0.0)

  /** Scaling distributes over adding weights. */
  lemma ScaleDistributes(p: Rgb, a: real, b: real)
    ensures Plus(Scale(p, a), Scale(p, b)) == Scale(p, a + b)
  {
    assert p.r * a + p.r * b == p.r * (a + b);
    assert p.g * a + p.g * b == p.g * (a + b);
    assert p.b * a + p.b * b == p.b * (a + b);
  }

  predicate IsByte(v: real) {
    0.0 <= v <= 255.0
  }

  /** Every sample can be stored in a Uint8ClampedArray without clamping. */
  predicate InByteRange(s: seq<real>) {
    forall i :: 0 <= i < |s| ==> IsByte(s[i])
  }

  /** `Math.max(0, Math.min(255, v))`, equivalently `Math.min(255, Math.max(0, v))`. */
  function ClampByte(v: real): (r: real)
    ensures IsByte(r)
    ensures IsByte(v) ==> r == v
    ensures v < 0.0 ==> r == 0.0
    ensures v > 255.0 ==> r == 255.0
  {
    if v < 0.0 then 0.0 else if v > 255.0 then 255.0 else v
  }

  /** Every pixel of `s` has colour `col` (alpha is not constrained). */
  predicate UniformColour(s: seq<real>, col: Rgb) {
    forall j :: 0 <= j < |s| && j % 4 != 3 ==> s[j] == Channel(col, j % 4)
  }

  /** A raster as a value: the contents of an ImageData at one moment. */
  datatype Raster = Raster(width: nat, height: nat, samples: seq<real>) {
    predicate Wf() {
      |samples| == width * height * 4
    }
  }

  /** Index of the red sample of pixel (x, y): `(y * width + x) * 4`. */
  function PixelIndex(width: nat, x: nat, y: nat): nat {
    (y * width + x) * 4
  }

  lemma MulLeRight(a: int, b: int, c: nat)
    requires a <= b
    ensures a * c <= b * c
  {
    assert b * c - a * c == (b - a) * c;
  }

  lemma MulNonNegative(a: nat, b: nat)
    ensures 0 <= a * b
  {
  }

  /** Every sample of every pixel inside the image lies inside the buffer. */
  lemma PixelIndexInBounds(width: nat, height: nat, x: nat, y: nat, c: nat)
    requires x < width && y < height && c < 4
    ensures PixelIndex(width, x, y) + c < width * height * 4
  {
    MulLeRight(y + 1, height, width);
    assert y * width + x < (y + 1) * width;
  }

  /** The samples of every pixel before `(x, y)` lie inside the buffer. */
  lemma PixelIndexAtMost(width: nat, height: nat, x: nat, y: nat)
    requires (x <= width && y < height) || (x == 0 && y <= height)
    ensures PixelIndex(width, x, y) <= width * height * 4
  {
    if y < height {
      MulLeRight(y + 1, height, width);
      assert y * width + x <= (y + 1) * width;
    } else {
      MulLeRight(y, height, width);
    }
  }

  /** The sample `c` of a pixel has channel `c`. */
  lemma ChannelOfIndex(width: nat, x: nat, y: nat, c: nat)
    requires c < 4
    ensures (PixelIndex(width, x, y) + c) % 4 == c
  {
  }

  /** Pixel coordinates and channel are recovered from a sample index by
      division. */
  lemma PixelOfIndex(width: nat, x: nat, y: nat, c: nat)
    requires x < width && c < 4
    ensures var j := PixelIndex(width, x, y) + c;
      j % 4 == c && (j / 4) % width == x && (j / 4) / width == y
  {
    var p := y * width + x;
    assert (PixelIndex(width, x, y) + c) / 4 == p;
    var q, r := p / width, p % width;
    assert p == q * width + r;
    if q > y {
      MulLeRight(y + 1, q, width);
      assert false;
    } else if q < y {
      MulLeRight(q + 1, y, width);
      assert false;
    }
  }

  /** Every sample index of a well-formed raster lies in a pixel inside the
      image. */
  lemma IndexOfPixel(j: nat, width: nat, height: nat)
    requires j < width * height * 4
    ensures width > 0 && height > 0
    ensures 0 <= (j / 4) % width < width && 0 <= (j / 4) / width < height
  {
    var p := j / 4;
    assert p < width * height;
    var q, r := p / width, p % width;
    assert p == q * width + r;
    if q >= height {
      MulLeRight(height, q, width);
      assert false;
    }
  }

  /** Every sample index is the index of its pixel plus its channel. */
  lemma IndexOfPixelExact(j: nat, width: nat, height: nat)
    requires j < width * height * 4
    ensures width > 0 && height > 0
    ensures 0 <= (j / 4) % width < width && 0 <= (j / 4) / width < height
    ensures PixelIndex(width, (j / 4) % width, (j / 4) / width) + j % 4 == j
  {
    IndexOfPixel(j, width, height);
    var p := j / 4;
    assert p == (p / width) * width + p % width;
  }

  /** Stepping four samples at a time over a buffer of whole pixels stays
      on pixel boundaries and inside the buffer. */
  lemma PixelStride(i: nat, n: nat)
    requires i % 4 == 0 && n % 4 == 0 && i < n
    ensures i + 4 <= n && (i + 4) % 4 == 0
    ensures (i + 1) % 4 == 1 && (i + 2) % 4 == 2 && (i + 3) % 4 == 3
  {
  }

  /** Writing the four samples of the pixel at `i` extends a prefix that
      agrees with `spec` by that pixel. */
  lemma PrefixExtend(before: seq<real>, spec: seq<real>, i: nat, a: real, b: real, c: real, d: real)
    requires i + 4 <= |before| == |spec|
    requires before[..i] == spec[..i]
    requires spec[i] == a && spec[i + 1] == b && spec[i + 2] == c && spec[i + 3] == d
    ensures before[i := a][i + 1 := b][i + 2 := c][i + 3 := d][..i + 4] == spec[..i + 4]
  {
    var after := before[i := a][i + 1 := b][i + 2 := c][i + 3 := d][..i + 4];
    assert forall j :: 0 <= j < i ==> before[..i][j] == spec[..i][j];
    assert forall j :: 0 <= j < i + 4 ==> after[j] == spec[j];
  }

  /** The four samples of pixel `p` carry channels 0 to 3. */
  lemma PixelChannels(p: nat)
    ensures (4 * p) % 4 == 0 && (4 * p + 1) % 4 == 1 && (4 * p + 2) % 4 == 2 && (4 * p + 3) % 4 == 3
  {
  }

  /** Writes colour `e` and alpha `alpha` into the four samples at `i`. */
  method StorePixel(o: array<real>, i: nat, e: Rgb, alpha: real)
    requires i + 4 <= o.Length
    modifies o
    ensures o[..] == old(o[..])[i := e.r][i + 1 := e.g][i + 2 := e.b][i + 3 := alpha]
  {
    o[i] := e.r;
    o[i + 1] := e.g;
    o[i + 2] := e.b;
    o[i + 3] := alpha;
  }

  /** A buffer of `pixels * 4` samples holds whole pixels. */
  lemma WholePixels(pixels: nat, n: nat)
    requires n == pixels * 4
    ensures n % 4 == 0
  {
  }

  /** The pixel after the last of row `y` is the first of row `y + 1`. */
  lemma NextRow(width: nat, y: nat)
    ensures PixelIndex(width, width, y) == PixelIndex(width, 0, y + 1)
  {
    assert y * width + width == (y + 1) * width;
  }

  /** A browser ImageData: its dimensions never change, and its data array is
      the very buffer the filters read or update in place. */
  class ImageData {
    const width: nat
    const height: nat
    const data: array<real>

    ghost predicate Valid()
      reads data
    {
      width > 0 && height > 0 && data.Length == width * height * 4 && InByteRange(data[..])
    }

    /** The current contents as a value. */
    ghost function Value(): (v: Raster)
      reads data
      ensures v.width == width && v.height == height && v.samples == data[..]
    {
      Raster(width, height, data[..])
    }

    /** `new ImageData(w, h)`: a fresh transparent black image.  The browser
        refuses a zero width or height. */
    constructor (w: nat, h: nat)
      requires w > 0 && h > 0
      ensures Valid() && width == w && height == h && fresh(data)
      ensures forall i :: 0 <= i < data.Length ==> data[i] == 0.0
    {
      width, height := w, h;
      data := new real[w * h * 4](_ => 0.0);
    }
  }
}
