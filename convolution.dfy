/** Square-kernel convolution with edge clamping (`convolve`) and the fixed
    3x3 Gaussian blur built on it (`gaussianBlur`). */
module Convolution {
  import opened Pixels

  /** Integer square root by upward search from `r`. */
  function SqrtFrom(n: nat, r: nat): (s: nat)
    requires r * r <= n
    ensures r <= s
    decreases n - r
  {
    if n < (r + 1) * (r + 1) then r
    else
      assert r <= r * r;
      SqrtFrom(n, r + 1)
  }

  /** The search ends at the integer square root. */
  lemma {:induction false} SqrtFromBounds(n: nat, r: nat)
    requires r * r <= n
    ensures SqrtFrom(n, r) * SqrtFrom(n, r) <= n < (SqrtFrom(n, r) + 1) * (SqrtFrom(n, r) + 1)
    decreases n - r
  {
    if n >= (r + 1) * (r + 1) {
      assert r <= r * r;
      SqrtFromBounds(n, r + 1);
    }
  }

  /** The kernel's side, `Math.sqrt(kernel.length)` for a square kernel. */
  function Side(kernel: seq<real>): nat {
    SqrtFrom(|kernel|, 0)
  }

  /** The kernel's length is a perfect square, the only shape the code can
      index correctly. */
  predicate SquareKernel(kernel: seq<real>) {
    Side(kernel) * Side(kernel) == |kernel|
  }

  lemma SquareMono(a: nat, b: nat)
    requires a < b
    ensures a * a < b * b
  {
    MulLeRight(a, b, a);
    MulLeRight(a, b, b);
    assert a * a <= b * a <= b * b;
    assert b * a < b * b by {
      assert b * b - b * a == b * (b - a);
    }
  }

  /** A kernel of `side * side` weights is square, and `Side` finds that side. */
  lemma SideOfSquare(kernel: seq<real>, side: nat)
    requires |kernel| == side * side
    ensures Side(kernel) == side && SquareKernel(kernel)
  {
    SqrtFromBounds(|kernel|, 0);
    var s := Side(kernel);
    if s < side {
      if s + 1 < side { SquareMono(s + 1, side); }
      assert false;
    } else if s > side {
      SquareMono(side, s);
      assert false;
    }
  }

  /** Weight `(kx, ky)` lies inside a `side * side` kernel. */
  lemma KernelIndexInBounds(side: nat, kx: nat, ky: nat)
    requires kx < side && ky < side
    ensures 0 <= ky * side + kx < side * side
  {
    MulLeRight(ky + 1, side, side);
  }

  /** `Math.min(n - 1, Math.max(0, v))`: the edge-replicating coordinate. */
  function ClampCoord(v: int, n: nat): (r: nat)
    requires n > 0
    ensures r < n
    ensures 0 <= v < n ==> r == v
    ensures v < 0 ==> r == 0
    ensures v >= n ==> r == n - 1
  {
    var lower := if 0 > v then 0 else v;
    if n - 1 < lower then n - 1 else lower
  }

  /** The weighted colour tap `(kx, ky)` contributes at output pixel
      `(x, y)`: the colour of the edge-clamped source pixel times the weight. */
  function Tap(im: Raster, kernel: seq<real>, side: nat, x: nat, y: nat, ky: nat, kx: nat): Rgb
    requires im.Wf() && |kernel| == side * side
    requires x < im.width && y < im.height
    requires ky < side && kx < side
  {
    var px := ClampCoord(x + kx - side / 2, im.width);
    var py := ClampCoord(y + ky - side / 2, im.height);
    PixelIndexInBounds(im.width, im.height, px, py, 2);
    KernelIndexInBounds(side, kx, ky);
    var idx := PixelIndex(im.width, px, py);
    Scale(Rgb(im.samples[idx], im.samples[idx + 1], im.samples[idx + 2]), kernel[ky * side + kx])
  }

  /** Tap `(kx, ky)` is the clamped pixel at sample index `idx` weighted by
      `w`. */
  lemma TapIs(im: Raster, kernel: seq<real>, side: nat, x: nat, y: nat, ky: nat, kx: nat, idx: nat, w: real)
    requires im.Wf() && |kernel| == side * side
    requires x < im.width && y < im.height
    requires ky < side && kx < side
    requires idx == PixelIndex(im.width, ClampCoord(x + kx - side / 2, im.width), ClampCoord(y + ky - side / 2, im.height))
    requires 0 <= ky * side + kx < |kernel| && w == kernel[ky * side + kx]
    ensures idx + 2 < |im.samples|
    ensures Tap(im, kernel, side, x, y, ky, kx) == Scale(Rgb(im.samples[idx], im.samples[idx + 1], im.samples[idx + 2]), w)
  {
    var px := ClampCoord(x + kx - side / 2, im.width);
    var py := ClampCoord(y + ky - side / 2, im.height);
    PixelIndexInBounds(im.width, im.height, px, py, 2);
  }

  /** Sum of the first `n` taps of kernel row `ky`. */
  function RowSum(im: Raster, kernel: seq<real>, side: nat, x: nat, y: nat, ky: nat, n: nat): Rgb
    requires im.Wf() && |kernel| == side * side
    requires x < im.width && y < im.height
    requires ky < side && n <= side
  {
    if n == 0 then Black
    else Plus(RowSum(im, kernel, side, x, y, ky, n - 1), Tap(im, kernel, side, x, y, ky, n - 1))
  }

  /** Adding tap `kx` extends the sum of row `ky` by one tap. */
  lemma RowSumStep(im: Raster, kernel: seq<real>, side: nat, x: nat, y: nat, ky: nat, kx: nat, idx: nat, w: real)
    requires im.Wf() && |kernel| == side * side
    requires x < im.width && y < im.height
    requires ky < side && kx < side
    requires idx == PixelIndex(im.width, ClampCoord(x + kx - side / 2, im.width), ClampCoord(y + ky - side / 2, im.height))
    requires 0 <= ky * side + kx < |kernel| && w == kernel[ky * side + kx]
    ensures idx + 2 < |im.samples|
    ensures RowSum(im, kernel, side, x, y, ky, kx + 1)
      == Plus(RowSum(im, kernel, side, x, y, ky, kx), Scale(Rgb(im.samples[idx], im.samples[idx + 1], im.samples[idx + 2]), w))
  {
    TapIs(im, kernel, side, x, y, ky, kx, idx, w);
  }

  /** Sum of the taps of the first `m` kernel rows, in the code's order. */
  function WindowSum(im: Raster, kernel: seq<real>, side: nat, x: nat, y: nat, m: nat): Rgb
    requires im.Wf() && |kernel| == side * side
    requires x < im.width && y < im.height
    requires m <= side
  {
    if m == 0 then Black
    else Plus(WindowSum(im, kernel, side, x, y, m - 1), RowSum(im, kernel, side, x, y, m - 1, side))
  }

  /** The colour written for a window sum: each channel divided by the
      divisor, offset by the bias and clamped to [0,255]. */
  function Emit(sum: Rgb, divisor: real, bias: real): (e: Rgb)
    requires divisor != 0.0
    ensures IsByte(e.r) && IsByte(e.g) && IsByte(e.b)
  {
    Rgb(ClampByte(sum.r / divisor + bias), ClampByte(sum.g / divisor + bias), ClampByte(sum.b / divisor + bias))
  }

  /** Output sample `j`: alpha copied from the same pixel, each colour the
      weighted window sum over the divisor, plus the bias, clamped. */
  function OutputSample(im: Raster, kernel: seq<real>, side: nat, divisor: real, bias: real, j: nat): real
    requires im.Wf() && |kernel| == side * side && divisor != 0.0
    requires j < |im.samples|
  {
    if j % 4 == 3 then im.samples[j]
    else
      IndexOfPixel(j, im.width, im.height);
      var p := j / 4;
      Channel(Emit(WindowSum(im, kernel, side, p % im.width, p / im.width, side), divisor, bias), j % 4)
  }

  /** The convolved image: same dimensions, alpha copied, colours in [0,255]. */
  function ConvolveSpec(im: Raster, kernel: seq<real>, side: nat, divisor: real, bias: real): (out: Raster)
    requires im.Wf() && |kernel| == side * side && divisor != 0.0
    ensures out.Wf() && out.width == im.width && out.height == im.height
    ensures forall j {:trigger out.samples[j]} :: 0 <= j < |im.samples| && j % 4 == 3 ==> out.samples[j] == im.samples[j]
    ensures forall j {:trigger out.samples[j]} :: 0 <= j < |im.samples| && j % 4 != 3 ==> IsByte(out.samples[j])
  {
    var out := OutputSamples(im, kernel, side, divisor, bias, |im.samples|);
    forall j | 0 <= j < |im.samples|
      ensures out[j] == OutputSample(im, kernel, side, divisor, bias, j)
    {
      OutputSamplesAt(im, kernel, side, divisor, bias, |im.samples|, j);
    }
    Raster(im.width, im.height, out)
  }

  /** The first `n` output samples. */
  function OutputSamples(im: Raster, kernel: seq<real>, side: nat, divisor: real, bias: real, n: nat): (s: seq<real>)
    requires im.Wf() && |kernel| == side * side && divisor != 0.0
    requires n <= |im.samples|
    ensures |s| == n
  {
    if n == 0 then [] else OutputSamples(im, kernel, side, divisor, bias, n - 1) + [OutputSample(im, kernel, side, divisor, bias, n - 1)]
  }

  lemma {:induction false} OutputSamplesAt(im: Raster, kernel: seq<real>, side: nat, divisor: real, bias: real, n: nat, j: nat)
    requires im.Wf() && |kernel| == side * side && divisor != 0.0
    requires j < n <= |im.samples|
    ensures OutputSamples(im, kernel, side, divisor, bias, n)[j] == OutputSample(im, kernel, side, divisor, bias, j)
  {
    if j < n - 1 {
      OutputSamplesAt(im, kernel, side, divisor, bias, n - 1, j);
    }
  }

  /** The output samples of pixel `(x, y)`. */
  lemma ConvolveSpecAt(im: Raster, kernel: seq<real>, side: nat, divisor: real, bias: real, x: nat, y: nat)
    requires im.Wf() && |kernel| == side * side && divisor != 0.0
    requires x < im.width && y < im.height
    ensures PixelIndex(im.width, x, y) + 3 < |im.samples|
    ensures var i, e, out := PixelIndex(im.width, x, y), Emit(WindowSum(im, kernel, side, x, y, side), divisor, bias),
        ConvolveSpec(im, kernel, side, divisor, bias).samples;
      && out[i] == e.r && out[i + 1] == e.g && out[i + 2] == e.b
      && out[i + 3] == im.samples[i + 3]
  {
    var i, e, out := PixelIndex(im.width, x, y), Emit(WindowSum(im, kernel, side, x, y, side), divisor, bias),
      ConvolveSpec(im, kernel, side, divisor, bias).samples;
    PixelIndexInBounds(im.width, im.height, x, y, 3);
    assert out[i] == e.r by {
      ConvolveSpecColour(im, kernel, side, divisor, bias, x, y, 0);
    }
    assert out[i + 1] == e.g by {
      ConvolveSpecColour(im, kernel, side, divisor, bias, x, y, 1);
    }
    assert out[i + 2] == e.b by {
      ConvolveSpecColour(im, kernel, side, divisor, bias, x, y, 2);
    }
    assert out[i + 3] == im.samples[i + 3] by {
      ChannelOfIndex(im.width, x, y, 3);
    }
  }

  /** Output colour sample `c` of pixel `(x, y)`. */
  lemma ConvolveSpecColour(im: Raster, kernel: seq<real>, side: nat, divisor: real, bias: real, x: nat, y: nat, c: nat)
    requires im.Wf() && |kernel| == side * side && divisor != 0.0
    requires x < im.width && y < im.height && c < 3
    ensures PixelIndex(im.width, x, y) + c < |im.samples|
    ensures ConvolveSpec(im, kernel, side, divisor, bias).samples[PixelIndex(im.width, x, y) + c]
      == Channel(Emit(WindowSum(im, kernel, side, x, y, side), divisor, bias), c)
  {
    var j := PixelIndex(im.width, x, y) + c;
    PixelIndexInBounds(im.width, im.height, x, y, c);
    OutputSamplesAt(im, kernel, side, divisor, bias, |im.samples|, j);
    PixelOfIndex(im.width, x, y, c);
    assert j % 4 == c && (j / 4) % im.width == x && (j / 4) / im.width == y;
    assert OutputSample(im, kernel, side, divisor, bias, j)
      == Channel(Emit(WindowSum(im, kernel, side, x, y, side), divisor, bias), c);
  }

  /** Convolution keeps every sample in [0,255]: colours are clamped and
      alpha is copied. */
  lemma ConvolveInByteRange(im: Raster, kernel: seq<real>, side: nat, divisor: real, bias: real)
    requires im.Wf() && |kernel| == side * side && divisor != 0.0
    requires InByteRange(im.samples)
    ensures InByteRange(ConvolveSpec(im, kernel, side, divisor, bias).samples)
  {
    var out := ConvolveSpec(im, kernel, side, divisor, bias).samples;
    forall j | 0 <= j < |out|
      ensures IsByte(out[j])
    {
      if j % 4 == 3 {
        assert out[j] == im.samples[j];
      }
    }
  }

  /** The two inner loops of `convolve`: the weighted sums of the three colour
      channels over the clamped window around `(x, y)`. */
  method AccumulateWindow(img: ImageData, kernel: seq<real>, side: nat, x: nat, y: nat) returns (r: real, g: real, b: real)
    requires img.Valid() && |kernel| == side * side
    requires x < img.width && y < img.height
    ensures Rgb(r, g, b) == WindowSum(img.Value(), kernel, side, x, y, side)
  {
    ghost var im := img.Value();
    var width, height, data := img.width, img.height, img.data;
    var half := side / 2;
    r, g, b := 0.0, 0.0, 0.0;
    var ky := 0;
    while ky < side
      invariant 0 <= ky <= side
      invariant Rgb(r, g, b) == WindowSum(im, kernel, side, x, y, ky)
    {
      var kx := 0;
      while kx < side
        invariant 0 <= kx <= side
        invariant Rgb(r, g, b) == Plus(WindowSum(im, kernel, side, x, y, ky), RowSum(im, kernel, side, x, y, ky, kx))
      {
        var px := ClampCoord(x + kx - half, width);
        var py := ClampCoord(y + ky - half, height);
        var idx := PixelIndex(width, px, py);
        KernelIndexInBounds(side, kx, ky);
        var kval := kernel[ky * side + kx];
        RowSumStep(im, kernel, side, x, y, ky, kx, idx, kval);
        var tap := Scale(Rgb(data[idx], data[idx + 1], data[idx + 2]), kval);
        r, g, b := r + tap.r, g + tap.g, b + tap.b;
        kx := kx + 1;
      }
      ky := ky + 1;
    }
  }

  /** The `x` loop of `convolve` for row `y`: given the rows above it
      written, it writes the pixels of row `y`, left to right. */
  method ConvolveRow(img: ImageData, kernel: seq<real>, side: nat, divisor: real, bias: real,
                     o: array<real>, y: nat, ghost spec: seq<real>)
    requires img.Valid() && |kernel| == side * side && divisor != 0.0
    requires y < img.height && o != img.data && o.Length == img.data.Length
    requires spec == ConvolveSpec(img.Value(), kernel, side, divisor, bias).samples
    requires o[..4 * (y * img.width)] == spec[..4 * (y * img.width)]
    modifies o
    ensures 4 * (y * img.width + img.width) <= o.Length
    ensures o[..4 * (y * img.width + img.width)] == spec[..4 * (y * img.width + img.width)]
  {
    ghost var im := img.Value();
    var width, height, data := img.width, img.height, img.data;
    PixelIndexAtMost(width, height, 0, y);
    ghost var p := y * width;  // pixels written so far
    var x := 0;
    while x < width
      invariant 0 <= x <= width && p == y * width + x
      invariant data[..] == im.samples
      invariant 4 * p <= o.Length
      invariant o[..4 * p] == spec[..4 * p]
    {
      var r, g, b := AccumulateWindow(img, kernel, side, x, y);
      var i := PixelIndex(width, x, y);
      ConvolveSpecAt(im, kernel, side, divisor, bias, x, y);
      PixelIndexAtMost(width, height, x + 1, y);
      var e := Emit(Rgb(r, g, b), divisor, bias);
      ghost var before := o[..];
      StorePixel(o, i, e, data[i + 3]);
      PrefixExtend(before, spec, i, e.r, e.g, e.b, data[i + 3]);
      x, p := x + 1, p + 1;
    }
  }

  /** `convolve`: a fresh image of the same size; the source is only read. */
  method Convolve(img: ImageData, kernel: seq<real>, divisor: real, bias: real) returns (output: ImageData)
    requires img.Valid() && SquareKernel(kernel) && divisor != 0.0
    ensures fresh(output) && fresh(output.data) && output.Valid()
    ensures output.Value() == ConvolveSpec(img.Value(), kernel, Side(kernel), divisor, bias)
  {
    var side := Side(kernel);
    ghost var im := img.Value();
    ghost var spec := ConvolveSpec(im, kernel, side, divisor, bias).samples;
    var width, height := img.width, img.height;
    output := new ImageData(width, height);
    var o := output.data;
    var y := 0;
    while y < height
      invariant 0 <= y <= height
      invariant img.data[..] == im.samples
      invariant 4 * (y * width) <= o.Length
      invariant o[..4 * (y * width)] == spec[..4 * (y * width)]
    {
      ConvolveRow(img, kernel, side, divisor, bias, o, y, spec);
      NextRow(width, y);
      y := y + 1;
    }
    assert o[..] == spec by {
      assert height * width * 4 == o.Length;
    }
    ConvolveInByteRange(im, kernel, side, divisor, bias);
  }

  /** Sum of the first `n` weights of a kernel, in index order. */
  function PrefixSum(kernel: seq<real>, n: nat): real
    requires n <= |kernel|
  {
    if n == 0 then 0.0 else PrefixSum(kernel, n - 1) + kernel[n - 1]
  }

  /** Sum of all the weights of a kernel. */
  function Sum(kernel: seq<real>): real {
    PrefixSum(kernel, |kernel|)
  }

  /** On a single-colour image every tap reads that colour. */
  lemma TapUniform(im: Raster, kernel: seq<real>, side: nat, x: nat, y: nat, ky: nat, kx: nat, col: Rgb)
    requires im.Wf() && |kernel| == side * side && UniformColour(im.samples, col)
    requires x < im.width && y < im.height
    requires ky < side && kx < side
    ensures 0 <= ky * side + kx < |kernel|
    ensures Tap(im, kernel, side, x, y, ky, kx) == Scale(col, kernel[ky * side + kx])
  {
    var px := ClampCoord(x + kx - side / 2, im.width);
    var py := ClampCoord(y + ky - side / 2, im.height);
    PixelIndexInBounds(im.width, im.height, px, py, 2);
    ChannelOfIndex(im.width, px, py, 0);
    ChannelOfIndex(im.width, px, py, 1);
    ChannelOfIndex(im.width, px, py, 2);
    KernelIndexInBounds(side, kx, ky);
  }

  /** Sum of the first `n` weights of kernel row `ky`. */
  function RowWeight(kernel: seq<real>, side: nat, ky: nat, n: nat): real
    requires |kernel| == side * side && ky < side && n <= side
  {
    if n == 0 then 0.0
    else
      KernelIndexInBounds(side, n - 1, ky);
      RowWeight(kernel, side, ky, n - 1) + kernel[ky * side + (n - 1)]
  }

  /** Sum of the weights of the first `m` kernel rows. */
  function WindowWeight(kernel: seq<real>, side: nat, m: nat): real
    requires |kernel| == side * side && m <= side
  {
    if m == 0 then 0.0 else WindowWeight(kernel, side, m - 1) + RowWeight(kernel, side, m - 1, side)
  }

  /** Row `ky`'s weights are the index range `[ky * side, ky * side + n)` of
      the kernel. */
  lemma {:induction false} RowWeightIsRange(kernel: seq<real>, side: nat, ky: nat, n: nat)
    requires |kernel| == side * side && ky < side && n <= side
    ensures 0 <= ky * side <= ky * side + n <= |kernel|
    ensures RowWeight(kernel, side, ky, n) == PrefixSum(kernel, ky * side + n) - PrefixSum(kernel, ky * side)
  {
    KernelIndexInBounds(side, 0, ky);
    if n > 0 {
      RowWeightIsRange(kernel, side, ky, n - 1);
      KernelIndexInBounds(side, n - 1, ky);
      assert ky * side + n == ky * side + (n - 1) + 1;
    }
  }

  /** The first `m` rows are the first `m * side` weights. */
  lemma {:induction false} WindowWeightIsPrefix(kernel: seq<real>, side: nat, m: nat)
    requires |kernel| == side * side && m <= side
    ensures 0 <= m * side <= |kernel|
    ensures WindowWeight(kernel, side, m) == PrefixSum(kernel, m * side)
  {
    MulLeRight(m, side, side);
    MulNonNegative(m, side);
    if m > 0 {
      WindowWeightIsPrefix(kernel, side, m - 1);
      RowWeightIsRange(kernel, side, m - 1, side);
      assert (m - 1) * side + side == m * side;
    }
  }

  /** The weights of the whole window are all the weights of the kernel. */
  lemma WindowWeightIsSum(kernel: seq<real>, side: nat)
    requires |kernel| == side * side
    ensures WindowWeight(kernel, side, side) == Sum(kernel)
  {
    WindowWeightIsPrefix(kernel, side, side);
  }

  lemma {:induction false} RowSumUniform(im: Raster, kernel: seq<real>, side: nat, x: nat, y: nat, ky: nat, n: nat, col: Rgb)
    requires im.Wf() && |kernel| == side * side
    requires x < im.width && y < im.height
    requires UniformColour(im.samples, col)
    requires ky < side && n <= side
    ensures RowSum(im, kernel, side, x, y, ky, n) == Scale(col, RowWeight(kernel, side, ky, n))
  {
    if n > 0 {
      RowSumUniform(im, kernel, side, x, y, ky, n - 1, col);
      TapUniform(im, kernel, side, x, y, ky, n - 1, col);
      ScaleDistributes(col, RowWeight(kernel, side, ky, n - 1), kernel[ky * side + (n - 1)]);
    }
  }

  lemma {:induction false} WindowSumUniform(im: Raster, kernel: seq<real>, side: nat, x: nat, y: nat, m: nat, col: Rgb)
    requires im.Wf() && |kernel| == side * side
    requires x < im.width && y < im.height
    requires UniformColour(im.samples, col)
    requires m <= side
    ensures WindowSum(im, kernel, side, x, y, m) == Scale(col, WindowWeight(kernel, side, m))
  {
    if m > 0 {
      WindowSumUniform(im, kernel, side, x, y, m - 1, col);
      RowSumUniform(im, kernel, side, x, y, m - 1, side, col);
      ScaleDistributes(col, WindowWeight(kernel, side, m - 1), RowWeight(kernel, side, m - 1, side));
    }
  }

  /** Over a single-colour image every window sums to the colour times the
      sum of the weights. */
  lemma WindowSumOfUniform(im: Raster, kernel: seq<real>, side: nat, x: nat, y: nat, col: Rgb)
    requires im.Wf() && |kernel| == side * side && UniformColour(im.samples, col)
    requires x < im.width && y < im.height
    ensures WindowSum(im, kernel, side, x, y, side) == Scale(col, Sum(kernel))
  {
    WindowSumUniform(im, kernel, side, x, y, side, col);
    WindowWeightIsSum(kernel, side);
  }

  /** Convolving a single-colour image gives a single-colour image, whose
      colour is the source colour weighted by the sum of the kernel. */
  lemma ConvolveUniform(im: Raster, kernel: seq<real>, side: nat, divisor: real, bias: real, col: Rgb)
    requires im.Wf() && |kernel| == side * side && divisor != 0.0
    requires UniformColour(im.samples, col)
    ensures UniformColour(ConvolveSpec(im, kernel, side, divisor, bias).samples,
      Emit(Scale(col, Sum(kernel)), divisor, bias))
  {
    var out := ConvolveSpec(im, kernel, side, divisor, bias).samples;
    forall j | 0 <= j < |out| && j % 4 != 3
      ensures out[j] == Channel(Emit(Scale(col, Sum(kernel)), divisor, bias), j % 4)
    {
      ConvolveUniformSample(im, kernel, side, divisor, bias, col, j);
    }
  }

  lemma ConvolveUniformSample(im: Raster, kernel: seq<real>, side: nat, divisor: real, bias: real, col: Rgb, j: nat)
    requires im.Wf() && |kernel| == side * side && divisor != 0.0
    requires UniformColour(im.samples, col)
    requires j < |im.samples| && j % 4 != 3
    ensures ConvolveSpec(im, kernel, side, divisor, bias).samples[j] == Channel(Emit(Scale(col, Sum(kernel)), divisor, bias), j % 4)
  {
    IndexOfPixelExact(j, im.width, im.height);
    ConvolveUniformAt(im, kernel, side, divisor, bias, col, (j / 4) % im.width, (j / 4) / im.width, j % 4);
  }

  lemma ConvolveUniformAt(im: Raster, kernel: seq<real>, side: nat, divisor: real, bias: real, col: Rgb, x: nat, y: nat, c: nat)
    requires im.Wf() && |kernel| == side * side && divisor != 0.0
    requires UniformColour(im.samples, col)
    requires x < im.width && y < im.height && c < 3
    ensures PixelIndex(im.width, x, y) + c < |im.samples|
    ensures ConvolveSpec(im, kernel, side, divisor, bias).samples[PixelIndex(im.width, x, y) + c]
      == Channel(Emit(Scale(col, Sum(kernel)), divisor, bias), c)
  {
    ConvolveSpecColour(im, kernel, side, divisor, bias, x, y, c);
    WindowSumOfUniform(im, kernel, side, x, y, col);
  }

  /** On a 1x1 image every clamped tap reads the single pixel, so its colour
      is weighted by the sum of the kernel and its alpha is kept. */
  lemma ConvolveSinglePixel(im: Raster, kernel: seq<real>, side: nat, divisor: real, bias: real)
    requires im.Wf() && im.width == 1 && im.height == 1
    requires |kernel| == side * side && divisor != 0.0
    ensures var s := im.samples;
      var e := Emit(Scale(Rgb(s[0], s[1], s[2]), Sum(kernel)), divisor, bias);
      ConvolveSpec(im, kernel, side, divisor, bias).samples == [e.r, e.g, e.b, s[3]]
  {
    var s := im.samples;
    var col := Rgb(s[0], s[1], s[2]);
    assert UniformColour(s, col);
    ConvolveUniform(im, kernel, side, divisor, bias, col);
  }

  /** The 3x3 Gaussian kernel `[1,2,1, 2,4,2, 1,2,1]`. */
  const GaussianKernel: seq<real> := [1.0, 2.0, 1.0, 2.0, 4.0, 2.0, 1.0, 2.0, 1.0]

  /** The Gaussian weights sum to its divisor 16. */
  lemma GaussianKernelShape()
    ensures |GaussianKernel| == 3 * 3
    ensures Sum(GaussianKernel) == 16.0
  {
    var k := GaussianKernel;
    assert PrefixSum(k, 3) == 4.0;
    assert PrefixSum(k, 6) == 12.0;
  }

  /** `gaussianBlur` as a value. */
  function BlurSpec(im: Raster): (out: Raster)
    requires im.Wf()
    ensures out.Wf() && out.width == im.width && out.height == im.height
  {
    GaussianKernelShape();
    ConvolveSpec(im, GaussianKernel, 3, 16.0, 0.0)
  }

  /** `gaussianBlur`: convolution with the Gaussian kernel, divisor 16, bias 0. */
  method GaussianBlur(img: ImageData) returns (output: ImageData)
    requires img.Valid()
    ensures fresh(output) && fresh(output.data) && output.Valid()
    ensures output.Value() == BlurSpec(img.Value())
  {
    GaussianKernelShape();
    SideOfSquare(GaussianKernel, 3);
    output := Convolve(img, [1.0, 2.0, 1.0, 2.0, 4.0, 2.0, 1.0, 2.0, 1.0], 16.0, 0.0);
  }

  /** Blurring a single-colour image whose colour is in [0,255] changes
      nothing, because the weights sum to the divisor. */
  lemma BlurUniform(im: Raster, col: Rgb)
    requires im.Wf() && UniformColour(im.samples, col)
    requires IsByte(col.r) && IsByte(col.g) && IsByte(col.b)
    ensures BlurSpec(im) == im
  {
    GaussianKernelShape();
    var out := BlurSpec(im).samples;
    ConvolveUniform(im, GaussianKernel, 3, 16.0, 0.0, col);
    assert col.r * 16.0 / 16.0 + 0.0 == col.r;
    assert col.g * 16.0 / 16.0 + 0.0 == col.g;
    assert col.b * 16.0 / 16.0 + 0.0 == col.b;
    assert Emit(Scale(col, 16.0), 16.0, 0.0) == col;
    forall j | 0 <= j < |out|
      ensures out[j] == im.samples[j]
    {
      if j % 4 != 3 {
        assert out[j] == Channel(col, j % 4);
      }
    }
    assert out == im.samples;
  }
}
