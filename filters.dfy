/** The two filters built on the Gaussian blur: the unsharp mask
    (`unsharpMask`) and the blur blend used as a denoiser (`denoise`).  Both
    read the source image, blur it once, and fill a fresh image sample by
    sample; alpha is copied from the source. */
module Filters {
  import opened Pixels
  import opened Convolution

  lemma MulNonNegativeReal(a: real, b: real)
    requires a >= 0.0 && b >= 0.0
    ensures a * b >= 0.0
  {
  }

  // ---------------------------------------------------------------- unsharp

  /** One colour sample pushed away from its blurred value `bv` by `amount`
      times their difference, clamped to [0,255]. */
  function Sharpen(v: real, bv: real, amount: real): real {
    ClampByte(v + (v - bv) * amount)
  }

  /** Sample `j` of the unsharp mask: a colour sample is pushed away from its
      blurred value by `amount` times their difference and clamped; alpha is
      the source's. */
  function UnsharpSample(src: seq<real>, bl: seq<real>, amount: real, j: nat): real
    requires |src| == |bl| && j < |src|
  {
    if j % 4 == 3 then src[j] else Sharpen(src[j], bl[j], amount)
  }

  /** The first `n` samples of the unsharp mask. */
  function UnsharpSamples(src: seq<real>, bl: seq<real>, amount: real, n: nat): (t: seq<real>)
    requires |src| == |bl| && n <= |src|
    ensures |t| == n
  {
    if n == 0 then [] else UnsharpSamples(src, bl, amount, n - 1) + [UnsharpSample(src, bl, amount, n - 1)]
  }

  lemma {:induction false} UnsharpSamplesAt(src: seq<real>, bl: seq<real>, amount: real, n: nat, j: nat)
    requires |src| == |bl| && j < n <= |src|
    ensures UnsharpSamples(src, bl, amount, n)[j] == UnsharpSample(src, bl, amount, j)
  {
    if j < n - 1 {
      UnsharpSamplesAt(src, bl, amount, n - 1, j);
    }
  }

  /** The sharpened image: `original + amount * (original - blurred)`,
      clamped, with the source's alpha. */
  function UnsharpSpec(im: Raster, amount: real): (out: Raster)
    requires im.Wf()
    ensures out.Wf() && out.width == im.width && out.height == im.height
    ensures forall j {:trigger out.samples[j]} :: 0 <= j < |im.samples| && j % 4 == 3 ==> out.samples[j] == im.samples[j]
  {
    var bl := BlurSpec(im).samples;
    var out := UnsharpSamples(im.samples, bl, amount, |im.samples|);
    forall j | 0 <= j < |im.samples|
      ensures out[j] == UnsharpSample(im.samples, bl, amount, j)
    {
      UnsharpSamplesAt(im.samples, bl, amount, |im.samples|, j);
    }
    Raster(im.width, im.height, out)
  }

  /** Sample `j` of the sharpened image. */
  lemma UnsharpSpecSample(im: Raster, amount: real, j: nat)
    requires im.Wf() && j < |im.samples|
    ensures UnsharpSpec(im, amount).samples[j] == UnsharpSample(im.samples, BlurSpec(im).samples, amount, j)
  {
    UnsharpSamplesAt(im.samples, BlurSpec(im).samples, amount, |im.samples|, j);
  }

  /** The four samples of pixel `p` of the sharpened samples. */
  lemma UnsharpSamplesPixel(src: seq<real>, bl: seq<real>, amount: real, p: nat)
    requires |src| == |bl| && 4 * p + 4 <= |src|
    ensures var base, out := 4 * p, UnsharpSamples(src, bl, amount, |src|);
      && out[base] == Sharpen(src[base], bl[base], amount)
      && out[base + 1] == Sharpen(src[base + 1], bl[base + 1], amount)
      && out[base + 2] == Sharpen(src[base + 2], bl[base + 2], amount)
      && out[base + 3] == src[base + 3]
  {
    PixelChannels(p);
    UnsharpSamplesAt(src, bl, amount, |src|, 4 * p);
    UnsharpSamplesAt(src, bl, amount, |src|, 4 * p + 1);
    UnsharpSamplesAt(src, bl, amount, |src|, 4 * p + 2);
    UnsharpSamplesAt(src, bl, amount, |src|, 4 * p + 3);
  }

  /** Sharpening keeps every sample of an in-range image in [0,255]. */
  lemma UnsharpInByteRange(im: Raster, amount: real)
    requires im.Wf() && InByteRange(im.samples)
    ensures InByteRange(UnsharpSpec(im, amount).samples)
  {
    var out := UnsharpSpec(im, amount).samples;
    forall j | 0 <= j < |out|
      ensures IsByte(out[j])
    {
      UnsharpSpecSample(im, amount, j);
    }
  }

  /** `unsharpMask`: blurs the source, then fills a fresh image pixel by
      pixel. */
  method UnsharpMask(img: ImageData, amount: real) returns (out: ImageData)
    requires img.Valid()
    ensures fresh(out) && fresh(out.data) && out.Valid()
    ensures out.Value() == UnsharpSpec(img.Value(), amount)
  {
    ghost var im := img.Value();
    var blurred := GaussianBlur(img);
    ghost var bl := blurred.data[..];
    ghost var spec := UnsharpSamples(im.samples, bl, amount, |im.samples|);
    out := new ImageData(img.width, img.height);
    var data, bdata, o := img.data, blurred.data, out.data;
    ghost var pixels := img.width * img.height;
    var i := 0;
    ghost var p := 0;
    while i < data.Length
      invariant i == 4 * p && p <= pixels
      invariant data[..] == im.samples && bdata[..] == bl
      invariant o[..i] == spec[..i]
    {
      var r, g, b := data[i], data[i + 1], data[i + 2];
      var br, bg, bb := bdata[i], bdata[i + 1], bdata[i + 2];
      var e := Rgb(Sharpen(r, br, amount), Sharpen(g, bg, amount), Sharpen(b, bb, amount));
      UnsharpSamplesPixel(im.samples, bl, amount, p);
      ghost var before := o[..];
      StorePixel(o, i, e, data[i + 3]);
      PrefixExtend(before, spec, i, e.r, e.g, e.b, data[i + 3]);
      i, p := i + 4, p + 1;
    }
    assert o[..] == spec;
    assert bl == BlurSpec(im).samples;
    UnsharpInByteRange(im, amount);
  }

  /** An amount of 0 leaves an in-range image unchanged. */
  lemma UnsharpZeroAmount(im: Raster)
    requires im.Wf() && InByteRange(im.samples)
    ensures UnsharpSpec(im, 0.0) == im
  {
    var out := UnsharpSpec(im, 0.0).samples;
    forall j | 0 <= j < |out|
      ensures out[j] == im.samples[j]
    {
      UnsharpSpecSample(im, 0.0, j);
    }
  }

  /** A single-colour image in range has nothing to sharpen: the blur leaves
      it unchanged, so every difference is 0. */
  lemma UnsharpUniform(im: Raster, amount: real, col: Rgb)
    requires im.Wf() && UniformColour(im.samples, col)
    requires IsByte(col.r) && IsByte(col.g) && IsByte(col.b)
    ensures UnsharpSpec(im, amount) == im
  {
    BlurUniform(im, col);
    var out := UnsharpSpec(im, amount).samples;
    forall j | 0 <= j < |out|
      ensures out[j] == im.samples[j]
    {
      UnsharpSpecSample(im, amount, j);
      if j % 4 != 3 {
        assert IsByte(im.samples[j]) by {
          assert im.samples[j] == Channel(col, j % 4);
        }
      }
    }
  }

  /** For one in-range sample, sharpening by a non-negative amount moves it
      away from its blurred value (or keeps it). */
  lemma SharpenAway(v: real, bv: real, amount: real)
    requires IsByte(v) && amount >= 0.0
    ensures v >= bv ==> Sharpen(v, bv, amount) >= v
    ensures v <= bv ==> Sharpen(v, bv, amount) <= v
  {
    if v >= bv {
      MulNonNegativeReal(v - bv, amount);
    } else {
      MulNonNegativeReal(bv - v, amount);
      assert (v - bv) * amount == -((bv - v) * amount);
    }
  }

  /** With a non-negative amount, a colour sample brighter than its blurred
      value never gets darker and one darker than it never gets brighter:
      the mask only increases local contrast. */
  lemma UnsharpAwayFromBlur(im: Raster, amount: real, j: nat)
    requires im.Wf() && InByteRange(im.samples) && amount >= 0.0
    requires j < |im.samples| && j % 4 != 3
    ensures var v, bv, out := im.samples[j], BlurSpec(im).samples[j], UnsharpSpec(im, amount).samples[j];
      (v >= bv ==> out >= v) && (v <= bv ==> out <= v)
  {
    UnsharpSpecSample(im, amount, j);
    var v, bv := im.samples[j], BlurSpec(im).samples[j];
    assert UnsharpSpec(im, amount).samples[j] == Sharpen(v, bv, amount);
    assert IsByte(v);
    SharpenAway(v, bv, amount);
  }

  // ---------------------------------------------------------------- denoise

  /** `Math.max(0, Math.min(1, strength))`. */
  function ClampStrength(strength: real): (s: real)
    ensures 0.0 <= s <= 1.0
    ensures 0.0 <= strength <= 1.0 ==> s == strength
    ensures strength < 0.0 ==> s == 0.0
    ensures strength > 1.0 ==> s == 1.0
  {
    var upper := if 1.0 < strength then 1.0 else strength;
    if 0.0 > upper then 0.0 else upper
  }

  /** A colour sample moved from `v` towards its blurred value `bv` by the
      weight `s`. */
  function Blend(v: real, bv: real, s: real): real {
    v * (1.0 - s) + bv * s
  }

  /** Sample `j` of the denoised image: a colour sample blended from the
      source towards its blurred value by `s`; alpha is the source's. */
  function DenoiseSample(src: seq<real>, bl: seq<real>, s: real, j: nat): real
    requires |src| == |bl| && j < |src|
  {
    if j % 4 == 3 then src[j] else Blend(src[j], bl[j], s)
  }

  /** The first `n` samples of the denoised image. */
  function DenoiseSamples(src: seq<real>, bl: seq<real>, s: real, n: nat): (t: seq<real>)
    requires |src| == |bl| && n <= |src|
    ensures |t| == n
  {
    if n == 0 then [] else DenoiseSamples(src, bl, s, n - 1) + [DenoiseSample(src, bl, s, n - 1)]
  }

  lemma {:induction false} DenoiseSamplesAt(src: seq<real>, bl: seq<real>, s: real, n: nat, j: nat)
    requires |src| == |bl| && j < n <= |src|
    ensures DenoiseSamples(src, bl, s, n)[j] == DenoiseSample(src, bl, s, j)
  {
    if j < n - 1 {
      DenoiseSamplesAt(src, bl, s, n - 1, j);
    }
  }

  /** The denoised image: each colour sample `src * (1 - s) + blurred * s`
      with the strength clamped to [0,1], alpha from the source. */
  function DenoiseSpec(im: Raster, strength: real): (out: Raster)
    requires im.Wf()
    ensures out.Wf() && out.width == im.width && out.height == im.height
    ensures forall j {:trigger out.samples[j]} :: 0 <= j < |im.samples| && j % 4 == 3 ==> out.samples[j] == im.samples[j]
  {
    var bl, s := BlurSpec(im).samples, ClampStrength(strength);
    var out := DenoiseSamples(im.samples, bl, s, |im.samples|);
    forall j | 0 <= j < |im.samples|
      ensures out[j] == DenoiseSample(im.samples, bl, s, j)
    {
      DenoiseSamplesAt(im.samples, bl, s, |im.samples|, j);
    }
    Raster(im.width, im.height, out)
  }

  /** Sample `j` of the denoised image. */
  lemma DenoiseSpecSample(im: Raster, strength: real, j: nat)
    requires im.Wf() && j < |im.samples|
    ensures DenoiseSpec(im, strength).samples[j]
      == DenoiseSample(im.samples, BlurSpec(im).samples, ClampStrength(strength), j)
  {
    DenoiseSamplesAt(im.samples, BlurSpec(im).samples, ClampStrength(strength), |im.samples|, j);
  }

  /** The four samples of pixel `p` of the denoised samples. */
  lemma DenoiseSamplesPixel(src: seq<real>, bl: seq<real>, s: real, p: nat)
    requires |src| == |bl| && 4 * p + 4 <= |src|
    ensures var base, out := 4 * p, DenoiseSamples(src, bl, s, |src|);
      && out[base] == Blend(src[base], bl[base], s)
      && out[base + 1] == Blend(src[base + 1], bl[base + 1], s)
      && out[base + 2] == Blend(src[base + 2], bl[base + 2], s)
      && out[base + 3] == src[base + 3]
  {
    PixelChannels(p);
    DenoiseSamplesAt(src, bl, s, |src|, 4 * p);
    DenoiseSamplesAt(src, bl, s, |src|, 4 * p + 1);
    DenoiseSamplesAt(src, bl, s, |src|, 4 * p + 2);
    DenoiseSamplesAt(src, bl, s, |src|, 4 * p + 3);
  }

  /** A blend with weight in [0,1] lies between its two ends. */
  lemma BlendBetween(v: real, bv: real, s: real)
    requires 0.0 <= s <= 1.0
    ensures var m := Blend(v, bv, s);
      (v <= bv ==> v <= m <= bv) && (bv <= v ==> bv <= m <= v)
  {
    var d := bv - v;
    assert v * (1.0 - s) + bv * s == v + d * s;
    assert d - d * s == d * (1.0 - s);
    if d >= 0.0 {
      MulNonNegativeReal(d, s);
      MulNonNegativeReal(d, 1.0 - s);
    } else {
      MulNonNegativeReal(-d, s);
      MulNonNegativeReal(-d, 1.0 - s);
      assert -d * s == -(d * s) && -d * (1.0 - s) == -(d * (1.0 - s));
    }
  }

  /** Every denoised colour sample lies between the source sample and the
      blurred one. */
  lemma DenoiseBetween(im: Raster, strength: real, j: nat)
    requires im.Wf() && j < |im.samples| && j % 4 != 3
    ensures var v, bv, out := im.samples[j], BlurSpec(im).samples[j], DenoiseSpec(im, strength).samples[j];
      (v <= bv ==> v <= out <= bv) && (bv <= v ==> bv <= out <= v)
  {
    DenoiseSpecSample(im, strength, j);
    var v, bv, s := im.samples[j], BlurSpec(im).samples[j], ClampStrength(strength);
    assert DenoiseSpec(im, strength).samples[j] == Blend(v, bv, s);
    BlendBetween(v, bv, s);
  }

  /** Denoising an in-range image needs no clamping: every sample stays in
      [0,255]. */
  lemma DenoiseInByteRange(im: Raster, strength: real)
    requires im.Wf() && InByteRange(im.samples)
    ensures InByteRange(DenoiseSpec(im, strength).samples)
  {
    var out := DenoiseSpec(im, strength).samples;
    ConvolveInByteRange(im, GaussianKernel, 3, 16.0, 0.0);
    assert InByteRange(BlurSpec(im).samples);
    forall j | 0 <= j < |out|
      ensures IsByte(out[j])
    {
      if j % 4 == 3 {
        DenoiseSpecSample(im, strength, j);
      } else {
        DenoiseBetween(im, strength, j);
      }
    }
  }

  /** `denoise`: blurs the source, clamps the strength once, then fills a
      fresh image pixel by pixel. */
  method Denoise(img: ImageData, strength: real) returns (out: ImageData)
    requires img.Valid()
    ensures fresh(out) && fresh(out.data) && out.Valid()
    ensures out.Value() == DenoiseSpec(img.Value(), strength)
  {
    ghost var im := img.Value();
    var blurred := GaussianBlur(img);
    out := new ImageData(img.width, img.height);
    var s := ClampStrength(strength);
    ghost var bl := blurred.data[..];
    ghost var spec := DenoiseSamples(im.samples, bl, s, |im.samples|);
    var data, bdata, o := img.data, blurred.data, out.data;
    ghost var pixels := img.width * img.height;
    var i := 0;
    ghost var p := 0;
    while i < data.Length
      invariant i == 4 * p && p <= pixels
      invariant data[..] == im.samples && bdata[..] == bl
      invariant o[..i] == spec[..i]
    {
      var e := Rgb(Blend(data[i], bdata[i], s), Blend(data[i + 1], bdata[i + 1], s), Blend(data[i + 2], bdata[i + 2], s));
      DenoiseSamplesPixel(im.samples, bl, s, p);
      ghost var before := o[..];
      StorePixel(o, i, e, data[i + 3]);
      PrefixExtend(before, spec, i, e.r, e.g, e.b, data[i + 3]);
      i, p := i + 4, p + 1;
    }
    assert o[..] == spec;
    assert bl == BlurSpec(im).samples;
    DenoiseInByteRange(im, strength);
  }

  /** A strength of 0 or less leaves the image unchanged. */
  lemma DenoiseNone(im: Raster, strength: real)
    requires im.Wf() && strength <= 0.0
    ensures DenoiseSpec(im, strength) == im
  {
    var out := DenoiseSpec(im, strength).samples;
    forall j | 0 <= j < |out|
      ensures out[j] == im.samples[j]
    {
      DenoiseSpecSample(im, strength, j);
    }
  }

  /** A strength of 1 or more replaces the image by its blur. */
  lemma DenoiseFull(im: Raster, strength: real)
    requires im.Wf() && strength >= 1.0
    ensures DenoiseSpec(im, strength) == BlurSpec(im)
  {
    var out, bl := DenoiseSpec(im, strength).samples, BlurSpec(im).samples;
    forall j | 0 <= j < |out|
      ensures out[j] == bl[j]
    {
      DenoiseSpecSample(im, strength, j);
    }
  }

  /** A single-colour image in range is a fixed point of denoising at every
      strength. */
  lemma DenoiseUniform(im: Raster, strength: real, col: Rgb)
    requires im.Wf() && UniformColour(im.samples, col)
    requires IsByte(col.r) && IsByte(col.g) && IsByte(col.b)
    ensures DenoiseSpec(im, strength) == im
  {
    BlurUniform(im, col);
    var out, s := DenoiseSpec(im, strength).samples, ClampStrength(strength);
    forall j | 0 <= j < |out|
      ensures out[j] == im.samples[j]
    {
      DenoiseSpecSample(im, strength, j);
      var v := im.samples[j];
      assert Blend(v, v, s) == v;
    }
  }
}
