/** Brightness, contrast and saturation, applied in place to an ImageData
    (`applyAdjustmentsToImageData`). */
module Tone {
  import opened Pixels

  /** The contrast-correction factor.  The code does not guard its
      denominator; this model excludes a contrast of exactly 259/255 by a
      precondition. */
  function ContrastFactor(contrast: real): real
    requires contrast * 255.0 != 259.0
  {
    (259.0 * (contrast * 255.0 + 255.0)) / (255.0 * (259.0 - contrast * 255.0))
  }

  /** A contrast of 0 leaves the contrast step neutral. */
  lemma ContrastZeroIsNeutral()
    ensures ContrastFactor(0.0) == 1.0
  {
  }

  /** A contrast of 1, the default setting, is not neutral: it multiplies
      distances from mid-grey by 129.5. */
  lemma ContrastOneFactor()
    ensures ContrastFactor(1.0) == 129.5
  {
  }

  /** The factor is positive exactly for contrasts strictly between -1 and
      259/255; above 259/255 (reachable from the contrast slider, whose top
      is 1.5) it turns negative and inverts the image around mid-grey. */
  lemma ContrastFactorSign(contrast: real)
    requires contrast * 255.0 != 259.0
    ensures ContrastFactor(contrast) > 0.0 <==> -1.0 < contrast && contrast * 255.0 < 259.0
  {
    var num := 259.0 * (contrast * 255.0 + 255.0);
    var den := 255.0 * (259.0 - contrast * 255.0);
    assert ContrastFactor(contrast) == num / den;
    assert num > 0.0 <==> -1.0 < contrast;
    assert den > 0.0 <==> contrast * 255.0 < 259.0;
    if den > 0.0 {
      assert num / den > 0.0 <==> num > 0.0;
    } else {
      assert num / den > 0.0 <==> num < 0.0;
    }
  }

  /** Every contrast the slider offers (0.5 to 1.5) amplifies distances
      from mid-grey: below 259/255 the factor exceeds 2.9, above it the
      factor is below -4, so those settings also invert.  The neutral
      contrast 0 is out of the slider's reach. */
  lemma ContrastSliderAmplifies(contrast: real)
    requires 0.5 <= contrast <= 1.5 && contrast * 255.0 != 259.0
    ensures contrast * 255.0 < 259.0 ==> ContrastFactor(contrast) > 2.9
    ensures contrast * 255.0 > 259.0 ==> ContrastFactor(contrast) < -4.0
  {
    var num := 259.0 * (contrast * 255.0 + 255.0);
    var den := 255.0 * (259.0 - contrast * 255.0);
    var f := ContrastFactor(contrast);
    assert f == num / den;
    assert f * den == num;
    assert num >= 259.0 * 382.5;
    if den > 0.0 {
      assert den <= 255.0 * 131.5;
      assert num > 2.9 * den;
      assert (f - 2.9) * den > 0.0;
    } else {
      assert den >= 255.0 * -123.5;
      assert num > -4.0 * den;
      assert (f + 4.0) * den > 0.0;
    }
  }

  /** One pixel's colour after the brightness scaling, the contrast
      transform around 128 and the saturation blend around the channel
      average, before clamping. */
  function Adjust(p: Rgb, brightness: real, factor: real, saturation: real): Rgb {
    var r := factor * (p.r * brightness - 128.0) + 128.0;
    var g := factor * (p.g * brightness - 128.0) + 128.0;
    var b := factor * (p.b * brightness - 128.0) + 128.0;
    var avg := (r + g + b) / 3.0;
    Rgb(avg + (r - avg) * saturation, avg + (g - avg) * saturation, avg + (b - avg) * saturation)
  }

  /** The colour of the pixel that sample `j` belongs to. */
  function PixelAt(s: seq<real>, j: nat): Rgb
    requires |s| % 4 == 0 && j < |s|
  {
    var base := j - j % 4;
    Rgb(s[base], s[base + 1], s[base + 2])
  }

  /** The samples of one pixel all report that pixel's colour. */
  lemma PixelAtSame(s: seq<real>, base: nat)
    requires |s| % 4 == 0 && base % 4 == 0 && base < |s|
    ensures base + 4 <= |s| && (base + 4) % 4 == 0
    ensures (base + 1) % 4 == 1 && (base + 2) % 4 == 2 && (base + 3) % 4 == 3
    ensures PixelAt(s, base + 1) == PixelAt(s, base) && PixelAt(s, base + 2) == PixelAt(s, base)
    ensures PixelAt(s, base) == Rgb(s[base], s[base + 1], s[base + 2])
  {
    PixelStride(base, |s|);
  }

  lemma PixelAtUniform(s: seq<real>, j: nat, col: Rgb)
    requires |s| % 4 == 0 && j < |s| && UniformColour(s, col)
    ensures PixelAt(s, j) == col
  {
    var base := j - j % 4;
    assert s[base] == col.r && s[base + 1] == col.g && s[base + 2] == col.b;
  }

  lemma AdjustMidGrey(factor: real, saturation: real)
    ensures Adjust(Rgb(128.0, 128.0, 128.0), 1.0, factor, saturation) == Rgb(128.0, 128.0, 128.0)
  {
  }

  lemma AdjustZeroSaturation(p: Rgb, brightness: real, factor: real)
    ensures var q := Adjust(p, brightness, factor, 0.0); q.r == q.g == q.b
  {
  }

  /** Sample `j` after the tone adjustment: alpha unchanged, a colour sample
      adjusted and clamped to [0,255]. */
  function ToneSample(s: seq<real>, brightness: real, factor: real, saturation: real, j: nat): real
    requires |s| % 4 == 0 && j < |s|
  {
    if j % 4 == 3 then s[j]
    else ClampByte(Channel(Adjust(PixelAt(s, j), brightness, factor, saturation), j % 4))
  }

  /** The first `n` samples after the tone adjustment. */
  function ToneSamples(s: seq<real>, brightness: real, factor: real, saturation: real, n: nat): (t: seq<real>)
    requires |s| % 4 == 0 && n <= |s|
    ensures |t| == n
  {
    if n == 0 then [] else ToneSamples(s, brightness, factor, saturation, n - 1) + [ToneSample(s, brightness, factor, saturation, n - 1)]
  }

  lemma {:induction false} ToneSamplesAt(s: seq<real>, brightness: real, factor: real, saturation: real, n: nat, j: nat)
    requires |s| % 4 == 0 && j < n <= |s|
    ensures ToneSamples(s, brightness, factor, saturation, n)[j] == ToneSample(s, brightness, factor, saturation, j)
  {
    if j < n - 1 {
      ToneSamplesAt(s, brightness, factor, saturation, n - 1, j);
    }
  }

  /** The buffer after the tone adjustment: alpha unchanged, every colour
      sample in [0,255]. */
  function ToneSpec(s: seq<real>, brightness: real, contrast: real, saturation: real): (t: seq<real>)
    requires |s| % 4 == 0
    requires contrast * 255.0 != 259.0
    ensures |t| == |s|
    ensures forall j {:trigger t[j]} :: 0 <= j < |s| && j % 4 == 3 ==> t[j] == s[j]
    ensures forall j {:trigger t[j]} :: 0 <= j < |s| && j % 4 != 3 ==> IsByte(t[j])
  {
    var factor := ContrastFactor(contrast);
    var t := ToneSamples(s, brightness, factor, saturation, |s|);
    forall j | 0 <= j < |s|
      ensures t[j] == ToneSample(s, brightness, factor, saturation, j)
    {
      ToneSamplesAt(s, brightness, factor, saturation, |s|, j);
    }
    t
  }

  /** Sample `j` of the adjusted buffer. */
  lemma ToneSpecSample(s: seq<real>, brightness: real, contrast: real, saturation: real, j: nat)
    requires |s| % 4 == 0 && contrast * 255.0 != 259.0 && j < |s|
    ensures ToneSpec(s, brightness, contrast, saturation)[j]
      == ToneSample(s, brightness, ContrastFactor(contrast), saturation, j)
  {
    ToneSamplesAt(s, brightness, ContrastFactor(contrast), saturation, |s|, j);
  }

  /** The adjusted samples of the pixel at `base`. */
  lemma ToneSpecPixel(s: seq<real>, brightness: real, contrast: real, saturation: real, p: nat)
    requires |s| % 4 == 0 && contrast * 255.0 != 259.0
    requires 4 * p + 4 <= |s|
    ensures var base := 4 * p; var t, q := ToneSpec(s, brightness, contrast, saturation),
        Adjust(Rgb(s[base], s[base + 1], s[base + 2]), brightness, ContrastFactor(contrast), saturation);
      && t[base] == ClampByte(q.r) && t[base + 1] == ClampByte(q.g) && t[base + 2] == ClampByte(q.b)
      && t[base + 3] == s[base + 3]
  {
    var base := 4 * p;
    PixelAtSame(s, base);
    ToneSpecSample(s, brightness, contrast, saturation, base);
    ToneSpecSample(s, brightness, contrast, saturation, base + 1);
    ToneSpecSample(s, brightness, contrast, saturation, base + 2);
  }

  /** `applyAdjustmentsToImageData`: one pass over the buffer, four samples
      at a time, rewriting red, green and blue. */
  method ApplyAdjustments(img: ImageData, brightness: real, contrast: real, saturation: real)
    requires img.Valid()
    requires contrast * 255.0 != 259.0
    modifies img.data
    ensures img.Valid()
    ensures img.data[..] == ToneSpec(old(img.data[..]), brightness, contrast, saturation)
  {
    var data := img.data;
    ghost var orig := data[..];
    WholePixels(img.width * img.height, data.Length);
    ghost var spec := ToneSpec(orig, brightness, contrast, saturation);
    var factor := ContrastFactor(contrast);
    ghost var pixels := img.width * img.height;
    var i := 0;
    ghost var p := 0;
    while i < data.Length
      invariant i == 4 * p && p <= pixels
      invariant forall j {:trigger data[j]} :: 0 <= j < i ==> data[j] == spec[j]
      invariant forall j {:trigger data[j]} :: i <= j < data.Length ==> data[j] == orig[j]
    {
      // brightness, then contrast around 128, then saturation around the average
      var q := Adjust(Rgb(data[i], data[i + 1], data[i + 2]), brightness, factor, saturation);
      ToneSpecPixel(orig, brightness, contrast, saturation, p);
      data[i] := ClampByte(q.r);
      data[i + 1] := ClampByte(q.g);
      data[i + 2] := ClampByte(q.b);
      i, p := i + 4, p + 1;
    }
    assert data[..] == spec;
  }

  /** Brightness 1, contrast 0 and saturation 1 leave every in-range buffer
      exactly as it was. */
  lemma ToneNeutral(s: seq<real>)
    requires |s| % 4 == 0 && InByteRange(s)
    ensures ToneSpec(s, 1.0, 0.0, 1.0) == s
  {
    var t := ToneSpec(s, 1.0, 0.0, 1.0);
    ContrastZeroIsNeutral();
    forall j | 0 <= j < |s| && j % 4 != 3
      ensures t[j] == s[j]
    {
      ToneSpecSample(s, 1.0, 0.0, 1.0, j);
      var p := PixelAt(s, j);
      assert Adjust(p, 1.0, 1.0, 1.0) == p;
      assert Channel(p, j % 4) == s[j];
    }
  }

  /** The default settings (1, 1, 1) are not neutral: a dark grey pixel of
      value 100 becomes black. */
  lemma ToneDefaultsNotNeutral()
    ensures ToneSpec([100.0, 100.0, 100.0, 255.0], 1.0, 1.0, 1.0) == [0.0, 0.0, 0.0, 255.0]
  {
    var s := [100.0, 100.0, 100.0, 255.0];
    var t := ToneSpec(s, 1.0, 1.0, 1.0);
    ContrastOneFactor();
    ToneSpecPixel(s, 1.0, 1.0, 1.0, 0);
    var q := Adjust(Rgb(100.0, 100.0, 100.0), 1.0, 129.5, 1.0);
    assert q.r == 129.5 * (100.0 - 128.0) + 128.0;
    assert q == Rgb(q.r, q.r, q.r);
    assert t[0] == 0.0 && t[1] == 0.0 && t[2] == 0.0;
  }

  /** At brightness 1, a mid-grey pixel (all colour channels 128) is a fixed
      point of the adjustment for every contrast and every saturation. */
  lemma ToneMidGreyFixed(s: seq<real>, contrast: real, saturation: real)
    requires |s| % 4 == 0 && contrast * 255.0 != 259.0
    requires UniformColour(s, Rgb(128.0, 128.0, 128.0))
    ensures ToneSpec(s, 1.0, contrast, saturation) == s
  {
    var grey := Rgb(128.0, 128.0, 128.0);
    var t := ToneSpec(s, 1.0, contrast, saturation);
    AdjustMidGrey(ContrastFactor(contrast), saturation);
    forall j | 0 <= j < |s| && j % 4 != 3
      ensures t[j] == s[j]
    {
      ToneSpecSample(s, 1.0, contrast, saturation, j);
      PixelAtUniform(s, j, grey);
    }
  }

  /** At saturation 0 every pixel comes out grey: its three colour samples
      are equal. */
  lemma ToneZeroSaturationIsGrey(s: seq<real>, brightness: real, contrast: real, p: nat)
    requires |s| % 4 == 0 && contrast * 255.0 != 259.0
    requires 4 * p < |s|
    ensures var t := ToneSpec(s, brightness, contrast, 0.0);
      t[4 * p] == t[4 * p + 1] == t[4 * p + 2]
  {
    var base := 4 * p;
    PixelStride(base, |s|);
    ToneSpecPixel(s, brightness, contrast, 0.0, p);
    AdjustZeroSaturation(Rgb(s[base], s[base + 1], s[base + 2]), brightness, ContrastFactor(contrast));
  }
}
