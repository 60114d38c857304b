/** The part of `processImage` that is not browser plumbing: the target size
    of the upscaled canvas and the order in which the stages run over its
    pixels. */
module Pipeline {
  import opened Pixels
  import opened Tone
  import opened Convolution
  import opened Filters

  // ------------------------------------------------------------------ size

  /** What JavaScript's `Number(v)` gives for a setting: a number, or NaN
      when the value does not parse. */
  datatype NumberValue = NaN | Num(v: real)

  /** `Number(settings.scale) || 1`: 0 and NaN are falsy, so both fall back
      to 1; every other number is used as it is. */
  function EffectiveScale(n: NumberValue): (scale: real)
    ensures scale != 0.0
    ensures n.Num? && n.v != 0.0 ==> scale == n.v
    ensures n == NaN || n == Num(0.0) ==> scale == 1.0
  {
    if n.Num? && n.v != 0.0 then n.v else 1.0
  }

  /** `Math.round`: the integer nearest to `x`, halves rounded up. */
  function Round(x: real): (r: int)
    ensures x - 0.5 < r as real <= x + 0.5
  {
    (x + 0.5).Floor
  }

  /** Any integer within half a unit of `x`, halves rounded up, is its
      rounding. */
  lemma RoundUnique(x: real, k: int)
    requires x - 0.5 < k as real <= x + 0.5
    ensures Round(x) == k
  {
  }

  /** `Math.max(1, Math.round(natural * scale))`. */
  function TargetSize(natural: nat, scale: real): (n: int)
    ensures n >= 1
    ensures natural as real * scale >= 0.5 ==> n == Round(natural as real * scale)
    ensures natural as real * scale < 0.5 ==> n == 1
  {
    var r := Round(natural as real * scale);
    if 1 > r then 1 else r
  }

  /** At a whole-number scale of 1 or more, every side is multiplied
      exactly (a side of 0 still becomes 1). */
  lemma TargetSizeWholeScale(natural: nat, k: nat)
    requires k >= 1
    ensures TargetSize(natural, k as real) == if natural == 0 then 1 else natural * k
  {
    var x := natural as real * k as real;
    assert x == (natural * k) as real;
    RoundUnique(x, natural * k);
    if natural > 0 {
      MulLeRight(1, natural, k);
    }
  }

  /** A scale that does not parse, or is 0, leaves every non-empty side as it
      is. */
  lemma TargetSizeFallback(natural: nat, n: NumberValue)
    requires natural >= 1 && (n.NaN? || n == Num(0.0))
    ensures TargetSize(natural, EffectiveScale(n)) == natural
  {
    TargetSizeWholeScale(natural, 1);
  }

  // ---------------------------------------------------------------- stages

  /** The settings `processImage` reads; `scale` is the raw value set by
      the upscale-factor buttons. */
  datatype Settings = Settings(scale: NumberValue, sharpen: real, denoise: real,
                               brightness: real, contrast: real, saturation: real)

  /** The initial settings of the enhancer. */
  const DefaultSettings := Settings(Num(2.0), 0.6, 0.2, 1.0, 1.0, 1.0)

  datatype Stage = ToneStage | DenoiseStage | SharpenStage

  /** The stages run, in order: tone always, then denoise if its strength is
      positive, then sharpen if its amount is positive. */
  function Stages(denoise: real, sharpen: real): (st: seq<Stage>)
    ensures |st| >= 1 && st[0] == ToneStage
    ensures DenoiseStage in st <==> denoise > 0.0
    ensures SharpenStage in st <==> sharpen > 0.0
    ensures forall i, j :: 0 <= i < |st| && 0 <= j < |st| && st[i] == DenoiseStage && st[j] == SharpenStage ==> i < j
    ensures forall i, j :: 0 <= i < j < |st| ==> st[i] != st[j]
  {
    [ToneStage] + (if denoise > 0.0 then [DenoiseStage] else []) + (if sharpen > 0.0 then [SharpenStage] else [])
  }

  /** At the initial settings every side is doubled and all three stages
      run, in the code's order. */
  lemma DefaultSettingsRunEverything(natural: nat)
    requires natural >= 1
    ensures TargetSize(natural, EffectiveScale(DefaultSettings.scale)) == 2 * natural
    ensures Stages(DefaultSettings.denoise, DefaultSettings.sharpen) == [ToneStage, DenoiseStage, SharpenStage]
  {
    TargetSizeWholeScale(natural, 2);
  }

  /** The tone stage as an operation on rasters. */
  function ToneRaster(im: Raster, s: Settings): (out: Raster)
    requires im.Wf() && s.contrast * 255.0 != 259.0
    ensures out.Wf() && out.width == im.width && out.height == im.height
  {
    WholePixels(im.width * im.height, |im.samples|);
    Raster(im.width, im.height, ToneSpec(im.samples, s.brightness, s.contrast, s.saturation))
  }

  /** One stage applied to a raster. */
  function RunStage(im: Raster, st: Stage, s: Settings): (out: Raster)
    requires im.Wf() && s.contrast * 255.0 != 259.0
    ensures out.Wf() && out.width == im.width && out.height == im.height
  {
    match st
    case ToneStage => ToneRaster(im, s)
    case DenoiseStage => DenoiseSpec(im, s.denoise)
    case SharpenStage => UnsharpSpec(im, s.sharpen)
  }

  /** A list of stages applied left to right. */
  function RunStages(im: Raster, st: seq<Stage>, s: Settings): (out: Raster)
    requires im.Wf() && s.contrast * 255.0 != 259.0
    ensures out.Wf() && out.width == im.width && out.height == im.height
    decreases |st|
  {
    if st == [] then im else RunStages(RunStage(im, st[0], s), st[1..], s)
  }

  /** What `processImage` puts on the canvas, written as the code reads. */
  function PipelineSpec(im: Raster, s: Settings): (out: Raster)
    requires im.Wf() && s.contrast * 255.0 != 259.0
    ensures out.Wf() && out.width == im.width && out.height == im.height
  {
    var toned := ToneRaster(im, s);
    var denoised := if s.denoise > 0.0 then DenoiseSpec(toned, s.denoise) else toned;
    if s.sharpen > 0.0 then UnsharpSpec(denoised, s.sharpen) else denoised
  }

  /** The code's sequence of `if`s runs exactly the stages `Stages` lists,
      in its order. */
  lemma PipelineRunsStages(im: Raster, s: Settings)
    requires im.Wf() && s.contrast * 255.0 != 259.0
    ensures PipelineSpec(im, s) == RunStages(im, Stages(s.denoise, s.sharpen), s)
  {
    var st := Stages(s.denoise, s.sharpen);
    var toned := ToneRaster(im, s);
    var rest := st[1..];
    assert RunStages(im, st, s) == RunStages(toned, rest, s);
    var denoised := if s.denoise > 0.0 then DenoiseSpec(toned, s.denoise) else toned;
    var last := if s.sharpen > 0.0 then [SharpenStage] else [];
    if s.denoise > 0.0 {
      assert rest == [DenoiseStage] + last;
      assert RunStages(toned, rest, s) == RunStages(denoised, last, s);
    } else {
      assert rest == last;
    }
    if s.sharpen > 0.0 {
      assert RunStages(denoised, last, s) == RunStages(UnsharpSpec(denoised, s.sharpen), [], s);
    }
  }

  /** Every sample of the result can be stored without clamping. */
  lemma PipelineInByteRange(im: Raster, s: Settings)
    requires im.Wf() && s.contrast * 255.0 != 259.0
    requires InByteRange(im.samples)
    ensures InByteRange(PipelineSpec(im, s).samples)
  {
    var toned := ToneRaster(im, s);
    forall j | 0 <= j < |toned.samples|
      ensures IsByte(toned.samples[j])
    {
      if j % 4 == 3 {
        assert toned.samples[j] == im.samples[j];
      }
    }
    var denoised := if s.denoise > 0.0 then DenoiseSpec(toned, s.denoise) else toned;
    DenoiseInByteRange(toned, s.denoise);
    UnsharpInByteRange(denoised, s.sharpen);
  }

  /** A uniform mid-grey image at brightness 1 comes out unchanged whatever
      the contrast, saturation, denoise strength and sharpen amount. */
  lemma MidGreyFixedPoint(im: Raster, s: Settings)
    requires im.Wf() && s.contrast * 255.0 != 259.0 && s.brightness == 1.0
    requires UniformColour(im.samples, Rgb(128.0, 128.0, 128.0))
    ensures PipelineSpec(im, s) == im
  {
    WholePixels(im.width * im.height, |im.samples|);
    ToneMidGreyFixed(im.samples, s.contrast, s.saturation);
    assert ToneRaster(im, s) == im;
    DenoiseUniform(im, s.denoise, Rgb(128.0, 128.0, 128.0));
    UnsharpUniform(im, s.sharpen, Rgb(128.0, 128.0, 128.0));
  }

  /** Brightness 1, contrast 0, saturation 1 and both filters switched off
      hand back an in-range image untouched. */
  lemma PipelineNeutral(im: Raster, s: Settings)
    requires im.Wf() && InByteRange(im.samples)
    requires s.brightness == 1.0 && s.contrast == 0.0 && s.saturation == 1.0
    requires s.denoise <= 0.0 && s.sharpen <= 0.0
    ensures PipelineSpec(im, s) == im
  {
    WholePixels(im.width * im.height, |im.samples|);
    ToneNeutral(im.samples);
  }

  /** `processImage` from the read-back pixels on: `drawn` is the ImageData
      that `getImageData` returns after the picture is drawn onto a canvas
      of the target size.  The tone stage rewrites it in place; each filter
      that runs allocates a new image. */
  method Process(drawn: ImageData, naturalWidth: nat, naturalHeight: nat, s: Settings) returns (result: ImageData)
    requires drawn.Valid() && s.contrast * 255.0 != 259.0
    requires drawn.width == TargetSize(naturalWidth, EffectiveScale(s.scale))
    requires drawn.height == TargetSize(naturalHeight, EffectiveScale(s.scale))
    modifies drawn.data
    ensures result.Valid()
    ensures result.width == drawn.width && result.height == drawn.height
    ensures result.Value() == PipelineSpec(old(drawn.Value()), s)
    ensures drawn.Value() == ToneRaster(old(drawn.Value()), s)
    ensures s.denoise <= 0.0 && s.sharpen <= 0.0 ==> result == drawn
    ensures s.denoise > 0.0 || s.sharpen > 0.0 ==> fresh(result) && fresh(result.data)
  {
    ghost var im := drawn.Value();
    ApplyAdjustments(drawn, s.brightness, s.contrast, s.saturation);
    assert drawn.Value() == ToneRaster(im, s);
    result := drawn;
    if s.denoise > 0.0 {
      result := Denoise(result, s.denoise);
    }
    if s.sharpen > 0.0 {
      result := UnsharpMask(result, s.sharpen);
    }
  }
}
