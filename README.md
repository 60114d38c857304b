# Image enhancer pixel pipeline, verified model

This project models the browser image enhancer's pixel pipeline from
`src/App.jsx`. The enhancer draws the uploaded picture onto a canvas of the
target size and reads its pixels back with `getImageData`. It then rewrites
that `ImageData` (interleaved red, green, blue and alpha samples, row by row)
through these stages, always in this order:

- a tone pass (brightness, contrast, saturation), which changes the buffer
  in place;
- optionally a denoiser, which blends each sample towards a 3×3 Gaussian
  blur of the image;
- optionally an unsharp mask, which pushes each sample away from that blur.

The model keeps the code's imperative shape:

- `Pixels.ImageData` is a class whose `data` array is the very buffer the
  stages read and write.
- `Tone.ApplyAdjustments` updates that buffer in place in a stride-4 loop.
- `Convolution.Convolve`, `Filters.UnsharpMask` and `Filters.Denoise`
  allocate a fresh image and fill it with loops.
- Each method is proved equal to a specification function on values
  (`ToneSpec`, `ConvolveSpec`, `BlurSpec`, `UnsharpSpec`, `DenoiseSpec`).
- The properties the code promises are proved about those functions as
  lemmas.
- `Pipeline` models the size formula and stage selection of `processImage`.
  `Pipeline.Process` runs the stages over the ImageData read back from the
  canvas.

Channel values are reals. A `Uint8ClampedArray` only ever holds values in
[0,255], so that is part of `ImageData.Valid()`. Every stage is proved to
keep it.

The initial settings (brightness, contrast and saturation all 1;
src/App.jsx:7, 113-115) do not leave the tone alone. Contrast 1 gives the
factor `259·510 / (255·4) = 129.5`, and only contrast 0 gives the factor 1.
`Tone.ContrastOneFactor` and `Tone.ToneDefaultsNotNeutral` show that the
defaults change the picture. `Tone.ToneNeutral` proves that 1/0/1 is the
identity. The contrast slider runs from 0.5 to 1.5
(src/components/EnhanceControls.jsx:55), so it never reaches 0. The model
proves what every slider contrast does (`Tone.ContrastSliderAmplifies`):
- below 259/255 the factor exceeds 2.9;
- above 259/255 it is below -4, so the image is also inverted around
  mid-grey.

## Model

| member | source | states |
|---|---|---|
| Pixels.ImageData.constructor | src/App.jsx:35 | `new ImageData(w, h)` needs a non-zero width and height and gives a fresh valid buffer of `w * h * 4` zero samples |
| Pixels.StorePixel | src/App.jsx:55-58 | the four writes of one output pixel (also src/App.jsx:83-86 and 97-100) set exactly samples `i` to `i + 3` and nothing else |
| Pixels.ClampByte | src/App.jsx:26-28 | `Math.max(0, Math.min(255, v))` always lies in [0,255], is `v` itself when `v` is already in range, and is 0 below 0 and 255 above 255 |
| Tone.ContrastZeroIsNeutral | src/App.jsx:9 | the contrast factor at contrast 0 is exactly 1 |
| Tone.ContrastOneFactor | src/App.jsx:9 | the contrast factor at the default contrast 1 is 129.5, not 1 |
| Tone.ContrastFactorSign | src/App.jsx:9 | the factor is positive exactly when -1 < contrast < 259/255 (both directions) |
| Tone.ContrastSliderAmplifies | src/components/EnhanceControls.jsx:55 | at every contrast the slider offers (0.5 to 1.5) the factor of src/App.jsx:9 exceeds 2.9 below 259/255 and is below -4 above it, so no slider setting is neutral |
| Tone.AdjustMidGrey | src/App.jsx:12-24 | at brightness 1, mid-grey (128,128,128) is fixed by every contrast factor and saturation |
| Tone.AdjustZeroSaturation | src/App.jsx:20-24 | saturation 0 turns every colour into a grey: the three channels become equal |
| Tone.ToneSamplesAt | src/App.jsx:10-29 | sample `j` of the built sequence is the per-sample tone result at `j` |
| Tone.ToneSpec | src/App.jsx:10-29 | the toned buffer has the input's length, every alpha sample (index ≡ 3 mod 4) is the input's, and every colour sample is in [0,255] |
| Tone.ToneSpecSample | src/App.jsx:10-29 | sample `j` of the toned buffer is the tone of sample `j` under the code's contrast factor |
| Tone.ToneSpecPixel | src/App.jsx:12-28 | the three colour samples of pixel `p` are brightness, then contrast, then saturation applied to that pixel's colour, each clamped; the alpha is the input's |
| Tone.ApplyAdjustments | src/App.jsx:7-31 | the in-place loop leaves the buffer valid and equal to `ToneSpec` of its old contents, so length and alpha are kept and colours are clamped |
| Tone.ToneNeutral | src/App.jsx:9-28 | brightness 1, contrast 0 and saturation 1 leave every in-range buffer exactly unchanged |
| Tone.ToneDefaultsNotNeutral | src/App.jsx:7-9 | at the code's defaults 1/1/1, a (100,100,100) pixel becomes black: the defaults are not an identity |
| Tone.ToneMidGreyFixed | src/App.jsx:12-28 | a uniformly mid-grey buffer at brightness 1 is unchanged by every contrast and saturation |
| Tone.ToneZeroSaturationIsGrey | src/App.jsx:20-28 | at saturation 0 every output pixel is grey |
| Convolution.SqrtFromBounds | src/App.jsx:37 | the integer square-root search returns `s` with `s² ≤ n < (s+1)²` |
| Convolution.SideOfSquare | src/App.jsx:37 | for a kernel of `side²` taps, `Math.sqrt(kernel.length)` is `side` |
| Convolution.KernelIndexInBounds | src/App.jsx:48 | every kernel read `ky * side + kx` lies inside the kernel |
| Convolution.ClampCoord | src/App.jsx:45-46 | the clamped coordinate is always inside [0, n), equals the coordinate when it is inside, and is 0 or n-1 at the edges |
| Convolution.TapIs | src/App.jsx:45-51 | every read index `(py * width + px) * 4 + c` lies inside the buffer, and each tap contributes that pixel's colour times its kernel value |
| Convolution.RowSumStep | src/App.jsx:44-51 | one step of the inner kernel loop adds exactly one weighted tap to the running sum |
| Convolution.Emit | src/App.jsx:55-57 | each output colour `r / divisor + bias`, clamped, lies in [0,255] |
| Convolution.ConvolveSpec | src/App.jsx:33-62 | the convolved image has the input's width and height, every alpha is copied from the same pixel, and every colour is in [0,255] |
| Convolution.OutputSamplesAt | src/App.jsx:40-60 | sample `j` of the built output is the per-sample convolution at `j` |
| Convolution.ConvolveSpecAt | src/App.jsx:54-58 | the four output samples of pixel (x, y) are the clamped, scaled window sum and the source alpha |
| Convolution.ConvolveSpecColour | src/App.jsx:54-57 | output colour `c` of pixel (x, y) is channel `c` of the clamped window sum |
| Convolution.ConvolveInByteRange | src/App.jsx:55-58 | convolving an in-range image gives an in-range image |
| Convolution.AccumulateWindow | src/App.jsx:42-53 | the two kernel loops leave `r, g, b` equal to the weighted window sum at (x, y) |
| Convolution.ConvolveRow | src/App.jsx:41-59 | the `x` loop for row `y` extends the written prefix by exactly that row's pixels, each as `ConvolveSpec` gives it |
| Convolution.Convolve | src/App.jsx:33-62 | the allocating four-loop method returns a fresh valid image equal to `ConvolveSpec` |
| Convolution.RowWeightIsRange | src/App.jsx:43-53 | the weights of a kernel row sum to a difference of the kernel's prefix sums |
| Convolution.WindowWeightIsPrefix | src/App.jsx:43-53 | the weights of the first `m` kernel rows sum to the prefix sum over `m * side` taps |
| Convolution.WindowWeightIsSum | src/App.jsx:43-53 | the weights of the whole window sum to the kernel's sum |
| Convolution.TapUniform | src/App.jsx:45-51 | on a single-colour image every tap reads that colour |
| Convolution.RowSumUniform | src/App.jsx:44-52 | on a single-colour image a row sum is that colour times the row's weight |
| Convolution.WindowSumUniform | src/App.jsx:43-53 | on a single-colour image a partial window sum is that colour times the partial weight |
| Convolution.WindowSumOfUniform | src/App.jsx:43-53 | on a single-colour image the window sum is that colour times the kernel's sum |
| Convolution.ConvolveUniform | src/App.jsx:33-62 | a single-colour image convolves to the single colour `clamp(colour * sum(kernel) / divisor + bias)` |
| Convolution.ConvolveUniformSample | src/App.jsx:54-57 | each colour sample of a convolved single-colour image is that clamped colour |
| Convolution.ConvolveUniformAt | src/App.jsx:54-57 | each colour sample of pixel (x, y) of a convolved single-colour image is that clamped colour |
| Convolution.ConvolveSinglePixel | src/App.jsx:45-58 | on a 1×1 image each channel becomes `clamp(v * sum(kernel) / divisor + bias)` and alpha is kept |
| Convolution.GaussianKernelShape | src/App.jsx:66 | the blur kernel is 3×3 and its weights sum to the divisor 16 |
| Convolution.BlurSpec | src/App.jsx:64-68 | the blur keeps the image's width and height |
| Convolution.GaussianBlur | src/App.jsx:64-68 | `gaussianBlur` returns a fresh valid image equal to the convolution with `[1,2,1,2,4,2,1,2,1]`, divisor 16 and bias 0 |
| Convolution.BlurUniform | src/App.jsx:64-68 | blurring an in-range single-colour image returns it unchanged |
| Filters.UnsharpSamplesAt | src/App.jsx:74-87 | sample `j` of the built sequence is the per-sample unsharp result at `j` |
| Filters.UnsharpSpec | src/App.jsx:70-89 | the sharpened image keeps the input's width and height, and every alpha sample is the source's |
| Filters.UnsharpSpecSample | src/App.jsx:74-87 | sample `j` of the sharpened image is the source's alpha, or the clamped push of the colour away from its blur |
| Filters.UnsharpSamplesPixel | src/App.jsx:75-86 | the four samples of pixel `p` are the three clamped `v + (v - blurred) * amount` and the source alpha |
| Filters.UnsharpInByteRange | src/App.jsx:83-86 | every sharpened sample of an in-range image is in [0,255] |
| Filters.UnsharpMask | src/App.jsx:70-89 | `unsharpMask` returns a fresh valid image equal to `UnsharpSpec` and changes nothing it was given |
| Filters.UnsharpZeroAmount | src/App.jsx:83-86 | amount 0 returns an in-range input exactly |
| Filters.UnsharpUniform | src/App.jsx:70-89 | an in-range single-colour image is unchanged at every amount, since its blur equals it |
| Filters.SharpenAway | src/App.jsx:83-85 | with a non-negative amount an in-range sample never moves towards its blurred value |
| Filters.UnsharpAwayFromBlur | src/App.jsx:72-85 | each sharpened colour sample is at least the source when the source is at least its blur, and at most the source when it is at most its blur |
| Filters.ClampStrength | src/App.jsx:95 | the strength is clamped into [0,1]: kept when inside, 0 below, 1 above |
| Filters.DenoiseSamplesAt | src/App.jsx:96-101 | sample `j` of the built sequence is the per-sample denoise result at `j` |
| Filters.DenoiseSpec | src/App.jsx:91-103 | the denoised image keeps the input's width and height, and every alpha sample is the source's |
| Filters.DenoiseSpecSample | src/App.jsx:96-101 | sample `j` of the denoised image is the source's alpha, or the blend of the colour towards its blur by the clamped strength |
| Filters.DenoiseSamplesPixel | src/App.jsx:97-100 | the four samples of pixel `p` are the three `v * (1 - s) + blurred * s` and the source alpha |
| Filters.BlendBetween | src/App.jsx:97-99 | a blend with weight in [0,1] lies between its two ends |
| Filters.DenoiseBetween | src/App.jsx:95-99 | every denoised colour sample lies between the source sample and its blurred value |
| Filters.DenoiseInByteRange | src/App.jsx:96-100 | denoising an in-range image needs no clamping: every sample stays in [0,255] |
| Filters.Denoise | src/App.jsx:91-103 | `denoise` returns a fresh valid image equal to `DenoiseSpec` and changes nothing it was given |
| Filters.DenoiseNone | src/App.jsx:95-100 | strength 0 or below returns the input exactly |
| Filters.DenoiseFull | src/App.jsx:95-99 | strength 1 or above returns the blur exactly |
| Filters.DenoiseUniform | src/App.jsx:91-103 | an in-range single-colour image is unchanged at every strength |
| Pipeline.EffectiveScale | src/App.jsx:124 | the scale fallback (`Number(scale)` or else 1) is never 0: a non-zero number is kept, while NaN and 0 fall back to 1 |
| Pipeline.Round | src/App.jsx:125-126 | `Math.round(x)` is the integer `r` with `x - 1/2 < r ≤ x + 1/2` |
| Pipeline.RoundUnique | src/App.jsx:125-126 | any integer in that half-open window is the rounding |
| Pipeline.TargetSize | src/App.jsx:125-126 | the target side is at least 1: it is `Math.round(n * scale)` when that is at least 1/2, and 1 otherwise |
| Pipeline.TargetSizeWholeScale | src/App.jsx:124-126 | at a whole scale k ≥ 1 a side n becomes exactly n·k, and a side of 0 becomes 1 |
| Pipeline.TargetSizeFallback | src/App.jsx:124-126 | with a NaN or zero scale every non-empty side keeps its size |
| Pipeline.Stages | src/App.jsx:140-152 | tone runs first; denoise runs exactly when its strength is > 0; sharpen runs exactly when its amount is > 0; denoise precedes sharpen; no stage runs twice |
| Pipeline.DefaultSettingsRunEverything | src/App.jsx:109-116 | at the initial settings (scale 2, sharpen 0.6, denoise 0.2) every non-empty side is doubled, and tone, denoise and sharpen all run in that order |
| Pipeline.ToneRaster | src/App.jsx:140-144 | the tone stage keeps the image's width and height |
| Pipeline.RunStages | src/App.jsx:140-152 | running any list of stages keeps the image's width and height |
| Pipeline.PipelineRunsStages | src/App.jsx:140-152 | the code's chain of `if`s equals running the listed stages in order |
| Pipeline.PipelineInByteRange | src/App.jsx:140-152 | every sample of the pipeline's result on an in-range image is in [0,255] |
| Pipeline.MidGreyFixedPoint | src/App.jsx:140-152 | a uniform mid-grey image at brightness 1 comes out unchanged whatever the contrast, saturation, strength and amount |
| Pipeline.PipelineNeutral | src/App.jsx:140-152 | brightness 1, contrast 0, saturation 1 and both filters off return an in-range image untouched |
| Pipeline.Process | src/App.jsx:124-152 | on pixels read back from a canvas of the target size, the result is valid, has that size, and equals the pipeline specification of those pixels; the ImageData read back at src/App.jsx:139 ends up toned in place by src/App.jsx:140; with both filters off the result is that same ImageData, otherwise a fresh image with a fresh buffer |

The functions that compute the source's formulas are reached through the
lemma rows above:
- `Tone.ContrastFactor` is src/App.jsx:9;
- `Tone.Adjust` is src/App.jsx:12-24;
- `Filters.Sharpen` is src/App.jsx:83-85;
- `Filters.Blend` is src/App.jsx:97-99;
- `Pipeline.PipelineSpec` is src/App.jsx:140-152;
- `Pixels.PixelIndex` is the index formula of src/App.jsx:47 and 54;
- `Convolution.Side` is `Math.sqrt(kernel.length)` at src/App.jsx:37;
- `Convolution.GaussianKernel` is the kernel of src/App.jsx:66.

The filter methods (`Convolve`, `GaussianBlur`, `UnsharpMask`, `Denoise`)
have no `modifies` clause, so the verifier guarantees that they leave their
input buffer as it was.

## Left out

- Canvas resize (`drawImage` with high-quality smoothing), `getImageData`,
  `putImageData`, `toDataURL` and the download link are browser primitives
  with no visible algorithm. `Pipeline.Process` receives the ImageData read
  back from the canvas as an input whose size must equal the computed
  target size.
- React state, hooks, the busy flag and the `alert`/`console` error path are
  UI. The components under `src/components/` are not part of this model.
  Only the contrast slider's range (src/components/EnhanceControls.jsx:55)
  is used, by `Tone.ContrastSliderAmplifies`.
- IEEE floating point is not modelled: every channel value and parameter is
  a real. Neither is the rounding to the nearest integer that a
  `Uint8ClampedArray` applies on every write. The model keeps the exact
  value, which is in [0,255] at every store. As a result, the denoiser's
  fractional blends stay fractional in the model and are never rounded
  before sharpening.
- `Number(settings.scale)` is modelled as either a number or NaN. Infinite
  values are not modelled.
- `Pipeline.Round` models `Math.round` as `floor(x + 1/2)` on reals, without
  JavaScript's treatment of -0.
- Tone.ContrastFactor: requires `contrast * 255 != 259`. The code divides by
  `259 - contrast * 255` without a guard, so that contrast would give an
  infinite factor.
- Convolution.Convolve: requires a square kernel and a non-zero divisor. The
  code takes the side as `Math.sqrt(kernel.length)` without checking it, and
  divides by the divisor without a guard. Its only caller passes the 3×3
  kernel and 16. The odd side that centring assumes is not needed for any
  proof.
- Default parameter values (`divisor = 1`, `bias = 0`, `amount = 0.5`,
  `strength = 0.2`, and the tone defaults of 1) are not modelled. Every
  call site passes every argument (src/App.jsx:67, 140-144, 147, 151). `Pipeline.DefaultSettings` (used by `Pipeline.DefaultSettingsRunEverything`) records the enhancer's initial
  settings.
