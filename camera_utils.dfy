/** The shared frame processor: the standard canvas settings, the brightness factor estimated
    from a sample of the pixels, the in-place brightness and contrast pass over the RGBA
    bytes, the video readiness test and the blob encoder's failure. Pixels are the bytes of
    a `Uint8ClampedArray`; drawing and encoding are browser work, given as parameters. */
module CameraUtils {
  import opened Wrappers
  import Pixels

  type Byte = Pixels.Byte

  const StandardWidth: nat := 640
  const StandardHeight: nat := 480
  const PreprocessingEnabled: bool := true

  /** Brightness is sampled at every 16th byte, i.e. one pixel in four. */
  const SampleStride: nat := 16
  const TargetBrightness: real := 128.0
  const MinFactor: real := 0.7
  const MaxFactor: real := 1.5
  const PreprocessContrast: real := 1.15

  // ---------------------------------------------------------------------------------
  // Canvas options

  /** `options` as passed; `None` is a missing property. */
  datatype CanvasOptions = CanvasOptions(width: Option<nat>, height: Option<nat>, mirrored: Option<bool>, preprocessing: Option<bool>)

  datatype CanvasSettings = CanvasSettings(width: nat, height: nat, mirrored: bool, preprocessing: bool)

  /** The destructuring defaults of `createStandardizedCanvas`. */
  function Resolve(o: CanvasOptions): (s: CanvasSettings)
    ensures s.width == o.width.GetOr(StandardWidth) && s.height == o.height.GetOr(StandardHeight)
    ensures s.mirrored == o.mirrored.GetOr(true) && s.preprocessing == o.preprocessing.GetOr(PreprocessingEnabled)
  {
    CanvasSettings(o.width.GetOr(StandardWidth), o.height.GetOr(StandardHeight),
                   o.mirrored.GetOr(true), o.preprocessing.GetOr(PreprocessingEnabled))
  }

  /** With no options the canvas is 640 x 480, mirrored, with preprocessing. */
  lemma DefaultSettings()
    ensures Resolve(CanvasOptions(None, None, None, None)) == CanvasSettings(640, 480, true, true)
  {
  }

  // ---------------------------------------------------------------------------------
  // Brightness factor

  /** Perceived brightness of the pixel starting at byte `i`. */
  function Luma(s: seq<Byte>, i: nat): real
    requires i + 2 < |s|
  {
    s[i] as real * 0.299 + s[i + 1] as real * 0.587 + s[i + 2] as real * 0.114
  }

  lemma LumaBounds(s: seq<Byte>, i: nat)
    requires i + 2 < |s|
    ensures 0.0 <= Luma(s, i) <= 255.0
  {
  }

  /** The sum of the luma of the pixels sampled from byte `i` on. */
  function SampledTotal(s: seq<Byte>, i: nat): real
    requires |s| % 4 == 0 && i % 4 == 0
    decreases |s| - i
  {
    if i >= |s| then 0.0 else Luma(s, i) + SampledTotal(s, i + SampleStride)
  }

  /** How many pixels are sampled from byte `i` on, in a buffer of `n` bytes. */
  function SampleCount(n: nat, i: nat): nat
    decreases n - i
  {
    if i >= n then 0 else 1 + SampleCount(n, i + SampleStride)
  }

  /** The sample is every fourth pixel: ceil(n / 16) pixels of a buffer of n bytes. */
  lemma {:induction false} SampleCountIsQuarter(n: nat, i: nat)
    requires i <= n + SampleStride - 1 && i % SampleStride == 0
    ensures SampleCount(n, i) == (n + SampleStride - 1 - i) / SampleStride
    decreases n - i
  {
    if i < n {
      SampleCountIsQuarter(n, i + SampleStride);
    }
  }

  lemma {:induction false} SampledTotalBounds(s: seq<Byte>, i: nat)
    requires |s| % 4 == 0 && i % 4 == 0
    ensures 0.0 <= SampledTotal(s, i) <= 255.0 * SampleCount(|s|, i) as real
    decreases |s| - i
  {
    if i < |s| {
      FourAligned(|s|, i);
      LumaBounds(s, i);
      SampledTotalBounds(s, i + SampleStride);
    }
  }

  /** A pixel that starts inside a buffer of whole pixels lies inside it entirely. */
  lemma FourAligned(n: nat, i: nat)
    requires n % 4 == 0 && i % 4 == 0 && i < n
    ensures i + 3 < n
  {
    var a, b := n / 4, i / 4;
    assert n == 4 * a && i == 4 * b;
  }

  /** `calculateOptimalBrightness(data)`: 128 over the mean sampled luma, clamped to
      [0.7, 1.5]. `None` is JavaScript's NaN (an empty buffer: 0/0); a black sample gives
      infinity, which clamps to 1.5. */
  function BrightnessFactor(s: seq<Byte>): (factor: Option<real>)
    requires |s| % 4 == 0
    ensures factor.None? <==> |s| == 0
    ensures factor.Some? ==> MinFactor <= factor.value <= MaxFactor
  {
    var count := SampleCount(|s|, 0);
    if count == 0 then None
    else
      var average := SampledTotal(s, 0) / count as real;
      if average == 0.0 then Some(MaxFactor)
      else Some(Pixels.Clamp(TargetBrightness / average, MinFactor, MaxFactor))
  }

  /** Every pixel of the buffer is the grey `v` (alpha is free). */
  predicate UniformGrey(s: seq<Byte>, v: Byte)
  {
    |s| % 4 == 0 && forall k :: 0 <= k < |s| && k % 4 != 3 ==> s[k] == v
  }

  /** On a uniform grey frame each sampled pixel contributes exactly its grey value. */
  lemma {:induction false} UniformSampledTotal(s: seq<Byte>, v: Byte, i: nat)
    requires UniformGrey(s, v) && i % 4 == 0
    ensures SampledTotal(s, i) == v as real * SampleCount(|s|, i) as real
    decreases |s| - i
  {
    if i < |s| {
      FourAligned(|s|, i);
      assert s[i] == v && s[i + 1] == v && s[i + 2] == v;
      UniformSampledTotal(s, v, i + SampleStride);
    }
  }

  /** A uniform grey frame of any size gets 128 over its grey, clamped: mid-grey needs no
      correction, black gets the largest factor and white (which would want 128/255) the
      smallest. */
  lemma BrightnessOfUniformFrame(s: seq<Byte>, v: Byte)
    requires |s| > 0 && UniformGrey(s, v)
    ensures v == 0 ==> BrightnessFactor(s) == Some(MaxFactor)
    ensures v > 0 ==> BrightnessFactor(s) == Some(Pixels.Clamp(TargetBrightness / v as real, MinFactor, MaxFactor))
    ensures v == 128 ==> BrightnessFactor(s) == Some(1.0)
    ensures v == 255 ==> BrightnessFactor(s) == Some(MinFactor)
  {
    UniformFrameAverage(s, v);
    if v == 255 {
      assert TargetBrightness / 255.0 < MinFactor;
    }
  }

  /** The mean sampled luma of a uniform grey frame is its grey. */
  lemma UniformFrameAverage(s: seq<Byte>, v: Byte)
    requires |s| > 0 && UniformGrey(s, v)
    ensures SampleCount(|s|, 0) > 0
    ensures SampledTotal(s, 0) / SampleCount(|s|, 0) as real == v as real
  {
    UniformSampledTotal(s, v, 0);
    var n := SampleCount(|s|, 0) as real;
    assert n >= 1.0;
    assert v as real * n / n == v as real;
  }

  /** The sampling loop: every fourth pixel's luma summed and counted. */
  method SampleFrame(data: array<Byte>) returns (totalBrightness: real, pixelCount: nat)
    requires data.Length % 4 == 0
    ensures totalBrightness == SampledTotal(data[..], 0) && pixelCount == SampleCount(data.Length, 0)
  {
    ghost var s := data[..];
    totalBrightness, pixelCount := 0.0, 0;
    var i := 0;
    while i < data.Length
      invariant i == SampleStride * pixelCount && i <= data.Length + SampleStride - 1
      invariant totalBrightness + SampledTotal(s, i) == SampledTotal(s, 0)
      invariant pixelCount + SampleCount(|s|, i) == SampleCount(|s|, 0)
      decreases data.Length - i
    {
      FourAligned(data.Length, i);
      var brightness := data[i] as real * 0.299 + data[i + 1] as real * 0.587 + data[i + 2] as real * 0.114;
      assert brightness == Luma(s, i);
      totalBrightness := totalBrightness + brightness;
      pixelCount := pixelCount + 1;
      i := i + SampleStride;
    }
  }

  /** `calculateOptimalBrightness`: the sample, then the clamped ratio. */
  method CalculateOptimalBrightness(data: array<Byte>) returns (factor: Option<real>)
    requires data.Length % 4 == 0
    ensures factor == BrightnessFactor(data[..])
  {
    var totalBrightness, pixelCount := SampleFrame(data);
    if pixelCount == 0 {
      return None;
    }
    var average := totalBrightness / pixelCount as real;
    if average == 0.0 {
      return Some(MaxFactor);
    }
    factor := Some(Pixels.Clamp(TargetBrightness / average, MinFactor, MaxFactor));
  }

  // ---------------------------------------------------------------------------------
  // Preprocessing pass

  function Min(a: real, b: real): real
  {
    if a < b then a else b
  }

  /** One colour channel: scaled by the brightness factor and capped at 255, then stretched
      by 1.15 about 128 and clamped to [0, 255], then stored. */
  function PreprocessChannel(v: Byte, brightness: real): Byte
  {
    Pixels.ContrastChannel(Min(255.0, v as real * brightness), PreprocessContrast)
  }

  /** A brighter input channel never comes out darker. */
  lemma PreprocessMonotone(v: Byte, w: Byte, brightness: real)
    requires v <= w && brightness >= 0.0
    ensures PreprocessChannel(v, brightness) <= PreprocessChannel(w, brightness)
  {
    assert v as real * brightness <= w as real * brightness by {
      assert (w - v) as real * brightness >= 0.0;
    }
    assert Min(255.0, v as real * brightness) <= Min(255.0, w as real * brightness);
    Pixels.ContrastMonotone(Min(255.0, v as real * brightness), Min(255.0, w as real * brightness), PreprocessContrast);
  }

  /** Black stays black and, when the frame is not dimmed, white stays white. */
  lemma PreprocessExtremes(brightness: real)
    requires brightness >= 0.0
    ensures PreprocessChannel(0, brightness) == 0
    ensures brightness >= 1.0 ==> PreprocessChannel(255, brightness) == 255
  {
    Pixels.ContrastDarkens(0, PreprocessContrast);
    if brightness >= 1.0 {
      assert 255.0 * brightness >= 255.0;
      assert Min(255.0, 255.0 * brightness) == 255.0;
      Pixels.StoreByteOfByte(255);
      Pixels.ContrastBrightens(255, PreprocessContrast);
    }
  }

  /** `after` is `before` with every R, G and B byte run through the channel function and
      every alpha byte left as it was. */
  ghost predicate Preprocessed(before: seq<Byte>, after: seq<Byte>, brightness: real)
  {
    |after| == |before| &&
    forall k :: 0 <= k < |before| ==>
      after[k] == if k % 4 == 3 then before[k] else PreprocessChannel(before[k], brightness)
  }

  /** `applyPreprocessing`: the brightness factor of the frame, then the pass over every
      pixel in place. An empty frame is left as it is (its factor is NaN but no pixel is
      visited). */
  method ApplyPreprocessing(data: array<Byte>)
    requires data.Length % 4 == 0
    modifies data
    ensures data.Length == 0 ==> data[..] == old(data[..])
    ensures data.Length > 0 ==>
      && BrightnessFactor(old(data[..])).Some?
      && Preprocessed(old(data[..]), data[..], BrightnessFactor(old(data[..])).value)
  {
    var factor := CalculateOptimalBrightness(data);
    if factor.None? {
      return;
    }
    PreprocessPass(data, factor.value);
  }

  /** The loop over every pixel once the factor is known. */
  method PreprocessPass(data: array<Byte>, brightnessFactor: real)
    requires data.Length % 4 == 0
    modifies data
    ensures Preprocessed(old(data[..]), data[..], brightnessFactor)
  {
    var i := 0;
    while i < data.Length
      invariant 0 <= i <= data.Length && i % 4 == 0
      invariant forall k :: 0 <= k < i ==>
        data[k] == if k % 4 == 3 then old(data[k]) else PreprocessChannel(old(data[k]), brightnessFactor)
      invariant forall k :: i <= k < data.Length ==> data[k] == old(data[k])
    {
      FourAligned(data.Length, i);
      PreprocessPixel(data, i, brightnessFactor);
      Pixels.PixelOffsets(i);
      i := i + 4;
    }
  }

  /** The body of the pass for the pixel at byte `i`: R, G and B are rewritten, alpha is not. */
  method PreprocessPixel(data: array<Byte>, i: nat, brightnessFactor: real)
    requires i + 3 < data.Length
    modifies data
    ensures data[i] == PreprocessChannel(old(data[i]), brightnessFactor)
    ensures data[i + 1] == PreprocessChannel(old(data[i + 1]), brightnessFactor)
    ensures data[i + 2] == PreprocessChannel(old(data[i + 2]), brightnessFactor)
    ensures forall k :: 0 <= k < data.Length && k != i && k != i + 1 && k != i + 2 ==> data[k] == old(data[k])
  {
    var r := Min(255.0, data[i] as real * brightnessFactor);
    var g := Min(255.0, data[i + 1] as real * brightnessFactor);
    var b := Min(255.0, data[i + 2] as real * brightnessFactor);
    data[i] := Pixels.ContrastChannel(r, PreprocessContrast);
    data[i + 1] := Pixels.ContrastChannel(g, PreprocessContrast);
    data[i + 2] := Pixels.ContrastChannel(b, PreprocessContrast);
  }

  /** `createStandardizedCanvas` once the frame is drawn (mirrored or not) into `drawn`:
      the settings it uses, and the preprocessing pass when it is enabled. */
  method CreateStandardizedCanvas(options: CanvasOptions, drawn: array<Byte>) returns (settings: CanvasSettings)
    requires drawn.Length % 4 == 0
    modifies drawn
    ensures settings == Resolve(options)
    ensures !settings.preprocessing ==> drawn[..] == old(drawn[..])
    ensures settings.preprocessing && drawn.Length > 0 ==>
      Preprocessed(old(drawn[..]), drawn[..], BrightnessFactor(old(drawn[..])).value)
  {
    settings := Resolve(options);
    if settings.preprocessing {
      ApplyPreprocessing(drawn);
    }
  }

  // ---------------------------------------------------------------------------------
  // Video readiness and encoding

  datatype Video = Video(readyState: int, videoWidth: int, videoHeight: int, paused: bool, ended: bool)

  /** `isVideoReady(video)`; `None` is a missing element. */
  function IsVideoReady(video: Option<Video>): (ready: bool)
    ensures ready ==> video.Some? && video.value.readyState >= 2
    ensures ready ==> video.Some? && video.value.videoWidth > 0 && video.value.videoHeight > 0
    ensures ready ==> video.Some? && !video.value.paused && !video.value.ended
    ensures (video.Some? && video.value.readyState >= 2 && video.value.videoWidth > 0 && video.value.videoHeight > 0
             && !video.value.paused && !video.value.ended) ==> ready
  {
    match video
    case None => false
    case Some(v) => v.readyState >= 2 && v.videoWidth > 0 && v.videoHeight > 0 && !v.paused && !v.ended
  }

  /** `canvasToBlob`: the encoder's blob, or the rejection when it yields none. */
  function CanvasToBlob<B>(encoded: Option<B>): (r: Result<B, string>)
    ensures encoded.Some? <==> r.Success?
    ensures r.Success? ==> r.value == encoded.value
    ensures r.Failure? ==> r.error == "Failed to create blob from canvas"
  {
    match encoded
    case Some(blob) => Success(blob)
    case None => Failure("Failed to create blob from canvas")
  }

  /** `processVideoFrame`: any failure on the way is replaced by one fixed message. */
  function ProcessVideoFrame<B>(dataUrl: string, encoded: Option<B>): (r: Result<(string, B), string>)
    ensures r.Success? <==> encoded.Some?
    ensures r.Success? ==> r.value == (dataUrl, encoded.value)
    ensures r.Failure? ==> r.error == "Failed to process video frame for prediction"
  {
    match CanvasToBlob(encoded)
    case Success(blob) => Success((dataUrl, blob))
    case Failure(_) => Failure("Failed to process video frame for prediction")
  }
}
