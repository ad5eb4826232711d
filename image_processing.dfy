/** The camera module's image preprocessing (smart-kitchen-camera-module/utils/imageProcessing.ts):
    scale to fit without upscaling, an optional brightness and contrast pass over the RGBA
    bytes, and JPEG re-encoding at falling quality until the estimated size meets a target.
    Decoding, drawing and encoding belong to the browser: the pixels drawn at the scaled size
    are given as an array, and the encoder is a parameter from the pixels and a quality to the
    data URL it produces. Numbers are exact reals, not IEEE doubles. */
module ImageProcessing {
  import opened Wrappers
  import opened Seqs
  import opened Js

  // ---------------------------------------------------------------- options

  /** `PreprocessOptions`: every field may be left out. */
  datatype PreprocessOptions = PreprocessOptions(
    maxWidth: Option<real>,
    maxHeight: Option<real>,
    quality: Option<real>,
    autoEnhance: Option<bool>,
    targetSizeKB: Option<real>)

  /** The options once the defaults of the destructuring are filled in. */
  datatype Settings = Settings(maxWidth: real, maxHeight: real, quality: real, autoEnhance: bool, targetSizeKB: real)

  const DefaultMaxWidth := 1920.0
  const DefaultMaxHeight := 1080.0
  const DefaultQuality := 0.85
  const DefaultTargetSizeKB := 500.0

  function OrElse<T>(o: Option<T>, d: T): (r: T)
    ensures o.Some? ==> r == o.value
    ensures o.None? ==> r == d
  {
    if o.Some? then o.value else d
  }

  /** `const { maxWidth = 1920, maxHeight = 1080, quality = 0.85, autoEnhance = true,
      targetSizeKB = 500 } = options`: a default replaces only a field that is left out. */
  function Resolve(o: PreprocessOptions): (s: Settings)
    ensures s.maxWidth == OrElse(o.maxWidth, DefaultMaxWidth) && s.maxHeight == OrElse(o.maxHeight, DefaultMaxHeight)
    ensures s.quality == OrElse(o.quality, DefaultQuality) && s.autoEnhance == OrElse(o.autoEnhance, true)
    ensures s.targetSizeKB == OrElse(o.targetSizeKB, DefaultTargetSizeKB)
  {
    Settings(OrElse(o.maxWidth, DefaultMaxWidth), OrElse(o.maxHeight, DefaultMaxHeight), OrElse(o.quality, DefaultQuality),
             OrElse(o.autoEnhance, true), OrElse(o.targetSizeKB, DefaultTargetSizeKB))
  }

  /** With no options: at most 1920 by 1080, quality 0.85, enhanced, aiming at 500 KB. */
  lemma ResolveDefaults()
    ensures Resolve(PreprocessOptions(None, None, None, None, None)) == Settings(1920.0, 1080.0, 0.85, true, 500.0)
  {
  }

  // ---------------------------------------------------------------- scaling

  function Min(a: real, b: real): real {
    if a <= b then a else b
  }

  /** `Math.min(maxWidth / width, maxHeight / height, 1)`. A zero side divides to Infinity,
      which never wins the minimum, so its term is left out. */
  function Ratio(w: nat, h: nat, maxW: real, maxH: real): (r: real)
    requires maxW > 0.0 && maxH > 0.0
    ensures 0.0 < r <= 1.0
    ensures w > 0 ==> r <= maxW / w as real
    ensures h > 0 ==> r <= maxH / h as real
    ensures r == 1.0 || (w > 0 && r == maxW / w as real) || (h > 0 && r == maxH / h as real)
  {
    var a := if w > 0 then Min(maxW / w as real, 1.0) else 1.0;
    if h > 0 then Min(maxH / h as real, a) else a
  }

  /** The scaled size: each side times the ratio, rounded. */
  datatype Size = Size(width: nat, height: nat)

  function Scaled(side: nat, ratio: real): nat
    requires 0.0 < ratio <= 1.0
  {
    var r := Round(side as real * ratio);
    if r < 0 then 0 else r
  }

  function ScaledSize(w: nat, h: nat, maxW: real, maxH: real): Size
    requires maxW > 0.0 && maxH > 0.0
  {
    var ratio := Ratio(w, h, maxW, maxH);
    Size(Scaled(w, ratio), Scaled(h, ratio))
  }

  /** An image already within both bounds keeps its exact size: there is no upscaling. */
  lemma ScaledSizeKeepsSmall(w: nat, h: nat, maxW: real, maxH: real)
    requires maxW > 0.0 && maxH > 0.0
    requires w as real <= maxW && h as real <= maxH
    ensures ScaledSize(w, h, maxW, maxH) == Size(w, h)
  {
    assert w > 0 ==> maxW / w as real >= 1.0;
    assert h > 0 ==> maxH / h as real >= 1.0;
    RoundInteger(w);
    RoundInteger(h);
  }

  /** A side never grows. */
  lemma ScaledNeverLarger(side: nat, ratio: real)
    requires 0.0 < ratio <= 1.0
    ensures Scaled(side, ratio) <= side
  {
    assert side as real * ratio <= side as real;
    RoundMonotone(side as real * ratio, side as real);
    RoundInteger(side);
  }

  /** A side scaled by at most `bound / side` fits within a whole-number bound. */
  lemma ScaledFits(side: nat, ratio: real, bound: nat)
    requires side > 0 && 0.0 < ratio <= 1.0 && ratio <= bound as real / side as real
    ensures Scaled(side, ratio) <= bound
  {
    assert side as real * ratio <= side as real * (bound as real / side as real);
    assert side as real * (bound as real / side as real) == bound as real;
    RoundMonotone(side as real * ratio, bound as real);
    RoundInteger(bound);
  }

  /** With whole-number bounds the result fits both bounds, and neither side grows. */
  lemma ScaledSizeFits(w: nat, h: nat, maxW: nat, maxH: nat)
    requires maxW > 0 && maxH > 0
    ensures var s := ScaledSize(w, h, maxW as real, maxH as real);
      s.width <= maxW && s.height <= maxH && s.width <= w && s.height <= h
  {
    var ratio := Ratio(w, h, maxW as real, maxH as real);
    ScaledNeverLarger(w, ratio);
    ScaledNeverLarger(h, ratio);
    if w > 0 {
      ScaledFits(w, ratio, maxW);
    }
    if h > 0 {
      ScaledFits(h, ratio, maxH);
    }
  }

  // ---------------------------------------------------------------- the enhancement pass

  /** A byte of the canvas pixel buffer. */
  type Byte = b: int | 0 <= b <= 255

  /** `clamp(value)`: rounded, then held to 0..255. */
  function Clamp(v: real): (r: Byte)
    ensures 0.0 <= v <= 255.0 ==> r == Round(v)
    ensures v < 0.0 ==> r == 0
    ensures v >= 255.0 ==> r == 255
  {
    var n := Round(v);
    if n < 0 then 0 else if n > 255 then 255 else n
  }

  /** Clamping keeps the order of its arguments. */
  lemma ClampMonotone(a: real, b: real)
    requires a <= b
    ensures Clamp(a) <= Clamp(b)
  {
    RoundMonotone(a, b);
  }

  const ContrastFactor := 1.1

  /** One colour byte: brightness multiplied and clamped, then contrast stretched about 128
      and clamped. */
  function Adjust(c: Byte, m: real): Byte {
    Contrast(Brighten(c, m))
  }

  /** The brightness step for one colour byte. */
  function Brighten(c: Byte, m: real): Byte {
    Clamp(Times(c as real, m))
  }

  /** `x * m`. */
  function Times(x: real, m: real): real {
    x * m
  }

  /** The contrast step for one colour byte. */
  function Contrast(c: Byte): Byte {
    Clamp((c as int - 128) as real * ContrastFactor + 128.0)
  }

  /** A brighter input byte never gives a darker output byte. */
  lemma AdjustMonotone(a: Byte, b: Byte, m: real)
    requires a <= b && m > 0.0
    ensures Adjust(a, m) <= Adjust(b, m)
  {
    BrightenMonotone(a, b, m);
    ContrastMonotone(Brighten(a, m), Brighten(b, m));
  }

  /** The brightness step keeps the order of its bytes. */
  lemma BrightenMonotone(a: Byte, b: Byte, m: real)
    requires a <= b && m > 0.0
    ensures Brighten(a, m) <= Brighten(b, m)
  {
    ScaleMonotone(a as real, b as real, m);
    ClampMonotone(Times(a as real, m), Times(b as real, m));
  }

  /** The contrast step keeps the order of its bytes. */
  lemma ContrastMonotone(x: Byte, y: Byte)
    requires x <= y
    ensures Contrast(x) <= Contrast(y)
  {
    ScaleMonotone((x as int - 128) as real, (y as int - 128) as real, ContrastFactor);
    assert (x as int - 128) as real * ContrastFactor <= (y as int - 128) as real * ContrastFactor;
    ClampMonotone((x as int - 128) as real * ContrastFactor + 128.0, (y as int - 128) as real * ContrastFactor + 128.0);
  }

  /** Multiplying by a positive factor keeps order. */
  lemma ScaleMonotone(u: real, v: real, m: real)
    requires u <= v && m > 0.0
    ensures Times(u, m) <= Times(v, m)
  {
    assert v * m - u * m == (v - u) * m;
  }

  /** Mid grey is fixed when the brightness is left alone. */
  lemma AdjustMidGrey()
    ensures Adjust(128, 1.0) == 128
  {
    RoundInteger(128);
  }

  /** The sum of `(r + g + b) / 3` over the first `n` pixels. */
  function LumaTotal(s: seq<Byte>, n: nat): real
    requires 4 * n <= |s|
  {
    if n == 0 then 0.0
    else LumaTotal(s, n - 1) + (s[4 * (n - 1)] as int + s[4 * (n - 1) + 1] + s[4 * (n - 1) + 2]) as real / 3.0
  }

  /** The brightness multiplier: 1.3 when the mean is under 100, 0.9 when it is over 200, else 1.
      An empty buffer's mean is NaN, which is neither, so 1. */
  function Multiplier(s: seq<Byte>): (m: real)
    requires |s| % 4 == 0
    ensures m == 1.3 || m == 0.9 || m == 1.0
  {
    var pixels := |s| / 4;
    if pixels == 0 then 1.0
    else
      var mean := LumaTotal(s, pixels) / pixels as real;
      if mean < 100.0 then 1.3 else if mean > 200.0 then 0.9 else 1.0
  }

  /** The buffer after the pass: each colour byte adjusted, each alpha byte (index 3 of its
      pixel) as it was. */
  function Enhanced(s: seq<Byte>, m: real): (r: seq<Byte>)
    ensures |r| == |s|
    ensures forall j :: 0 <= j < |s| && j % 4 == 3 ==> r[j] == s[j]
    ensures forall j :: 0 <= j < |s| && j % 4 != 3 ==> r[j] == Adjust(s[j], m)
  {
    seq(|s|, j requires 0 <= j < |s| => if j % 4 == 3 then s[j] else Adjust(s[j], m))
  }

  /** `applyAutoEnhance`: the mean-brightness loop, then the in-place adjustment loop. */
  /** The first loop of `applyAutoEnhance`: the total brightness, and from its mean the
      multiplier. */
  method BrightnessMultiplier(data: array<Byte>) returns (m: real)
    requires data.Length % 4 == 0
    ensures m == Multiplier(data[..])
  {
    var total := 0.0;
    var i := 0;
    while i < data.Length
      invariant 0 <= i <= data.Length && i % 4 == 0
      invariant total == LumaTotal(data[..], i / 4)
    {
      total := total + (data[i] as int + data[i + 1] + data[i + 2]) as real / 3.0;
      i := i + 4;
    }
    var pixels := data.Length / 4;
    m := if pixels == 0 then 1.0
      else if total / pixels as real < 100.0 then 1.3
      else if total / pixels as real > 200.0 then 0.9
      else 1.0;
  }

  /** Where the bytes of the pixel at `i` sit within their group of four. */
  lemma PixelOffsets(i: nat)
    requires i % 4 == 0
    ensures i % 4 != 3 && (i + 1) % 4 != 3 && (i + 2) % 4 != 3 && (i + 3) % 4 == 3 && (i + 4) % 4 == 0
  {
    var k := i / 4;
    assert i == 4 * k;
    assert (i + 1) % 4 == 1 && (i + 2) % 4 == 2 && (i + 3) % 4 == 3 && (i + 4) % 4 == 0 by {
      assert i + 1 == 4 * k + 1 && i + 2 == 4 * k + 2 && i + 3 == 4 * k + 3 && i + 4 == 4 * (k + 1);
    }
  }

  /** The second loop of `applyAutoEnhance`: brightness, then contrast, on the three colour
      bytes of each pixel in turn. */
  method AdjustPixels(data: array<Byte>, m: real)
    requires data.Length % 4 == 0
    modifies data
    ensures data[..] == Enhanced(old(data[..]), m)
  {
    ghost var before := data[..];
    var i := 0;
    while i < data.Length
      invariant 0 <= i <= data.Length && i % 4 == 0
      invariant forall j :: 0 <= j < i && j % 4 == 3 ==> data[j] == before[j]
      invariant forall j :: 0 <= j < i && j % 4 != 3 ==> data[j] == Adjust(before[j], m)
      invariant forall j :: i <= j < data.Length ==> data[j] == before[j]
    {
      var red := Brighten(data[i], m);
      var green := Brighten(data[i + 1], m);
      var blue := Brighten(data[i + 2], m);
      red := Contrast(red);
      green := Contrast(green);
      blue := Contrast(blue);
      PixelOffsets(i);
      data[i], data[i + 1], data[i + 2] := red, green, blue;
      i := i + 4;
    }
  }

  /** `applyAutoEnhance`: the multiplier from the buffer as it was, then every colour byte
      adjusted in place. */
  method ApplyAutoEnhance(data: array<Byte>)
    requires data.Length % 4 == 0
    modifies data
    ensures data[..] == Enhanced(old(data[..]), Multiplier(old(data[..])))
  {
    var m := BrightnessMultiplier(data);
    AdjustPixels(data, m);
  }

  // ---------------------------------------------------------------- size and compression

  /** `getBase64SizeKB(s)` for a text of `length` characters: `round(length * 3 / 4 / 1024)`,
      since four base64 characters carry three bytes (section 4 of RFC 4648). */
  function SizeKB(length: nat): (r: nat)
    ensures (r as real - 0.5) * 4096.0 <= length as real * 3.0 < (r as real + 0.5) * 4096.0
  {
    var x := length as real * 3.0 / 4.0 / 1024.0;
    var n := Round(x);
    assert x - 0.5 < n as real <= x + 0.5;
    n
  }

  /** A longer text never has a smaller estimate. */
  lemma SizeKBMonotone(a: nat, b: nat)
    requires a <= b
    ensures SizeKB(a) <= SizeKB(b)
  {
    RoundMonotone(a as real * 3.0 / 4.0 / 1024.0, b as real * 3.0 / 4.0 / 1024.0);
  }

  const QualityFloor := 0.3
  const QualityStep := 0.1

  /** The quality after `k` steps down from `q`. */
  function StepQuality(q: real, k: nat): real {
    q - k as real * QualityStep
  }

  /** The size estimate of the data URL the canvas gives at quality `q`. */
  function EncodedKB(pixels: seq<Byte>, encode: (seq<Byte>, real) -> string, q: real): nat {
    SizeKB(|encode(pixels, q)|)
  }

  /** The loop condition after an encoding at quality `q`: too large, and above the floor. */
  predicate Reencodes(pixels: seq<Byte>, encode: (seq<Byte>, real) -> string, q: real, target: real) {
    EncodedKB(pixels, encode, q) as real > target && q > QualityFloor
  }

  /** How many times the loop re-encodes when it starts at quality `q`: it goes on exactly
      while the condition holds, so every quality before the last re-encodes and the last does
      not. */
  function Reencodings(pixels: seq<Byte>, encode: (seq<Byte>, real) -> string, q: real, target: real): (n: nat)
    ensures !Reencodes(pixels, encode, StepQuality(q, n), target)
    ensures forall k :: 0 <= k < n ==> Reencodes(pixels, encode, StepQuality(q, k), target)
    ensures n > 0 ==> StepQuality(q, n) > QualityFloor - QualityStep
    ensures q <= QualityFloor ==> n == 0
    decreases (q * 10.0).Floor
  {
    if Reencodes(pixels, encode, q, target) then
      var rest := Reencodings(pixels, encode, q - QualityStep, target);
      ReencodesShift(pixels, encode, q, q - QualityStep, target, rest);
      1 + rest
    else
      assert StepQuality(q, 0) == q;
      0
  }

  /** The re-encodes from `q - 0.1` on, preceded by the one at `q`, are those from `q` on. */
  lemma ReencodesShift(pixels: seq<Byte>, encode: (seq<Byte>, real) -> string, q: real, next: real, target: real, rest: nat)
    requires next == q - QualityStep
    requires Reencodes(pixels, encode, q, target)
    requires forall k :: 0 <= k < rest ==> Reencodes(pixels, encode, StepQuality(next, k), target)
    ensures forall k :: 0 <= k < rest + 1 ==> Reencodes(pixels, encode, StepQuality(q, k), target)
    ensures StepQuality(next, rest) == StepQuality(q, rest + 1)
  {
    forall k | 0 <= k < rest + 1
      ensures Reencodes(pixels, encode, StepQuality(q, k), target)
    {
      if k == 0 {
        assert StepQuality(q, k) == q;
      } else {
        assert StepQuality(q, k) == StepQuality(next, k - 1);
      }
    }
  }

  /** The re-encoding loop. It lowers the quality by 0.1 while the estimate of the whole data
      URL exceeds the target and the quality is above 0.3, and returns the last encoding
      whatever its size. */
  method Compress(pixels: seq<Byte>, quality: real, target: real, encode: (seq<Byte>, real) -> string)
    returns (dataUrl: string, sizeKB: nat, finalQuality: real, reencodes: nat)
    ensures reencodes == Reencodings(pixels, encode, quality, target)
    ensures finalQuality == StepQuality(quality, reencodes)
    ensures dataUrl == encode(pixels, finalQuality) && sizeKB == SizeKB(|dataUrl|)
    ensures sizeKB as real <= target || finalQuality <= QualityFloor
  {
    finalQuality := quality;
    dataUrl := encode(pixels, finalQuality);
    sizeKB := SizeKB(|dataUrl|);
    reencodes := 0;
    while sizeKB as real > target && finalQuality > QualityFloor
      invariant finalQuality == StepQuality(quality, reencodes)
      invariant dataUrl == encode(pixels, finalQuality) && sizeKB == SizeKB(|dataUrl|)
      invariant Reencodings(pixels, encode, quality, target) == reencodes + Reencodings(pixels, encode, finalQuality, target)
      decreases (finalQuality * 10.0).Floor
    {
      finalQuality := finalQuality - QualityStep;
      dataUrl := encode(pixels, finalQuality);
      sizeKB := SizeKB(|dataUrl|);
      reencodes := reencodes + 1;
    }
  }

  /** From the default quality 0.85 the loop re-encodes at most 6 times and stops no lower
      than 0.25. */
  lemma DefaultQualitySteps(pixels: seq<Byte>, encode: (seq<Byte>, real) -> string, target: real)
    ensures Reencodings(pixels, encode, DefaultQuality, target) <= 6
    ensures StepQuality(DefaultQuality, Reencodings(pixels, encode, DefaultQuality, target)) >= 0.25
  {
    var n := Reencodings(pixels, encode, DefaultQuality, target);
    assert n > 0 ==> DefaultQuality - n as real * QualityStep > QualityFloor - QualityStep;
  }

  /** Whatever the start, a target met at the first encoding means no re-encode, and a
      start above the floor that misses the target re-encodes at least once. */
  lemma ReencodingsFirst(pixels: seq<Byte>, encode: (seq<Byte>, real) -> string, q: real, target: real)
    ensures EncodedKB(pixels, encode, q) as real <= target ==> Reencodings(pixels, encode, q, target) == 0
    ensures EncodedKB(pixels, encode, q) as real > target && q > QualityFloor ==> Reencodings(pixels, encode, q, target) >= 1
  {
    var n := Reencodings(pixels, encode, q, target);
    if n > 0 {
      assert StepQuality(q, 0) == q;
      assert Reencodes(pixels, encode, StepQuality(q, 0), target);
    }
    if n == 0 {
      assert StepQuality(q, 0) == q;
    }
  }

  /** `s.split(',')[1]`: the text between the first comma and the next one, or the end;
      `None` (`undefined`) when there is no comma. */
  function SecondField(s: string): (r: Option<string>)
    ensures r.None? <==> ',' !in s
    ensures r.Some? ==> ',' !in r.value
  {
    if ',' !in s then None
    else
      var rest := s[FirstIndex(s, ',') + 1..];
      if ',' in rest then Some(rest[..FirstIndex(rest, ',')]) else Some(rest)
  }

  /** The base64 payload of `data:<mime>;base64,<payload>` is what follows the comma. */
  lemma SecondFieldOfDataUrl(mime: string, payload: string)
    requires ',' !in mime && ',' !in payload
    ensures SecondField("data:" + mime + ";base64," + payload) == Some(payload)
  {
    var s := "data:" + mime + ";base64," + payload;
    var k := |"data:" + mime + ";base64"|;
    assert s[k] == ',';
    assert ',' !in s[..k] by {
      assert s[..k] == "data:" + mime + ";base64";
    }
    assert FirstIndex(s, ',') == k;
    assert s[k + 1..] == payload;
  }

  // ---------------------------------------------------------------- preprocessImage

  /** `ProcessedImage`; `base64` is `None` when the encoder's text has no comma. */
  datatype ProcessedImage = ProcessedImage(base64: Option<string>, width: nat, height: nat, sizeKB: nat)

  /** Whether the enhancement pass reads an empty region: `getImageData` throws when the
      scaled width or height is 0. The throw happens inside the `onload` handler, after the
      promise executor has returned, so the promise neither resolves nor rejects. */
  predicate EnhanceThrows(settings: Settings, size: Size) {
    settings.autoEnhance && (size.width == 0 || size.height == 0)
  }

  const NoContext := "Failed to get canvas context"
  const LoadFailed := "Failed to load image"

  /** How the promise of `preprocessImage` ends. */
  datatype Settled = Resolved(image: ProcessedImage) | Rejected(message: string) | Pending

  /** `preprocessImage`. `hasContext` is whether `getContext('2d')` gave a context, `loaded`
      whether the image fired `onload` (rather than `onerror`) with natural size `w` by `h`;
      `canvas` holds the image drawn at the scaled size, and `encode(pixels, q)` is
      `canvas.toDataURL('image/jpeg', q)`. */
  method Preprocess(hasContext: bool, loaded: bool, w: nat, h: nat, options: PreprocessOptions,
                    canvas: array<Byte>, encode: (seq<Byte>, real) -> string)
    returns (result: Settled)
    requires Resolve(options).maxWidth > 0.0 && Resolve(options).maxHeight > 0.0
    requires var s := Resolve(options);
      var size := ScaledSize(w, h, s.maxWidth, s.maxHeight);
      canvas.Length == 4 * (size.width * size.height)
    modifies canvas
    ensures !hasContext ==> result == Rejected(NoContext)
    ensures hasContext && !loaded ==> result == Rejected(LoadFailed)
    ensures var s := Resolve(options);
      var size := ScaledSize(w, h, s.maxWidth, s.maxHeight);
      hasContext && loaded ==> (result.Pending? <==> EnhanceThrows(s, size))
    ensures !result.Resolved? ==> canvas[..] == old(canvas[..])
    ensures result.Resolved? ==>
      var s := Resolve(options);
      var size := ScaledSize(w, h, s.maxWidth, s.maxHeight);
      var q := StepQuality(s.quality, Reencodings(canvas[..], encode, s.quality, s.targetSizeKB));
      && canvas[..] == (if s.autoEnhance then Enhanced(old(canvas[..]), Multiplier(old(canvas[..]))) else old(canvas[..]))
      && result.image.width == size.width && result.image.height == size.height
      && result.image.base64 == SecondField(encode(canvas[..], q))
      && result.image.sizeKB == EncodedKB(canvas[..], encode, q)
  {
    if !hasContext {
      return Rejected(NoContext);
    }
    if !loaded {
      return Rejected(LoadFailed);
    }
    var s := Resolve(options);
    var size := ScaledSize(w, h, s.maxWidth, s.maxHeight);
    if EnhanceThrows(s, size) {
      return Pending;
    }
    if s.autoEnhance {
      var area := size.width * size.height;
      assert canvas.Length == 4 * area && canvas.Length % 4 == 0;
      ApplyAutoEnhance(canvas);
    }
    var dataUrl, sizeKB, _, _ := Compress(canvas[..], s.quality, s.targetSizeKB, encode);
    result := Resolved(ProcessedImage(SecondField(dataUrl), size.width, size.height, sizeKB));
  }
}
