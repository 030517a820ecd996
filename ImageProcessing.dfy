/** `utils/image_processing.py`: the expiring result cache, the availability
    probe of the image library, `configure_pyvips` and `resize_image_with_vips`.
    The image library is a `Codec` value whose operations either succeed or fail
    with the text of the exception they raise; what they do to pixels is not
    modelled, only the shape (width, height, bands) of the image they produce. */
module ImageProcessing {
  import opened Outcomes
  import opened Errors
  import opened Config
  import Text

  /** `TTLCache(maxsize=100, ttl=3600)`. */
  const CacheCapacity: nat := 100
  const CacheTtl: int := 3600

  const EmptyImageData := "Empty image data provided."
  const VipsUnavailablePrefix := "pyvips is not available. Error: "
  const ConfigureFailedPrefix := "Failed to configure image processing: "
  const ProcessingFailedPrefix := "Image processing failed: "
  const InvalidDimensions := "Invalid image dimensions"
  /** `str(ZeroDivisionError)` for a true division by the integer zero. */
  const DivisionByZero := "division by zero"
  /** The library refuses a scale factor outside (0, ∞). */
  const ScaleOutOfRange := "resize: parameter scale out of range"

  // ---------------------------------------------------------------------------
  // The cache

  /** A cached value and the clock reading when it was stored. */
  datatype Entry = Entry(value: Bytes, storedAt: int)

  /** `cachetools.TTLCache`: at most `capacity` entries, each readable for `ttl`
      seconds after it was written. The clock is an explicit parameter. */
  class TtlCache {
    const capacity: nat
    const ttl: int
    var entries: map<string, Entry>

    ghost predicate Valid()
      reads this
    {
      0 < capacity && |entries| <= capacity
    }

    constructor (capacity: nat, ttl: int)
      requires capacity > 0
      ensures Valid()
      ensures this.capacity == capacity && this.ttl == ttl && entries == map[]
    {
      this.capacity := capacity;
      this.ttl := ttl;
      entries := map[];
    }

    /** `key in cache` at time `now`: present and not yet expired. */
    predicate Live(key: string, now: int)
      reads this
    {
      key in entries && now < entries[key].storedAt + ttl
    }

    /** The keys `key in cache` accepts at time `now`. */
    function LiveKeys(now: int): (r: set<string>)
      reads this
      ensures forall k :: k in r <==> Live(k, now)
    {
      LiveOf(entries, ttl, now).Keys
    }

    /** `cache[key]` guarded by `key in cache`: the stored value while it is live. */
    function Get(key: string, now: int): (r: Option<Bytes>)
      reads this
      ensures r.Some? <==> Live(key, now)
      ensures r.Some? ==> r.value == entries[key].value
    {
      if Live(key, now) then Some(entries[key].value) else None
    }

    /** `cache[key] = value` at time `now`: expired entries are dropped first; when
        the key is new and the cache is still full, one other entry is evicted. */
    method Set(key: string, value: Bytes, now: int)
      requires Valid()
      modifies this
      ensures Valid()
      ensures key in entries && entries[key] == Entry(value, now)
      ensures forall k :: k in entries && k != key ==> k in old(LiveKeys(now)) && entries[k] == old(entries[k])
      ensures key in old(LiveKeys(now)) || |old(LiveKeys(now))| < capacity ==>
                entries.Keys == old(LiveKeys(now)) + {key}
      ensures key !in old(LiveKeys(now)) && |old(LiveKeys(now))| >= capacity ==>
                |entries| == capacity &&
                exists v :: v in old(LiveKeys(now)) && entries.Keys == old(LiveKeys(now)) - {v} + {key}
    {
      var live := LiveOf(entries, ttl, now);
      if key in live || |live| < capacity {
        entries := live[key := Entry(value, now)];
      } else {
        var victim :| victim in live;
        entries := (live - {victim})[key := Entry(value, now)];
        assert entries.Keys == live.Keys - {victim} + {key};
        assert |live.Keys - {victim}| == |live.Keys| - 1;
      }
    }
  }

  /** The entries of `entries` that are still live at time `now`. */
  function LiveOf(entries: map<string, Entry>, ttl: int, now: int): (r: map<string, Entry>)
    ensures forall k :: k in r <==> k in entries && now < entries[k].storedAt + ttl
    ensures forall k :: k in r ==> r[k] == entries[k]
    ensures |r| <= |entries|
  {
    var r := map k | k in entries && now < entries[k].storedAt + ttl :: entries[k];
    SubsetCardinality(r.Keys, entries.Keys);
    r
  }

  lemma {:induction false} SubsetCardinality<T>(a: set<T>, b: set<T>)
    requires a <= b
    ensures |a| <= |b|
    decreases b
  {
    if a != {} {
      var x :| x in a;
      SubsetCardinality(a - {x}, b - {x});
    }
  }

  // ---------------------------------------------------------------------------
  // Images and the codec

  /** The shape of a decoded image; sizes are exact rationals so that scaling is exact. */
  datatype Image = Image(width: real, height: real, bands: int)

  /** The image library's operations, each failing with the text of what it raised. */
  datatype Codec = Codec(
    /** `pyvips.cache_set_max(n)`: `Some(cause)` when it raises. */
    cacheSetMax: int -> Option<string>,
    /** `pyvips.Image.new_from_buffer(bytes, "")`. */
    decode: Bytes -> Result<Image, string>,
    /** Compositing a 4-band image over a white background. */
    compositeFault: Image -> Option<string>,
    /** `image.colourspace('srgb')` on a 1-band image. */
    colourspaceFault: Image -> Option<string>,
    /** `image.resize(scale, kernel='lanczos3')` for a positive scale. */
    resizeFault: (Image, real) -> Option<string>,
    /** `image.write_to_buffer(".jpg[Q=85,optimize=true,interlace=true]")`. */
    encode: Image -> Result<Bytes, string>)

  function Max(a: real, b: real): real {
    if a >= b then a else b
  }

  /** The bands the pipeline accepts: grey, RGB, RGBA. */
  predicate SupportedBands(bands: int) {
    bands == 1 || bands == 3 || bands == 4
  }

  /** The validation of a decoded image: the cause it raises, if any. */
  function ValidationError(image: Image): (r: Option<string>)
    ensures r.None? <==> image.width > 0.0 && image.height > 0.0 && SupportedBands(image.bands)
  {
    if image.width <= 0.0 || image.height <= 0.0 then Some(InvalidDimensions)
    else if !SupportedBands(image.bands) then
      Some("Unsupported image format with " + Text.IntToString(image.bands) + " bands")
    else None
  }

  /** Conversion to three bands: 4 bands are composited over white, 1 band becomes
      sRGB, 3 bands are left alone. The size never changes. */
  function NormalizeBands(image: Image, codec: Codec): (r: Result<Image, string>)
    ensures r.Ok? ==> r.value.width == image.width && r.value.height == image.height
    ensures r.Ok? && SupportedBands(image.bands) ==> r.value.bands == 3
    ensures image.bands == 3 ==> r == Ok(image)
    ensures r.Err? ==> image.bands == 4 || image.bands == 1
  {
    if image.bands == 4 then
      match codec.compositeFault(image)
      case Some(cause) => Err(cause)
      case None => Ok(Image(image.width, image.height, 3))
    else if image.bands == 1 then
      match codec.colourspaceFault(image)
      case Some(cause) => Err(cause)
      case None => Ok(Image(image.width, image.height, 3))
    else Ok(image)
  }

  /** `image.resize(scale)`: both sides scaled exactly, bands kept. */
  function Resize(image: Image, scale: real, codec: Codec): (r: Result<Image, string>)
    ensures r.Ok? ==> scale > 0.0 && r.value == Image(image.width * scale, image.height * scale, image.bands)
    ensures scale <= 0.0 ==> r == Err(ScaleOutOfRange)
  {
    if scale <= 0.0 then Err(ScaleOutOfRange)
    else
      match codec.resizeFault(image, scale)
      case Some(cause) => Err(cause)
      case None => Ok(Image(image.width * scale, image.height * scale, image.bands))
  }

  /** Whether the high-risk step fires: either side above the threshold. */
  predicate HighRisk(image: Image, threshold: int) {
    image.width > threshold as real || image.height > threshold as real
  }

  /** The high-risk step: scale by `1 / (original_size / threshold)`. */
  function HighRiskDownsample(image: Image, threshold: int, codec: Codec): Result<Image, string>
    requires image.width > 0.0 && image.height > 0.0
  {
    if !HighRisk(image, threshold) then Ok(image)
    else if threshold == 0 then Err(DivisionByZero)
    else
      var factor := Max(image.width, image.height) / threshold as real;
      Resize(image, 1.0 / factor, codec)
  }

  /** The standard step: when the larger side exceeds the limit, scale by `limit / current_max`. */
  function StandardDownsample(image: Image, maxDimension: int, codec: Codec): Result<Image, string>
    requires image.width > 0.0 && image.height > 0.0
  {
    var currentMax := Max(image.width, image.height);
    if currentMax > maxDimension as real then Resize(image, maxDimension as real / currentMax, codec)
    else Ok(image)
  }

  /** The two resize steps in order. */
  function Downsample(image: Image, settings: Settings, codec: Codec): Result<Image, string>
    requires image.width > 0.0 && image.height > 0.0
  {
    var first :- HighRiskDownsample(image, settings.highRiskDimensionThreshold, codec);
    assert first.width > 0.0 && first.height > 0.0 by {
      HighRiskKeepsPositive(image, settings.highRiskDimensionThreshold, codec);
    }
    StandardDownsample(first, settings.maxImageDimension, codec)
  }

  lemma HighRiskKeepsPositive(image: Image, threshold: int, codec: Codec)
    requires image.width > 0.0 && image.height > 0.0
    ensures var r := HighRiskDownsample(image, threshold, codec);
            r.Ok? ==> r.value.width > 0.0 && r.value.height > 0.0 && r.value.bands == image.bands
  {
  }

  /** The body of the `try` in `resize_image_with_vips`: decode, validate,
      normalise bands, resize twice, encode; the cause of the first failure. */
  function ProcessSteps(imageBytes: Bytes, settings: Settings, codec: Codec): Result<Bytes, string> {
    var image :- codec.decode(imageBytes);
    match ValidationError(image)
    case Some(cause) => Err(cause)
    case None =>
      var rgb :- NormalizeBands(image, codec);
      var small :- Downsample(rgb, settings, codec);
      codec.encode(small)
  }

  /** Every failure inside the `try` is re-raised as "Image processing failed: …". */
  function Process(imageBytes: Bytes, settings: Settings, codec: Codec): (r: Result<Bytes, Error>)
    ensures r.Err? ==> r.error.ImageProcessingError? &&
                       |ProcessingFailedPrefix| <= |r.error.message| &&
                       r.error.message[..|ProcessingFailedPrefix|] == ProcessingFailedPrefix
  {
    match ProcessSteps(imageBytes, settings, codec)
    case Ok(out) => Ok(out)
    case Err(cause) => Err(ImageProcessingError(ProcessingFailedPrefix + cause))
  }

  /** What `resize_image_with_vips` returns, given whether the library loaded, its
      load error, and what the cache holds for the input's digest. */
  function ResizeOutcome(imageBytes: Bytes, vipsAvailable: bool, vipsError: string,
                         cached: Option<Bytes>, settings: Settings, codec: Codec): Result<Bytes, Error>
  {
    if imageBytes == [] then Err(ImageProcessingError(EmptyImageData))
    else if !vipsAvailable then Err(ImageProcessingError(VipsUnavailablePrefix + vipsError))
    else if cached.Some? then Ok(cached.value)
    else Process(imageBytes, settings, codec)
  }

  // ---------------------------------------------------------------------------
  // Properties of the pipeline

  /** The high-risk step fires exactly when a side exceeds the threshold, and then
      scales by exactly `threshold / original_size`. */
  lemma HighRiskScale(image: Image, threshold: int, codec: Codec)
    requires image.width > 0.0 && image.height > 0.0
    ensures var r := HighRiskDownsample(image, threshold, codec);
      && (!HighRisk(image, threshold) ==> r == Ok(image))
      && (HighRisk(image, threshold) && threshold != 0 ==>
            r == Resize(image, threshold as real / Max(image.width, image.height), codec))
      && (HighRisk(image, threshold) && threshold == 0 ==> r == Err(DivisionByZero))
  {
    if HighRisk(image, threshold) && threshold != 0 {
      var t := threshold as real;
      var m := Max(image.width, image.height);
      assert 1.0 / (m / t) == t / m;
    }
  }

  /** When the high-risk step fires and succeeds, the larger side becomes exactly
      the threshold and the aspect ratio is kept. */
  lemma HighRiskClamp(image: Image, threshold: int, codec: Codec)
    requires image.width > 0.0 && image.height > 0.0
    ensures var r := HighRiskDownsample(image, threshold, codec);
      r.Ok? ==>
        SameAspect(image, r.value) &&
        (HighRisk(image, threshold) ==> Max(r.value.width, r.value.height) == threshold as real)
  {
    var r := HighRiskDownsample(image, threshold, codec);
    HighRiskScale(image, threshold, codec);
    if r.Ok? && HighRisk(image, threshold) {
      var t := threshold as real;
      var m := Max(image.width, image.height);
      assert r == Resize(image, t / m, codec);
      ScaleMax(image, t / m);
      assert (t / m) * m == t;
    }
  }

  /** Scaling both sides by a positive factor scales the larger side by it and
      keeps the aspect ratio. */
  lemma ScaleMax(image: Image, scale: real)
    requires scale > 0.0
    ensures Max(image.width * scale, image.height * scale) == Max(image.width, image.height) * scale
    ensures SameAspect(image, Image(image.width * scale, image.height * scale, image.bands))
  {
    if image.width >= image.height {
      assert image.width * scale >= image.height * scale;
    } else {
      assert image.width * scale < image.height * scale;
    }
  }

  /** The standard step fires exactly when the larger side exceeds the limit, and
      then brings it to exactly the limit, keeping the aspect ratio. */
  lemma StandardClamp(image: Image, maxDimension: int, codec: Codec)
    requires image.width > 0.0 && image.height > 0.0
    ensures var r := StandardDownsample(image, maxDimension, codec); var m := Max(image.width, image.height);
      && (m <= maxDimension as real ==> r == Ok(image))
      && (r.Ok? ==> SameAspect(image, r.value) && r.value.bands == image.bands)
      && (r.Ok? && m > maxDimension as real ==> Max(r.value.width, r.value.height) == maxDimension as real)
  {
    var m := Max(image.width, image.height);
    var r := StandardDownsample(image, maxDimension, codec);
    if r.Ok? && m > maxDimension as real {
      var scale := maxDimension as real / m;
      ScaleMax(image, scale);
      assert scale * m == maxDimension as real;
    }
  }

  /** After both steps the larger side is at most the threshold and at most the
      limit, never larger than before, and the bands are kept. */
  lemma DownsampleBounds(image: Image, settings: Settings, codec: Codec)
    requires image.width > 0.0 && image.height > 0.0
    requires settings.highRiskDimensionThreshold > 0 && settings.maxImageDimension > 0
    ensures var r := Downsample(image, settings, codec);
      r.Ok? ==>
        var m := Max(r.value.width, r.value.height);
        && m <= settings.highRiskDimensionThreshold as real
        && m <= settings.maxImageDimension as real
        && m <= Max(image.width, image.height)
        && r.value.bands == image.bands
  {
    var t := settings.highRiskDimensionThreshold;
    var first := HighRiskDownsample(image, t, codec);
    HighRiskKeepsPositive(image, t, codec);
    if first.Ok? {
      var f := first.value;
      assert Max(f.width, f.height) <= t as real && Max(f.width, f.height) <= Max(image.width, image.height) by {
        HighRiskScale(image, t, codec);
        HighRiskClamp(image, t, codec);
      }
      StandardClamp(f, settings.maxImageDimension, codec);
    }
  }

  /** Both steps together keep the aspect ratio. */
  lemma DownsampleKeepsAspect(image: Image, settings: Settings, codec: Codec)
    requires image.width > 0.0 && image.height > 0.0
    ensures var r := Downsample(image, settings, codec);
      r.Ok? ==> SameAspect(image, r.value)
  {
    var t := settings.highRiskDimensionThreshold;
    var first := HighRiskDownsample(image, t, codec);
    HighRiskKeepsPositive(image, t, codec);
    if first.Ok? {
      var f := first.value;
      var r := StandardDownsample(f, settings.maxImageDimension, codec);
      assert Downsample(image, settings, codec) == r;
      if r.Ok? {
        assert SameAspect(image, f) by {
          HighRiskClamp(image, t, codec);
        }
        assert SameAspect(f, r.value) by {
          StandardClamp(f, settings.maxImageDimension, codec);
        }
        AspectTransitive(image, f, r.value);
      }
    }
  }

  /** `b` has the width-to-height ratio of `a`. */
  predicate SameAspect(a: Image, b: Image) {
    b.width * a.height == a.width * b.height
  }

  /** Keeping the aspect ratio twice keeps it once. */
  lemma AspectTransitive(a: Image, b: Image, c: Image)
    requires a.width > 0.0 && a.height > 0.0 && b.width > 0.0 && b.height > 0.0
    requires SameAspect(a, b) && SameAspect(b, c)
    ensures SameAspect(a, c)
  {
    calc {
      c.width * a.height * b.height;
      == b.width * c.height * a.height;
      == a.width * b.height * c.height;
    }
  }

  /** An image within both limits is never resized. */
  lemma WithinLimitsUnchanged(image: Image, settings: Settings, codec: Codec)
    requires image.width > 0.0 && image.height > 0.0
    requires Max(image.width, image.height) <= settings.highRiskDimensionThreshold as real
    requires Max(image.width, image.height) <= settings.maxImageDimension as real
    ensures Downsample(image, settings, codec) == Ok(image)
  {
  }

  /** Both steps can fire on one image: with threshold 2000 and limit 1024 a
      4000×3000 image is first halved and then brought to 1024×768. */
  lemma BothStepsFire(settings: Settings, codec: Codec)
    requires settings.highRiskDimensionThreshold == 2000 && settings.maxImageDimension == 1024
    requires codec.resizeFault(Image(4000.0, 3000.0, 3), 0.5) == None
    requires codec.resizeFault(Image(2000.0, 1500.0, 3), 1024.0 / 2000.0) == None
    ensures Downsample(Image(4000.0, 3000.0, 3), settings, codec) == Ok(Image(1024.0, 768.0, 3))
  {
    var image := Image(4000.0, 3000.0, 3);
    assert 1.0 / (4000.0 / 2000.0) == 0.5;
    assert HighRiskDownsample(image, 2000, codec) == Ok(Image(2000.0, 1500.0, 3));
  }

  /** Decoded images with a non-positive side or an unsupported band count are
      rejected, and the caller sees the rejection wrapped like any other failure. */
  lemma InvalidImagesRejected(imageBytes: Bytes, settings: Settings, codec: Codec)
    requires codec.decode(imageBytes).Ok?
    ensures var image := codec.decode(imageBytes).value;
      && (image.width <= 0.0 || image.height <= 0.0 ==>
            Process(imageBytes, settings, codec) ==
            Err(ImageProcessingError(ProcessingFailedPrefix + InvalidDimensions)))
      && (image.width > 0.0 && image.height > 0.0 && !SupportedBands(image.bands) ==>
            Process(imageBytes, settings, codec) ==
            Err(ImageProcessingError(ProcessingFailedPrefix +
                                     ("Unsupported image format with " + Text.IntToString(image.bands) + " bands"))))
  {
  }

  /** The checks run in order: empty input fails first whatever the library and the
      cache; a missing library fails next without consulting the cache; only then
      does a cached value win; a miss runs the pipeline. */
  lemma ResizeOutcomeOrder(imageBytes: Bytes, vipsAvailable: bool, vipsError: string,
                           cached: Option<Bytes>, other: Option<Bytes>, settings: Settings, codec: Codec)
    ensures var r := ResizeOutcome(imageBytes, vipsAvailable, vipsError, cached, settings, codec);
      && (imageBytes == [] ==> r == Err(ImageProcessingError(EmptyImageData)))
      && (imageBytes != [] && !vipsAvailable ==>
            r == Err(ImageProcessingError(VipsUnavailablePrefix + vipsError)))
      && (imageBytes == [] || !vipsAvailable ==>
            r == ResizeOutcome(imageBytes, vipsAvailable, vipsError, other, settings, codec))
      && (imageBytes != [] && vipsAvailable && cached.Some? ==> r == Ok(cached.value))
      && (imageBytes != [] && vipsAvailable && cached.None? ==> r == Process(imageBytes, settings, codec))
      && (r.Err? ==> r.error.ImageProcessingError?)
  {
  }

  // ---------------------------------------------------------------------------
  // The module state and its two operations

  /** The module's state: the import probe (`VIPS_AVAILABLE`, `VIPS_ERROR`), the
      library, the module-level `cache`, and the library's configured cache size. */
  class ImageProcessor {
    const vipsAvailable: bool
    const vipsError: string
    const codec: Codec
    const cache: TtlCache
    /** The last value passed to `pyvips.cache_set_max` that took effect. */
    var cacheMax: Option<int>
    /** How many times the library was asked to decode an input. */
    ghost var decodes: nat

    constructor (vipsAvailable: bool, vipsError: string, codec: Codec)
      ensures this.vipsAvailable == vipsAvailable && this.vipsError == vipsError && this.codec == codec
      ensures fresh(cache) && cache.Valid() && cache.capacity == CacheCapacity && cache.ttl == CacheTtl
      ensures cache.entries == map[] && cacheMax == None && decodes == 0
    {
      this.vipsAvailable := vipsAvailable;
      this.vipsError := vipsError;
      this.codec := codec;
      cache := new TtlCache(CacheCapacity, CacheTtl);
      cacheMax := None;
      decodes := 0;
    }

    /** `configure_pyvips(settings)`: without the library it does nothing; otherwise
        it sets the library's cache size or fails with ImageProcessingError. */
    method ConfigurePyvips(settings: Settings) returns (r: Result<(), Error>)
      modifies this
      ensures decodes == old(decodes)
      ensures !vipsAvailable ==> r == Ok(()) && cacheMax == old(cacheMax)
      ensures vipsAvailable ==>
        match codec.cacheSetMax(settings.vipsCacheMax)
        case Some(cause) => r == Err(ImageProcessingError(ConfigureFailedPrefix + cause)) && cacheMax == old(cacheMax)
        case None => r == Ok(()) && cacheMax == Some(settings.vipsCacheMax)
    {
      if !vipsAvailable {
        return Ok(());
      }
      var fault := codec.cacheSetMax(settings.vipsCacheMax);
      if fault.Some? {
        return Err(ImageProcessingError(ConfigureFailedPrefix + fault.value));
      }
      cacheMax := Some(settings.vipsCacheMax);
      r := Ok(());
    }

    /** `resize_image_with_vips(image_bytes, settings)` at time `now`, with `digest`
        standing for `hashlib.sha256(...).hexdigest()`. The result is `ResizeOutcome`
        of the cache's content for the digest; the library decodes only on a miss;
        the cache changes only when a processed image is returned, and then holds it
        under the digest. */
    method ResizeImageWithVips(imageBytes: Bytes, settings: Settings, digest: Bytes -> string, now: int)
      returns (r: Result<Bytes, Error>)
      requires cache.Valid()
      modifies this, cache
      ensures cache.Valid()
      ensures r == ResizeOutcome(imageBytes, vipsAvailable, vipsError,
                                 old(cache.Get(digest(imageBytes), now)), settings, codec)
      ensures decodes == old(decodes) + (if imageBytes != [] && vipsAvailable && old(cache.Get(digest(imageBytes), now)).None? then 1 else 0)
      ensures cacheMax == old(cacheMax)
      ensures r.Err? || old(cache.Get(digest(imageBytes), now)).Some? ==> unchanged(cache)
      ensures r.Ok? && old(cache.Get(digest(imageBytes), now)).None? ==>
        digest(imageBytes) in cache.entries && cache.entries[digest(imageBytes)] == Entry(r.value, now) &&
        forall k :: k in cache.entries && k != digest(imageBytes) ==>
          k in old(cache.LiveKeys(now)) && cache.entries[k] == old(cache.entries[k])
      ensures r.Ok? && old(cache.Get(digest(imageBytes), now)).None? &&
              |old(cache.LiveKeys(now))| < cache.capacity ==>
        cache.entries.Keys == old(cache.LiveKeys(now)) + {digest(imageBytes)}
      ensures r.Ok? && old(cache.Get(digest(imageBytes), now)).None? &&
              |old(cache.LiveKeys(now))| >= cache.capacity ==>
        |cache.entries| == cache.capacity &&
        exists v :: v in old(cache.LiveKeys(now)) &&
                    cache.entries.Keys == old(cache.LiveKeys(now)) - {v} + {digest(imageBytes)}
    {
      if imageBytes == [] {
        return Err(ImageProcessingError(EmptyImageData));
      }
      if !vipsAvailable {
        return Err(ImageProcessingError(VipsUnavailablePrefix + vipsError));
      }
      var imageHash := digest(imageBytes);
      var hit := cache.Get(imageHash, now);
      if hit.Some? {
        return Ok(hit.value);
      }
      decodes := decodes + 1;
      assert ResizeOutcome(imageBytes, vipsAvailable, vipsError, hit, settings, codec) == Process(imageBytes, settings, codec);
      var decoded := codec.decode(imageBytes);
      if decoded.Err? {
        return Err(ImageProcessingError(ProcessingFailedPrefix + decoded.error));
      }
      var image := decoded.value;
      var invalid := ValidationError(image);
      if invalid.Some? {
        return Err(ImageProcessingError(ProcessingFailedPrefix + invalid.value));
      }
      var step := NormalizeBands(image, codec);
      if step.Err? {
        return Err(ImageProcessingError(ProcessingFailedPrefix + step.error));
      }
      image := step.value;
      ghost var rgb := image;
      assert ProcessSteps(imageBytes, settings, codec) ==
             (var small :- Downsample(rgb, settings, codec); codec.encode(small));
      var originalSize := Max(image.width, image.height);
      var threshold := settings.highRiskDimensionThreshold;
      if image.width > threshold as real || image.height > threshold as real {
        if threshold == 0 {
          assert Downsample(rgb, settings, codec) == Err(DivisionByZero);
          return Err(ImageProcessingError(ProcessingFailedPrefix + DivisionByZero));
        }
        var downsampleFactor := originalSize / threshold as real;
        var resized := Resize(image, 1.0 / downsampleFactor, codec);
        if resized.Err? {
          assert Downsample(rgb, settings, codec) == Err(resized.error);
          return Err(ImageProcessingError(ProcessingFailedPrefix + resized.error));
        }
        image := resized.value;
      }
      assert HighRiskDownsample(rgb, threshold, codec) == Ok(image);
      var currentMax := Max(image.width, image.height);
      if currentMax > settings.maxImageDimension as real {
        var scale := settings.maxImageDimension as real / currentMax;
        var resized := Resize(image, scale, codec);
        if resized.Err? {
          assert Downsample(rgb, settings, codec) == Err(resized.error);
          return Err(ImageProcessingError(ProcessingFailedPrefix + resized.error));
        }
        image := resized.value;
      }
      assert Downsample(rgb, settings, codec) == Ok(image);
      var encoded := codec.encode(image);
      if encoded.Err? {
        return Err(ImageProcessingError(ProcessingFailedPrefix + encoded.error));
      }
      cache.Set(imageHash, encoded.value, now);
      r := Ok(encoded.value);
    }
  }
}
