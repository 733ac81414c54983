/** The image request and its builder. The builder is a record of optional
    fields; every setter returns the builder with one field replaced, and
    `Build` resolves each field to the value set on the builder or, when
    none was set, to its default. Listener, target, transformation and
    resolver objects are opaque values here: only their identity matters. */
module ImageRequest {
  import opened Wrappers

  // ---------------------------------------------------------------------------
  // Values a request carries
  // ---------------------------------------------------------------------------

  /** The data to load (`Any`), or the placeholder object for "no data". */
  datatype RequestData = NullRequestData | Payload(description: string)

  datatype Precision = Exact | Inexact | Automatic
  datatype BitmapConfig = Argb8888 | Alpha8 | Rgb565 | F16 | Gpu
  datatype Scale = Fill | Fit
  datatype CachePolicy = Enabled | ReadOnly | WriteOnly | Disabled

  /** The platform's default size resolver, or one supplied by the caller. */
  datatype SizeResolver = DefaultSizeResolver | CustomSizeResolver(id: nat)

  /** `ScaleResolver(scale)` always answers `scale`; callers may supply their own. */
  datatype ScaleResolver = FixedScale(scale: Scale) | CustomScaleResolver(id: nat)

  /** `MemoryCache.Key` built from a string. */
  datatype MemoryCacheKey = Key(key: string)

  datatype Target = Target(id: nat)
  datatype Listener = Listener(id: nat)
  datatype Transformation = Transformation(cacheKey: string)

  /** HTTP headers: each name maps to its values in insertion order. */
  type Headers = map<string, seq<string>>

  /** Tags keyed by the tag's class, named by its class name. */
  datatype Tag = Tag(id: nat)
  type Tags = map<string, Tag>

  datatype Parameters = Parameters(entries: map<string, string>)

  /** The option-backed defaults a fresh builder starts from. */
  datatype DefaultRequestOptions = DefaultRequestOptions(
    precision: Precision,
    bitmapConfig: BitmapConfig,
    allowHardware: bool,
    diskCachePolicy: CachePolicy,
    memoryCachePolicy: CachePolicy,
    networkCachePolicy: CachePolicy,
    allowRgb565: bool)

  /** The immutable request `Build` produces. */
  datatype ImageRequest = ImageRequest(
    data: RequestData,
    precision: Precision,
    bitmapConfig: BitmapConfig,
    sizeResolver: SizeResolver,
    scaleResolver: ScaleResolver,
    memoryCacheKey: Option<MemoryCacheKey>,
    diskCacheKey: Option<string>,
    target: Option<Target>,
    placeholderMemoryCacheKey: Option<MemoryCacheKey>,
    listener: Option<Listener>,
    transformations: seq<Transformation>,
    allowHardware: bool,
    diskCachePolicy: CachePolicy,
    memoryCachePolicy: CachePolicy,
    networkCachePolicy: CachePolicy,
    allowRgb565: bool,
    scale: Scale,
    premultipliedAlpha: bool,
    headers: Headers,
    tags: Tags,
    parameters: Parameters,
    allowConversionToBitmap: bool)

  // ---------------------------------------------------------------------------
  // Header multimap
  // ---------------------------------------------------------------------------

  /** All values recorded under `name`; none when the name is absent. */
  function Values(h: Headers, name: string): (r: seq<string>)
  {
    if name in h then h[name] else []
  }

  function Append(h: Headers, name: string, value: string): (r: Headers)
  {
    h[name := Values(h, name) + [value]]
  }

  function AppendAll(h: Headers, name: string, values: seq<string>): (r: Headers)
  {
    h[name := Values(h, name) + values]
  }

  /** Copying headers into a fresh headers builder by appending, name by
      name, the whole value list of each: it reproduces the headers it reads. */
  method CopyHeaders(h: Headers) returns (r: Headers)
    ensures r == h
  {
    r := map[];
    var remaining := h.Keys;
    while remaining != {}
      invariant remaining <= h.Keys
      invariant forall n :: n in r <==> n in h && n !in remaining
      invariant forall n :: n in r ==> r[n] == h[n]
      decreases remaining
    {
      var name :| name in remaining;
      r := AppendAll(r, name, h[name]);
      remaining := remaining - {name};
    }
  }

  // ---------------------------------------------------------------------------
  // Builder
  // ---------------------------------------------------------------------------

  datatype Builder = Builder(
    data: Option<RequestData>,
    precision: Option<Precision>,
    bitmapConfig: Option<BitmapConfig>,
    sizeResolver: Option<SizeResolver>,
    scaleResolver: Option<ScaleResolver>,
    memoryCacheKey: Option<MemoryCacheKey>,
    diskCacheKey: Option<string>,
    placeholderMemoryCacheKey: Option<MemoryCacheKey>,
    listener: Option<Listener>,
    options: DefaultRequestOptions,
    target: Option<Target>,
    transformations: seq<Transformation>,
    allowHardware: Option<bool>,
    diskCachePolicy: Option<CachePolicy>,
    memoryCachePolicy: Option<CachePolicy>,
    networkCachePolicy: Option<CachePolicy>,
    allowRgb565: Option<bool>,
    scale: Option<Scale>,
    premultipliedAlpha: bool,
    headers: Option<Headers>,
    tags: Option<Tags>,
    parameters: Option<Parameters>,
    allowConversionToBitmap: bool)

  /** Names of the builder's fields. */
  datatype Field =
    | DataField | PrecisionField | BitmapConfigField | SizeResolverField | ScaleResolverField
    | MemoryCacheKeyField | DiskCacheKeyField | PlaceholderMemoryCacheKeyField | ListenerField
    | OptionsField | TargetField | TransformationsField | AllowHardwareField | DiskCachePolicyField
    | MemoryCachePolicyField | NetworkCachePolicyField | AllowRgb565Field | ScaleField
    | PremultipliedAlphaField | HeadersField | TagsField | ParametersField | AllowConversionToBitmapField

  /** `b` agrees with `a` on every field except possibly `f`. */
  predicate ChangesOnly(a: Builder, b: Builder, f: Field)
  {
    && (f == DataField || a.data == b.data)
    && (f == PrecisionField || a.precision == b.precision)
    && (f == BitmapConfigField || a.bitmapConfig == b.bitmapConfig)
    && (f == SizeResolverField || a.sizeResolver == b.sizeResolver)
    && (f == ScaleResolverField || a.scaleResolver == b.scaleResolver)
    && (f == MemoryCacheKeyField || a.memoryCacheKey == b.memoryCacheKey)
    && (f == DiskCacheKeyField || a.diskCacheKey == b.diskCacheKey)
    && (f == PlaceholderMemoryCacheKeyField || a.placeholderMemoryCacheKey == b.placeholderMemoryCacheKey)
    && (f == ListenerField || a.listener == b.listener)
    && (f == OptionsField || a.options == b.options)
    && (f == TargetField || a.target == b.target)
    && (f == TransformationsField || a.transformations == b.transformations)
    && (f == AllowHardwareField || a.allowHardware == b.allowHardware)
    && (f == DiskCachePolicyField || a.diskCachePolicy == b.diskCachePolicy)
    && (f == MemoryCachePolicyField || a.memoryCachePolicy == b.memoryCachePolicy)
    && (f == NetworkCachePolicyField || a.networkCachePolicy == b.networkCachePolicy)
    && (f == AllowRgb565Field || a.allowRgb565 == b.allowRgb565)
    && (f == ScaleField || a.scale == b.scale)
    && (f == PremultipliedAlphaField || a.premultipliedAlpha == b.premultipliedAlpha)
    && (f == HeadersField || a.headers == b.headers)
    && (f == TagsField || a.tags == b.tags)
    && (f == ParametersField || a.parameters == b.parameters)
    && (f == AllowConversionToBitmapField || a.allowConversionToBitmap == b.allowConversionToBitmap)
  }

  /** A fresh builder: nothing set, no transformations, premultiplied alpha
      and bitmap conversion on. */
  function NewBuilder(options: DefaultRequestOptions): (b: Builder)
    ensures var r := Build(b);
      && r.data == NullRequestData
      && r.precision == options.precision
      && r.bitmapConfig == options.bitmapConfig
      && r.sizeResolver == DefaultSizeResolver
      && r.scaleResolver == FixedScale(Fit)
      && r.memoryCacheKey.None? && r.diskCacheKey.None? && r.target.None?
      && r.placeholderMemoryCacheKey.None? && r.listener.None?
      && r.transformations == []
      && r.allowHardware == options.allowHardware
      && r.diskCachePolicy == options.diskCachePolicy
      && r.memoryCachePolicy == options.memoryCachePolicy
      && r.networkCachePolicy == options.networkCachePolicy
      && r.allowRgb565 == options.allowRgb565
      && r.scale == Fit
      && r.premultipliedAlpha
      && r.headers == map[]
      && r.tags == map[]
      && r.parameters == Parameters(map[])
      && r.allowConversionToBitmap
  {
    Builder(None, None, None, None, None, None, None, None, None, options, None, [],
            None, None, None, None, None, None, true, None, None, None, true)
  }

  /** Resolves every field: the value set on the builder, else its default.
      Nullable fields without a default are carried over as they are. */
  function Build(b: Builder): (r: ImageRequest)
    ensures b.data.Some? ==> r.data == b.data.value
    ensures b.data.None? ==> r.data == NullRequestData
    ensures b.precision.Some? ==> r.precision == b.precision.value
    ensures b.precision.None? ==> r.precision == b.options.precision
    ensures b.bitmapConfig.Some? ==> r.bitmapConfig == b.bitmapConfig.value
    ensures b.bitmapConfig.None? ==> r.bitmapConfig == b.options.bitmapConfig
    ensures b.sizeResolver.Some? ==> r.sizeResolver == b.sizeResolver.value
    ensures b.sizeResolver.None? ==> r.sizeResolver == DefaultSizeResolver
    ensures b.scaleResolver.Some? ==> r.scaleResolver == b.scaleResolver.value
    ensures b.scaleResolver.None? ==> r.scaleResolver == FixedScale(Fit)
    ensures r.memoryCacheKey == b.memoryCacheKey && r.diskCacheKey == b.diskCacheKey
    ensures r.target == b.target && r.listener == b.listener
    ensures r.placeholderMemoryCacheKey == b.placeholderMemoryCacheKey
    ensures r.transformations == b.transformations
    ensures b.allowHardware.Some? ==> r.allowHardware == b.allowHardware.value
    ensures b.allowHardware.None? ==> r.allowHardware == b.options.allowHardware
    ensures b.diskCachePolicy.Some? ==> r.diskCachePolicy == b.diskCachePolicy.value
    ensures b.diskCachePolicy.None? ==> r.diskCachePolicy == b.options.diskCachePolicy
    ensures b.memoryCachePolicy.Some? ==> r.memoryCachePolicy == b.memoryCachePolicy.value
    ensures b.memoryCachePolicy.None? ==> r.memoryCachePolicy == b.options.memoryCachePolicy
    ensures b.networkCachePolicy.Some? ==> r.networkCachePolicy == b.networkCachePolicy.value
    ensures b.networkCachePolicy.None? ==> r.networkCachePolicy == b.options.networkCachePolicy
    ensures b.allowRgb565.Some? ==> r.allowRgb565 == b.allowRgb565.value
    ensures b.allowRgb565.None? ==> r.allowRgb565 == b.options.allowRgb565
    ensures b.scale.Some? ==> r.scale == b.scale.value
    ensures b.scale.None? ==> r.scale == Fit
    ensures r.premultipliedAlpha == b.premultipliedAlpha
    ensures b.headers.Some? ==> r.headers == b.headers.value
    ensures b.headers.None? ==> r.headers == map[]
    ensures b.tags.Some? ==> r.tags == b.tags.value
    ensures b.tags.None? ==> r.tags == map[]
    ensures b.parameters.Some? ==> r.parameters == b.parameters.value
    ensures b.parameters.None? ==> r.parameters == Parameters(map[])
    ensures r.allowConversionToBitmap == b.allowConversionToBitmap
  {
    ImageRequest(
      data := b.data.GetOr(NullRequestData),
      precision := b.precision.GetOr(b.options.precision),
      bitmapConfig := b.bitmapConfig.GetOr(b.options.bitmapConfig),
      sizeResolver := b.sizeResolver.GetOr(DefaultSizeResolver),
      scaleResolver := b.scaleResolver.GetOr(FixedScale(Fit)),
      memoryCacheKey := b.memoryCacheKey,
      diskCacheKey := b.diskCacheKey,
      target := b.target,
      placeholderMemoryCacheKey := b.placeholderMemoryCacheKey,
      listener := b.listener,
      transformations := b.transformations,
      allowHardware := b.allowHardware.GetOr(b.options.allowHardware),
      diskCachePolicy := b.diskCachePolicy.GetOr(b.options.diskCachePolicy),
      memoryCachePolicy := b.memoryCachePolicy.GetOr(b.options.memoryCachePolicy),
      networkCachePolicy := b.networkCachePolicy.GetOr(b.options.networkCachePolicy),
      allowRgb565 := b.allowRgb565.GetOr(b.options.allowRgb565),
      scale := b.scale.GetOr(Fit),
      premultipliedAlpha := b.premultipliedAlpha,
      headers := b.headers.GetOr(map[]),
      tags := b.tags.GetOr(map[]),
      parameters := b.parameters.GetOr(Parameters(map[])),
      allowConversionToBitmap := b.allowConversionToBitmap)
  }

  // ---------------------------------------------------------------------------
  // Copy constructor
  // ---------------------------------------------------------------------------

  /** `Builder(request)` as written: every field of the request is copied
      except `allowConversionToBitmap`, which keeps its initial `true`; the
      options are the fresh defaults. Building it again yields the request
      with bitmap conversion switched back on. */
  function FromRequestAsWritten(r: ImageRequest, options: DefaultRequestOptions): (b: Builder)
    ensures Build(b) == r.(allowConversionToBitmap := true)
  {
    Builder(Some(r.data), Some(r.precision), Some(r.bitmapConfig), Some(r.sizeResolver),
            Some(r.scaleResolver), r.memoryCacheKey, r.diskCacheKey, r.placeholderMemoryCacheKey,
            r.listener, options, r.target, r.transformations, Some(r.allowHardware),
            Some(r.diskCachePolicy), Some(r.memoryCachePolicy), Some(r.networkCachePolicy),
            Some(r.allowRgb565), Some(r.scale), r.premultipliedAlpha, Some(r.headers), Some(r.tags),
            Some(r.parameters), true)
  }

  /** A request built with bitmap conversion off does not survive the
      as-written copy. */
  lemma CopyAsWrittenLosesDisabledConversion(r: ImageRequest, options: DefaultRequestOptions)
    requires !r.allowConversionToBitmap
    ensures Build(FromRequestAsWritten(r, options)) != r
  {
  }

  /** `Builder(request)` as intended: copying `allowConversionToBitmap` too
      makes building the copy give back the request itself. */
  function FromRequest(r: ImageRequest, options: DefaultRequestOptions): (b: Builder)
    ensures Build(b) == r
  {
    FromRequestAsWritten(r, options).(allowConversionToBitmap := r.allowConversionToBitmap)
  }

  // ---------------------------------------------------------------------------
  // Setters
  // ---------------------------------------------------------------------------

  function SetData(b: Builder, data: Option<RequestData>): (r: Builder)
    ensures ChangesOnly(b, r, DataField) && r.data == data
    ensures Build(r).data == (if data.Some? then data.value else NullRequestData)
  {
    b.(data := data)
  }

  function SetPrecision(b: Builder, precision: Precision): (r: Builder)
    ensures ChangesOnly(b, r, PrecisionField) && Build(r).precision == precision
  {
    b.(precision := Some(precision))
  }

  function SetBitmapConfig(b: Builder, bitmapConfig: BitmapConfig): (r: Builder)
    ensures ChangesOnly(b, r, BitmapConfigField) && Build(r).bitmapConfig == bitmapConfig
  {
    b.(bitmapConfig := Some(bitmapConfig))
  }

  function SetSizeResolver(b: Builder, sizeResolver: SizeResolver): (r: Builder)
    ensures ChangesOnly(b, r, SizeResolverField) && Build(r).sizeResolver == sizeResolver
  {
    b.(sizeResolver := Some(sizeResolver))
  }

  function SetScaleResolver(b: Builder, scaleResolver: ScaleResolver): (r: Builder)
    ensures ChangesOnly(b, r, ScaleResolverField) && Build(r).scaleResolver == scaleResolver
  {
    b.(scaleResolver := Some(scaleResolver))
  }

  function SetMemoryCacheKey(b: Builder, key: Option<MemoryCacheKey>): (r: Builder)
    ensures ChangesOnly(b, r, MemoryCacheKeyField) && Build(r).memoryCacheKey == key
  {
    b.(memoryCacheKey := key)
  }

  /** The string overload: a non-null string is wrapped in a key, null stays null. */
  function SetMemoryCacheKeyString(b: Builder, key: Option<string>): (r: Builder)
    ensures ChangesOnly(b, r, MemoryCacheKeyField)
    ensures Build(r).memoryCacheKey.Some? <==> key.Some?
    ensures key.Some? ==> Build(r).memoryCacheKey.value.key == key.value
  {
    SetMemoryCacheKey(b, if key.Some? then Some(Key(key.value)) else None)
  }

  function SetDiskCacheKey(b: Builder, key: Option<string>): (r: Builder)
    ensures ChangesOnly(b, r, DiskCacheKeyField) && Build(r).diskCacheKey == key
  {
    b.(diskCacheKey := key)
  }

  function SetPlaceholderMemoryCacheKey(b: Builder, key: Option<MemoryCacheKey>): (r: Builder)
    ensures ChangesOnly(b, r, PlaceholderMemoryCacheKeyField) && Build(r).placeholderMemoryCacheKey == key
  {
    b.(placeholderMemoryCacheKey := key)
  }

  /** The string overload: a non-null string is wrapped in a key, null stays null. */
  function SetPlaceholderMemoryCacheKeyString(b: Builder, key: Option<string>): (r: Builder)
    ensures ChangesOnly(b, r, PlaceholderMemoryCacheKeyField)
    ensures Build(r).placeholderMemoryCacheKey.Some? <==> key.Some?
    ensures key.Some? ==> Build(r).placeholderMemoryCacheKey.value.key == key.value
  {
    SetPlaceholderMemoryCacheKey(b, if key.Some? then Some(Key(key.value)) else None)
  }

  function SetListener(b: Builder, listener: Option<Listener>): (r: Builder)
    ensures ChangesOnly(b, r, ListenerField) && Build(r).listener == listener
  {
    b.(listener := listener)
  }

  function SetTarget(b: Builder, target: Option<Target>): (r: Builder)
    ensures ChangesOnly(b, r, TargetField) && Build(r).target == target
  {
    b.(target := target)
  }

  function SetTransformations(b: Builder, transformations: seq<Transformation>): (r: Builder)
    ensures ChangesOnly(b, r, TransformationsField) && Build(r).transformations == transformations
  {
    b.(transformations := transformations)
  }

  function SetAllowHardware(b: Builder, enabled: bool): (r: Builder)
    ensures ChangesOnly(b, r, AllowHardwareField) && Build(r).allowHardware == enabled
  {
    b.(allowHardware := Some(enabled))
  }

  function SetMemoryCachePolicy(b: Builder, policy: CachePolicy): (r: Builder)
    ensures ChangesOnly(b, r, MemoryCachePolicyField) && Build(r).memoryCachePolicy == policy
  {
    b.(memoryCachePolicy := Some(policy))
  }

  function SetDiskCachePolicy(b: Builder, policy: CachePolicy): (r: Builder)
    ensures ChangesOnly(b, r, DiskCachePolicyField) && Build(r).diskCachePolicy == policy
  {
    b.(diskCachePolicy := Some(policy))
  }

  function SetNetworkCachePolicy(b: Builder, policy: CachePolicy): (r: Builder)
    ensures ChangesOnly(b, r, NetworkCachePolicyField) && Build(r).networkCachePolicy == policy
  {
    b.(networkCachePolicy := Some(policy))
  }

  function SetAllowRgb565(b: Builder, allowed: bool): (r: Builder)
    ensures ChangesOnly(b, r, AllowRgb565Field) && Build(r).allowRgb565 == allowed
  {
    b.(allowRgb565 := Some(allowed))
  }

  /** `scale` has no setter function; this is the assignment to the public property. */
  function SetScale(b: Builder, scale: Scale): (r: Builder)
    ensures ChangesOnly(b, r, ScaleField) && Build(r).scale == scale
  {
    b.(scale := Some(scale))
  }

  function SetPremultipliedAlpha(b: Builder, enabled: bool): (r: Builder)
    ensures ChangesOnly(b, r, PremultipliedAlphaField) && Build(r).premultipliedAlpha == enabled
  {
    b.(premultipliedAlpha := enabled)
  }

  /** Replaces all headers by a copy of `headers` (see CopyHeaders). */
  function SetHeaders(b: Builder, headers: Headers): (r: Builder)
    ensures ChangesOnly(b, r, HeadersField) && Build(r).headers == headers
  {
    b.(headers := Some(headers))
  }

  /** Appends a value under `name`, creating the header map if there is none. */
  function AddHeader(b: Builder, name: string, value: string): (r: Builder)
    ensures ChangesOnly(b, r, HeadersField) && r.headers.Some?
    ensures Values(r.headers.value, name) == Values(b.headers.GetOr(map[]), name) + [value]
    ensures r.headers.value - {name} == b.headers.GetOr(map[]) - {name}
  {
    b.(headers := Some(Append(b.headers.GetOr(map[]), name, value)))
  }

  /** Replaces every value under `name` by `value`, creating the header map if there is none. */
  function SetHeader(b: Builder, name: string, value: string): (r: Builder)
    ensures ChangesOnly(b, r, HeadersField) && r.headers.Some?
    ensures Values(r.headers.value, name) == [value]
    ensures r.headers.value - {name} == b.headers.GetOr(map[]) - {name}
  {
    b.(headers := Some(b.headers.GetOr(map[])[name := [value]]))
  }

  /** Drops every value under `name`; without a header map nothing happens. */
  function RemoveHeader(b: Builder, name: string): (r: Builder)
    ensures ChangesOnly(b, r, HeadersField)
    ensures b.headers.None? ==> r == b
    ensures b.headers.Some? ==> r.headers.Some? && name !in r.headers.value
                                && r.headers.value - {name} == b.headers.value - {name}
  {
    if b.headers.Some? then b.(headers := Some(b.headers.value - {name})) else b
  }

  /** Setting a header is removing it and then adding the one value. */
  lemma SetHeaderIsRemoveThenAdd(b: Builder, name: string, value: string)
    ensures SetHeader(b, name, value) == AddHeader(RemoveHeader(b, name), name, value)
  {
    var viaSet := SetHeader(b, name, value).headers.value;
    var add := AddHeader(RemoveHeader(b, name), name, value).headers.value;
    assert viaSet.Keys == add.Keys;
    assert forall n :: n in viaSet ==> viaSet[n] == add[n];
    assert viaSet == add;
  }

  /** A non-null tag is stored under its class, creating the tag map if
      needed; a null tag removes the class's entry, if there is a map. */
  function SetTag(b: Builder, tagType: string, tag: Option<Tag>): (r: Builder)
    ensures ChangesOnly(b, r, TagsField)
    ensures tag.None? && b.tags.None? ==> r == b
    ensures tag.None? && b.tags.Some? ==> r.tags.Some? && tagType !in r.tags.value
    ensures tag.Some? ==> r.tags.Some? && tagType in r.tags.value && r.tags.value[tagType] == tag.value
    ensures r.tags.Some? ==> r.tags.value - {tagType} == b.tags.GetOr(map[]) - {tagType}
  {
    match tag
    case None => if b.tags.Some? then b.(tags := Some(b.tags.value - {tagType})) else b
    case Some(t) => b.(tags := Some(b.tags.GetOr(map[])[tagType := t]))
  }

  /** Replaces all tags by a copy of `tags`. */
  function SetTags(b: Builder, tags: Tags): (r: Builder)
    ensures ChangesOnly(b, r, TagsField) && Build(r).tags == tags
  {
    b.(tags := Some(tags))
  }

  /** Building after a tag is set and then cleared for the same class leaves
      no tag for that class and every other tag as it was. */
  lemma TagThenClear(b: Builder, tagType: string, tag: Tag)
    ensures var r := Build(SetTag(SetTag(b, tagType, Some(tag)), tagType, None));
      tagType !in r.tags && r.tags == b.tags.GetOr(map[]) - {tagType}
  {
  }

  /** `allowConversionToBitmap(enable)` as written: the argument is ignored
      and the flag is set to true. */
  function AllowConversionToBitmapAsWritten(b: Builder, enable: bool): (r: Builder)
    ensures ChangesOnly(b, r, AllowConversionToBitmapField) && Build(r).allowConversionToBitmap
  {
    b.(allowConversionToBitmap := true)
  }

  /** Asking to disable bitmap conversion through the as-written setter
      leaves it enabled. */
  lemma AllowConversionToBitmapAsWrittenIgnoresDisable(b: Builder)
    ensures Build(AllowConversionToBitmapAsWritten(b, false)).allowConversionToBitmap != false
  {
  }

  /** `allowConversionToBitmap(enable)` as intended: the flag follows the argument. */
  function AllowConversionToBitmap(b: Builder, enable: bool): (r: Builder)
    ensures ChangesOnly(b, r, AllowConversionToBitmapField) && Build(r).allowConversionToBitmap == enable
  {
    b.(allowConversionToBitmap := enable)
  }
}
