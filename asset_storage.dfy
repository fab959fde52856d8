/**
 * Cache-or-fetch for glyphs and sprites (lib/assetStorage.js). A hit is
 * served from the asset cache; anything else (a miss or a cache error)
 * looks up the owning layer, builds the origin URL from the layer's
 * upstream template, fetches, stores and serves the fetched bytes.
 */
module AssetStorage {
  import opened Js
  import opened Files
  import opened Conf
  import opened AssetCache
  import opened LayerSchema

  /** The asset cache is built with a directory only: no path option, no
      freshness window and no refresh window. */
  const AssetOptions := Options(Some(AssetsDataPath), NoPath, None, None)

  /** What the awaiting request handler receives. `Pending` covers both ways
      no bytes come back: an error thrown inside the cache callback (a failed
      lookup or fetch, a missing template) rejects a promise nobody awaits, so
      the handler's promise never settles; and `get` throwing synchronously
      inside the promise executor (no cache path) rejects the handler's
      promise, which the web framework does not catch either. */
  datatype AssetResponse = Served(data: seq<byte>) | Pending

  /** `layerService.getLayer`: the stored layer record for a name; None when
      the query fails or finds nothing. */
  type LayerLookup = Option<string> -> Option<Json>

  /** An HTTP GET to the origin; None when the request fails. */
  type Origin = string -> Option<seq<byte>>

  /** `layer.meta[key]`; throws when the layer or its meta is missing. */
  function MetaProp(layer: Option<Json>, key: string): Result<Option<Json>>
  {
    match Prop(layer, "meta")
    case Err(e) => Err(e)
    case Ok(meta) => Prop(meta, key)
  }

  /** The glyph template with the first `{layer}`, `{fontstack}` and
      `{range}` replaced, in that order. */
  function FillGlyphsTemplate(template: string, p: Params): string
  {
    var withLayer := ReplaceFirst(template, "{layer}", ParamString(p.layer));
    var withFontstack := ReplaceFirst(withLayer, "{fontstack}", ParamString(p.fontstack));
    ReplaceFirst(withFontstack, "{range}", ParamString(p.range))
  }

  /** The glyph URL: the filled `meta.glyphsSource`. None when building it
      throws: no layer, no meta, or a glyphsSource that is not a string. */
  function GlyphsUrl(layer: Option<Json>, p: Params): (url: Option<string>)
    ensures url.Some? <==> && MetaProp(layer, "glyphsSource").Ok?
                           && MetaProp(layer, "glyphsSource").value.Some?
                           && MetaProp(layer, "glyphsSource").value.value.JStr?
    ensures url.Some? && '{' !in MetaProp(layer, "glyphsSource").value.value.s ==>
              url.value == MetaProp(layer, "glyphsSource").value.value.s
  {
    match MetaProp(layer, "glyphsSource")
    case Ok(Some(JStr(template))) => Some(FillGlyphsTemplate(template, p))
    case _ => None
  }

  /** The sprite URL: `meta.spriteSource + filename` under JavaScript's `+`.
      With a filename the result is a concatenation whatever the source is;
      without one, a source that is not a string, array or object yields NaN,
      which is no URL. */
  function SpriteUrl(layer: Option<Json>, p: Params): (url: Option<string>)
    ensures url.Some? ==> MetaProp(layer, "spriteSource").Ok?
    ensures p.filename.Some? ==> (url.Some? <==> MetaProp(layer, "spriteSource").Ok?)
    ensures url.Some? && p.filename.Some? ==>
              |url.value| >= |p.filename.value| && url.value[|url.value| - |p.filename.value|..] == p.filename.value
  {
    match MetaProp(layer, "spriteSource")
    case Err(_) => None
    case Ok(src) =>
      if p.filename.Some? then Some(JsString(src) + p.filename.value)
      else if src.Some? && (src.value.JStr? || src.value.JArr? || src.value.JObj?) then
        Some(JsString(src) + "undefined")
      else None
  }

  /** The response, the URL requested from the origin (None when no request
      was made) and the filesystem after serving a request. */
  datatype Serving = Serving(response: AssetResponse, fetched: Option<string>, files: map<string, Node>)

  /** Does the cache outcome lead to a fetch? A hit is served; a path that
      does not resolve makes `get` throw before its callback runs. */
  predicate Fetches(cached: CacheRead)
  {
    !cached.Hit? && cached != Failed(NoPathResolved)
  }

  /** Serving a request whose origin URL, once the layer is looked up, is
      `url`. The write's error is only logged: the fetched bytes are served
      whether or not they were stored. */
  function Serve(files: map<string, Node>, params: Params, url: Option<string>, origin: Origin,
                 now: int, writeFailure: Option<string>): (s: Serving)
    ensures s.fetched.Some? ==> s.fetched == url && Fetches(Lookup(AssetOptions, Directory, files, params, now))
    ensures s.response.Served? && s.fetched.None? ==>
              Lookup(AssetOptions, Directory, files, params, now) == Hit(s.response.data, false)
    ensures s.files != files ==>
              && s.fetched.Some? && url.Some? && origin(url.value).Some?
              && s.response == Served(origin(url.value).value)
              && s.files == Store(AssetOptions, Directory, files, params, s.response.data, now, writeFailure).files
    ensures Lookup(AssetOptions, Directory, files, params, now).Hit? ==>
              s == Serving(Served(Lookup(AssetOptions, Directory, files, params, now).data), None, files)
    ensures Fetches(Lookup(AssetOptions, Directory, files, params, now)) && url.Some? ==>
              && s.fetched == url
              && (origin(url.value).Some? ==>
                    && s.response == Served(origin(url.value).value)
                    && s.files == Store(AssetOptions, Directory, files, params, origin(url.value).value, now, writeFailure).files)
              && (origin(url.value).None? ==> s.response == Pending && s.files == files)
    ensures !Lookup(AssetOptions, Directory, files, params, now).Hit? &&
            (!Fetches(Lookup(AssetOptions, Directory, files, params, now)) || url.None?) ==>
              s == Serving(Pending, None, files)
  {
    var cached := Lookup(AssetOptions, Directory, files, params, now);
    if cached.Hit? then Serving(Served(cached.data), None, files)
    else if !Fetches(cached) || url.None? then Serving(Pending, None, files)
    else match origin(url.value)
      case None => Serving(Pending, url, files)
      case Some(data) =>
        Serving(Served(data), url, Store(AssetOptions, Directory, files, params, data, now, writeFailure).files)
  }

  /** Serves a glyph range. */
  method GetGlyphs(cache: FileSystemCache, fs: FileSystem, params: Params, lookup: LayerLookup,
                   origin: Origin, now: int, writeFailure: Option<string>)
    returns (r: AssetResponse, fetched: Option<string>)
    requires cache.options == AssetOptions && cache.strategy == ChooseStrategy(AssetOptions)
    modifies fs
    ensures Serving(r, fetched, fs.files)
            == Serve(old(fs.files), params, GlyphsUrl(lookup(params.layer), params), origin, now, writeFailure)
  {
    var cached := cache.Get(fs, params, now);
    if cached.Hit? {
      // A refresh flag is ignored: the old bytes are served indefinitely.
      return Served(cached.data), None;
    }
    if cached == Failed(NoPathResolved) {
      // `get` threw inside the promise executor: the request is rejected.
      return Pending, None;
    }
    var layer := lookup(params.layer);
    fetched := GlyphsUrl(layer, params);
    if fetched.None? {
      return Pending, None;
    }
    var response := origin(fetched.value);
    if response.None? {
      return Pending, fetched;
    }
    var _ := cache.Set(fs, params, response.value, now, writeFailure);
    r := Served(response.value);
  }

  /** Serves a sprite file; same shape as GetGlyphs, with the sprite URL. */
  method GetSprite(cache: FileSystemCache, fs: FileSystem, params: Params, lookup: LayerLookup,
                   origin: Origin, now: int, writeFailure: Option<string>)
    returns (r: AssetResponse, fetched: Option<string>)
    requires cache.options == AssetOptions && cache.strategy == ChooseStrategy(AssetOptions)
    modifies fs
    ensures Serving(r, fetched, fs.files)
            == Serve(old(fs.files), params, SpriteUrl(lookup(params.layer), params), origin, now, writeFailure)
  {
    var cached := cache.Get(fs, params, now);
    if cached.Hit? {
      return Served(cached.data), None;
    }
    if cached == Failed(NoPathResolved) {
      return Pending, None;
    }
    var layer := lookup(params.layer);
    fetched := SpriteUrl(layer, params);
    if fetched.None? {
      return Pending, None;
    }
    var response := origin(fetched.value);
    if response.None? {
      return Pending, fetched;
    }
    var _ := cache.Set(fs, params, response.value, now, writeFailure);
    r := Served(response.value);
  }

  // ---------------------------------------------------------------------
  // Properties

  /** The asset cache's options are accepted at construction and select the
      directory layout. */
  lemma AssetCacheConfiguration()
    ensures !ConfigError(AssetOptions)
    ensures ChooseStrategy(AssetOptions) == Directory
  {
  }

  /** With no freshness window, an asset once stored is a hit at every later
      time, never flagged for refresh: it is never fetched again. */
  lemma StoredAssetIsServedForever(files: map<string, Node>, params: Params, data: seq<byte>, written: int, now: int)
    requires params.kind == Some("glyphs") || params.kind == Some("sprite")
    ensures var after := Store(AssetOptions, Directory, files, params, data, written, None);
            Lookup(AssetOptions, Directory, after.files, params, now) == Hit(data, false)
  {
  }

  /** A cache error other than a missing file (an open failing with another
      code) is followed by the fetch, as a miss is, and the fetched bytes are
      served. */
  lemma CacheErrorFetches(files: map<string, Node>, params: Params, code: string, url: Option<string>,
                          origin: Origin, now: int, writeFailure: Option<string>)
    requires params.kind == Some("glyphs") || params.kind == Some("sprite")
    requires FileFromDirectory(Some(AssetsDataPath), params).value in files
    requires files[FileFromDirectory(Some(AssetsDataPath), params).value] == Unopenable(code)
    requires code != "ENOENT"
    ensures var s := Serve(files, params, url, origin, now, writeFailure);
            && s.fetched == url
            && (url.Some? && origin(url.value).Some? ==> s.response == Served(origin(url.value).value))
  {
    assert Lookup(AssetOptions, Directory, files, params, now) == Failed(Code(code));
  }

  /** A glyph or sprite request with nothing cached at its path fetches the
      layer's URL; a successful fetch is served and stored, whatever the write
      then reports, and a later request is served the stored bytes. */
  lemma MissFetchesAndStores(files: map<string, Node>, params: Params, url: Option<string>, origin: Origin,
                             now: int, writeFailure: Option<string>)
    requires params.kind == Some("glyphs") || params.kind == Some("sprite")
    requires FileFromDirectory(Some(AssetsDataPath), params).value !in files
    requires url.Some? && origin(url.value).Some?
    ensures var s := Serve(files, params, url, origin, now, writeFailure);
            && s.fetched == url
            && s.response == Served(origin(url.value).value)
            && s.files == Store(AssetOptions, Directory, files, params, origin(url.value).value, now, writeFailure).files
            && (writeFailure.None? ==> s.files == files[FileFromDirectory(Some(AssetsDataPath), params).value
                                                      := File(origin(url.value).value, now)])
  {
    assert Lookup(AssetOptions, Directory, files, params, now) == Miss;
  }

  /** A request of any type other than glyphs or sprite resolves no cache
      path, so `get` throws: nothing is fetched, served or written. */
  lemma UnknownTypeIsRejected(files: map<string, Node>, params: Params, url: Option<string>,
                              origin: Origin, now: int, writeFailure: Option<string>)
    requires params.kind != Some("glyphs") && params.kind != Some("sprite")
    ensures Serve(files, params, url, origin, now, writeFailure) == Serving(Pending, None, files)
  {
    assert Lookup(AssetOptions, Directory, files, params, now) == Failed(NoPathResolved);
  }

  /** Bytes fetched and stored are served from the cache by every later
      request for the same asset, without another fetch. */
  lemma FetchedAssetIsCached(files: map<string, Node>, params: Params, url: Option<string>, origin: Origin,
                             now: int, later: int, url2: Option<string>, origin2: Origin,
                             writeFailure2: Option<string>)
    requires params.kind == Some("glyphs") || params.kind == Some("sprite")
    ensures var s := Serve(files, params, url, origin, now, None);
            s.fetched.Some? && s.response.Served? ==>
              Serve(s.files, params, url2, origin2, later, writeFailure2) == Serving(s.response, None, s.files)
  {
    var s := Serve(files, params, url, origin, now, None);
    if s.fetched.Some? && s.response.Served? {
      StoredAssetIsServedForever(files, params, s.response.data, now, later);
    }
  }

  /** The records the layer pipeline produces keep `meta` as `normalize`
      left it, which holds neither `glyphsSource` nor `spriteSource` (the
      vector branch stores the upstream templates at the top level). Looked
      up as such, a record yields no glyph URL, and a sprite URL starting
      with "undefined". */
  lemma ProcessedRecordHasNoMetaTemplates(rec: map<string, Json>, out: map<string, Json>, p: Params)
    requires Normalized(rec) && Field(out, "meta") == Field(rec, "meta")
    ensures GlyphsUrl(Some(JObj(out)), p) == None
    ensures p.filename.Some? ==> SpriteUrl(Some(JObj(out)), p) == Some("undefined" + p.filename.value)
    ensures p.filename.None? ==> SpriteUrl(Some(JObj(out)), p) == None
  {
    var meta := rec["meta"];
    assert "glyphsSource" !in MetaKeys && "spriteSource" !in MetaKeys;
    assert MetaProp(Some(JObj(out)), "glyphsSource") == Ok(None);
    assert MetaProp(Some(JObj(out)), "spriteSource") == Ok(None);
  }

  /** A glyph template of the usual shape, `{fontstack}` and then `{range}`
      with no other brace, is filled by splicing in those two parameters;
      `{layer}` is replaced only where the template has it. */
  lemma FillGlyphsTemplateSplices(pre: string, mid: string, post: string, p: Params)
    requires '{' !in pre && '{' !in mid && '{' !in post
    requires '{' !in ParamString(p.fontstack)
    ensures FillGlyphsTemplate(pre + "{fontstack}" + mid + "{range}" + post, p)
            == pre + ParamString(p.fontstack) + mid + ParamString(p.range) + post
  {
    assert "{" + "layer" + "}" == "{layer}";
    OtherSlotAbsent(pre, mid, post, "layer", ParamString(p.layer));
    SpliceTwoSlots(pre, mid, post, ParamString(p.fontstack), ParamString(p.range));
  }

  /** A layer whose meta carries such a template gets that URL. */
  lemma GlyphsUrlOfLayer(layer: Json, pre: string, mid: string, post: string, p: Params)
    requires layer.JObj? && "meta" in layer.fields && layer.fields["meta"].JObj?
    requires Field(layer.fields["meta"].fields, "glyphsSource") == Some(JStr(pre + "{fontstack}" + mid + "{range}" + post))
    requires '{' !in pre && '{' !in mid && '{' !in post
    requires '{' !in ParamString(p.fontstack)
    ensures GlyphsUrl(Some(layer), p) == Some(pre + ParamString(p.fontstack) + mid + ParamString(p.range) + post)
  {
    FillGlyphsTemplateSplices(pre, mid, post, p);
  }
}
