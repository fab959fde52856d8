/**
 * Style and source rewriting (lib/layerService.js): the public source URL
 * of a layer, the upstream style document pointed at this server, and the
 * step-by-step processing of an incoming layer record.
 */
module LayerService {
  import opened Js
  import opened Conf
  import opened LayerSchema

  /** The public address of this server. */
  const BaseUrl: string := Protocol + "://" + Host

  /** Where a layer's public source URL lives, under `/maps/<name>`. */
  const MapsPrefix: string := BaseUrl + "/maps/"

  predicate StartsWith(s: string, prefix: string)
  {
    |prefix| <= |s| && s[..|prefix|] == prefix
  }

  predicate EndsWith(s: string, suffix: string)
  {
    |suffix| <= |s| && s[|s| - |suffix|..] == suffix
  }

  // ---------------------------------------------------------------------
  // computeSource

  /** What a public source URL serves. */
  datatype SourceKind = StyleDocument | RetinaTiles | PlainTiles

  const StyleSuffix := "/style.json"
  const RetinaSuffix := "/{z}/{x}/{y}@2x.png"
  const PlainSuffix := "/{z}/{x}/{y}.png"

  /** `computeSource`: a vector layer publishes its style document whatever
      its retina flag; a raster layer publishes a tile template, at double
      resolution when retina. */
  function ComputeSource(name: string, vector: bool, retina: bool): (url: string)
    ensures StartsWith(url, MapsPrefix + name + "/")
    ensures vector ==> EndsWith(url, StyleSuffix)
    ensures !vector && retina ==> EndsWith(url, RetinaSuffix)
    ensures !vector && !retina ==> EndsWith(url, PlainSuffix)
    ensures |url| == |MapsPrefix| + |name| + (if vector then |StyleSuffix| else if retina then |RetinaSuffix| else |PlainSuffix|)
  {
    if vector then MapsPrefix + name + StyleSuffix
    else if retina then MapsPrefix + name + RetinaSuffix
    else MapsPrefix + name + PlainSuffix
  }

  function KindOf(vector: bool, retina: bool): SourceKind
  {
    if vector then StyleDocument else if retina then RetinaTiles else PlainTiles
  }

  /** Reads a public source URL back: the layer name and what is served. */
  function ParseSource(url: string): Option<(string, SourceKind)>
  {
    if !StartsWith(url, MapsPrefix) then None
    else if |url| >= |MapsPrefix| + |StyleSuffix| && EndsWith(url, StyleSuffix) then
      Some((url[|MapsPrefix|..|url| - |StyleSuffix|], StyleDocument))
    else if |url| >= |MapsPrefix| + |RetinaSuffix| && EndsWith(url, RetinaSuffix) then
      Some((url[|MapsPrefix|..|url| - |RetinaSuffix|], RetinaTiles))
    else if |url| >= |MapsPrefix| + |PlainSuffix| && EndsWith(url, PlainSuffix) then
      Some((url[|MapsPrefix|..|url| - |PlainSuffix|], PlainTiles))
    else None
  }

  /** The public source URL determines the layer name and the kind of
      resource: distinct layers never share a source URL. */
  lemma {:induction false} SourceRoundTrip(name: string, vector: bool, retina: bool)
    ensures ParseSource(ComputeSource(name, vector, retina)) == Some((name, KindOf(vector, retina)))
  {
    var url := ComputeSource(name, vector, retina);
    var n := |MapsPrefix| + |name|;
    assert url[..|MapsPrefix|] == MapsPrefix;
    assert url[|MapsPrefix|..n] == name;
    if !vector {
      // A tile template ends in "png", never in "json".
      assert url[|url| - 1] == 'g' && StyleSuffix[|StyleSuffix| - 1] == 'n';
      assert url[|url| - |StyleSuffix|..][|StyleSuffix| - 1] == url[|url| - 1];
      if !retina {
        // A plain template has '}' where a retina one has 'x'.
        assert url[|url| - 5] == '}' && RetinaSuffix[|RetinaSuffix| - 5] == 'x';
        assert url[|url| - |RetinaSuffix|..][|RetinaSuffix| - 5] == url[|url| - 5];
      }
    }
  }

  // ---------------------------------------------------------------------
  // computeStyle

  function GlyphsTemplate(name: string): string
  {
    BaseUrl + "/glyphs/" + name + "/{fontstack}/{range}.pbf"
  }

  function SpriteBase(name: string): string
  {
    BaseUrl + "/sprites/" + name
  }

  /** The vector tile template for source `k` of layer `name`. */
  function SourceTiles(name: string, k: string): string
  {
    BaseUrl + "/maps/" + name + "-" + k + "/{z}/{x}/{y}.pbf"
  }

  /** The upstream style's sources, as `for (k in originalStyle.sources)`
      enumerates them. */
  function UpstreamSources(upstream: Json): map<string, Json>
  {
    match Field(Own(upstream), "sources")
    case None => map[]
    case Some(s) => Own(s)
  }

  /** `rewritten` is source `k`'s upstream entry with `tiles` replaced by the
      single template pointing at this server and every other field copied. */
  predicate IsRewrite(name: string, k: string, upstream: Json, rewritten: Json)
  {
    && rewritten.JObj?
    && rewritten.fields.Keys == Own(upstream).Keys + {"tiles"}
    && rewritten.fields["tiles"] == JArr([JStr(SourceTiles(name, k))])
    && (forall f :: f in Own(upstream) && f != "tiles" ==> rewritten.fields[f] == Own(upstream)[f])
  }

  /** `style` is the upstream style pointed at this server for layer `name`:
      the glyphs, sprite and sources fields are replaced, exactly the upstream
      source ids are kept and each is rewritten, every other field is copied. */
  predicate IsStyleFor(name: string, upstream: Json, style: map<string, Json>)
  {
    && style.Keys == Own(upstream).Keys + {"glyphs", "sprite", "sources"}
    && style["glyphs"] == JStr(GlyphsTemplate(name))
    && style["sprite"] == JStr(SpriteBase(name))
    && (forall f :: f in Own(upstream) && f !in {"glyphs", "sprite", "sources"} ==> style[f] == Own(upstream)[f])
    && style["sources"].JObj?
    && style["sources"].fields.Keys == UpstreamSources(upstream).Keys
    && (forall k :: k in UpstreamSources(upstream) ==>
          IsRewrite(name, k, UpstreamSources(upstream)[k], style["sources"].fields[k]))
  }

  /** The body of the loop over the upstream sources: a shallow copy of the
      entry whose `tiles` is emptied and then set to this server's template. */
  function RewriteSource(name: string, k: string, upstream: Json): (rewritten: Json)
    ensures IsRewrite(name, k, upstream, rewritten)
  {
    var copy := Own(upstream)["tiles" := JArr([])];
    JObj(copy["tiles" := JArr([JStr(SourceTiles(name, k))])])
  }

  /** The loop of `computeStyle` filling `style.sources` key by key. */
  method RewriteSources(name: string, srcs: map<string, Json>) returns (rewritten: map<string, Json>)
    ensures rewritten.Keys == srcs.Keys
    ensures forall k :: k in srcs ==> IsRewrite(name, k, srcs[k], rewritten[k])
  {
    var remaining := srcs.Keys;
    rewritten := map[];
    while remaining != {}
      invariant remaining <= srcs.Keys
      invariant rewritten.Keys == srcs.Keys - remaining
      invariant forall k :: k in rewritten ==> IsRewrite(name, k, srcs[k], rewritten[k])
      decreases remaining
    {
      var k :| k in remaining;
      rewritten := rewritten[k := RewriteSource(name, k, srcs[k])];
      remaining := remaining - {k};
    }
  }

  /** The upstream style with glyphs and sprite pointed at this server and
      the given rewritten sources is the style for `name`. */
  lemma StyleOfParts(name: string, upstream: Json, rewritten: map<string, Json>)
    requires rewritten.Keys == UpstreamSources(upstream).Keys
    requires forall k :: k in rewritten ==> IsRewrite(name, k, UpstreamSources(upstream)[k], rewritten[k])
    ensures IsStyleFor(name, upstream, Own(upstream)["glyphs" := JStr(GlyphsTemplate(name))]
                                                     ["sprite" := JStr(SpriteBase(name))]
                                                     ["sources" := JObj(rewritten)])
  {
  }

  /** `computeStyle(layer, originalStyle)` with the layer name it reads given
      explicitly. Throws only when the upstream style is null, when reading
      its `sources` fails. The upstream value itself is never changed. */
  method ComputeStyle(name: string, upstream: Json) returns (r: Result<map<string, Json>>)
    ensures r.Err? <==> upstream.JNull?
    ensures r.Ok? ==> IsStyleFor(name, upstream, r.value)
  {
    var style := Own(upstream);
    style := style["glyphs" := JStr(GlyphsTemplate(name))];
    style := style["sprite" := JStr(SpriteBase(name))];
    style := style["sources" := JObj(map[])];
    if upstream.JNull? {
      return Err("TypeError");
    }
    var rewritten := RewriteSources(name, UpstreamSources(upstream));
    StyleOfParts(name, upstream, rewritten);
    style := style["sources" := JObj(rewritten)];
    r := Ok(style);
  }

  /** A source entry's rewrite is fully determined by the upstream entry. */
  lemma RewriteUnique(name: string, k: string, upstream: Json, a: Json, b: Json)
    requires IsRewrite(name, k, upstream, a) && IsRewrite(name, k, upstream, b)
    ensures a == b
  {
    assert a.fields == b.fields;
  }

  /** The rewritten sources are fully determined by the upstream ones. */
  lemma {:induction false} RewrittenSourcesUnique(name: string, srcs: map<string, Json>, a: map<string, Json>, b: map<string, Json>)
    requires a.Keys == srcs.Keys && b.Keys == srcs.Keys
    requires forall k :: k in srcs ==> IsRewrite(name, k, srcs[k], a[k]) && IsRewrite(name, k, srcs[k], b[k])
    ensures a == b
  {
    forall k | k in srcs
      ensures a[k] == b[k]
    {
      RewriteUnique(name, k, srcs[k], a[k], b[k]);
    }
    assert a.Keys == b.Keys;
  }

  /** The rewritten style is fully determined by the layer name and the
      upstream style. */
  lemma {:induction false} StyleUnique(name: string, upstream: Json, s1: map<string, Json>, s2: map<string, Json>)
    requires IsStyleFor(name, upstream, s1) && IsStyleFor(name, upstream, s2)
    ensures s1 == s2
  {
    RewrittenSourcesUnique(name, UpstreamSources(upstream), s1["sources"].fields, s2["sources"].fields);
    assert s1["sources"] == s2["sources"];
    forall f | f in s1
      ensures s1[f] == s2[f]
    {
      if f !in {"glyphs", "sprite", "sources"} {
        assert s1[f] == Own(upstream)[f] == s2[f];
      }
    }
    assert s1.Keys == s2.Keys;
  }

  /** A one-source upstream style with a glyph template and a sprite, served
      as layer "demo": the one source keeps its id and every URL now points at
      this server. */
  lemma StyleRewriteExample(style: map<string, Json>)
    requires IsStyleFor("demo", JObj(map[
               "sources" := JObj(map["a" := JObj(map["tiles" := JArr([JStr("http://x/{z}/{x}/{y}.pbf")])])]),
               "glyphs" := JStr("http://x/fonts/{fontstack}/{range}.pbf"),
               "sprite" := JStr("http://x/sprite")]), style)
    ensures style["sources"] == JObj(map["a" := JObj(map["tiles" := JArr([JStr(SourceTiles("demo", "a"))])])])
    ensures style["glyphs"] == JStr(GlyphsTemplate("demo"))
    ensures style["sprite"] == JStr(SpriteBase("demo"))
    ensures style.Keys == {"sources", "glyphs", "sprite"}
  {
    var entry := JObj(map["tiles" := JArr([JStr("http://x/{z}/{x}/{y}.pbf")])]);
    var up := JObj(map[
               "sources" := JObj(map["a" := entry]),
               "glyphs" := JStr("http://x/fonts/{fontstack}/{range}.pbf"),
               "sprite" := JStr("http://x/sprite")]);
    var srcs := UpstreamSources(up);
    assert srcs == map["a" := entry];
    var a := style["sources"].fields["a"];
    assert IsRewrite("demo", "a", entry, a);
    assert a.fields.Keys == {"tiles"};
    assert a.fields == map["tiles" := JArr([JStr(SourceTiles("demo", "a"))])];
    assert style["sources"].fields == map["a" := a];
  }

  // ---------------------------------------------------------------------
  // processLayer

  /** `layer.meta` can be read from: reading a property of an undefined or
      null `meta` throws. */
  predicate HasMeta(rec: map<string, Json>)
  {
    "meta" in rec && rec["meta"] != JNull
  }

  /** The properties of `layer.meta`; a `meta` that is not an object has
      those of its value (none named like a layer setting). */
  function Meta(rec: map<string, Json>): (meta: map<string, Json>)
    requires HasMeta(rec)
    ensures rec["meta"].JObj? ==> meta == rec["meta"].fields
  {
    Own(rec["meta"])
  }

  /** `layer.meta.name` where it is used as a string. */
  function MetaName(rec: map<string, Json>): string
    requires HasMeta(rec)
  {
    JsString(Field(Meta(rec), "name"))
  }

  predicate MetaVector(rec: map<string, Json>)
    requires HasMeta(rec)
  {
    Truthy(Field(Meta(rec), "vector"))
  }

  predicate MetaRetina(rec: map<string, Json>)
    requires HasMeta(rec)
  {
    Truthy(Field(Meta(rec), "retina"))
  }

  /** The public source URL of a normalized record (`computeSource(layer)`). */
  function SourceOf(rec: map<string, Json>): string
    requires HasMeta(rec)
  {
    ComputeSource(MetaName(rec), MetaVector(rec), MetaRetina(rec))
  }

  /** `layer[k] = v`: assigning undefined leaves a property the JSON form
      of the record does not have. */
  function SetProp(rec: map<string, Json>, k: string, v: Option<Json>): (r: map<string, Json>)
    ensures Field(r, k) == v
    ensures forall f :: f != k ==> Field(r, f) == Field(rec, f)
  {
    match v
    case None => rec - {k}
    case Some(x) => rec[k := x]
  }

  /** Fetches the upstream style document: None when the request fails. */
  type StyleFetch = string -> Option<Json>

  /** The properties the vector branch assigns. */
  predicate AssignedByVectorBranch(f: string)
  {
    f == "glyphsSource" || f == "spriteSource" || f == "sources" || f == "source" || f == "style"
  }

  /** `layer` is the normalized record `rec` after the vector branch with
      upstream style `upstream`: glyph, sprite and sources references copied
      from the upstream style, the public source and the rewritten style
      computed, and every other property (meta included) unchanged. */
  ghost predicate IsVectorResult(rec: map<string, Json>, styleName: string, upstream: Json, layer: map<string, Json>)
    requires Normalized(rec)
  {
    && Field(layer, "glyphsSource") == Field(Own(upstream), "glyphs")
    && Field(layer, "spriteSource") == Field(Own(upstream), "sprite")
    && Field(layer, "sources") == Field(Own(upstream), "sources")
    && Field(layer, "source") == Some(JStr(SourceOf(rec)))
    && "style" in layer && layer["style"].JObj?
    && IsStyleFor(styleName, upstream, layer["style"].fields)
    && (forall f :: !AssignedByVectorBranch(f) ==> Field(layer, f) == Field(rec, f))
  }

  /** The assignments of the vector branch once the upstream style is in. */
  method ApplyUpstreamStyle(rec: map<string, Json>, styleName: string, upstream: Json)
    returns (layer: map<string, Json>)
    requires Normalized(rec) && !upstream.JNull?
    ensures IsVectorResult(rec, styleName, upstream, layer)
  {
    layer := SetProp(rec, "glyphsSource", Field(Own(upstream), "glyphs"));
    layer := SetProp(layer, "spriteSource", Field(Own(upstream), "sprite"));
    layer := SetProp(layer, "sources", Field(Own(upstream), "sources"));
    layer := layer["source" := JStr(SourceOf(rec))];
    var style := ComputeStyle(styleName, upstream);
    layer := layer["style" := JObj(style.value)];
  }

  /** The branching of `processLayer` on a normalized record. `vector` is the
      flag it branches on and `styleName` the name `computeStyle` reads;
      `fetched` is the URL requested, None when there was no request. The
      raster branch sets only `source`; the vector branch fails when the
      request fails or the style is null. */
  method ProcessNormalized(rec: map<string, Json>, vector: bool, styleName: string, fetch: StyleFetch)
    returns (r: Result<map<string, Json>>, fetched: Option<string>)
    requires Normalized(rec)
    ensures !vector ==> fetched.None? && r == Ok(rec["source" := JStr(SourceOf(rec))])
    ensures vector ==> fetched == Some(JsString(Field(Meta(rec), "source")))
    ensures vector ==> (r.Ok? <==> fetch(fetched.value).Some? && !fetch(fetched.value).value.JNull?)
    ensures vector && r.Ok? ==> IsVectorResult(rec, styleName, fetch(fetched.value).value, r.value)
  {
    if !vector {
      r := Ok(rec["source" := JStr(SourceOf(rec))]);
      return r, None;
    }
    fetched := Some(JsString(Field(Meta(rec), "source")));
    var response := fetch(fetched.value);
    if response.None? {
      return Err("request failed"), fetched;
    }
    var upstream := response.value;
    if upstream.JNull? {
      return Err("TypeError"), fetched;
    }
    var layer := ApplyUpstreamStyle(rec, styleName, upstream);
    r := Ok(layer);
  }

  /** `processLayer` as the code reads: it branches on a top-level `vector`
      and names the style after a top-level `name`, and a normalized record
      has neither. So every layer, vector or not, only gets its `source`:
      no style is fetched and none is computed. */
  method ProcessLayerAsWritten(layer: Json, fetch: StyleFetch)
    returns (r: Result<map<string, Json>>, fetched: Option<string>)
    ensures r.Err? <==> Normalize(layer).Err?
    ensures fetched.None?
    ensures r.Ok? ==> Normalized(Normalize(layer).value)
                      && r.value == Normalize(layer).value["source" := JStr(SourceOf(Normalize(layer).value))]
    ensures r.Ok? ==> "style" !in r.value
  {
    var n := Normalize(layer);
    if n.Err? {
      return Err(n.reason), None;
    }
    var rec := n.value;
    NormalizeShape(layer);
    NormalizedTopLevel(rec);
    r, fetched := ProcessNormalized(rec, Truthy(Field(rec, "vector")), JsString(Field(rec, "name")), fetch);
  }

  /** `processLayer` reading the flag and the name where `normalize` puts
      them, under `meta`. */
  method ProcessLayer(layer: Json, fetch: StyleFetch)
    returns (r: Result<map<string, Json>>, fetched: Option<string>)
    ensures Normalize(layer).Err? ==> r.Err? && fetched.None?
    ensures Normalize(layer).Ok? ==>
      var rec := Normalize(layer).value;
      && Normalized(rec)
      && (!MetaVector(rec) ==> fetched.None? && r == Ok(rec["source" := JStr(SourceOf(rec))]))
      && (MetaVector(rec) ==> fetched == Some(JsString(Field(Meta(rec), "source"))))
      && (MetaVector(rec) ==> (r.Ok? <==> fetch(fetched.value).Some? && !fetch(fetched.value).value.JNull?))
      && (MetaVector(rec) && r.Ok? ==> IsVectorResult(rec, MetaName(rec), fetch(fetched.value).value, r.value))
  {
    var n := Normalize(layer);
    if n.Err? {
      return Err(n.reason), None;
    }
    var rec := n.value;
    NormalizeShape(layer);
    r, fetched := ProcessNormalized(rec, MetaVector(rec), MetaName(rec), fetch);
  }

  // ---------------------------------------------------------------------
  // The two readings compared

  /** The name the code hands to `computeStyle` is always "undefined", so the
      glyph URL it would write is `/glyphs/undefined/...` for every layer. */
  lemma StyleNameAsWritten(layer: Json)
    requires Normalize(layer).Ok?
    ensures JsString(Field(Normalize(layer).value, "name")) == "undefined"
  {
    NormalizeShape(layer);
    NormalizedTopLevel(Normalize(layer).value);
  }

  /** For every layer whose meta says vector, the flag the code tests is
      absent after normalisation, while the corrected reading sees it and
      publishes the style document as the source. */
  lemma VectorFlagOnlyUnderMeta(layer: Json, name: string)
    requires layer.JObj? && "meta" in layer.fields && layer.fields["meta"].JObj?
    requires Field(layer.fields["meta"].fields, "vector") == Some(JBool(true))
    requires Field(layer.fields["meta"].fields, "name") == Some(JStr(name))
    ensures Normalize(layer).Ok?
    ensures var rec := Normalize(layer).value;
            && Normalized(rec)
            && MetaVector(rec)
            && !Truthy(Field(rec, "vector"))
            && SourceOf(rec) == MapsPrefix + name + StyleSuffix
  {
    NormalizeShape(layer);
    var rec := Normalize(layer).value;
    assert Field(Meta(rec), "vector") == Some(JBool(true));
    assert MetaName(rec) == name;
    NormalizedTopLevel(rec);
  }
}
