/**
 * Per-layer pipeline construction (lib/layerUtils.js). A builder registers
 * tile layers on the tile server (`strata.layer(name).route(pattern).use(..)`)
 * and, for vector layers, asset endpoints on the web application. The
 * registries are modelled as logs of what was registered, in order.
 */
module LayerUtils {
  import opened Js
  import opened Conf
  import opened LayerSchema
  import opened LayerService
  import opened AssetCache

  /** One plugin of a route's chain, in the order the chain runs it. */
  datatype Step =
    | DiskCache(dir: string)                          // tilestrata-disk cache
    | Proxy(uri: Option<Json>, decompressAlways: bool) // fetch from the origin
    | Dependency(layer: string, pattern: string)      // render from another route
    | Resize(width: nat)                              // sharp resize
    | Archive(path: string)                           // read an .mbtiles archive
    | StatusRemap                                     // the reshook plugin

  datatype Route = Route(pattern: string, steps: seq<Step>)

  datatype TileLayer = TileLayer(name: string, routes: seq<Route>)

  /** What a web application endpoint does. */
  datatype Handler =
    | GlyphsHandler(layer: string)   // serves getGlyphs for the layer
    | SpriteHandler(layer: string)   // serves getSprite for the layer
    | StyleHandler(layer: string)    // serves the stored style of the layer
    | TileMiddleware(prefix: string) // the tile server, mounted under a prefix
    | LayersGet | LayerAdd | LayerDelete | LayerFlush

  datatype Verb = Get | Post | Delete | Use

  datatype AppRoute = AppRoute(verb: Verb, path: string, handler: Handler)

  /** The tile server's layer registry. */
  class Strata {
    var layers: seq<TileLayer>

    constructor ()
      ensures layers == []
    {
      layers := [];
    }

    /** Registers a tile layer with its routes. */
    method AddLayer(l: TileLayer)
      modifies this
      ensures layers == old(layers) + [l]
    {
      layers := layers + [l];
    }
  }

  /** The web application's route registry. */
  class App {
    var routes: seq<AppRoute>

    constructor ()
      ensures routes == []
    {
      routes := [];
    }

    method Register(r: AppRoute)
      modifies this
      ensures routes == old(routes) + [r]
    {
      routes := routes + [r];
    }
  }

  // ---------------------------------------------------------------------
  // Route tables

  /** The disk cache directory of a layer. */
  function CacheDir(name: string): string
  {
    DataPath + "/" + name
  }

  /** A single plain route holding just the given chain. */
  function PlainRoute(steps: seq<Step>): Route
  {
    Route("*.png", steps)
  }

  /** The two routes of a retina layer: `*@2x.png` is the cache followed by
      `origin`, and `*.png` renders from the `@2x` tile and halves it. */
  function RetinaRoutes(name: string, origin: seq<Step>): (routes: seq<Route>)
    ensures |routes| == 2
    ensures routes[0].pattern == "*@2x.png" && routes[0].steps == [DiskCache(CacheDir(name))] + origin
    ensures routes[1].pattern == "*.png"
    ensures routes[1].steps == [DiskCache(CacheDir(name)), Dependency(name, "*@2x.png"), Resize(256)]
  {
    [Route("*@2x.png", [DiskCache(CacheDir(name))] + origin),
     Route("*.png", [DiskCache(CacheDir(name)), Dependency(name, "*@2x.png"), Resize(256)])]
  }

  /** A tiles layer serves its cache only: it never contacts an origin. */
  function TilesLayer(name: string, retina: bool): (l: TileLayer)
    ensures l.name == name
    ensures |l.routes| == (if retina then 2 else 1)
    ensures forall r <- l.routes :: |r.steps| > 0 && r.steps[0] == DiskCache(CacheDir(name))
    ensures forall r <- l.routes, s <- r.steps :: !s.Proxy? && !s.Archive?
  {
    TileLayer(name, if retina then RetinaRoutes(name, []) else [PlainRoute([DiskCache(CacheDir(name))])])
  }

  /** A proxy layer fetches from `uri` behind its cache; when retina only the
      `@2x` route does. */
  function ProxyLayer(name: string, retina: bool, uri: Option<Json>): (l: TileLayer)
    ensures l.name == name
    ensures |l.routes| == (if retina then 2 else 1)
    ensures forall r <- l.routes :: |r.steps| > 0 && r.steps[0] == DiskCache(CacheDir(name))
    ensures !retina ==> l.routes[0] == Route("*.png", [DiskCache(CacheDir(name)), Proxy(uri, false)])
    ensures retina ==> l.routes[0] == Route("*@2x.png", [DiskCache(CacheDir(name)), Proxy(uri, false)])
  {
    TileLayer(name, if retina then RetinaRoutes(name, [Proxy(uri, false)])
                    else [PlainRoute([DiskCache(CacheDir(name)), Proxy(uri, false)])])
  }

  /** An archive layer reads `<dataPath>/<name>.mbtiles` behind its cache;
      `remap` puts the status remap in front. */
  function ArchiveLayer(name: string, remap: bool): (l: TileLayer)
    ensures l.name == name && |l.routes| == 1 && l.routes[0].pattern == "*.png"
    ensures |l.routes[0].steps| >= 2 && l.routes[0].steps[|l.routes[0].steps| - 1] == Archive(CacheDir(name) + ".mbtiles")
    ensures StatusRemap in l.routes[0].steps <==> remap
    ensures remap ==> l.routes[0].steps[0] == StatusRemap
  {
    var cache, archive := DiskCache(CacheDir(name)), Archive(CacheDir(name) + ".mbtiles");
    TileLayer(name, [PlainRoute(if remap then [StatusRemap, cache, archive] else [cache, archive])])
  }

  /** The tile layer of source `k` of a vector layer. */
  function VectorSourceLayer(name: string, k: string, uri: Option<Json>): (l: TileLayer)
    ensures l.name == name + "-" + k
    ensures l.routes == [Route("*.pbf", [DiskCache(CacheDir(name + "-" + k)), Proxy(uri, true)])]
  {
    TileLayer(name + "-" + k, [Route("*.pbf", [DiskCache(CacheDir(name + "-" + k)), Proxy(uri, true)])])
  }

  /** What is left registered for source `k` when reading its tile URL throws:
      the layer and its route with the cache only. */
  function PartialSourceLayer(name: string, k: string): TileLayer
  {
    TileLayer(name + "-" + k, [Route("*.pbf", [DiskCache(CacheDir(name + "-" + k))])])
  }

  /** The three asset endpoints of a vector layer. */
  function AssetEndpoints(name: string): seq<AppRoute>
  {
    [AppRoute(Get, "/glyphs/" + name + "/:fontstack/:range.pbf", GlyphsHandler(name)),
     AppRoute(Get, "/sprites/" + name + ":filename", SpriteHandler(name)),
     AppRoute(Get, "/maps/" + name + "/style.json", StyleHandler(name))]
  }

  /** `sources[k].tiles[0]`: throws when the source entry or its `tiles` is
      null or undefined; undefined when there is no first tile URL. */
  function FirstTileUrl(src: Option<Json>): Result<Option<Json>>
  {
    match Prop(src, "tiles")
    case Err(e) => Err(e)
    case Ok(tiles) => Prop(tiles, "0")
  }

  /** The record's `sources`, as `for (k in layer.sources)` enumerates them. */
  function SourcesOf(layer: map<string, Json>): map<string, Json>
  {
    match Field(layer, "sources")
    case None => map[]
    case Some(v) => Own(v)
  }

  /** What the vector builder has registered, and whether it threw. */
  datatype Registration = Registration(layers: seq<TileLayer>, routes: seq<AppRoute>, thrown: bool)

  /** What visiting source `k`, whose first tile URL reads as `uri`, adds:
      the source's tile layer and the asset endpoints, or, when reading the
      URL throws, the layer with its cache only. */
  function Turn(name: string, k: string, uri: Result<Option<Json>>): Registration
  {
    match uri
    case Err(_) => Registration([PartialSourceLayer(name, k)], [], true)
    case Ok(u) => Registration([VectorSourceLayer(name, k, u)], AssetEndpoints(name), false)
  }

  /** One turn of the loop after the registrations `prev`. Nothing happens
      once the loop threw. */
  function Visit(name: string, prev: Registration, k: string, uri: Result<Option<Json>>): Registration
  {
    if prev.thrown then prev
    else
      var t := Turn(name, k, uri);
      Registration(prev.layers + t.layers, prev.routes + t.routes, t.thrown)
  }

  /** The registrations after visiting the source ids `order` in turn,
      stopping at the first source whose tile URL cannot be read. */
  function Registered(name: string, sources: map<string, Json>, order: seq<string>): (reg: Registration)
    ensures |reg.layers| <= |order|
  {
    if order == [] then Registration([], [], false)
    else
      var k := order[|order| - 1];
      Visit(name, Registered(name, sources, order[..|order| - 1]), k, FirstTileUrl(Field(sources, k)))
  }

  /** Unfolds Registered on the prefix of length `i + 1`. */
  lemma RegisteredPrefix(name: string, sources: map<string, Json>, order: seq<string>, i: nat)
    requires i < |order|
    ensures Registered(name, sources, order[..i + 1])
            == Visit(name, Registered(name, sources, order[..i]), order[i], FirstTileUrl(Field(sources, order[i])))
  {
    assert order[..i + 1][..i] == order[..i];
  }

  // ---------------------------------------------------------------------
  // Builders

  /** `createTilesLayer`. */
  method CreateTilesLayer(app: App, strata: Strata, layer: map<string, Json>)
    requires HasMeta(layer)
    modifies strata
    ensures strata.layers == old(strata.layers) + [TilesLayer(MetaName(layer), MetaRetina(layer))]
  {
    var name := MetaName(layer);
    if MetaRetina(layer) {
      strata.AddLayer(TileLayer(name, RetinaRoutes(name, [])));
    } else {
      strata.AddLayer(TileLayer(name, [PlainRoute([DiskCache(CacheDir(name))])]));
    }
  }

  /** `createProxyLayer`: the origin is `meta.source`. */
  method CreateProxyLayer(app: App, strata: Strata, layer: map<string, Json>)
    requires HasMeta(layer)
    modifies strata
    ensures strata.layers == old(strata.layers) + [ProxyLayer(MetaName(layer), MetaRetina(layer), Field(Meta(layer), "source"))]
  {
    var name := MetaName(layer);
    var origin := Proxy(Field(Meta(layer), "source"), false);
    if MetaRetina(layer) {
      strata.AddLayer(TileLayer(name, RetinaRoutes(name, [origin])));
    } else {
      strata.AddLayer(TileLayer(name, [PlainRoute([DiskCache(CacheDir(name)), origin])]));
    }
  }

  /** `createMBTilesLayer`, with the status remap in front of the chain. */
  method CreateMBTilesLayer(app: App, strata: Strata, layer: map<string, Json>)
    requires HasMeta(layer)
    modifies strata
    ensures strata.layers == old(strata.layers) + [ArchiveLayer(MetaName(layer), true)]
  {
    var name := MetaName(layer);
    strata.AddLayer(TileLayer(name, [PlainRoute([StatusRemap, DiskCache(CacheDir(name)), Archive(CacheDir(name) + ".mbtiles")])]));
  }

  /** `createVectorProxyLayer`: one tile layer per source id, visited in the
      enumeration order `order`, and the three asset endpoints registered
      again with every source. Reading a source's first tile URL can throw,
      which ends the loop with that source's layer registered cache-only. */
  method CreateVectorProxyLayer(app: App, strata: Strata, layer: map<string, Json>, order: seq<string>)
    returns (thrown: bool)
    requires HasMeta(layer)
    requires forall k :: k in order <==> k in SourcesOf(layer)
    requires forall i, j :: 0 <= i < j < |order| ==> order[i] != order[j]
    modifies app, strata
    ensures Logged(old(strata.layers), old(app.routes), strata.layers, app.routes,
                   Registered(MetaName(layer), SourcesOf(layer), order))
    ensures thrown == Registered(MetaName(layer), SourcesOf(layer), order).thrown
  {
    thrown := RegisterSources(app, strata, MetaName(layer), SourcesOf(layer), order);
  }

  /** The registries hold what they held before followed by `reg`. */
  predicate Logged(layers0: seq<TileLayer>, routes0: seq<AppRoute>, layers: seq<TileLayer>, routes: seq<AppRoute>,
                   reg: Registration)
  {
    layers == layers0 + reg.layers && routes == routes0 + reg.routes
  }

  /** Logging one more turn after `reg` logs the visit. */
  lemma LoggedTurn(layers0: seq<TileLayer>, routes0: seq<AppRoute>, layers: seq<TileLayer>, routes: seq<AppRoute>,
                   reg: Registration, name: string, k: string, uri: Result<Option<Json>>)
    requires Logged(layers0, routes0, layers, routes, reg) && !reg.thrown
    ensures var t := Turn(name, k, uri);
            Logged(layers0, routes0, layers + t.layers, routes + t.routes, Visit(name, reg, k, uri))
  {
    var t := Turn(name, k, uri);
    assert layers0 + reg.layers + t.layers == layers0 + (reg.layers + t.layers);
    assert routes0 + reg.routes + t.routes == routes0 + (reg.routes + t.routes);
  }

  /** The loop of `createVectorProxyLayer` over the source ids. */
  method RegisterSources(app: App, strata: Strata, name: string, sources: map<string, Json>, order: seq<string>)
    returns (thrown: bool)
    modifies app, strata
    ensures Logged(old(strata.layers), old(app.routes), strata.layers, app.routes, Registered(name, sources, order))
    ensures thrown == Registered(name, sources, order).thrown
  {
    var i := 0;
    thrown := false;
    while i < |order| && !thrown
      invariant 0 <= i <= |order|
      invariant Logged(old(strata.layers), old(app.routes), strata.layers, app.routes, Registered(name, sources, order[..i]))
      invariant thrown == Registered(name, sources, order[..i]).thrown
    {
      var k := order[i];
      RegisteredPrefix(name, sources, order, i);
      LoggedTurn(old(strata.layers), old(app.routes), strata.layers, app.routes,
                 Registered(name, sources, order[..i]), name, k, FirstTileUrl(Field(sources, k)));
      thrown := RegisterSource(app, strata, name, k, Field(sources, k));
      i := i + 1;
    }
    PrefixThrown(name, sources, order, i);
  }

  /** One turn of the loop: registers source `k`'s tile layer and then the
      asset endpoints, or throws after registering the layer cache-only. */
  method RegisterSource(app: App, strata: Strata, name: string, k: string, src: Option<Json>) returns (threw: bool)
    modifies app, strata
    ensures threw <==> FirstTileUrl(src).Err?
    ensures strata.layers == old(strata.layers) + Turn(name, k, FirstTileUrl(src)).layers
    ensures app.routes == old(app.routes) + Turn(name, k, FirstTileUrl(src)).routes
  {
    var uri := FirstTileUrl(src);
    if uri.Err? {
      strata.AddLayer(PartialSourceLayer(name, k));
      return true;
    }
    strata.AddLayer(VectorSourceLayer(name, k, uri.value));
    var endpoints := AssetEndpoints(name);
    app.Register(endpoints[0]);
    app.Register(endpoints[1]);
    app.Register(endpoints[2]);
    assert app.routes == old(app.routes) + endpoints;
    threw := false;
  }

  /** Once a prefix has thrown, the registrations of the whole sequence are
      those of the prefix. */
  lemma {:induction false} PrefixThrown(name: string, sources: map<string, Json>, order: seq<string>, n: nat)
    requires n <= |order|
    requires n < |order| ==> Registered(name, sources, order[..n]).thrown
    ensures Registered(name, sources, order) == Registered(name, sources, order[..n])
    decreases |order| - n
  {
    if n < |order| {
      RegisteredPrefix(name, sources, order, n);
      PrefixThrown(name, sources, order, n + 1);
    } else {
      assert order[..n] == order;
    }
  }

  // ---------------------------------------------------------------------
  // The archive status remap

  /** A tile result whose status the reshook plugin may overwrite. */
  class TileResult {
    var status: int

    constructor (status: int)
      ensures this.status == status
    {
      this.status := status;
    }
  }

  /** The status after the remap: a server error becomes not found. */
  function RemappedStatus(status: int): (r: int)
    ensures r != 500
    ensures status != 500 ==> r == status
    ensures r == 404 <==> status == 500 || status == 404
  {
    if status == 500 then 404 else status
  }

  /** `reshook`: overwrites a 500 status with 404 in place. */
  method Reshook(result: TileResult)
    modifies result
    ensures result.status == RemappedStatus(old(result.status))
  {
    if result.status == 500 {
      result.status := 404;
    }
  }

  // ---------------------------------------------------------------------
  // Properties

  /** The plain route of a retina layer, tiles or proxy, never contacts the
      origin or an archive: it renders from the layer's own `@2x` route. */
  lemma RetinaPlainRouteStaysLocal(name: string, uri: Option<Json>)
    ensures var r := TilesLayer(name, true).routes[1];
            r.pattern == "*.png" && Dependency(name, "*@2x.png") in r.steps
            && forall s <- r.steps :: !s.Proxy? && !s.Archive?
    ensures ProxyLayer(name, true, uri).routes[1] == TilesLayer(name, true).routes[1]
  {
  }

  /** The remap is idempotent and only ever changes a 500. */
  lemma RemapIdempotent(status: int)
    ensures RemappedStatus(RemappedStatus(status)) == RemappedStatus(status)
  {
  }

  /** `n` copies of `s`, one after the other. */
  function Repeat<T>(s: seq<T>, n: nat): (r: seq<T>)
    ensures |r| == n * |s|
  {
    if n == 0 then [] else Repeat(s, n - 1) + s
  }

  /** `layers` holds, for each source of `order` in turn, its tile layer. */
  predicate LayersFor(name: string, sources: map<string, Json>, order: seq<string>, layers: seq<TileLayer>)
  {
    && |layers| == |order|
    && (forall k <- order :: FirstTileUrl(Field(sources, k)).Ok?)
    && (forall i :: 0 <= i < |order| ==>
          layers[i] == VectorSourceLayer(name, order[i], FirstTileUrl(Field(sources, order[i])).value))
  }

  /** One more source appends its own tile layer. */
  lemma LayersForAppend(name: string, sources: map<string, Json>, init: seq<string>, k: string, layers: seq<TileLayer>)
    requires LayersFor(name, sources, init, layers)
    requires FirstTileUrl(Field(sources, k)).Ok?
    ensures LayersFor(name, sources, init + [k],
                      layers + [VectorSourceLayer(name, k, FirstTileUrl(Field(sources, k)).value)])
  {
    var order, all := init + [k], layers + [VectorSourceLayer(name, k, FirstTileUrl(Field(sources, k)).value)];
    forall i | 0 <= i < |order|
      ensures all[i] == VectorSourceLayer(name, order[i], FirstTileUrl(Field(sources, order[i])).value)
    {
      if i < |init| {
        assert all[i] == layers[i] && order[i] == init[i];
      } else {
        assert order[i] == k;
      }
    }
  }

  /** When every source's tile URL can be read, nothing throws and each
      source gets its own tile layer, in visiting order. */
  lemma {:induction false} RegisteredWithoutErrors(name: string, sources: map<string, Json>, order: seq<string>)
    requires forall k <- order :: FirstTileUrl(Field(sources, k)).Ok?
    ensures var reg := Registered(name, sources, order);
      && !reg.thrown
      && LayersFor(name, sources, order, reg.layers)
  {
    if order != [] {
      var n := |order| - 1;
      var init, k := order[..n], order[n];
      assert order == init + [k];
      RegisteredWithoutErrors(name, sources, init);
      var prev := Registered(name, sources, init);
      var reg := Registered(name, sources, order);
      assert reg == Visit(name, prev, k, FirstTileUrl(Field(sources, k)));
      LayersForAppend(name, sources, init, k, prev.layers);
    }
  }

  /** When every source's tile URL can be read, the asset endpoints are
      registered once per source: none at all without sources. */
  lemma {:induction false} EndpointsOncePerSource(name: string, sources: map<string, Json>, order: seq<string>)
    requires forall k <- order :: FirstTileUrl(Field(sources, k)).Ok?
    ensures Registered(name, sources, order).routes == Repeat(AssetEndpoints(name), |order|)
  {
    if order != [] {
      var n := |order| - 1;
      var init := order[..n];
      assert forall j :: 0 <= j < n ==> init[j] == order[j];
      RegisteredWithoutErrors(name, sources, init);
      EndpointsOncePerSource(name, sources, init);
    }
  }

  /** Every endpoint the vector builder registers is one of the layer's three
      asset endpoints. */
  lemma {:induction false} RegisteredEndpointsAreAssetEndpoints(name: string, sources: map<string, Json>, order: seq<string>)
    ensures forall r <- Registered(name, sources, order).routes :: r in AssetEndpoints(name)
  {
    if order != [] {
      RegisteredEndpointsAreAssetEndpoints(name, sources, order[..|order| - 1]);
    }
  }

  // ---------------------------------------------------------------------
  // The asset endpoints' requests

  /** The parameters the glyph endpoint hands to getGlyphs. */
  function GlyphsRequest(name: string, fontstack: string, range: string): Params
  {
    Params(Some("glyphs"), Some(name), Some(fontstack), Some(range), None)
  }

  /** The parameters the sprite endpoint hands to getSprite. */
  function SpriteRequest(name: string, filename: string): Params
  {
    Params(Some("sprite"), Some(name), None, None, Some(filename))
  }

  /** The asset cache's directory layout ignores the layer: two layers asking
      for the same glyph range, or the same sprite file, share one cache
      entry. */
  lemma AssetCacheIgnoresLayer(a: string, b: string, fontstack: string, range: string, filename: string)
    ensures FileFromDirectory(Some(AssetsDataPath), GlyphsRequest(a, fontstack, range))
            == FileFromDirectory(Some(AssetsDataPath), GlyphsRequest(b, fontstack, range))
            == Some(AssetsDataPath + "/glyphs/" + fontstack + "/" + range + ".pbf")
    ensures FileFromDirectory(Some(AssetsDataPath), SpriteRequest(a, filename))
            == FileFromDirectory(Some(AssetsDataPath), SpriteRequest(b, filename))
            == Some(AssetsDataPath + "/sprites/sprites" + filename)
  {
  }
}
