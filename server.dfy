/**
 * The administration endpoints and the tile server setup of index.js: the
 * validation of add, delete and flush requests, the older route builders,
 * which read a flat record (`layer.name`, `layer.retina`, `layer.source`),
 * and the dispatch of every stored layer to its builder by `type`.
 */
module Server {
  import opened Js
  import opened Files
  import opened LayerStorage
  import U = LayerUtils

  /** What a handler did: refused the request without touching anything, or
      carried it out, scheduling a server reset or not. */
  datatype Reply = Rejected | Accepted(resetScheduled: bool)

  /** A route parameter is present and non-empty. */
  predicate ParamGiven(p: Option<string>)
  {
    p.Some? && p.value != ""
  }

  /** `layer[k]` of a truthy request body. */
  function BodyField(body: Option<Json>, k: string): Option<Json>
    requires Truthy(body)
  {
    Field(Own(body.value), k)
  }

  /** The layer types the add handler recognises; any other type is stored
      without further checks. */
  predicate IsProxyType(t: Option<Json>)
  {
    t == Some(JStr("proxy"))
  }

  /** The checks of `onLayerAdd`: a missing body, type or name, or a proxy
      layer without a source. */
  predicate AddRejected(body: Option<Json>)
  {
    !Truthy(body) || !Truthy(BodyField(body, "type")) || !Truthy(BodyField(body, "name"))
    || (IsProxyType(BodyField(body, "type")) && !Truthy(BodyField(body, "source")))
  }

  /** `onLayerAdd`: rejects a missing body, type or name, and a proxy layer
      without a source; otherwise stores the body under its name and
      schedules a reset. */
  method OnLayerAdd(storage: LayerStore, body: Option<Json>, writeFails: bool) returns (reply: Reply)
    modifies storage
    ensures reply.Rejected? <==> AddRejected(body)
    ensures reply.Rejected? ==> storage.layers == old(storage.layers) && storage.file == old(storage.file)
    ensures reply.Accepted? ==>
              && reply.resetScheduled
              && storage.layers == WithEntry(old(storage.layers), KeyOf(body.value), body.value)
              && storage.file == (if writeFails then old(storage.file) else Some(storage.layers))
  {
    if !Truthy(body) || !Truthy(BodyField(body, "type")) || !Truthy(BodyField(body, "name")) {
      return Rejected;
    }
    var layer := body.value;
    if IsProxyType(BodyField(body, "type")) && !Truthy(BodyField(body, "source")) {
      return Rejected;
    }
    storage.AddLayer(layer, writeFails);
    reply := Accepted(true);
  }

  /** `onLayerDelete`: rejects a missing name; otherwise deletes the entry
      and schedules a reset. */
  method OnLayerDelete(storage: LayerStore, name: Option<string>, writeFails: bool) returns (reply: Reply)
    modifies storage
    ensures reply.Rejected? <==> !ParamGiven(name)
    ensures reply.Rejected? ==> storage.layers == old(storage.layers) && storage.file == old(storage.file)
    ensures reply.Accepted? ==>
              && reply.resetScheduled
              && storage.layers == WithoutEntry(old(storage.layers), name.value)
              && storage.file == (if writeFails then old(storage.file) else Some(storage.layers))
  {
    if !ParamGiven(name) {
      return Rejected;
    }
    storage.DeleteLayer(name.value, writeFails);
    reply := Accepted(true);
  }

  /** `onLayerCacheFlush`: rejects a missing name; otherwise removes the
      layer's cache directory, and schedules no reset. */
  method OnLayerCacheFlush(storage: LayerStore, fs: FileSystem, name: Option<string>) returns (reply: Reply)
    modifies storage, fs
    ensures reply.Rejected? <==> !ParamGiven(name)
    ensures reply.Rejected? ==> fs.files == old(fs.files) && storage.file == old(storage.file)
    ensures reply == Rejected || reply == Accepted(false)
    ensures storage.layers == old(storage.layers)
    ensures reply.Accepted? ==>
              && fs.files == RemoveTree(old(fs.files), FlushRoot(name.value))
              && storage.file == (if Under(LayersFile, FlushRoot(name.value)) then None else old(storage.file))
  {
    if !ParamGiven(name) {
      return Rejected;
    }
    storage.FlushCache(fs, name.value);
    reply := Accepted(false);
  }

  // ---------------------------------------------------------------------
  // The older route builders and the dispatch

  /** `Object.assign({"name": l}, layers[l])`: the key as `name`, then every
      own property of the stored record, its own `name` included. */
  function WithName(l: string, v: Json): map<string, Json>
  {
    map["name" := JStr(l)] + Own(v)
  }

  /** The tile layer the older builders register for a record, by type;
      None for an unrecognised type. The archive chain has no status remap. */
  function LayerFor(layer: map<string, Json>): (t: Option<U.TileLayer>)
    ensures t.Some? ==> t.value.name == JsString(Field(layer, "name"))
    ensures t.Some? ==> |t.value.routes| > 0 && CachedFirst(t.value)
    ensures t.Some? && Field(layer, "type") != Some(JStr("proxy")) ==>
              forall r <- t.value.routes, s <- r.steps :: !s.Proxy?
  {
    var name := JsString(Field(layer, "name"));
    var retina := Truthy(Field(layer, "retina"));
    var kind := Field(layer, "type");
    if kind == Some(JStr("tiles")) then Some(U.TilesLayer(name, retina))
    else if kind == Some(JStr("mbtiles")) then Some(U.ArchiveLayer(name, false))
    else if kind == Some(JStr("proxy")) then Some(U.ProxyLayer(name, retina, Field(layer, "source")))
    else None
  }

  /** Every route of the layer reads its own disk cache first. */
  predicate CachedFirst(t: U.TileLayer)
  {
    forall r <- t.routes :: |r.steps| > 0 && r.steps[0] == U.DiskCache(U.CacheDir(t.name))
  }

  /** The layers registered after dispatching the stored layers named in
      `order`, in that order. */
  function Dispatched(layers: map<string, Json>, order: seq<string>): (r: seq<U.TileLayer>)
    requires forall l <- order :: l in layers
  {
    if order == [] then []
    else
      var l := order[|order| - 1];
      var prev := Dispatched(layers, order[..|order| - 1]);
      match LayerFor(WithName(l, layers[l]))
      case None => prev
      case Some(t) => prev + [t]
  }

  /** The routes of the web application: the tile server under `/maps` and
      the four layer administration endpoints. */
  const AppRoutes: seq<U.AppRoute> := [
    U.AppRoute(U.Use, "/maps", U.TileMiddleware("/maps")),
    U.AppRoute(U.Get, "/layers", U.LayersGet),
    U.AppRoute(U.Post, "/layers", U.LayerAdd),
    U.AppRoute(U.Delete, "/layers/:name", U.LayerDelete),
    U.AppRoute(U.Delete, "/layers/flush/:name", U.LayerFlush)]

  /** The older `createTilesLayer`. */
  method CreateTilesLayer(strata: U.Strata, layer: map<string, Json>)
    requires Field(layer, "type") == Some(JStr("tiles"))
    modifies strata
    ensures strata.layers == old(strata.layers) + [LayerFor(layer).value]
  {
    var name := JsString(Field(layer, "name"));
    if Truthy(Field(layer, "retina")) {
      strata.AddLayer(U.TileLayer(name, U.RetinaRoutes(name, [])));
    } else {
      strata.AddLayer(U.TileLayer(name, [U.PlainRoute([U.DiskCache(U.CacheDir(name))])]));
    }
  }

  /** The older `createProxyLayer`: the origin is the flat `source`. */
  method CreateProxyLayer(strata: U.Strata, layer: map<string, Json>)
    requires Field(layer, "type") == Some(JStr("proxy"))
    modifies strata
    ensures strata.layers == old(strata.layers) + [LayerFor(layer).value]
  {
    var name := JsString(Field(layer, "name"));
    var origin := U.Proxy(Field(layer, "source"), false);
    if Truthy(Field(layer, "retina")) {
      strata.AddLayer(U.TileLayer(name, U.RetinaRoutes(name, [origin])));
    } else {
      strata.AddLayer(U.TileLayer(name, [U.PlainRoute([U.DiskCache(U.CacheDir(name)), origin])]));
    }
  }

  /** The older `createMBTilesLayer`: cache, then archive, and no remap. */
  method CreateMBTilesLayer(strata: U.Strata, layer: map<string, Json>)
    requires Field(layer, "type") == Some(JStr("mbtiles"))
    modifies strata
    ensures strata.layers == old(strata.layers) + [LayerFor(layer).value]
  {
    var name := JsString(Field(layer, "name"));
    var cache, archive := U.DiskCache(U.CacheDir(name)), U.Archive(U.CacheDir(name) + ".mbtiles");
    strata.AddLayer(U.TileLayer(name, [U.PlainRoute([cache, archive])]));
  }

  /** The `switch (layer.type)` of `initTileServer` for one stored layer. */
  method DispatchLayer(strata: U.Strata, l: string, stored: Json)
    modifies strata
    ensures strata.layers == old(strata.layers) + (match LayerFor(WithName(l, stored))
                                                   case None => []
                                                   case Some(t) => [t])
  {
    var layer := WithName(l, stored);
    var kind := Field(layer, "type");
    if kind == Some(JStr("tiles")) {
      CreateTilesLayer(strata, layer);
    } else if kind == Some(JStr("mbtiles")) {
      CreateMBTilesLayer(strata, layer);
    } else if kind == Some(JStr("proxy")) {
      CreateProxyLayer(strata, layer);
    }
  }

  /** The dispatch loop of `initTileServer`: a fresh tile server with every
      layer named in `order` dispatched to its builder, in that order. */
  method BuildStrata(table: map<string, Json>, order: seq<string>) returns (strata: U.Strata)
    requires forall l <- order :: l in table
    ensures fresh(strata)
    ensures strata.layers == Dispatched(table, order)
  {
    strata := new U.Strata();
    var i := 0;
    while i < |order|
      invariant 0 <= i <= |order|
      invariant fresh(strata)
      invariant strata.layers == Dispatched(table, order[..i])
    {
      DispatchedStep(table, order, i);
      DispatchLayer(strata, order[i], table[order[i]]);
      i := i + 1;
    }
    assert order[..i] == order;
  }

  /** Dispatching one more layer appends what its builder registers. */
  lemma DispatchedStep(table: map<string, Json>, order: seq<string>, i: nat)
    requires forall l <- order :: l in table
    requires i < |order|
    ensures Dispatched(table, order[..i + 1])
            == Dispatched(table, order[..i]) + (match LayerFor(WithName(order[i], table[order[i]]))
                                                case None => []
                                                case Some(t) => [t])
  {
    assert order[..i + 1][..i] == order[..i];
  }

  /** The web application of `initTileServer`, with its routes registered. */
  method BuildApp() returns (app: U.App)
    ensures fresh(app)
    ensures app.routes == AppRoutes
  {
    app := new U.App();
    var j := 0;
    while j < |AppRoutes|
      invariant 0 <= j <= |AppRoutes|
      invariant fresh(app)
      invariant app.routes == AppRoutes[..j]
    {
      app.Register(AppRoutes[j]);
      j := j + 1;
    }
  }

  /** `initTileServer`: reads the layers, registers each on a fresh tile
      server in the enumeration order `order`, and builds a fresh web
      application. None when the layers file cannot be read, which leaves the
      callback, and so the setup, never run. */
  method InitTileServer(storage: LayerStore, order: seq<string>)
    returns (server: Option<(U.Strata, U.App)>)
    requires storage.file.Some? ==> forall l :: l in order <==> l in storage.file.value
    modifies storage
    ensures storage.file == old(storage.file)
    ensures old(storage.file).Some? ==> storage.layers == old(storage.file).value
    ensures old(storage.file).None? ==> storage.layers == old(storage.layers)
    ensures old(storage.file).None? <==> server.None?
    ensures server.Some? ==>
              && fresh(server.value.0) && fresh(server.value.1)
              && server.value.0.layers == Dispatched(old(storage.file).value, order)
              && server.value.1.routes == AppRoutes
  {
    var layers := storage.GetLayers();
    if layers.None? {
      return None;
    }
    var strata := BuildStrata(layers.value, order);
    var app := BuildApp();
    server := Some((strata, app));
  }

  // ---------------------------------------------------------------------
  // Properties

  /** The layer name is the map key unless the stored record carries its own
      `name`, which then wins. */
  lemma NameResolution(l: string, v: Json)
    ensures "name" in Own(v) ==> WithName(l, v)["name"] == Own(v)["name"]
    ensures "name" !in Own(v) ==> WithName(l, v)["name"] == JStr(l)
  {
  }

  /** Only the three recognised types register anything. */
  lemma UnknownTypesRegisterNothing(layer: map<string, Json>)
    ensures LayerFor(layer).None? <==>
              Field(layer, "type") !in {Some(JStr("tiles")), Some(JStr("mbtiles")), Some(JStr("proxy"))}
  {
  }

  /** The older archive builder has no 500-to-404 remap, unlike the newer one. */
  lemma OlderArchiveHasNoRemap(layer: map<string, Json>)
    requires Field(layer, "type") == Some(JStr("mbtiles"))
    ensures U.StatusRemap !in LayerFor(layer).value.routes[0].steps
    ensures U.StatusRemap in U.ArchiveLayer(JsString(Field(layer, "name")), true).routes[0].steps
  {
  }

  /** A layer of a type other than proxy, recognised or not, is accepted
      with just a name and a type; a proxy layer also needs a source. */
  lemma AddChecks(body: Json)
    requires body.JObj? && Truthy(Field(body.fields, "name")) && Truthy(Field(body.fields, "type"))
    ensures AddRejected(Some(body)) <==> IsProxyType(Field(body.fields, "type")) && !Truthy(Field(body.fields, "source"))
  {
  }

  /** A body that is not an object with a truthy name is always rejected,
      whatever its type. */
  lemma NamelessBodyRejected(body: Option<Json>)
    requires Truthy(body) ==> !Truthy(Field(Own(body.value), "name"))
    ensures AddRejected(body)
  {
  }

  /** Dispatching registers at most one tile layer per stored layer, and
      exactly one each when every stored type is recognised; every layer
      registered reads its own disk cache first. */
  lemma {:induction false} DispatchedCount(layers: map<string, Json>, order: seq<string>)
    requires forall l <- order :: l in layers
    ensures |Dispatched(layers, order)| <= |order|
    ensures (forall l <- order :: LayerFor(WithName(l, layers[l])).Some?) ==> |Dispatched(layers, order)| == |order|
    ensures forall t <- Dispatched(layers, order) :: CachedFirst(t)
  {
    if order != [] {
      DispatchedCount(layers, order[..|order| - 1]);
    }
  }
}
