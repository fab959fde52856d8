# mambo-tile-api, modelled in Dafny

mambo-tile-api is a small map tile server. It keeps a table of layers in a
JSON file under the data path. For each layer it registers tile routes on a
tilestrata server: a disk cache, then an origin proxy, an `.mbtiles` archive,
or a retina resize chain. Vector layers get one tile layer per upstream
source, plus glyph, sprite and style endpoints. Glyphs and sprites are
served from a filesystem cache and fetched from the layer's upstream URL on
a miss. Layer records are normalised to a fixed schema. The upstream style
of a vector layer is rewritten so that every URL points at this server.
An HTTP API adds, deletes and flushes layers; adding or deleting schedules
a rebuild of the tile server.

The model has one module per source file:

- `Js` (js.dfy): the JavaScript value semantics the code relies on:
  - JSON values, with an undefined property as `None`;
  - truthiness;
  - own enumerable properties, i.e. what `for…in` visits and `Object.assign` copies;
  - string coercion;
  - `replace` with a string pattern, which replaces the first occurrence only.
- `Conf` (conf.dfy): the configuration constants of conf/conf.js.
- `Files` (files.dfy): the filesystem, a map from path to node held by a class.
- `AssetCache` (asset_cache.dfy): the filesystem cache class of
  lib/assetCache.js. Its `Get` and `Set` methods are proved against the
  `Lookup` and `Store` functions.
- `AssetStorage` (asset_storage.dfy): cache-or-fetch for glyphs and sprites.
- `LayerSchema` (layer_schema.dfy): `normalize`.
- `LayerService` (layer_service.dfy): `computeSource`, `computeStyle`, `processLayer`.
- `LayerUtils` (layer_utils.dfy): the four pipeline builders and the status
  remap. The tile server and the web application are classes whose
  registries are logs of what was registered, in order.
- `LayerStorage` (layer_storage.dfy): the layer table and its file.
- `Server` (server.dfy): index.js, covering the request validation, the
  older builders and the tile server setup.
- `Db` (db.dfy): the MongoDB connection string.

The environment enters as parameters:
- the clock (`now`, in milliseconds);
- HTTP fetches (`Origin`, `StyleFetch`), and the layer lookup (`LayerLookup`);
- whether a file write fails;
- the enumeration order of `for…in` over an object's keys (`order`).

## Model

| member | source | states |
|---|---|---|
| AssetCache.ChooseStrategy | lib/assetCache.js:14-20 | A function `path` is used as the resolver. A non-empty string `path` is a template. Anything else selects the fixed directory layout. Each case holds in both directions. |
| AssetCache.Create | lib/assetCache.js:8-21 | Construction fails, with the library's message, exactly when `refreshage` is set without `maxage`. Otherwise the new cache holds the options and the chosen resolver. |
| AssetCache.FileSystemCache.constructor | lib/assetCache.js:8-21 | Stores the options and picks the path resolver. |
| AssetCache.FileSystemCache.Get | lib/assetCache.js:76-116 | The callback outcome is `Lookup` of the filesystem state: a miss, a hit with its bytes and refresh flag, or an error. Nothing on disk changes. |
| AssetCache.FileSystemCache.Set | lib/assetCache.js:125-129 | The new filesystem and the callback error are those of `Store`. The file is written, stamped with the current time, unless maxage is 0, no path resolves or the write fails. |
| Js.ReplaceFirst | lib/assetCache.js:26-31 | A string without the pattern's first character comes back unchanged. When the pattern occurs, the length changes by the replacement's length minus the pattern's. |
| AssetCache.FileFromTemplate | lib/assetCache.js:25-32 | A template without a brace is the path itself, whatever the parameters. |
| AssetCache.FileFromDirectory | lib/assetCache.js:34-41 | A path exists exactly for glyph and sprite requests, and it always lies inside `<dir>/`. Any other type falls out of the switch with no path. |
| AssetCache.AgeTolerance | lib/assetCache.js:50-53 | An unset age stays unset (the source's NaN). The tolerance is zero exactly for zero, and positive exactly for a positive age. |
| AssetCache.ShouldServe | lib/assetCache.js:55-60 | Without maxage, every file is served. With a non-positive maxage, only a file stamped after the current time is served. |
| AssetCache.ShouldRefresh | lib/assetCache.js:62-67 | Without refreshage, nothing is flagged. With a non-negative refreshage, only a file stamped before the current time is flagged. |
| AssetCache.Lookup | lib/assetCache.js:76-116 | maxage 0 is a miss. The lookup fails with the no-path error exactly when maxage is not 0 and no path resolves. A hit comes from an openable file at the resolved path, inside its freshness window, with that file's bytes and the refresh flag of its stamp. Conversely, a readable file at the resolved path inside its window, with maxage not 0, is a hit with its bytes and refresh flag. |
| AssetCache.Store | lib/assetCache.js:125-129 | An error leaves the disk unchanged. The only possible change is the data, stamped now, at the resolved path. maxage 0 does nothing. With no error and maxage not 0, the file at the resolved path is that data. |
| AssetCache.SetThenGet | lib/assetCache.js:55-129 | With maxage not 0, a successful `set` followed by a `get` still inside the freshness window of the write returns the same bytes, with the refresh flag of the write time. |
| AssetCache.FiveSecondWindow | lib/assetCache.js:55-60 | With maxage 5, a file written at time T is served at T+4s and reported absent at T+6s. |
| AssetCache.MaxAgeZeroBypasses | lib/assetCache.js:86-127 | With maxage 0, `get` never finds anything and `set` never writes or errs. |
| AssetCache.StaleEntryIsAbsent | lib/assetCache.js:100-102 | A file past its freshness window is reported absent, not as an error. |
| AssetCache.WindowsOnlyDecay | lib/assetCache.js:55-67 | Once a file is no longer served, it stays unserved at every later time. Once flagged for refresh, it stays flagged. |
| AssetCache.MissingIsAbsentOtherErrorsPropagate | lib/assetCache.js:91-95 | A missing file, or an ENOENT from open, is a miss. Any other open error is passed on as an error with its code. |
| AssetCache.TemplateSplicesFontstackAndRange | lib/assetCache.js:25-32 | If a template holds `{fontstack}` then `{range}` and no other brace, the two parameters are spliced in and every other placeholder replacement is a no-op. |
| AssetCache.OtherSlotAbsent | lib/assetCache.js:25-32 | In such a template, replacing any braced name other than `{fontstack}` and `{range}` (`{type}`, `{layer}`, `{filename}` among them) changes nothing. |
| AssetCache.SpliceTwoSlots | lib/assetCache.js:27-28 | Filling `{fontstack}` and then `{range}` splices the two values in place. |
| AssetCache.GlyphTemplateMatchesDirectory | lib/assetCache.js:25-37 | The template spelling of the glyph layout resolves a glyph request to the same file as the directory layout. |
| AssetStorage.Serve | lib/assetStorage.js:13-62 | A hit serves the cached bytes, with no fetch and no write. After a miss or a cache error, the layer's URL is fetched when there is one. A successful fetch is served and stored, whatever the write then reports; a failed one leaves the request pending and the disk unchanged. A lookup that throws, or a missing URL, leaves the request pending with nothing fetched or written. Conversely, a fetch happens only in those cases, and the disk changes only by storing the fetched bytes. |
| AssetStorage.GetGlyphs | lib/assetStorage.js:13-38 | The response, the URL fetched and the new disk are `Serve` of the old disk with the layer's glyph URL. A hit is served with no fetch. A type with no cache path makes `get` throw, so the request is rejected. A missing template or response leaves it pending with the disk unchanged. |
| AssetStorage.GetSprite | lib/assetStorage.js:41-62 | The same, with the sprite URL `meta.spriteSource + filename` under JavaScript's `+`. |
| AssetStorage.GlyphsUrl | lib/assetStorage.js:17-21 | There is a URL exactly when `meta.glyphsSource` is a string (`replace` on anything else throws). A template without a brace is fetched as it is. |
| AssetStorage.SpriteUrl | lib/assetStorage.js:45-46 | There is a URL only when `meta` can be read, and with a filename exactly then. The URL ends with the filename. |
| AssetStorage.AssetCacheConfiguration | lib/assetStorage.js:4 | The asset cache's options pass the constructor check and select the directory layout. |
| AssetStorage.StoredAssetIsServedForever | lib/assetStorage.js:28-33 | Without a freshness window, a stored asset is a hit at every later time and is never flagged for refresh. |
| AssetStorage.CacheErrorFetches | lib/assetStorage.js:15-27 | When the cached file cannot be opened, for a reason other than ENOENT, the layer's URL is fetched as on a miss, and the fetched bytes are served. |
| AssetStorage.MissFetchesAndStores | lib/assetStorage.js:16-27 | A glyph or sprite request with nothing cached fetches the layer's URL. A successful fetch is served and stored whatever the write reports, and with no write error the file at the cache path is those bytes, stamped now. |
| AssetStorage.UnknownTypeIsRejected | lib/assetStorage.js:14-15 | A request of a type other than glyphs or sprite resolves no cache path, so `get` throws. Nothing is fetched, served or written. |
| AssetStorage.FetchedAssetIsCached | lib/assetStorage.js:24-29 | After bytes are fetched and written, every later request for the same asset is served those bytes from the cache, at any time and with no fetch. |
| AssetStorage.ProcessedRecordHasNoMetaTemplates | lib/assetStorage.js:17-46 | A record as `processLayer` leaves it keeps `normalize`'s meta, which holds no `glyphsSource` or `spriteSource`. Looked up as is, it yields no glyph URL, and a sprite URL of "undefined" followed by the filename. |
| AssetStorage.FillGlyphsTemplateSplices | lib/assetStorage.js:18-21 | A `{fontstack}…{range}` glyph template is filled by splicing in the two parameters. |
| AssetStorage.GlyphsUrlOfLayer | lib/assetStorage.js:17-21 | A layer whose `meta.glyphsSource` has that shape gets exactly that URL. |
| LayerSchema.Select | lib/schema/Layer.js:29-46 | Keeps exactly the listed keys that the value has, with their values. Undefined fields vanish in the JSON round trip. |
| LayerSchema.Normalize | lib/schema/Layer.js:28-47 | Throws exactly when the layer, or its meta, is null or missing. Otherwise the result has `meta` with the ten meta fields that are present, plus the present fields among source, glyphsSource, spriteSource and sources, copied unchanged. |
| LayerSchema.NormalizeShape | lib/schema/Layer.js:28-47 | Every successful normalisation has the normalised shape. |
| LayerSchema.NormalizedIsFixedPoint | lib/schema/Layer.js:28-47 | A record of the normalised shape normalises to itself. |
| LayerSchema.NormalizeIdempotent | lib/schema/Layer.js:28-47 | `normalize(normalize(x)) == normalize(x)`. |
| LayerSchema.NormalizedTopLevel | lib/schema/Layer.js:29-46 | A normalised record has no top-level `name`, `vector`, `style` or `_id`. |
| LayerService.Meta | lib/layerUtils.js:10-12 | `layer.meta` read as an object: for an object `meta`, exactly its properties. |
| LayerService.ComputeSource | lib/layerService.js:108-116 | The URL is `<base>/maps/<name>/` followed by `style.json` for a vector layer, the `@2x` tile template for a retina layer, or the plain template. |
| LayerService.SourceRoundTrip | lib/layerService.js:108-116 | The source URL can be parsed back to the layer name and the resource kind, so distinct layers never share a source URL. |
| LayerService.RewriteSource | lib/layerService.js:130-132 | Copies a source entry with `tiles` replaced by this server's `<name>-<k>` template. |
| LayerService.RewriteSources | lib/layerService.js:129-133 | Exactly the upstream source ids are kept, each one rewritten. |
| LayerService.ComputeStyle | lib/layerService.js:124-135 | Throws exactly when the upstream style is null. Otherwise the style is the upstream one with glyphs, sprite and sources pointed at this server and every other field copied. |
| LayerService.StyleOfParts | lib/layerService.js:124-135 | Upstream fields, with glyphs, sprite and sources replaced by this server's templates and a faithful rewrite of every source, make the pointed style. |
| LayerService.RewrittenSourcesUnique | lib/layerService.js:129-133 | The rewritten sources are determined by the upstream sources. |
| LayerService.RewriteUnique | lib/layerService.js:130-132 | A source's rewrite is determined by its upstream entry. |
| LayerService.StyleUnique | lib/layerService.js:124-135 | The rewritten style is determined by the name and the upstream style. |
| LayerService.StyleRewriteExample | lib/layerService.js:124-135 | A one-source upstream style, rewritten for layer "demo". |
| LayerService.ApplyUpstreamStyle | lib/layerService.js:69-74 | The vector branch's assignments: glyphs, sprite and sources are copied from upstream, and source and style are computed. Every other property is unchanged. |
| LayerService.ProcessNormalized | lib/layerService.js:61-80 | The raster branch only sets `source`. The vector branch fetches `meta.source`. It fails exactly when the fetch fails or returns null, and otherwise yields the vector result. |
| LayerService.ProcessLayerAsWritten | lib/layerService.js:61-80 | As the code reads: it fails only when `normalize` throws. It never fetches, only sets `source`, and never sets `style`. |
| LayerService.ProcessLayer | lib/layerService.js:61-80 | Corrected: branches on `meta.vector` and names the style after `meta.name`. |
| LayerService.StyleNameAsWritten | lib/layerService.js:126-127 | The name `computeStyle` reads from a normalised record is always "undefined". |
| LayerService.VectorFlagOnlyUnderMeta | lib/layerService.js:61-64 | For any layer whose meta says `vector: true`, normalisation succeeds and keeps that flag under `meta`, but the top-level `vector` that the code tests is falsy. The source URL still ends in `style.json`. |
| LayerUtils.RetinaRoutes | lib/layerUtils.js:14-23 | The `*@2x.png` route is the cache followed by the origin. The `*.png` route is the cache, then a dependency on `*@2x.png`, then a resize to 256. |
| LayerUtils.TilesLayer | lib/layerUtils.js:11-28 | One route, or two when retina. Each starts with the layer's disk cache. No route contacts an origin or an archive. |
| LayerUtils.ProxyLayer | lib/layerUtils.js:30-49 | The cache and then a proxy to `meta.source`. When retina, only the `@2x` route proxies. |
| LayerUtils.ArchiveLayer | lib/layerUtils.js:86-109 | One `*.png` route ending in `<dataPath>/<name>.mbtiles`. The status remap is present exactly when asked for, and then it comes first. |
| LayerUtils.VectorSourceLayer | lib/layerUtils.js:53-57 | Layer `<name>-<k>` with one `*.pbf` route: the cache, then a proxy to `tiles[0]` with decompression always on. |
| LayerUtils.Registered | lib/layerUtils.js:51-84 | What the vector builder registers: at most one tile layer per visited source. |
| LayerUtils.CreateTilesLayer | lib/layerUtils.js:11-28 | For any record whose `meta` can be read, appends `TilesLayer(meta.name, meta.retina)` to the tile server. |
| LayerUtils.CreateProxyLayer | lib/layerUtils.js:30-49 | For any record whose `meta` can be read, appends `ProxyLayer(meta.name, meta.retina, meta.source)`. |
| LayerUtils.CreateMBTilesLayer | lib/layerUtils.js:86-109 | For any record whose `meta` can be read, appends the archive layer with the status remap first. |
| LayerUtils.CreateVectorProxyLayer | lib/layerUtils.js:51-84 | For any record whose `meta` can be read, registers exactly `Registered(meta.name, sources, order)`: a tile layer per source, and the asset endpoints with each source. It stops at the first source whose tile URL cannot be read. |
| LayerUtils.RegisterSources | lib/layerUtils.js:53-83 | The loop over the source ids meets the same contract. |
| LayerUtils.RegisterSource | lib/layerUtils.js:54-82 | One iteration: it throws exactly when `tiles[0]` cannot be read, leaving a cache-only layer. Otherwise it adds the source layer and the three endpoints. |
| LayerUtils.PrefixThrown | lib/layerUtils.js:53-57 | Nothing is registered after the throw. |
| LayerUtils.RemappedStatus | lib/layerUtils.js:95-100 | The remapped status is never 500, and differs from the input only when the input is 500. |
| LayerUtils.Reshook | lib/layerUtils.js:95-100 | Overwrites the result's status in place with the remapped status. |
| LayerUtils.RemapIdempotent | lib/layerUtils.js:96-98 | Remapping twice is remapping once. |
| LayerUtils.RetinaPlainRouteStaysLocal | lib/layerUtils.js:14-42 | The plain route of a retina layer renders from its own `@2x` route and contacts no origin. It is the same for tiles and proxy layers. |
| LayerUtils.RegisteredWithoutErrors | lib/layerUtils.js:53-83 | When every tile URL can be read, nothing throws and there is exactly one tile layer per source, each for its own source, in visiting order. |
| LayerUtils.LayersForAppend | lib/layerUtils.js:53-57 | Visiting one more readable source appends exactly its own tile layer. |
| LayerUtils.EndpointsOncePerSource | lib/layerUtils.js:58-82 | When every tile URL can be read, the three asset endpoints are registered once per source, and none without sources. |
| LayerUtils.LoggedTurn | lib/layerUtils.js:53-83 | Appending one visit's registrations to the log is the log of the extended visit. |
| LayerUtils.RegisteredEndpointsAreAssetEndpoints | lib/layerUtils.js:58-82 | Every endpoint registered is one of the layer's three asset endpoints. |
| LayerUtils.AssetCacheIgnoresLayer | lib/layerUtils.js:59-74 | The requests the endpoints build resolve to cache paths without the layer name, so two layers share glyph and sprite cache entries. |
| Files.RemoveTree | lib/layerStorage.js:50 | Removes exactly the files whose path is the root or extends it by `/`, and leaves the others untouched. Paths are compared as strings. |
| LayerStorage.WithEntry | lib/layerStorage.js:31 | The key is inserted or replaced, and every other key is unchanged. |
| LayerStorage.WithoutEntry | lib/layerStorage.js:40 | The key is removed, and every other key is unchanged. |
| LayerStorage.LayerStore.Init | lib/layerStorage.js:8-18 | Corrected: the data path exists before the seed is written. A missing layers file is seeded with the default layers, and the table is then the file's contents. |
| LayerStorage.LayerStore.InitAsWritten | lib/layerStorage.js:8-18 | As written: `init` throws exactly when there is no layers file and the data path does not exist yet. Otherwise it behaves like the corrected `init`. |
| LayerStorage.LayerStore.GetLayers | lib/layerStorage.js:20-28 | Reloads the table from the file and returns a copy. An unreadable file yields nothing and leaves the table unchanged. |
| LayerStorage.LayerStore.AddLayer | lib/layerStorage.js:30-37 | The table gains the record under its name coerced to a string. The file becomes the whole table unless the write fails. |
| LayerStorage.LayerStore.DeleteLayer | lib/layerStorage.js:39-46 | The entry is removed and the file is rewritten, unless the write fails. |
| LayerStorage.LayerStore.FlushCache | lib/layerStorage.js:49-56 | Removes the path `<dataPath>/<name>` and the paths under it, compared as strings. The table is untouched. The file is gone exactly when the layers file lies under that path. |
| LayerStorage.AddThenDelete | lib/layerStorage.js:30-46 | Deleting what was just added gives the same table as deleting alone. |
| LayerStorage.AddIdempotent | lib/layerStorage.js:31 | Adding the same record twice is the same as adding it once. |
| LayerStorage.NamelessKey | lib/layerStorage.js:31 | A record without a name is stored under "undefined". |
| LayerStorage.FlushKeepsLayersFile | lib/layerStorage.js:49-56 | For a name that is one plain path segment, flushing removes the layers file exactly when the name is "layers.json". |
| Server.OnLayerAdd | index.js:67-88 | Rejected, with nothing changed, exactly when the body, its type or its name is falsy, or a proxy layer has no source. Otherwise the record is stored and a reset is scheduled. |
| Server.OnLayerDelete | index.js:90-98 | Rejected exactly when the name is missing or empty. Otherwise the entry is deleted and a reset is scheduled. |
| Server.OnLayerCacheFlush | index.js:100-107 | Rejected exactly when the name is missing or empty. Otherwise the layer's cache directory is removed, with no reset. |
| Server.CreateTilesLayer | index.js:16-33 | The older tiles builder appends `LayerFor(layer)`. |
| Server.CreateProxyLayer | index.js:35-54 | The older proxy builder appends `LayerFor(layer)`, proxying the flat `source`. |
| Server.CreateMBTilesLayer | index.js:56-64 | The older archive builder appends `LayerFor(layer)`. |
| Server.DispatchLayer | index.js:128-139 | The record, named after its key, goes to the builder for its type. An unknown type registers nothing. |
| Server.BuildStrata | index.js:124-140 | A fresh tile server holding `Dispatched(layers, order)`. |
| Server.BuildApp | index.js:141-149 | A fresh application with the `/maps` middleware and the four layer endpoints, in order. |
| Server.LayerFor | index.js:16-64 | A layer is registered only for the types tiles, mbtiles and proxy. It is named after the record's `name`, and every route reads that layer's disk cache first. Only a proxy record gets a proxy step. |
| Server.InitTileServer | index.js:123-153 | With no readable layers file, there is no server and the table is unchanged. Otherwise the table is reloaded from the file, and the server holds the dispatched layers and the application routes. The file itself is unchanged. |
| Server.NameResolution | index.js:128 | The key becomes the name unless the stored record has its own `name`, which wins. |
| Server.UnknownTypesRegisterNothing | index.js:129-139 | Only the types tiles, mbtiles and proxy register a layer. |
| Server.OlderArchiveHasNoRemap | index.js:56-64 | The older archive chain has no status remap; the newer one has it. |
| Server.AddChecks | index.js:69-84 | With a name and a type, only a proxy layer without a source is rejected. Unknown types are accepted. |
| Server.NamelessBodyRejected | index.js:69-71 | A body without a truthy name is always rejected. |
| Server.DispatchedCount | index.js:127-140 | At most one tile layer per stored layer, and exactly one each when every type is recognised. Every layer registered reads its own disk cache first. |
| Server.DispatchedStep | index.js:127-140 | Dispatching one more stored layer appends exactly what its builder registers. |
| Db.ConnectUrl | lib/db/index.js:4-16 | The appended string equals `MongoUrl(db)`. |
| Db.UrlFrame | lib/db/index.js:5-14 | The string starts with `mongodb://` and ends with `/` followed by the database. |
| Db.IndexOf | lib/db/index.js:5-14 | Finds the first occurrence of a character: none exactly when absent, otherwise a position holding it with no earlier one. |
| Db.AuthorityRoundTrip | lib/db/index.js:10-12 | `host[:port]` parses back into host and port. |
| Db.HostPartRoundTrip | lib/db/index.js:10-14 | `host[:port]/database` parses back into its three parts. |
| Db.AfterSchemeWithoutCredentials | lib/db/index.js:10-14 | Without credentials, the text after the scheme parses back into host, port and database. |
| Db.AfterSchemeWithCredentials | lib/db/index.js:6-14 | With credentials, the text after the scheme also gives back username and password. |
| Db.ParseRenderRoundTrip | lib/db/index.js:5-14 | A rendered connection string parses back into exactly its parts. |
| Db.ParseMongoUrlRoundTrip | lib/db/index.js:4-16 | Credentials appear exactly when both username and password are truthy, and the port exactly when it is truthy. The host and the database are recovered. |
| Db.MongoUrlInjective | lib/db/index.js:5-14 | Unambiguous settings with different intended parts give different strings. |
| Db.DefaultUrl | conf/conf.js:2-10 | The shipped settings give no credentials and no port, host "localhost" and database "tile". |

## Left out

- Express, body-parser and HTTP responses are not modelled.
  - A handler's outcome is `Rejected` or `Accepted`.
  - `res.end(400)` is modelled only as a rejection: it does not actually set status 400.
  - The request body is given as a value.
  - The `/layers` GET handler only hands back `getLayers`.
- The tilestrata plugins' own behaviour is out of scope: the disk cache, the proxy, the dependency, the sharp resize and the mbtiles reader (lib/tilestrataMBTiles.js). Only the chains that are registered are modelled.
- Axios requests are function parameters. The model does not capture headers, timeouts or byte encodings.
- Mongoose is not modelled. This covers:
  - the layer `init`, `initLayer`, `processDefaultLayers`, `processMBTiles`, `getLayer`, `getLayers`, `addLayer`, `deleteLayer` and `flushCache` in lib/layerService.js;
  - the Mongoose model in lib/schema/Layer.js, and lib/schema/Style.js;
  - `mongoose.connect`.
- `getStyle` is called by the style endpoint but defined nowhere in lib/layerService.js. The model records only the endpoint's registration.
- `assetStorage.init` and `FileSystemCache.init` are not modelled. They only ensure that directories exist, and directories are implicit in the filesystem model.
- Timers are not modelled. The 500 ms reset, `server.close` and `app.listen` become the `resetScheduled` flag and a rebuilt server.
- Concurrency is not modelled. Callbacks run to completion one at a time, and concurrent requests are not interleaved.
- The enumeration order of `for…in` is an input (`order`), with the source's keys enumerated exactly once.
- Numbers are integers. `age*1000` on a non-numeric option (NaN) and fractional seconds are not modelled. An unset age is `None`.
- In `replace`, `$` patterns in the replacement string are not interpreted.
- An `fstat` failure is folded into a failed open, and a short read is not modelled.
- A layers file that is not valid JSON is not modelled.
- Errors thrown asynchronously by failed writes are not modelled. A failed write leaves the file as it was.
- Object identity and aliasing are not modelled. `Object.assign({}, layers)` and the table are values, so the copy returned by `getLayers` cannot alias the table.
- The logging calls are not modelled.
- A read error of the layers file is thrown inside the `fs.readFile` callback, an uncaught exception that ends the process. The model has `getLayers` yield nothing: no server is built, the table is unchanged, and the handlers stay usable.
- LayerUtils.CreateTilesLayer, LayerUtils.CreateProxyLayer, LayerUtils.CreateMBTilesLayer, LayerUtils.CreateVectorProxyLayer: a record without a readable `meta` is not modelled. There, `layer.meta.name` throws a TypeError before anything is registered, and no caller passes such a record.
- Files.RemoveTree: paths are strings, and `.`, `..` and repeated separators are not resolved. The string test agrees with the filesystem only for plain names.
- LayerStorage.LayerStore.FlushCache: the name is not resolved as a path. In the source, a name such as `..`, `.`, the empty name or `osm/../layers.json` removes the data path, its parent or the layers file. The model removes only the paths that extend `<dataPath>/<name>` as strings. LayerStorage.FlushKeepsLayersFile is stated only for plain one-segment names.
- The layer lookup of the asset endpoints is a parameter, not tied to the stored records. `getLayer` queries the Mongoose model by `_id` with the layer name, and that store is not modelled. AssetStorage.ProcessedRecordHasNoMetaTemplates shows what a record shaped by `processLayer` would give.
- LayerUtils.CreateVectorProxyLayer: assumes the enumeration order lists each source key exactly once, as `for…in` does.
- Db.ParseMongoUrlRoundTrip: holds only for settings with no `@`, `:` or `/` where the parser splits first. Other settings make the string ambiguous.

## Findings

| source | as written | input that shows it | evidently intended | confidence | as-written member | corrected member |
|---|---|---|---|---|---|---|
| lib/layerService.js:64 | branches on `layer.vector`, which `normalize` never leaves at the top level, so the vector branch is unreachable | `{meta: {name: "osm", vector: true, source: "http://x/style.json"}}`: no style is fetched and no `style` is set | branch on `layer.meta.vector` | high, not executed | LayerService.ProcessLayerAsWritten | LayerService.ProcessLayer |
| lib/layerStorage.js:11-14 | `fs.ensureDir(conf.dataPath)` is not awaited, so the directory does not exist yet when `writeFileSync` seeds the layers file | first start with no data directory: the synchronous write fails with ENOENT and `init` throws at module load | create the data path before writing the seed (`ensureDirSync`) | medium, not executed | LayerStorage.LayerStore.InitAsWritten | LayerStorage.LayerStore.Init |
| lib/layerService.js:126-127 | `computeStyle` reads `layer.name`, which is undefined on a normalised record | any normalised layer: its glyph URL becomes `<base>/glyphs/undefined/{fontstack}/{range}.pbf` | use `layer.meta.name` | high, not executed | LayerService.StyleNameAsWritten | LayerService.ProcessLayer |
