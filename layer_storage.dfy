/**
 * The layer table (lib/layerStorage.js): an in-memory map from layer name to
 * layer record, mirrored in a JSON layers file under the data path. Adding
 * and deleting update the map in place and rewrite the whole file; flushing
 * removes a layer's tile cache directory.
 */
module LayerStorage {
  import opened Js
  import opened Conf
  import opened Files

  /** Where the layer table is kept. */
  const LayersFile: string := DataPath + "/layers.json"

  /** The tile cache directory `flushCache` removes for a layer name. */
  function FlushRoot(name: string): string
  {
    DataPath + "/" + name
  }

  /** `layers[layer.name] = layer`: the key is the name coerced to a string. */
  function WithEntry(layers: map<string, Json>, key: string, layer: Json): (r: map<string, Json>)
    ensures r.Keys == layers.Keys + {key}
    ensures r[key] == layer
    ensures forall k :: k != key ==> Field(r, k) == Field(layers, k)
  {
    layers[key := layer]
  }

  /** `delete layers[name]`. */
  function WithoutEntry(layers: map<string, Json>, key: string): (r: map<string, Json>)
    ensures r.Keys == layers.Keys - {key}
    ensures forall k :: k != key ==> Field(r, k) == Field(layers, k)
  {
    layers - {key}
  }

  /** The key a record is stored under: its `name`, coerced to a string. */
  function KeyOf(layer: Json): string
    requires !layer.JNull?
  {
    JsString(Field(Own(layer), "name"))
  }

  class LayerStore {
    /** The module-level `layers` table. */
    var layers: map<string, Json>
    /** The layers file's contents; None when the file does not exist. It is
        kept apart from the byte-level filesystem because it is read and
        written as a parsed table (JSON text is not modelled); the one
        operation that reaches it through the filesystem, `FlushCache`, clears
        it when the removed tree holds its path. */
    var file: Option<map<string, Json>>

    /** `init()` with the data path created before the seed file is
        written: seeds a missing layers file with the default layers, then
        loads the table from the file. `existing` is the file found on disk. */
    constructor Init(existing: Option<map<string, Json>>)
      ensures file == (if existing.None? then Some(DefaultLayers) else existing)
      ensures layers == file.value
    {
      var f := existing;
      if f.None? {
        f := Some(DefaultLayers);
      }
      file := f;
      layers := f.value;
    }

    /** `init()` as written: `ensureDir` starts creating the data path
        without being awaited, so when the data path does not exist yet the
        synchronous write of the seed file fails and `init` throws (None). */
    static method InitAsWritten(existing: Option<map<string, Json>>, dataPathExists: bool)
      returns (r: Option<LayerStore>)
      requires existing.Some? ==> dataPathExists
      ensures r.None? <==> existing.None? && !dataPathExists
      ensures r.Some? ==> fresh(r.value)
      ensures r.Some? ==> r.value.file == (if existing.None? then Some(DefaultLayers) else existing)
      ensures r.Some? ==> r.value.layers == r.value.file.value
    {
      if existing.None? && !dataPathExists {
        return None;
      }
      var store := new LayerStore.Init(existing);
      r := Some(store);
    }

    /** `getLayers(callback)`: reloads the table from the file and hands back
        a shallow copy. None when the file cannot be read: the error is
        thrown inside the read callback and the caller's callback never runs. */
    method GetLayers() returns (r: Option<map<string, Json>>)
      modifies this
      ensures file == old(file)
      ensures old(file).None? ==> r.None? && layers == old(layers)
      ensures old(file).Some? ==> layers == old(file).value && r == Some(layers)
    {
      if file.None? {
        return None;
      }
      layers := file.value;
      r := Some(layers);
    }

    /** `addLayer(layer)`: inserts or replaces the entry under the layer's
        name and rewrites the file with the whole table, unless the write
        fails, when the file is left as it was. */
    method AddLayer(layer: Json, writeFails: bool)
      requires !layer.JNull?
      modifies this
      ensures layers == WithEntry(old(layers), KeyOf(layer), layer)
      ensures file == (if writeFails then old(file) else Some(layers))
    {
      layers := layers[KeyOf(layer) := layer];
      if !writeFails {
        file := Some(layers);
      }
    }

    /** `deleteLayer(name)`: removes the entry and rewrites the file. */
    method DeleteLayer(name: string, writeFails: bool)
      modifies this
      ensures layers == WithoutEntry(old(layers), name)
      ensures file == (if writeFails then old(file) else Some(layers))
    {
      layers := layers - {name};
      if !writeFails {
        file := Some(layers);
      }
    }

    /** `flushCache(name)`: removes `<dataPath>/<name>` and everything under
        it; the table is untouched. The layers file lives under the data path
        too, so flushing the name "layers.json" removes it. */
    method FlushCache(fs: FileSystem, name: string)
      modifies this, fs
      ensures fs.files == RemoveTree(old(fs.files), FlushRoot(name))
      ensures layers == old(layers)
      ensures file == (if Under(LayersFile, FlushRoot(name)) then None else old(file))
    {
      fs.files := RemoveTree(fs.files, FlushRoot(name));
      if Under(LayersFile, FlushRoot(name)) {
        file := None;
      }
    }
  }

  // ---------------------------------------------------------------------
  // Properties

  /** Deleting what was just added leaves the table as deleting alone would. */
  lemma AddThenDelete(layers: map<string, Json>, layer: Json)
    requires !layer.JNull?
    ensures WithoutEntry(WithEntry(layers, KeyOf(layer), layer), KeyOf(layer)) == WithoutEntry(layers, KeyOf(layer))
  {
  }

  /** Adding the same record twice is adding it once. */
  lemma AddIdempotent(layers: map<string, Json>, layer: Json)
    requires !layer.JNull?
    ensures WithEntry(WithEntry(layers, KeyOf(layer), layer), KeyOf(layer), layer) == WithEntry(layers, KeyOf(layer), layer)
  {
  }

  /** A record without a name is stored under the key "undefined". */
  lemma NamelessKey(layer: Json)
    requires layer.JObj? && "name" !in layer.fields
    ensures KeyOf(layer) == "undefined"
  {
  }

  /** A name that is one path segment naming an entry of the data path:
      not empty, no separator, and neither "." nor "..". Only for such names
      does the string test `Under` agree with the resolved paths. */
  predicate PlainSegment(name: string)
  {
    name != "" && name != "." && name != ".." && '/' !in name
  }

  /** Flushing a plain layer name removes the layers file exactly when the
      name is "layers.json". */
  lemma FlushKeepsLayersFile(name: string)
    requires PlainSegment(name)
    ensures Under(LayersFile, FlushRoot(name)) <==> name == "layers.json"
  {
    var root := FlushRoot(name);
    var dir := DataPath + "/";
    assert root[|dir|..] == name;
    assert LayersFile[|dir|..] == "layers.json";
    assert |root| > |dir|;
    assert (root + "/")[|root|] == '/';
    forall i | |dir| <= i < |LayersFile|
      ensures LayersFile[i] != '/'
    {
      assert LayersFile[i] == LayersFile[|dir|..][i - |dir|];
    }
  }
}
