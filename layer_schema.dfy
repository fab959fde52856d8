/**
 * The layer record projection (lib/schema/Layer.js `normalize`): a fixed set
 * of meta fields and four top-level fields survive a JSON round-trip, which
 * also drops every field that is undefined.
 */
module LayerSchema {
  import opened Js

  /** The meta fields `normalize` copies. */
  const MetaKeys: set<string> :=
    {"name", "label", "display", "position", "type", "source", "status", "retina", "vector", "default"}

  /** The top-level fields `normalize` copies besides `meta`. */
  const TopKeys: set<string> := {"source", "glyphsSource", "spriteSource", "sources"}

  /** The properties of `v` named in `keys`. A property `v` lacks is read as
      undefined, which the JSON round-trip turns into no key at all. */
  function Select(v: Json, keys: set<string>): (m: map<string, Json>)
    ensures forall k :: k in m <==> k in keys && k in Own(v)
    ensures forall k :: k in m ==> m[k] == Own(v)[k]
  {
    map k | k in keys && k in Own(v) :: Own(v)[k]
  }

  /** `normalize(layer)`: throws when `layer` or `layer.meta` is null or
      undefined, since it reads `layer.meta.name`. */
  function Normalize(layer: Json): (r: Result<map<string, Json>>)
    ensures r.Err? <==> layer.JNull? || "meta" !in Own(layer) || Own(layer)["meta"].JNull?
    ensures r.Ok? ==> r.value.Keys == {"meta"} + (TopKeys * Own(layer).Keys)
    ensures r.Ok? ==> r.value["meta"] == JObj(Select(Own(layer)["meta"], MetaKeys))
    ensures r.Ok? ==> forall k :: k in TopKeys && k in Own(layer) ==> r.value[k] == Own(layer)[k]
  {
    match Prop(Some(layer), "meta")
    case Err(e) => Err(e)
    case Ok(meta) =>
      if meta.None? || meta == Some(JNull) then Err("TypeError")
      else
        assert "meta" !in TopKeys;
        Ok(Select(layer, TopKeys)["meta" := JObj(Select(meta.value, MetaKeys))])
  }

  /** The shape of a normalized record: an object meta holding only meta
      fields, and otherwise only the copied top-level fields. */
  predicate Normalized(rec: map<string, Json>)
  {
    && "meta" in rec && rec["meta"].JObj?
    && rec.Keys <= {"meta"} + TopKeys
    && rec["meta"].fields.Keys <= MetaKeys
  }

  // ---------------------------------------------------------------------
  // Properties

  /** Every successful normalization has the normalized shape. */
  lemma NormalizeShape(layer: Json)
    requires Normalize(layer).Ok?
    ensures Normalized(Normalize(layer).value)
  {
  }

  /** A record of the normalized shape is its own normalization. */
  lemma {:induction false} NormalizedIsFixedPoint(rec: map<string, Json>)
    requires Normalized(rec)
    ensures Normalize(JObj(rec)) == Ok(rec)
  {
    var meta := rec["meta"];
    assert Own(JObj(rec)) == rec;
    assert Select(meta, MetaKeys) == meta.fields;
    var top := Select(JObj(rec), TopKeys);
    assert top["meta" := JObj(Select(meta, MetaKeys))] == rec;
  }

  /** `normalize` is idempotent. */
  lemma NormalizeIdempotent(layer: Json)
    requires Normalize(layer).Ok?
    ensures Normalize(JObj(Normalize(layer).value)) == Normalize(layer)
  {
    NormalizeShape(layer);
    NormalizedIsFixedPoint(Normalize(layer).value);
  }

  /** `name` and `vector` exist only under `meta`: a normalized record has
      neither at the top level, nor a `style` or an `_id`. */
  lemma NormalizedTopLevel(rec: map<string, Json>)
    requires Normalized(rec)
    ensures "name" !in rec && "vector" !in rec && "style" !in rec && "_id" !in rec
  {
  }
}
