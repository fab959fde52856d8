/** The configuration values the core reads (conf/conf.js). */
module Conf {
  import opened Js

  /** Root of the per-layer tile caches and of the layers file. */
  const DataPath := "tiles"

  /** Root of the glyph and sprite cache. */
  const AssetsDataPath := "assets"

  const Protocol := "http"

  const Host := "localhost:8081"

  /** The layers seeded into an empty layers file, keyed by layer name. */
  const DefaultLayers: map<string, Json> := map[
    "jawg-vector" := JObj(map[
      "default" := JBool(true),
      "label" := JStr("Jawg Streets - Vector"),
      "type" := JStr("proxy"),
      "vector" := JBool(true),
      "source" := JStr("https://tile.jawg.io/jawg-streets.json?access-token=community")]),
    "jawg" := JObj(map[
      "label" := JStr("Jawg Dark"),
      "type" := JStr("proxy"),
      "retina" := JBool(true),
      "source" := JStr("http://tile.jawg.io/jawg-dark/{z}/{x}/{y}@2x.png?access-token=community")]),
    "osm" := JObj(map[
      "label" := JStr("OpenStreetMap"),
      "type" := JStr("proxy"),
      "retina" := JBool(false),
      "source" := JStr("http://tile.openstreetmap.org/{z}/{x}/{y}.png")]),
    "hot" := JObj(map[
      "label" := JStr("OpenStreetMap HOT"),
      "type" := JStr("proxy"),
      "retina" := JBool(false),
      "source" := JStr("http://tile-a.openstreetmap.fr/hot/{z}/{x}/{y}.png")])]

  /** The database settings: a host and a database, no port and no
      credentials. */
  const DbSettings: map<string, Json> := map["host" := JStr("localhost"), "database" := JStr("tile")]
}
