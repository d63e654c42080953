/** Well locations from OpenStreetMap (apps/web/lib/gis/overpass.ts): a
 *  bounding-box guard, the Overpass query with the box reordered, and the
 *  conversion of the answer's well nodes into GeoJSON features. The POST to
 *  the Overpass service (with its timeout) and `String(Number(x))` are
 *  parameters. */
module GisOverpass {
  import opened Wrappers
  import opened Strings
  import opened Seqs
  import opened Json

  datatype Element = Element(
    kind: string, id: int, lat: Option<real>, lon: Option<real>, tags: Option<map<string, string>>)

  /** A GeoJSON point feature; a coordinate the node lacks stays undefined. */
  datatype WellFeature = WellFeature(id: int, properties: map<string, Json>, coordinates: seq<Option<real>>)

  datatype FeatureCollection = FeatureCollection(features: seq<WellFeature>)

  const EmptyCollection := FeatureCollection([])

  /** `e.tags?.[k]`. */
  function Tag(e: Element, k: string): (r: Option<string>)
    ensures r.Some? <==> e.tags.Some? && k in e.tags.value
  {
    if e.tags.Some? && k in e.tags.value then Some(e.tags.value[k]) else None
  }

  /** A node tagged `man_made=petroleum_well` or `man_made=oil_well`. */
  predicate IsWell(e: Element) {
    e.kind == "node" && (Tag(e, "man_made") == Some("petroleum_well") || Tag(e, "man_made") == Some("oil_well"))
  }

  /** `e.tags?.name || \`Well ${e.id}\``. */
  function WellName(e: Element): (r: string)
    ensures Tag(e, "name").Some? && Tag(e, "name").value != "" ==> r == Tag(e, "name").value
    ensures Tag(e, "name").None? || Tag(e, "name").value == "" ==> r == "Well " + IntToString(e.id)
  {
    match Tag(e, "name")
    case Some(n) => if n != "" then n else "Well " + IntToString(e.id)
    case None => "Well " + IntToString(e.id)
  }

  /** The node's tags as JSON strings. */
  function TagsJson(e: Element): (r: map<string, Json>)
    ensures e.tags.Some? ==> r.Keys == e.tags.value.Keys
  {
    if e.tags.None? then map[]
    else map k | k in e.tags.value :: JStr(e.tags.value[k])
  }

  /** One well node as a feature: its tags, then `id`, `type`, `status` and
   *  `name` written over them. */
  function ToFeature(e: Element): (r: WellFeature)
    ensures r.id == e.id && r.coordinates == [e.lon, e.lat]
    ensures "type" in r.properties && r.properties["type"] == JStr("WELL")
    ensures "status" in r.properties && r.properties["status"] == JStr("ACTIVE")
    ensures "name" in r.properties && r.properties["name"] == JStr(WellName(e))
    ensures "id" in r.properties && r.properties["id"] == JNum(e.id as real)
    ensures forall k :: k in TagsJson(e) && k !in {"id", "type", "status", "name"} ==>
      k in r.properties && r.properties[k] == TagsJson(e)[k]
  {
    var props := TagsJson(e)["id" := JNum(e.id as real)]["type" := JStr("WELL")]
                   ["status" := JStr("ACTIVE")]["name" := JStr(WellName(e))];
    WellFeature(e.id, props, [e.lon, e.lat])
  }

  /** `convertToGeoJSON`: the well nodes, in order, as features; a missing
   *  element list gives an empty collection. */
  function ConvertToGeoJSON(elements: Option<seq<Element>>): (r: FeatureCollection)
    ensures elements.None? ==> r == EmptyCollection
    ensures elements.Some? ==> |r.features| == Count(elements.value, IsWell)
    ensures elements.Some? ==> forall i :: 0 <= i < |r.features| ==>
      r.features[i] == ToFeature(Filter(elements.value, IsWell)[i])
  {
    if elements.None? then EmptyCollection
    else
      var wells := Filter(elements.value, IsWell);
      FeatureCollection(seq(|wells|, i requires 0 <= i < |wells| => ToFeature(wells[i])))
  }

  /** What the POST gives: nothing usable (a network error, the timeout, an
   *  unreadable body), or a status and the `elements` of the body. */
  datatype Reply = Failed | Answer(ok: bool, elements: Option<seq<Element>>)

  /** The guard of `fetchWells`: a non-empty box of four comma-separated
   *  parts. */
  predicate BBoxUsable(bbox: string) {
    bbox != "" && |Split(bbox, ',')| == 4
  }

  /** The Overpass box `(south,west,north,east)` from the input's
   *  `west,south,east,north` parts. */
  function OverpassBox(parts: seq<string>, numText: string -> string): (r: string)
    requires |parts| == 4
    ensures r == numText(parts[1]) + "," + numText(parts[0]) + "," + numText(parts[3]) + "," + numText(parts[2])
  {
    var w, s, e, n := numText(parts[0]), numText(parts[1]), numText(parts[2]), numText(parts[3]);
    s + "," + w + "," + n + "," + e
  }

  /** The query text, asking for both well tags inside the box. */
  function Query(box: string): string {
    "\n      [out:json][timeout:10];\n      (\n        node[\"man_made\"=\"petroleum_well\"](" + box
    + ");\n        node[\"man_made\"=\"oil_well\"](" + box + ");\n      );\n      out geom;\n    "
  }

  /** `fetchWells`: the collection and the query sent, if any. An unusable
   *  box sends nothing; any failure gives an empty collection. */
  function FetchWells(bbox: string, numText: string -> string, post: string -> Reply)
    : (r: (FeatureCollection, Option<string>))
    ensures !BBoxUsable(bbox) ==> r == (EmptyCollection, None)
    ensures BBoxUsable(bbox) ==> r.1 == Some(Query(OverpassBox(Split(bbox, ','), numText)))
    ensures BBoxUsable(bbox) && post(r.1.value).Answer? && post(r.1.value).ok ==>
      r.0 == ConvertToGeoJSON(post(r.1.value).elements)
    ensures BBoxUsable(bbox) && !(post(r.1.value).Answer? && post(r.1.value).ok) ==>
      r.0 == EmptyCollection
  {
    if !BBoxUsable(bbox) then (EmptyCollection, None)
    else
      var query := Query(OverpassBox(Split(bbox, ','), numText));
      match post(query)
      case Answer(ok, elements) => (if ok then ConvertToGeoJSON(elements) else EmptyCollection, Some(query))
      case Failed => (EmptyCollection, Some(query))
  }

  // ---------------------------------------------------------------- lemmas

  /** Every converted feature is an active well with a name. */
  lemma ConvertedAreActiveWells(elements: seq<Element>, i: nat)
    requires i < |ConvertToGeoJSON(Some(elements)).features|
    ensures var f := ConvertToGeoJSON(Some(elements)).features[i];
      f.properties["type"] == JStr("WELL") && f.properties["status"] == JStr("ACTIVE") && "name" in f.properties
  {
  }

  /** Only wells are converted: a list without well nodes gives no features. */
  lemma NoWellsNoFeatures(elements: seq<Element>)
    requires forall i :: 0 <= i < |elements| ==> !IsWell(elements[i])
    ensures ConvertToGeoJSON(Some(elements)).features == []
  {
    CountNone(elements, IsWell);
  }

  /** A box of three parts is refused before any query. */
  lemma ThreePartBoxSendsNothing(numText: string -> string, post: string -> Reply)
    ensures FetchWells("1,2,3", numText, post) == (EmptyCollection, None)
  {
    assert Split("1,2,3", ',') == ["1", "2", "3"] by {
      SplitThree();
    }
  }

  lemma SplitThree()
    ensures Split("1,2,3", ',') == ["1", "2", "3"]
  {
    var s := "1,2,3";
    assert s[0] != ',' && s[1] == ',';
    assert IndexOf(s, ',') == 1;
    assert s[..1] == "1" && s[2..] == "2,3";
    var t := "2,3";
    assert t[0] != ',' && t[1] == ',';
    assert IndexOf(t, ',') == 1;
    assert t[..1] == "2" && t[2..] == "3";
    assert ',' !in "3";
    assert IndexOf("3", ',') == -1;
  }
}
