/** The layer and feature registry of the map module
 *  (apps/web/lib/gis/registry.ts): layers visible to an organisation, and a
 *  feature query that filters a layer's features by box, polygon and
 *  radius, clusters points at low zoom, truncates to a limit and caches the
 *  answer. The pipelines layer is fetched from outside instead. The
 *  distance function, `Math.pow(2, zoom)`, the pipeline fetch, number
 *  formatting and the clock are parameters. */
module GisRegistry {
  import opened Wrappers
  import opened Strings
  import opened Seqs
  import opened Json
  import opened GisSpatial

  datatype Layer = Layer(
    id: string, orgId: string, name: string, kind: string, sourceType: string,
    sourceUrl: Option<string>, isPublic: bool, createdAt: string, updatedAt: string)

  datatype Radius = Radius(center: seq<real>, km: real)

  /** `GISQueryOptions`; every field may be absent. */
  datatype QueryOptions = QueryOptions(
    bbox: Option<seq<real>>, polygon: Option<seq<seq<real>>>, radius: Option<Radius>,
    zoom: Option<real>, limit: Option<int>, offset: Option<int>, filters: Option<map<string, Json>>)

  /** `features:${layerId}:${JSON.stringify(options)}`, as a structured key. */
  datatype CacheKey = CacheKey(layerId: string, options: QueryOptions)

  /** One feature of the pipelines service's answer. */
  datatype ExternalFeature = ExternalFeature(geometry: Geometry, properties: map<string, Json>)

  /** The three layers the registry starts with. */
  function SeedLayers(now: string): (r: seq<Layer>)
    ensures |r| == 3
    ensures forall i :: 0 <= i < 3 ==> r[i].isPublic && r[i].orgId == "org-1"
  {
    [Layer("l-wells", "org-1", "Production Wells", "POINT", "internal_geojson", None, true, now, now),
     Layer("l-basins", "org-1", "Sedimentary Basins", "POLYGON", "internal_geojson", None, true, now, now),
     Layer("l-pipelines", "org-1", "Pipelines (EIA)", "LINE", "external_arcgis",
           Some("https://services7.arcgis.com/..."), true, now, now)]
  }

  // ------------------------------------------------------ the filter chain

  function InLayer(fs: seq<Feature>, layerId: string): (r: seq<Feature>)
    ensures forall g :: g in r <==> g in fs && g.layerId == layerId
  {
    Filter(fs, (f: Feature) => f.layerId == layerId)
  }

  /** The box filter tests points only and keeps every other feature. */
  function ByBBox(fs: seq<Feature>, bbox: seq<real>): (r: seq<Feature>)
    ensures forall g :: g in r <==> g in fs && (NotPoint(g) || PointInBBox(g.geometry.coordinates, bbox))
  {
    Filter(fs, (f: Feature) => !f.geometry.Point? || PointInBBox(f.geometry.coordinates, bbox))
  }

  /** `pointInPolygon`'s verdict. */
  predicate InPolygon(point: seq<real>, vs: seq<seq<real>>) {
    Crossings(point, vs, |vs|) % 2 == 1
  }

  /** The polygon filter keeps only points inside. */
  function ByPolygon(fs: seq<Feature>, polygon: seq<seq<real>>): (r: seq<Feature>)
    ensures forall g :: g in r <==> g in fs && IsPoint(g) && InPolygon(g.geometry.coordinates, polygon)
  {
    Filter(fs, (f: Feature) => f.geometry.Point? && InPolygon(f.geometry.coordinates, polygon))
  }

  /** The radius filter keeps only points within `km` of the centre. */
  function ByRadius(fs: seq<Feature>, radius: Radius, distance: (seq<real>, seq<real>) -> real): (r: seq<Feature>)
    ensures forall g :: g in r <==>
      g in fs && IsPoint(g) && distance(g.geometry.coordinates, radius.center) <= radius.km
  {
    Filter(fs, (f: Feature) => f.geometry.Point? && distance(f.geometry.coordinates, radius.center) <= radius.km)
  }

  /** `options.limit` is truthy. */
  predicate HasLimit(options: QueryOptions) {
    options.limit.Some? && options.limit.value != 0
  }

  /** The three filters, each applied only when its option is given. */
  function Filtered(features: seq<Feature>, layerId: string, options: QueryOptions,
                    distance: (seq<real>, seq<real>) -> real): (r: seq<Feature>)
    ensures forall g :: g in r ==> g in features && g.layerId == layerId
  {
    var r0 := InLayer(features, layerId);
    var r1 := if options.bbox.Some? then ByBBox(r0, options.bbox.value) else r0;
    var r2 := if options.polygon.Some? then ByPolygon(r1, options.polygon.value) else r1;
    if options.radius.Some? then ByRadius(r2, options.radius.value, distance) else r2
  }

  /** The internal path of `getFeatures`: filter, cluster points of a POINT
   *  layer when a zoom is given, then `slice(0, limit)`. */
  function Internal(features: seq<Feature>, layer: Layer, options: QueryOptions,
                    distance: (seq<real>, seq<real>) -> real, pow2: PowerOfTwo, now: string): seq<Feature>
  {
    var r3 := Filtered(features, layer.id, options, distance);
    var r4 := if options.zoom.Some? && layer.kind == "POINT" then Clustered(r3, options.zoom.value, pow2, now) else r3;
    if HasLimit(options) then Take(r4, options.limit.value) else r4
  }

  /** `options.bbox.join(',')`, or the default box over the United States. */
  function BBoxText(options: QueryOptions, numText: real -> string): string {
    if options.bbox.Some? then Join(seq(|options.bbox.value|, i requires 0 <= i < |options.bbox.value| =>
                                        numText(options.bbox.value[i])), ",")
    else "-125,25,-65,50"
  }

  /** The external path: the fetched pipeline features renumbered `pipe-i`
   *  under the layer. */
  function External(layer: Layer, fetched: seq<ExternalFeature>, now: string): (r: seq<Feature>)
    ensures |r| == |fetched|
    ensures forall i :: 0 <= i < |r| ==>
      r[i].id == "pipe-" + NatToString(i) && r[i].layerId == layer.id && r[i].geometry == fetched[i].geometry
  {
    seq(|fetched|, i requires 0 <= i < |fetched| =>
      Feature("pipe-" + NatToString(i), layer.orgId, layer.id, fetched[i].geometry, fetched[i].properties, now, now))
  }

  predicate IsExternal(layer: Layer) {
    layer.sourceType == "external_arcgis" && layer.id == "l-pipelines"
  }

  // ------------------------------------------------------------ the store

  class Registry {
    var layers: seq<Layer>
    var features: seq<Feature>
    var cache: map<CacheKey, seq<Feature>>

    /** The seeded registry: the three layers, the given well and basin
     *  features, an empty cache. */
    constructor(seedFeatures: seq<Feature>, now: string)
      ensures layers == SeedLayers(now) && features == seedFeatures && cache == map[]
    {
      layers := SeedLayers(now);
      features := seedFeatures;
      cache := map[];
    }

    /** `getLayers`: exactly the organisation's layers and the public ones,
     *  in store order. */
    function GetLayers(orgId: string): (r: seq<Layer>)
      reads this
      ensures forall l :: l in r <==> l in layers && (l.orgId == orgId || l.isPublic)
      ensures |r| <= |layers|
    {
      Filter(layers, (l: Layer) => l.orgId == orgId || l.isPublic)
    }

    /** `getLayer`: the first layer with the id. */
    function GetLayer(id: string): (r: Option<Layer>)
      reads this
      ensures r.None? <==> forall i :: 0 <= i < |layers| ==> layers[i].id != id
      ensures r.Some? ==> r.value in layers && r.value.id == id
      ensures r.Some? ==> exists k :: 0 <= k < |layers| && layers[k] == r.value
                                      && forall i :: 0 <= i < k ==> layers[i].id != id
    {
      Find(layers, (l: Layer) => l.id == id)
    }

    /** `addLayer`: one more layer at the end. */
    method AddLayer(layer: Layer)
      modifies this
      ensures layers == old(layers) + [layer]
      ensures features == old(features) && cache == old(cache)
    {
      layers := layers + [layer];
    }

    /** `getFeatureById`: the first feature with the id. */
    function GetFeatureById(id: string): (r: Option<Feature>)
      reads this
      ensures r.None? <==> forall i :: 0 <= i < |features| ==> features[i].id != id
      ensures r.Some? ==> r.value in features && r.value.id == id
      ensures r.Some? ==> exists k :: 0 <= k < |features| && features[k] == r.value
                                      && forall i :: 0 <= i < k ==> features[i].id != id
    {
      Find(features, (f: Feature) => f.id == id)
    }

    /** `getFeatures`: nothing for an unknown layer; a cached answer as
     *  stored; otherwise the external or internal answer, which is then
     *  cached. */
    method GetFeatures(layerId: string, options: QueryOptions, distance: (seq<real>, seq<real>) -> real,
                       pow2: PowerOfTwo, fetchPipelines: string -> seq<ExternalFeature>, numText: real -> string, now: string)
      returns (r: seq<Feature>)
      modifies this
      ensures layers == old(layers) && features == old(features)
      ensures GetLayer(layerId).None? ==> r == [] && cache == old(cache)
      ensures GetLayer(layerId).Some? && CacheKey(layerId, options) in old(cache) ==>
        r == old(cache)[CacheKey(layerId, options)] && cache == old(cache)
      ensures GetLayer(layerId).Some? && CacheKey(layerId, options) !in old(cache) ==>
        && cache == old(cache)[CacheKey(layerId, options) := r]
        && var layer := GetLayer(layerId).value;
           r == if IsExternal(layer) then External(layer, fetchPipelines(BBoxText(options, numText)), now)
                else Internal(features, layer, options, distance, pow2, now)
    {
      var layer := GetLayer(layerId);
      if layer.None? {
        return [];
      }
      var cacheKey := CacheKey(layerId, options);
      if cacheKey in cache {
        return cache[cacheKey];
      }
      if IsExternal(layer.value) {
        r := External(layer.value, fetchPipelines(BBoxText(options, numText)), now);
        cache := cache[cacheKey := r];
        return;
      }
      var result := Filtered(features, layerId, options, distance);
      if options.zoom.Some? && layer.value.kind == "POINT" {
        result := ClusterPoints(result, options.zoom.value, pow2, now);
      }
      if HasLimit(options) {
        result := Take(result, options.limit.value);
      }
      r := result;
      cache := cache[cacheKey := r];
    }
  }

  // ---------------------------------------------------------------- lemmas

  /** Every feature of the internal path belongs to the requested layer, even
   *  a cluster, which takes its layer from its first point. */
  lemma InternalStaysInLayer(features: seq<Feature>, layer: Layer, options: QueryOptions,
                             distance: (seq<real>, seq<real>) -> real, pow2: PowerOfTwo, now: string, g: Feature)
    requires g in Internal(features, layer, options, distance, pow2, now)
    ensures g.layerId == layer.id
  {
    var r3 := Filtered(features, layer.id, options, distance);
    var r4 := if options.zoom.Some? && layer.kind == "POINT" then Clustered(r3, options.zoom.value, pow2, now) else r3;
    assert g in r4;
    if options.zoom.Some? && layer.kind == "POINT" {
      ClusteredKeepsLayers(r3, options.zoom.value, pow2, now, g);
    }
  }

  /** A positive limit returns at most that many features, as a prefix of the
   *  clustered answer. */
  lemma LimitIsPrefix(features: seq<Feature>, layer: Layer, options: QueryOptions,
                      distance: (seq<real>, seq<real>) -> real, pow2: PowerOfTwo, now: string)
    requires options.limit.Some? && options.limit.value > 0
    ensures var r3 := Filtered(features, layer.id, options, distance);
      var r4 := if options.zoom.Some? && layer.kind == "POINT" then Clustered(r3, options.zoom.value, pow2, now) else r3;
      var r := Internal(features, layer, options, distance, pow2, now);
      |r| <= options.limit.value && r == r4[..|r|]
  {
  }

  /** Without options the internal path returns the layer's features as
   *  stored. */
  lemma NoOptionsIsWholeLayer(features: seq<Feature>, layer: Layer, distance: (seq<real>, seq<real>) -> real,
                              pow2: PowerOfTwo, now: string)
    ensures Internal(features, layer, QueryOptions(None, None, None, None, None, None, None), distance, pow2, now)
            == InLayer(features, layer.id)
  {
  }

  /** The seed's layers are all public, so every organisation sees all three. */
  lemma EveryOrgSeesSeedLayers(orgId: string, now: string)
    ensures Filter(SeedLayers(now), (l: Layer) => l.orgId == orgId || l.isPublic) == SeedLayers(now)
  {
    FilterAll(SeedLayers(now), (l: Layer) => l.orgId == orgId || l.isPublic);
  }
}
