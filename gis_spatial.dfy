/** Spatial helpers of the map module (apps/web/lib/gis/spatial.ts): the
 *  bounding-box and ray-casting point tests, and grid clustering of point
 *  features for low zoom levels. */
module GisSpatial {
  import opened Wrappers
  import opened Strings
  import opened Seqs
  import opened OMaps
  import opened Json

  /** A GeoJSON geometry: points carry their coordinates, every other kind
   *  is passed through untouched. */
  datatype Geometry =
    | Point(coordinates: seq<real>)
    | Shape(kind: string, shape: Json)

  datatype Feature = Feature(
    id: string, orgId: string, layerId: string, geometry: Geometry,
    properties: map<string, Json>, createdAt: string, updatedAt: string)

  predicate IsPoint(f: Feature) {
    f.geometry.Point?
  }

  predicate NotPoint(f: Feature) {
    !f.geometry.Point?
  }

  // ------------------------------------------------------------ bounding box

  /** `pointInBBox`: an inclusive range test on both axes of a
   *  `[minX, minY, maxX, maxY]` box. */
  predicate PointInBBox(point: seq<real>, bbox: seq<real>) {
    && |point| >= 2 && |bbox| >= 4
    && bbox[0] <= point[0] <= bbox[2]
    && bbox[1] <= point[1] <= bbox[3]
  }

  /** A point inside a box is inside every box that contains it. */
  lemma BBoxMonotone(point: seq<real>, inner: seq<real>, outer: seq<real>)
    requires PointInBBox(point, inner) && |outer| >= 4
    requires outer[0] <= inner[0] && outer[1] <= inner[1] && inner[2] <= outer[2] && inner[3] <= outer[3]
    ensures PointInBBox(point, outer)
  {
  }

  /** A point or a box short of coordinates never matches. */
  lemma BBoxNeedsCoordinates(point: seq<real>, bbox: seq<real>)
    requires |point| < 2 || |bbox| < 4
    ensures !PointInBBox(point, bbox)
  {
  }

  // ----------------------------------------------------------- ray casting

  /** The vertex before vertex `i`, wrapping around to the last one. */
  function Previous(n: nat, i: nat): (j: nat)
    requires i < n
    ensures j < n
  {
    if i == 0 then n - 1 else i - 1
  }

  /** The edge from vertex `Previous(i)` to vertex `i` crosses the horizontal
   *  ray to the right of the point. A missing coordinate makes the test
   *  false, as `undefined` does in every comparison of the source. */
  predicate Crosses(point: seq<real>, vs: seq<seq<real>>, i: nat)
    requires i < |vs|
  {
    EdgeCrosses(point, vs[i], vs[Previous(|vs|, i)])
  }

  /** The `intersect` test of one edge from `vj` to `vi`. */
  predicate EdgeCrosses(point: seq<real>, vi: seq<real>, vj: seq<real>) {
    && |point| >= 2 && |vi| >= 2 && |vj| >= 2
    && ((vi[1] > point[1]) != (vj[1] > point[1]))
    && point[0] < (vj[0] - vi[0]) * (point[1] - vi[1]) / (vj[1] - vi[1]) + vi[0]
  }

  /** The number of the first `n` edges that cross the ray. */
  function Crossings(point: seq<real>, vs: seq<seq<real>>, n: nat): nat
    requires n <= |vs|
  {
    if n == 0 then 0 else Crossings(point, vs, n - 1) + (if Crosses(point, vs, n - 1) then 1 else 0)
  }

  /** `pointInPolygon`: inside exactly when an odd number of edges cross. */
  method PointInPolygon(point: seq<real>, vs: seq<seq<real>>) returns (inside: bool)
    ensures inside <==> Crossings(point, vs, |vs|) % 2 == 1
  {
    inside := false;
    var i := 0;
    var j := |vs| - 1;
    while i < |vs|
      invariant 0 <= i <= |vs|
      invariant 0 < i ==> j == i - 1
      invariant i == 0 ==> j == |vs| - 1
      invariant inside <==> Crossings(point, vs, i) % 2 == 1
    {
      var intersect := EdgeCrosses(point, vs[i], vs[j]);
      assert j == Previous(|vs|, i);
      if intersect {
        inside := !inside;
      }
      j := i;
      i := i + 1;
    }
  }

  /** A point on or above every vertex is crossed by no edge. */
  lemma {:induction false} AboveAllVerticesIsOutside(point: seq<real>, vs: seq<seq<real>>, n: nat)
    requires n <= |vs| && |point| >= 2
    requires forall v :: v in vs && |v| >= 2 ==> v[1] <= point[1]
    ensures Crossings(point, vs, n) == 0
  {
    if n > 0 {
      AboveAllVerticesIsOutside(point, vs, n - 1);
      var i := n - 1;
      var j := Previous(|vs|, i);
      assert vs[i] in vs && vs[j] in vs;
      assert !Crosses(point, vs, i);
    }
  }

  /** The unit square contains its centre: one edge crosses the ray. */
  lemma SquareContainsCentre()
    ensures Crossings([0.5, 0.5], [[0.0, 0.0], [1.0, 0.0], [1.0, 1.0], [0.0, 1.0]], 4) == 1
  {
    var vs := [[0.0, 0.0], [1.0, 0.0], [1.0, 1.0], [0.0, 1.0]];
    var p := [0.5, 0.5];
    assert !Crosses(p, vs, 0);
    assert !Crosses(p, vs, 1);
    assert Crosses(p, vs, 2);
    assert !Crosses(p, vs, 3);
  }

  // ------------------------------------------------------------- clustering

  /** A grid cell's tally: how many points fell in it, their coordinate
   *  sums, and the first of them. */
  datatype Cluster = Cluster(count: nat, sumX: real, sumY: real, feature: Feature)

  function Pow2(n: nat): (r: nat)
    ensures r >= 1
  {
    if n == 0 then 1 else 2 * Pow2(n - 1)
  }

  /** `Math.pow(2, zoom)`, given as a parameter: positive for every
   *  exponent, whole or fractional. */
  type PowerOfTwo = f: real -> real | forall z :: f(z) > 0.0 witness (z: real) => 1.0

  /** `360 * (60 / (256 * Math.pow(2, zoom)))` degrees, for any zoom. */
  function GridSize(zoom: real, pow2: PowerOfTwo): (r: real)
    ensures r > 0.0
    ensures r * pow2(zoom) == 84.375
  {
    360.0 * (60.0 / (256.0 * pow2(zoom)))
  }

  /** One zoom level up halves the cell, from any level. */
  lemma GridSizeHalves(zoom: real, pow2: PowerOfTwo)
    requires pow2(zoom + 1.0) == 2.0 * pow2(zoom)
    ensures 2.0 * GridSize(zoom + 1.0, pow2) == GridSize(zoom, pow2)
  {
  }

  /** At a whole level n the cell is 84.375 / 2^n degrees. */
  lemma GridSizeAtLevel(n: nat, pow2: PowerOfTwo)
    requires pow2(n as real) == Pow2(n) as real
    ensures GridSize(n as real, pow2) == 84.375 / (Pow2(n) as real)
  {
  }

  /** A point feature's longitude and latitude; a missing coordinate is 0. */
  function Lon(f: Feature): real {
    if f.geometry.Point? && |f.geometry.coordinates| >= 1 then f.geometry.coordinates[0] else 0.0
  }

  function Lat(f: Feature): real {
    if f.geometry.Point? && |f.geometry.coordinates| >= 2 then f.geometry.coordinates[1] else 0.0
  }

  /** `${Math.floor(lon / gridSize)},${Math.floor(lat / gridSize)}`. */
  function CellKey(f: Feature, grid: real): string
    requires grid > 0.0
  {
    IntToString((Lon(f) / grid).Floor) + "," + IntToString((Lat(f) / grid).Floor)
  }

  /** One point counted into its cell: a cell not seen before starts at zero
   *  and remembers the point; then its count and sums are bumped (in the
   *  source, on the tally object the map holds). */
  function AddPoint(m: OMap<string, Cluster>, f: Feature, grid: real): (r: OMap<string, Cluster>)
    requires m.Valid() && grid > 0.0
    ensures r.Valid()
  {
    Tally(m, CellKey(f, grid), f)
  }

  /** The cell under `key` with one more point `f`, opened by `f` when new. */
  function Tally(m: OMap<string, Cluster>, key: string, f: Feature): (r: OMap<string, Cluster>)
    requires m.Valid()
    ensures r.Valid()
  {
    var c := if key in m.entries then m.entries[key] else Cluster(0, 0.0, 0.0, f);
    m.Set(key, Cluster(c.count + 1, c.sumX + Lon(f), c.sumY + Lat(f), c.feature))
  }

  /** The cells of the point features, in the order their first point came. */
  function Grouped(fs: seq<Feature>, grid: real): (r: OMap<string, Cluster>)
    requires grid > 0.0
    ensures r.Valid()
    decreases |fs|
  {
    if |fs| == 0 then Empty()
    else
      var m := Grouped(fs[..|fs| - 1], grid);
      if IsPoint(fs[|fs| - 1]) then AddPoint(m, fs[|fs| - 1], grid) else m
  }

  /** What a cell becomes: its one point itself, or a cluster point at the
   *  mean position carrying the count. */
  function Emitted(key: string, c: Cluster, now: string): (r: Feature)
    ensures c.count == 1 ==> r == c.feature
    ensures c.count != 1 ==> r.layerId == c.feature.layerId && r.orgId == c.feature.orgId && IsPoint(r)
    ensures c.count != 1 ==> r.id == "cluster-" + key && r.properties == map["cluster" := JBool(true), "point_count" := JNum(c.count as real), "cluster_id" := JStr(key)]
    ensures c.count > 1 ==> r.geometry == Point([c.sumX / (c.count as real), c.sumY / (c.count as real)])
    ensures c.count != 1 ==> r.createdAt == now && r.updatedAt == now
  {
    if c.count == 1 then c.feature
    else
      var n := c.count as real;
      Feature("cluster-" + key, c.feature.orgId, c.feature.layerId,
              Point([if n == 0.0 then 0.0 else c.sumX / n, if n == 0.0 then 0.0 else c.sumY / n]),
              map["cluster" := JBool(true), "point_count" := JNum(n), "cluster_id" := JStr(key)],
              now, now)
  }

  /** The cells' outputs, in cell order. */
  function EmitAll(m: OMap<string, Cluster>, keys: seq<string>, now: string): (r: seq<Feature>)
    requires forall k :: k in keys ==> k in m.entries
    ensures |r| == |keys|
    ensures forall i :: 0 <= i < |keys| ==> r[i] == Emitted(keys[i], m.entries[keys[i]], now)
  {
    seq(|keys|, i requires 0 <= i < |keys| => Emitted(keys[i], m.entries[keys[i]], now))
  }

  /** What `clusterPoints` returns: nothing for nothing, the input itself at
   *  zoom 10 and above, otherwise the cell outputs followed by the
   *  non-point features in their order. */
  function Clustered(features: seq<Feature>, zoom: real, pow2: PowerOfTwo, now: string): (r: seq<Feature>)
    ensures |features| == 0 ==> r == []
    ensures |features| > 0 && zoom >= 10.0 ==> r == features
  {
    if |features| == 0 then []
    else if zoom >= 10.0 then features
    else
      var m := Grouped(features, GridSize(zoom, pow2));
      EmitAll(m, m.keys, now) + Filter(features, NotPoint)
  }

  /** The first loop, one feature more. */
  lemma GroupedStep(fs: seq<Feature>, i: nat, grid: real)
    requires i < |fs| && grid > 0.0
    ensures Grouped(fs[..i + 1], grid) ==
      if IsPoint(fs[i]) then AddPoint(Grouped(fs[..i], grid), fs[i], grid) else Grouped(fs[..i], grid)
    ensures Filter(fs[..i + 1], NotPoint) == Filter(fs[..i], NotPoint) + (if NotPoint(fs[i]) then [fs[i]] else [])
  {
    assert fs[..i + 1][..i] == fs[..i];
    assert fs[..i + 1] == fs[..i] + [fs[i]];
    FilterAppend(fs[..i], [fs[i]], NotPoint);
    assert [fs[i]][1..] == [];
  }

  /** The second loop, one cell more. */
  lemma EmitStep(m: OMap<string, Cluster>, keys: seq<string>, k: nat, now: string)
    requires k < |keys| && forall x :: x in keys ==> x in m.entries
    ensures EmitAll(m, keys[..k + 1], now) == EmitAll(m, keys[..k], now) + [Emitted(keys[k], m.entries[keys[k]], now)]
  {
    assert forall x :: x in keys[..k + 1] ==> x in keys;
  }

  /** The first loop of `clusterPoints`: point features are tallied into
   *  their cells in place, the others kept aside in order. */
  method GroupPoints(features: seq<Feature>, gridSize: real)
    returns (clusters: OMap<string, Cluster>, singles: seq<Feature>)
    requires gridSize > 0.0
    ensures clusters == Grouped(features, gridSize)
    ensures singles == Filter(features, NotPoint)
  {
    clusters := Empty();
    singles := [];
    var i := 0;
    while i < |features|
      invariant 0 <= i <= |features|
      invariant clusters == Grouped(features[..i], gridSize)
      invariant singles == Filter(features[..i], NotPoint)
    {
      clusters, singles := TallyFeature(features, i, gridSize, clusters, singles);
      i := i + 1;
    }
    assert features[..|features|] == features;
  }

  /** The body of the first loop: the feature at `i` joins its cell or the
   *  non-point features. */
  method TallyFeature(features: seq<Feature>, i: nat, gridSize: real,
                      clusters: OMap<string, Cluster>, singles: seq<Feature>)
    returns (clusters': OMap<string, Cluster>, singles': seq<Feature>)
    requires i < |features| && gridSize > 0.0
    requires clusters == Grouped(features[..i], gridSize) && singles == Filter(features[..i], NotPoint)
    ensures clusters' == Grouped(features[..i + 1], gridSize)
    ensures singles' == Filter(features[..i + 1], NotPoint)
  {
    var f := features[i];
    GroupedStep(features, i, gridSize);
    if !f.geometry.Point? {
      clusters', singles' := clusters, singles + [f];
    } else {
      clusters' := AddPoint(clusters, f, gridSize);
      singles' := singles;
    }
  }

  /** The second loop of `clusterPoints`: the outputs pushed one cell at a
   *  time, in cell order. */
  method EmitCells(clusters: OMap<string, Cluster>, now: string) returns (result: seq<Feature>)
    requires clusters.Valid()
    ensures result == EmitAll(clusters, clusters.keys, now)
  {
    result := [];
    var k := 0;
    while k < |clusters.keys|
      invariant 0 <= k <= |clusters.keys|
      invariant result == EmitAll(clusters, clusters.keys[..k], now)
    {
      var key := clusters.keys[k];
      EmitStep(clusters, clusters.keys, k, now);
      result := result + [Emitted(key, clusters.entries[key], now)];
      k := k + 1;
    }
    assert clusters.keys[..k] == clusters.keys;
  }

  /** `clusterPoints`. */
  method ClusterPoints(features: seq<Feature>, zoom: real, pow2: PowerOfTwo, now: string) returns (r: seq<Feature>)
    ensures r == Clustered(features, zoom, pow2, now)
  {
    if |features| == 0 {
      return [];
    }
    if zoom >= 10.0 {
      return features;
    }
    var clusters, singles := GroupPoints(features, GridSize(zoom, pow2));
    var result := EmitCells(clusters, now);
    r := result + singles;
  }

  // ----------------------------------------------------- clustering lemmas

  /** The sum of the cells' counts. */
  function Total(cs: seq<Cluster>): nat
    decreases |cs|
  {
    if |cs| == 0 then 0 else Total(cs[..|cs| - 1]) + cs[|cs| - 1].count
  }

  lemma {:induction false} TotalUpdate(cs: seq<Cluster>, i: nat, c: Cluster)
    requires i < |cs|
    ensures Total(cs[i := c]) + cs[i].count == Total(cs) + c.count
    decreases |cs|
  {
    var n := |cs| - 1;
    assert cs[i := c][..n] == if i == n then cs[..n] else cs[..n][i := c];
    if i < n {
      TotalUpdate(cs[..n], i, c);
    }
  }

  lemma TotalAppend(cs: seq<Cluster>, c: Cluster)
    ensures Total(cs + [c]) == Total(cs) + c.count
  {
    assert (cs + [c])[..|cs|] == cs;
  }

  /** Counting one point adds one to the total and keeps every cell's first
   *  point a point of the input. */
  lemma AddPointTotal(m: OMap<string, Cluster>, f: Feature, grid: real)
    requires m.Valid() && grid > 0.0
    ensures Total(AddPoint(m, f, grid).Values()) == Total(m.Values()) + 1
  {
    TallyTotal(m, CellKey(f, grid), f);
  }

  lemma TallyTotal(m: OMap<string, Cluster>, key: string, f: Feature)
    requires m.Valid()
    ensures Total(Tally(m, key, f).Values()) == Total(m.Values()) + 1
  {
    if key in m.entries {
      var i := IndexOfKey(m, key);
      var c := m.entries[key];
      var c' := Cluster(c.count + 1, c.sumX + Lon(f), c.sumY + Lat(f), c.feature);
      assert Tally(m, key, f) == m.Set(key, c');
      SetTotal(m, key, c', i);
    } else {
      SetValuesNew(m, key, Cluster(1, Lon(f), Lat(f), f));
      TotalAppend(m.Values(), Cluster(1, Lon(f), Lat(f), f));
    }
  }

  lemma SetTotal(m: OMap<string, Cluster>, key: string, c: Cluster, i: nat)
    requires m.Valid() && i < |m.keys| && m.keys[i] == key
    ensures Total(m.Set(key, c).Values()) + m.entries[key].count == Total(m.Values()) + c.count
  {
    var vs := m.Values();
    SetValuesAt(m, key, c, i);
    TotalUpdate(vs, i, c);
  }

  /** The position of a stored key. */
  function IndexOfKey<K, V>(m: OMap<K, V>, k: K): (i: nat)
    requires m.Valid() && k in m.entries
    ensures i < |m.keys| && m.keys[i] == k
  {
    var i := FirstIndex(m.keys, (x: K) => x == k);
    i
  }

  /** Grid clustering conserves points: the cells' counts add up to the
   *  number of point features. */
  lemma {:induction false} GroupedConservesPoints(fs: seq<Feature>, grid: real)
    requires grid > 0.0
    ensures Total(Grouped(fs, grid).Values()) == Count(fs, IsPoint)
    decreases |fs|
  {
    if |fs| == 0 {
    } else {
      var n := |fs| - 1;
      GroupedConservesPoints(fs[..n], grid);
      assert fs == fs[..n] + [fs[n]];
      CountAppend(fs[..n], [fs[n]], IsPoint);
      assert [fs[n]][1..] == [];
      if IsPoint(fs[n]) {
        AddPointTotal(Grouped(fs[..n], grid), fs[n], grid);
      }
    }
  }

  /** Every cell holds at least one point, and its remembered feature is a
   *  point feature of the input. */
  lemma {:induction false} GroupedCellsAreInputs(fs: seq<Feature>, grid: real, key: string)
    requires grid > 0.0 && key in Grouped(fs, grid).entries
    ensures Grouped(fs, grid).entries[key].count >= 1
    ensures Grouped(fs, grid).entries[key].feature in fs
    ensures IsPoint(Grouped(fs, grid).entries[key].feature)
    decreases |fs|
  {
    var n := |fs| - 1;
    var m := Grouped(fs[..n], grid);
    if key in m.entries {
      GroupedCellsAreInputs(fs[..n], grid, key);
    }
    assert fs[..n] <= fs;
  }

  /** Every output of `clusterPoints` belongs to the layer and organisation of
   *  some input feature. */
  lemma ClusteredKeepsLayers(features: seq<Feature>, zoom: real, pow2: PowerOfTwo, now: string, g: Feature)
    requires g in Clustered(features, zoom, pow2, now)
    ensures exists f :: f in features && f.layerId == g.layerId && f.orgId == g.orgId
  {
    if |features| > 0 && zoom < 10.0 {
      var m := Grouped(features, GridSize(zoom, pow2));
      var outs := EmitAll(m, m.keys, now);
      if g in outs {
        var i :| 0 <= i < |outs| && outs[i] == g;
        GroupedCellsAreInputs(features, GridSize(zoom, pow2), m.keys[i]);
        assert m.entries[m.keys[i]].feature in features;
      } else {
        assert g in Filter(features, NotPoint);
      }
    }
  }

  /** Below zoom 10 the non-point features come last, unchanged and in order,
   *  after one output per cell. */
  lemma ClusteredShape(features: seq<Feature>, zoom: real, pow2: PowerOfTwo, now: string)
    requires |features| > 0 && zoom < 10.0
    ensures var m := Grouped(features, GridSize(zoom, pow2));
      && |Clustered(features, zoom, pow2, now)| == |m.keys| + Count(features, NotPoint)
      && Clustered(features, zoom, pow2, now)[|m.keys|..] == Filter(features, NotPoint)
  {
    var m := Grouped(features, GridSize(zoom, pow2));
    assert (EmitAll(m, m.keys, now) + Filter(features, NotPoint))[|m.keys|..] == Filter(features, NotPoint);
  }
}
