/** The production repository (apps/web/lib/production/db.ts): time series
 *  per asset and measurement, decline-curve models, scenarios and anomalies
 *  per asset, and background jobs, all in insertion-ordered maps. Timestamps
 *  stay text; `timeOf` stands for `new Date(t).getTime()`. */
module ProductionDb {
  import opened Wrappers
  import opened Seqs
  import opened Sorting
  import opened OMaps
  import opened Json

  datatype SeriesPoint = SeriesPoint(
    assetId: string, seriesId: string, timestamp: string, value: real,
    measurement: string, unit: string, sourceSystem: string, ingestedAt: string,
    qualityFlags: Json, tags: Json)

  datatype DcaModel = DcaModel(
    id: string, assetId: string, modelType: string, params: map<string, real>,
    goodnessOfFit: map<string, real>, createdAt: string)

  /** The optional modifications of a scenario; `None` is an absent key. */
  datatype Modifications = Modifications(
    downtimeDays: Option<seq<string>>, curtailmentPercent: Option<real>,
    upliftMultiplier: Option<real>, declineRateMultiplier: Option<real>)

  const NoModifications := Modifications(None, None, None, None)

  datatype ProductionScenario = ProductionScenario(
    id: string, name: string, assetId: string, baseScenarioId: Option<string>,
    modifications: Modifications, isCommitted: bool, createdAt: string, createdBy: string)

  datatype Anomaly = Anomaly(
    id: string, assetId: string, seriesId: string, timestamp: string,
    severity: string, kind: string, explanation: string, createdAt: string)

  datatype Job = Job(
    id: string, kind: string, status: string, progress: int, result: Option<Json>,
    error: Option<string>, createdAt: string, updatedAt: string)

  datatype JobUpdates = JobUpdates(
    status: Option<string>, progress: Option<int>, result: Option<Json>, error: Option<string>)

  /** `${assetId}-${measurement}`. */
  function SeriesKey(assetId: string, measurement: string): string {
    assetId + "-" + measurement
  }

  /** `{ ...job, ...updates, updated_at }`. */
  function MergeJob(j: Job, u: JobUpdates, now: string): (r: Job)
    ensures r.id == j.id && r.kind == j.kind && r.createdAt == j.createdAt && r.updatedAt == now
    ensures r.status == (if u.status.Some? then u.status.value else j.status)
    ensures r.progress == (if u.progress.Some? then u.progress.value else j.progress)
    ensures u == JobUpdates(None, None, None, None) ==> r == j.(updatedAt := now)
  {
    j.(status := u.status.GetOr(j.status), progress := u.progress.GetOr(j.progress),
       result := if u.result.Some? then u.result else j.result,
       error := if u.error.Some? then u.error else j.error,
       updatedAt := now)
  }

  // ---------------------------------------------------------------- upsert

  /** `(a, b) => time(a) - time(b)`: earlier points first. */
  function ByTime(timeOf: string -> int): (SeriesPoint, SeriesPoint) -> bool {
    (a: SeriesPoint, b: SeriesPoint) => timeOf(a.timestamp) <= timeOf(b.timestamp)
  }

  predicate HasStamp(t: string, c: SeriesPoint) {
    c.timestamp == t
  }

  /** `c => c.timestamp === t`. */
  function Stamped(t: string): SeriesPoint -> bool {
    (c: SeriesPoint) => HasStamp(t, c)
  }

  /** How many points of `xs` carry timestamp `t`. */
  function StampCount(xs: seq<SeriesPoint>, t: string): nat {
    Count(xs, Stamped(t))
  }

  /** The point replaces the first one with the same timestamp text, or is
   *  appended when there is none. */
  function Merged(current: seq<SeriesPoint>, s: SeriesPoint): (r: seq<SeriesPoint>)
    ensures s in r
  {
    var k := FirstIndex(current, Stamped(s.timestamp));
    if k >= 0 then
      assert current[k := s][k] == s;
      current[k := s]
    else
      assert (current + [s])[|current|] == s;
      current + [s]
  }

  /** One point upserted into one series: merged, then sorted by time. */
  function Upserted(current: seq<SeriesPoint>, s: SeriesPoint, timeOf: string -> int): (r: seq<SeriesPoint>)
    ensures SortedBy(r, ByTime(timeOf))
    ensures multiset(r) == multiset(Merged(current, s))
    ensures |r| == |Merged(current, s)|
    ensures s in r
  {
    var r := SortBy(Merged(current, s), ByTime(timeOf));
    assert s in multiset(r);
    r
  }

  /** One point upserted into the store. */
  function UpsertOne(store: OMap<string, seq<SeriesPoint>>, s: SeriesPoint, timeOf: string -> int)
    : (r: OMap<string, seq<SeriesPoint>>)
    requires store.Valid()
    ensures r.Valid()
  {
    var key := SeriesKey(s.assetId, s.measurement);
    store.Set(key, Upserted(store.Get(key).GetOr([]), s, timeOf))
  }

  /** The points upserted one after another, in order. */
  function UpsertAll(store: OMap<string, seq<SeriesPoint>>, series: seq<SeriesPoint>, timeOf: string -> int)
    : (r: OMap<string, seq<SeriesPoint>>)
    requires store.Valid()
    ensures r.Valid()
    decreases |series|
  {
    if |series| == 0 then store
    else UpsertOne(UpsertAll(store, series[..|series| - 1], timeOf), series[|series| - 1], timeOf)
  }

  lemma UpsertAllStep(store: OMap<string, seq<SeriesPoint>>, series: seq<SeriesPoint>, i: nat, timeOf: string -> int)
    requires store.Valid() && i < |series|
    ensures UpsertAll(store, series[..i + 1], timeOf)
            == UpsertOne(UpsertAll(store, series[..i], timeOf), series[i], timeOf)
  {
    assert series[..i + 1][..i] == series[..i];
  }

  // ------------------------------------------------------------ repository

  class ProductionRepository {
    var seriesStore: OMap<string, seq<SeriesPoint>>
    var dcaModels: OMap<string, seq<DcaModel>>
    var scenarios: OMap<string, seq<ProductionScenario>>
    var anomalies: OMap<string, seq<Anomaly>>
    var jobs: OMap<string, Job>

    ghost predicate Valid()
      reads this
    {
      seriesStore.Valid() && dcaModels.Valid() && scenarios.Valid() && anomalies.Valid() && jobs.Valid()
    }

    /** The private constructor with `seedData`: a year of daily oil, gas and
     *  water points for well-01 (`oil`, `gas` and `water`, whose values come
     *  from a random generator), one decline model and the committed base
     *  scenario. */
    constructor (now: string, oil: seq<SeriesPoint>, gas: seq<SeriesPoint>, water: seq<SeriesPoint>)
      ensures Valid()
      ensures seriesStore.keys == ["well-01-OIL_RATE", "well-01-GAS_RATE", "well-01-WATER_RATE"]
      ensures seriesStore.Values() == [oil, gas, water]
      ensures dcaModels.Get("well-01") == Some([SeedDcaModel(now)])
      ensures scenarios.Get("well-01") == Some([SeedScenario(now)])
      ensures anomalies.keys == [] && jobs.keys == []
    {
      seriesStore := Of3("well-01-OIL_RATE", oil, "well-01-GAS_RATE", gas, "well-01-WATER_RATE", water);
      dcaModels := Of1("well-01", [SeedDcaModel(now)]);
      scenarios := Of1("well-01", [SeedScenario(now)]);
      anomalies := Empty();
      jobs := Empty();
    }

    /** `getSeries`: the stored series, or none for an unknown key. */
    function GetSeries(assetId: string, measurement: string): (r: seq<SeriesPoint>)
      reads this
      ensures SeriesKey(assetId, measurement) !in seriesStore.entries ==> r == []
      ensures SeriesKey(assetId, measurement) in seriesStore.entries ==>
                r == seriesStore.entries[SeriesKey(assetId, measurement)]
    {
      seriesStore.Get(SeriesKey(assetId, measurement)).GetOr([])
    }

    /** `upsertSeries`: each point in turn replaces the point of its series
     *  with the same timestamp or is appended, and the series is re-sorted
     *  by time. */
    method UpsertSeries(series: seq<SeriesPoint>, timeOf: string -> int)
      modifies this
      requires Valid()
      ensures Valid()
      ensures seriesStore == UpsertAll(old(seriesStore), series, timeOf)
      ensures dcaModels == old(dcaModels) && scenarios == old(scenarios)
      ensures anomalies == old(anomalies) && jobs == old(jobs)
    {
      var i := 0;
      while i < |series|
        invariant 0 <= i <= |series|
        invariant seriesStore == UpsertAll(old(seriesStore), series[..i], timeOf)
        invariant dcaModels == old(dcaModels) && scenarios == old(scenarios)
        invariant anomalies == old(anomalies) && jobs == old(jobs)
      {
        UpsertPoint(series[i], timeOf);
        UpsertAllStep(old(seriesStore), series, i, timeOf);
        i := i + 1;
      }
      assert series[..|series|] == series;
    }

    /** The body of the `forEach` in `upsertSeries`, for one point. */
    method UpsertPoint(s: SeriesPoint, timeOf: string -> int)
      modifies this
      requires Valid()
      ensures Valid()
      ensures seriesStore == UpsertOne(old(seriesStore), s, timeOf)
      ensures dcaModels == old(dcaModels) && scenarios == old(scenarios)
      ensures anomalies == old(anomalies) && jobs == old(jobs)
    {
      var key := SeriesKey(s.assetId, s.measurement);
      var current := seriesStore.Get(key).GetOr([]);
      ghost var stored := current;
      var existingIndex := FirstIndex(current, Stamped(s.timestamp));
      if existingIndex >= 0 {
        current := current[existingIndex := s];
      } else {
        current := current + [s];
      }
      assert current == Merged(stored, s);
      current := SortBy(current, ByTime(timeOf));
      seriesStore := seriesStore.Set(key, current);
    }

    function GetDcaModels(assetId: string): (r: seq<DcaModel>)
      reads this
      ensures assetId !in dcaModels.entries ==> r == []
      ensures assetId in dcaModels.entries ==> r == dcaModels.entries[assetId]
    {
      dcaModels.Get(assetId).GetOr([])
    }

    /** `saveDcaModel`: appends to the asset's list. */
    method SaveDcaModel(model: DcaModel)
      modifies this
      requires Valid()
      ensures Valid()
      ensures dcaModels == old(dcaModels).Set(model.assetId, old(GetDcaModels(model.assetId)) + [model])
      ensures GetDcaModels(model.assetId) == old(GetDcaModels(model.assetId)) + [model]
      ensures seriesStore == old(seriesStore) && scenarios == old(scenarios)
      ensures anomalies == old(anomalies) && jobs == old(jobs)
    {
      var existing := dcaModels.Get(model.assetId).GetOr([]);
      dcaModels := dcaModels.Set(model.assetId, existing + [model]);
    }

    function GetScenarios(assetId: string): (r: seq<ProductionScenario>)
      reads this
      ensures assetId !in scenarios.entries ==> r == []
      ensures assetId in scenarios.entries ==> r == scenarios.entries[assetId]
    {
      scenarios.Get(assetId).GetOr([])
    }

    /** `createScenario`: appends to the asset's list. */
    method CreateScenario(scenario: ProductionScenario)
      modifies this
      requires Valid()
      ensures Valid()
      ensures GetScenarios(scenario.assetId) == old(GetScenarios(scenario.assetId)) + [scenario]
      ensures scenarios == old(scenarios).Set(scenario.assetId, old(GetScenarios(scenario.assetId)) + [scenario])
      ensures seriesStore == old(seriesStore) && dcaModels == old(dcaModels)
      ensures anomalies == old(anomalies) && jobs == old(jobs)
    {
      var existing := scenarios.Get(scenario.assetId).GetOr([]);
      scenarios := scenarios.Set(scenario.assetId, existing + [scenario]);
    }

    function GetAnomalies(assetId: string): (r: seq<Anomaly>)
      reads this
      ensures assetId !in anomalies.entries ==> r == []
      ensures assetId in anomalies.entries ==> r == anomalies.entries[assetId]
    {
      anomalies.Get(assetId).GetOr([])
    }

    /** `createAnomaly`: appends to the asset's list. */
    method CreateAnomaly(anomaly: Anomaly)
      modifies this
      requires Valid()
      ensures Valid()
      ensures GetAnomalies(anomaly.assetId) == old(GetAnomalies(anomaly.assetId)) + [anomaly]
      ensures anomalies == old(anomalies).Set(anomaly.assetId, old(GetAnomalies(anomaly.assetId)) + [anomaly])
      ensures seriesStore == old(seriesStore) && dcaModels == old(dcaModels)
      ensures scenarios == old(scenarios) && jobs == old(jobs)
    {
      var existing := anomalies.Get(anomaly.assetId).GetOr([]);
      anomalies := anomalies.Set(anomaly.assetId, existing + [anomaly]);
    }

    function GetJob(id: string): (r: Option<Job>)
      reads this
      ensures r.Some? <==> id in jobs.entries
      ensures r.Some? ==> r.value == jobs.entries[id]
    {
      jobs.Get(id)
    }

    method CreateJob(job: Job)
      modifies this
      requires Valid()
      ensures Valid()
      ensures jobs == old(jobs).Set(job.id, job)
      ensures seriesStore == old(seriesStore) && dcaModels == old(dcaModels)
      ensures scenarios == old(scenarios) && anomalies == old(anomalies)
    {
      jobs := jobs.Set(job.id, job);
    }

    /** `updateJob`: merges into a stored job and stamps it; an unknown id
     *  changes nothing. */
    method UpdateJob(id: string, u: JobUpdates, now: string)
      modifies this
      requires Valid()
      ensures Valid()
      ensures id !in old(jobs.entries) ==> jobs == old(jobs)
      ensures id in old(jobs.entries) ==> jobs == old(jobs).Set(id, MergeJob(old(jobs.entries[id]), u, now))
      ensures seriesStore == old(seriesStore) && dcaModels == old(dcaModels)
      ensures scenarios == old(scenarios) && anomalies == old(anomalies)
    {
      var job := jobs.Get(id);
      if job.Some? {
        jobs := jobs.Set(id, MergeJob(job.value, u, now));
      }
    }
  }

  function SeedDcaModel(now: string): DcaModel {
    DcaModel("dca-model-1", "well-01", "EXPONENTIAL", map["qi" := 1000.0, "di" := 0.15],
             map["r2" := 0.95, "rmse" := 12.5], now)
  }

  function SeedScenario(now: string): (r: ProductionScenario)
    ensures r.isCommitted && r.modifications == NoModifications
  {
    ProductionScenario("scenario-base", "Base Case", "well-01", None, NoModifications, true, now, "system")
  }

  /** The slot behind `ProductionRepository.getInstance()`. */
  class ProductionGlobal {
    var instance: ProductionRepository?

    constructor ()
      ensures instance == null
    {
      instance := null;
    }

    method GetInstance(now: string, oil: seq<SeriesPoint>, gas: seq<SeriesPoint>, water: seq<SeriesPoint>)
      returns (db: ProductionRepository)
      modifies this
      ensures old(instance) != null ==> db == old(instance)
      ensures old(instance) == null ==> fresh(db) && db.Valid() && db.jobs.keys == []
      ensures old(instance) == null ==>
        db.seriesStore.keys == ["well-01-OIL_RATE", "well-01-GAS_RATE", "well-01-WATER_RATE"]
        && db.seriesStore.Values() == [oil, gas, water]
        && db.dcaModels.Get("well-01") == Some([SeedDcaModel(now)])
        && db.scenarios.Get("well-01") == Some([SeedScenario(now)])
        && db.anomalies.keys == []
      ensures instance == db
    {
      if instance == null {
        instance := new ProductionRepository(now, oil, gas, water);
      }
      db := instance;
    }
  }

  // ---------------------------------------------------------------- lemmas

  /** Upserting never duplicates a timestamp: the point's own timestamp
   *  occurs as often as before, or once if it was new, and every other
   *  timestamp as often as before. */
  lemma UpsertedStampCount(current: seq<SeriesPoint>, s: SeriesPoint, timeOf: string -> int, t: string)
    ensures StampCount(Upserted(current, s, timeOf), t)
            == if t == s.timestamp && StampCount(current, t) == 0 then 1 else StampCount(current, t)
  {
    var p := Stamped(t);
    CountPermutation(Upserted(current, s, timeOf), Merged(current, s), p);
    MergedStampCount(current, s, t);
  }

  lemma MergedStampCount(current: seq<SeriesPoint>, s: SeriesPoint, t: string)
    ensures StampCount(Merged(current, s), t)
            == if t == s.timestamp && StampCount(current, t) == 0 then 1 else StampCount(current, t)
  {
    var k := FirstIndex(current, Stamped(s.timestamp));
    if k >= 0 {
      ReplacedStampCount(current, k, s, t);
    } else {
      AppendedStampCount(current, s, t);
    }
  }

  lemma ReplacedStampCount(current: seq<SeriesPoint>, k: nat, s: SeriesPoint, t: string)
    requires k < |current| && current[k].timestamp == s.timestamp
    requires Merged(current, s) == current[k := s]
    ensures StampCount(Merged(current, s), t)
            == if t == s.timestamp && StampCount(current, t) == 0 then 1 else StampCount(current, t)
  {
    var p := Stamped(t);
    CountUpdate(current, k, s, p);
    CountRemove(current, k, p);
  }

  lemma AppendedStampCount(current: seq<SeriesPoint>, s: SeriesPoint, t: string)
    requires forall i :: 0 <= i < |current| ==> current[i].timestamp != s.timestamp
    ensures StampCount(Merged(current, s), t)
            == if t == s.timestamp && StampCount(current, t) == 0 then 1 else StampCount(current, t)
  {
    var p := Stamped(t);
    assert Merged(current, s) == current + [s];
    CountAppend(current, [s], p);
    if t == s.timestamp {
      CountNone(current, p);
    }
  }

  /** After an upsert the point's series is sorted by time and holds the
   *  point, and no other series changes. */
  lemma UpsertOneEffect(store: OMap<string, seq<SeriesPoint>>, s: SeriesPoint, timeOf: string -> int, key: string)
    requires store.Valid()
    ensures var after := UpsertOne(store, s, timeOf);
      && (key == SeriesKey(s.assetId, s.measurement) ==>
            after.Get(key).Some? && SortedBy(after.Get(key).value, ByTime(timeOf)) && s in after.Get(key).value)
      && (key != SeriesKey(s.assetId, s.measurement) ==> after.Get(key) == store.Get(key))
  {
    var k := SeriesKey(s.assetId, s.measurement);
    GetSet(store, k, Upserted(store.Get(k).GetOr([]), s, timeOf), key);
  }

  /** Upserting a point whose timestamp is already present keeps the
   *  series' length; a new timestamp adds one point. */
  lemma UpsertedLength(current: seq<SeriesPoint>, s: SeriesPoint, timeOf: string -> int)
    ensures |Upserted(current, s, timeOf)| == |current| + (if StampCount(current, s.timestamp) > 0 then 0 else 1)
  {
    var p := Stamped(s.timestamp);
    var r := Upserted(current, s, timeOf);
    var k := FirstIndex(current, Stamped(s.timestamp));
    if k >= 0 {
      assert |Merged(current, s)| == |current|;
      CountRemove(current, k, p);
    } else {
      assert Merged(current, s) == current + [s];
      CountNone(current, p);
    }
  }
}
