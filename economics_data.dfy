/** The economics repository (apps/web/lib/economics/data.ts): scenarios,
 *  their numbered versions and the simulation runs of each version, held in
 *  insertion-ordered maps on one process-wide object. Timestamps are
 *  milliseconds; the clock is the parameter `now`, the current date's
 *  `YYYY-MM-DD` text the parameter `today`. */
module EconomicsData {
  import opened Wrappers
  import opened Seqs
  import opened Sorting
  import opened OMaps
  import opened EconomicsEngine

  /** `status` is DRAFT, ACTIVE or ARCHIVED. */
  datatype Scenario = Scenario(
    id: string, orgId: string, createdBy: string, name: string,
    description: Option<string>, status: string, tags: Option<seq<string>>,
    createdAt: int, updatedAt: int)

  /** A `Partial<EconomicsScenario>`: every key of a scenario, `None` where
   *  it is absent; `updatedAt` is overwritten by the merge. */
  datatype ScenarioUpdates = ScenarioUpdates(
    id: Option<string>, orgId: Option<string>, createdBy: Option<string>, name: Option<string>,
    description: Option<string>, status: Option<string>, tags: Option<seq<string>>,
    createdAt: Option<int>, updatedAt: Option<int>)

  datatype ScenarioVersion = ScenarioVersion(
    id: string, scenarioId: string, version: int, name: string,
    input: ScenarioInput, createdBy: string, createdAt: int)

  /** `status` is QUEUED, RUNNING, COMPLETED or FAILED; `error` is the
   *  message of `error_json`. */
  datatype Run = Run(
    id: string, versionId: string, status: string, createdAt: int,
    startedAt: Option<int>, finishedAt: Option<int>, result: Option<RunResult>, error: Option<string>)

  datatype RunUpdates = RunUpdates(
    status: Option<string>, startedAt: Option<int>, finishedAt: Option<int>,
    result: Option<RunResult>, error: Option<string>)

  /** The spread `{ ...current, ...updates, updated_at }`: a key the update
   *  carries replaces the scenario's, the others are kept, and the update
   *  time is always the clock. */
  function MergeScenario(s: Scenario, u: ScenarioUpdates, now: int): (r: Scenario)
    ensures r.id == (if u.id.Some? then u.id.value else s.id)
    ensures r.orgId == (if u.orgId.Some? then u.orgId.value else s.orgId)
    ensures r.createdAt == (if u.createdAt.Some? then u.createdAt.value else s.createdAt)
    ensures r.updatedAt == now
    ensures r.name == (if u.name.Some? then u.name.value else s.name)
    ensures r.status == (if u.status.Some? then u.status.value else s.status)
    ensures u == ScenarioUpdates(None, None, None, None, None, None, None, None, None) ==> r == s.(updatedAt := now)
  {
    Scenario(u.id.GetOr(s.id), u.orgId.GetOr(s.orgId), u.createdBy.GetOr(s.createdBy),
             u.name.GetOr(s.name),
             if u.description.Some? then u.description else s.description,
             u.status.GetOr(s.status),
             if u.tags.Some? then u.tags else s.tags,
             u.createdAt.GetOr(s.createdAt), now)
  }

  /** The spread `{ ...current, ...updates }` on a run. */
  function MergeRun(x: Run, u: RunUpdates): (r: Run)
    ensures r.id == x.id && r.versionId == x.versionId && r.createdAt == x.createdAt
    ensures u.status.Some? ==> r.status == u.status.value
    ensures u.status.None? ==> r.status == x.status
    ensures u.result.None? ==> r.result == x.result
    ensures u.error.None? ==> r.error == x.error
  {
    x.(status := u.status.GetOr(x.status),
       startedAt := if u.startedAt.Some? then u.startedAt else x.startedAt,
       finishedAt := if u.finishedAt.Some? then u.finishedAt else x.finishedAt,
       result := if u.result.Some? then u.result else x.result,
       error := if u.error.Some? then u.error else x.error)
  }

  /** `b.version - a.version`: higher version numbers first. */
  predicate HigherVersion(a: ScenarioVersion, b: ScenarioVersion) {
    a.version >= b.version
  }

  /** Newer runs first. */
  predicate NewerRun(a: Run, b: Run) {
    a.createdAt >= b.createdAt
  }

  // ------------------------------------------------------------------ seed

  function SeedScenario(now: int): Scenario {
    Scenario("scenario-001", "org-001", "system", "Permian Base Case",
             Some("Standard type curve for Wolfcamp A"), "DRAFT", Some(["permian", "wolfcamp"]), now, now)
  }

  /** The seed version's input: twenty years of a 15 % decline from
   *  1000 bbl/d, a flat 75 USD price escalating 2 % a year. */
  function SeedInput(today: string): (r: ScenarioInput)
    ensures r.general.durationYears == 20.0 && r.production.curveType == "DECLINE"
    ensures r.pricing.model == "FLAT" && r.pricing.flatPrice == Some(75.0)
  {
    ScenarioInput(General(today, 20.0, "USD", 10.0),
                  Production("DECLINE", 1000.0, Some(15.0)),
                  Pricing("FLAT", Some(75.0), Some(2.0)),
                  Costs(5000.0, 2.5, 5000000.0, 100000.0, 21.0, 12.5))
  }

  function SeedVersion(now: int, today: string): (r: ScenarioVersion)
    ensures r.scenarioId == SeedScenario(now).id && r.version == 1
  {
    ScenarioVersion("version-001", "scenario-001", 1, "Initial Setup", SeedInput(today), "system", now)
  }

  // ------------------------------------------------------------ repository

  class EconomicsRepository {
    var scenarios: OMap<string, Scenario>
    var versions: OMap<string, ScenarioVersion>
    var runs: OMap<string, Run>

    ghost predicate Valid()
      reads this
    {
      scenarios.Valid() && versions.Valid() && runs.Valid()
    }

    /** The private constructor with `seedData`: one scenario with one
     *  version, no runs. */
    constructor (now: int, today: string)
      ensures Valid()
      ensures scenarios.Values() == [SeedScenario(now)] && scenarios.Get("scenario-001") == Some(SeedScenario(now))
      ensures versions.Values() == [SeedVersion(now, today)]
      ensures versions.Get("version-001") == Some(SeedVersion(now, today))
      ensures runs.keys == []
    {
      scenarios := Of1("scenario-001", SeedScenario(now));
      versions := Of1("version-001", SeedVersion(now, today));
      runs := Empty();
    }

    // --- scenarios

    /** `listScenarios`: the organisation's scenarios in insertion order. */
    function ListScenarios(orgId: string): (r: seq<Scenario>)
      reads this
      requires Valid()
      ensures forall x :: x in r <==> x in scenarios.Values() && x.orgId == orgId
      ensures multiset(r) <= multiset(scenarios.Values())
      ensures r == Filter(scenarios.Values(), (x: Scenario) => x.orgId == orgId)
    {
      Filter(scenarios.Values(), (x: Scenario) => x.orgId == orgId)
    }

    function GetScenario(id: string): (r: Option<Scenario>)
      reads this
      ensures r.Some? <==> id in scenarios.entries
      ensures r.Some? ==> r.value == scenarios.entries[id]
    {
      scenarios.Get(id)
    }

    /** `createScenario`: stores under the scenario's own id, replacing any
     *  scenario already there. */
    method CreateScenario(s: Scenario)
      modifies this
      requires Valid()
      ensures Valid()
      ensures scenarios == old(scenarios).Set(s.id, s)
      ensures versions == old(versions) && runs == old(runs)
    {
      scenarios := scenarios.Set(s.id, s);
    }

    /** `updateScenario`: merges into a stored scenario; an unknown id
     *  changes nothing. */
    method UpdateScenario(id: string, u: ScenarioUpdates, now: int)
      modifies this
      requires Valid()
      ensures Valid()
      ensures id !in old(scenarios.entries) ==> scenarios == old(scenarios)
      ensures id in old(scenarios.entries) ==>
        scenarios == old(scenarios).Set(id, MergeScenario(old(scenarios.entries[id]), u, now))
      ensures versions == old(versions) && runs == old(runs)
    {
      var current := scenarios.Get(id);
      if current.Some? {
        scenarios := scenarios.Set(id, MergeScenario(current.value, u, now));
      }
    }

    // --- versions

    /** `listVersions`: the scenario's versions, highest number first. */
    function ListVersions(scenarioId: string): (r: seq<ScenarioVersion>)
      reads this
      requires Valid()
      ensures SortedBy(r, HigherVersion)
      ensures forall x :: x in r <==> x in versions.Values() && x.scenarioId == scenarioId
      ensures multiset(r) <= multiset(versions.Values())
    {
      var mine := Filter(versions.Values(), (x: ScenarioVersion) => x.scenarioId == scenarioId);
      var r := SortBy(mine, HigherVersion);
      assert forall x :: x in r <==> x in mine by {
        forall x ensures x in r <==> x in mine {
          SortByMembers(mine, HigherVersion, x);
        }
      }
      r
    }

    function GetVersion(id: string): (r: Option<ScenarioVersion>)
      reads this
      ensures r.Some? <==> id in versions.entries
      ensures r.Some? ==> r.value == versions.entries[id]
    {
      versions.Get(id)
    }

    method CreateVersion(v: ScenarioVersion)
      modifies this
      requires Valid()
      ensures Valid()
      ensures versions == old(versions).Set(v.id, v)
      ensures scenarios == old(scenarios) && runs == old(runs)
    {
      versions := versions.Set(v.id, v);
    }

    /** `getLatestVersion`: the scenario's highest-numbered version. */
    function GetLatestVersion(scenarioId: string): (r: Option<ScenarioVersion>)
      reads this
      requires Valid()
      ensures r.None? <==> forall x :: x in versions.Values() ==> x.scenarioId != scenarioId
      ensures r.Some? ==> r.value in versions.Values() && r.value.scenarioId == scenarioId
      ensures r.Some? ==> forall x :: x in versions.Values() && x.scenarioId == scenarioId ==>
                            x.version <= r.value.version
    {
      var vs := ListVersions(scenarioId);
      if |vs| == 0 then None
      else
        assert forall x :: x in vs ==> HigherVersion(vs[0], x) by {
          forall x | x in vs ensures HigherVersion(vs[0], x) {
            var k :| 0 <= k < |vs| && vs[k] == x;
            if k > 0 { assert HigherVersion(vs[0], vs[k]); }
          }
        }
        Some(vs[0])
    }

    // --- runs

    function GetRun(id: string): (r: Option<Run>)
      reads this
      ensures r.Some? <==> id in runs.entries
      ensures r.Some? ==> r.value == runs.entries[id]
    {
      runs.Get(id)
    }

    /** `listRuns`: the version's runs, newest first. */
    function ListRuns(versionId: string): (r: seq<Run>)
      reads this
      requires Valid()
      ensures SortedBy(r, NewerRun)
      ensures forall x :: x in r <==> x in runs.Values() && x.versionId == versionId
      ensures multiset(r) == multiset(Filter(runs.Values(), (x: Run) => x.versionId == versionId))
    {
      var mine := Filter(runs.Values(), (x: Run) => x.versionId == versionId);
      var r := SortBy(mine, NewerRun);
      SameMembers(mine, r);
      r
    }

    method CreateRun(x: Run)
      modifies this
      requires Valid()
      ensures Valid()
      ensures runs == old(runs).Set(x.id, x)
      ensures scenarios == old(scenarios) && versions == old(versions)
    {
      runs := runs.Set(x.id, x);
    }

    /** `updateRun`: merges into a stored run; an unknown id changes nothing. */
    method UpdateRun(id: string, u: RunUpdates)
      modifies this
      requires Valid()
      ensures Valid()
      ensures id !in old(runs.entries) ==> runs == old(runs)
      ensures id in old(runs.entries) ==> runs == old(runs).Set(id, MergeRun(old(runs.entries[id]), u))
      ensures scenarios == old(scenarios) && versions == old(versions)
    {
      var current := runs.Get(id);
      if current.Some? {
        runs := runs.Set(id, MergeRun(current.value, u));
      }
    }
  }

  /** The slot behind `EconomicsRepository.getInstance()` and the exported
   *  `db`. */
  class EconomicsGlobal {
    var instance: EconomicsRepository?

    constructor ()
      ensures instance == null
    {
      instance := null;
    }

    /** The first call creates and seeds the repository; later calls return
     *  that same object. */
    method GetInstance(now: int, today: string) returns (db: EconomicsRepository)
      modifies this
      ensures old(instance) != null ==> db == old(instance)
      ensures old(instance) == null ==> fresh(db) && db.Valid() && db.runs.keys == []
      ensures old(instance) == null ==>
        db.scenarios.Values() == [SeedScenario(now)] && db.scenarios.Get("scenario-001") == Some(SeedScenario(now))
        && db.versions.Values() == [SeedVersion(now, today)]
        && db.versions.Get("version-001") == Some(SeedVersion(now, today))
      ensures instance == db
    {
      if instance == null {
        instance := new EconomicsRepository(now, today);
      }
      db := instance;
    }
  }

  // ---------------------------------------------------------------- lemmas

  /** The seeded repository lists version 1 as the seed scenario's latest. */
  lemma SeedLatestIsVersionOne(db: EconomicsRepository, now: int, today: string)
    requires db.Valid() && db.versions.Values() == [SeedVersion(now, today)]
    ensures db.GetLatestVersion("scenario-001") == Some(SeedVersion(now, today))
  {
    var r := db.GetLatestVersion("scenario-001");
    assert SeedVersion(now, today) in db.versions.Values();
    assert r.Some? && r.value in db.versions.Values();
  }

  /** Updating a run changes no other run. */
  lemma UpdateRunIsLocal(before: OMap<string, Run>, id: string, u: RunUpdates, other: string)
    requires before.Valid() && id in before.entries && other != id
    ensures before.Set(id, MergeRun(before.entries[id], u)).Get(other) == before.Get(other)
  {
    GetSet(before, id, MergeRun(before.entries[id], u), other);
  }
}
