/** The economics service (apps/web/lib/economics/service.ts): scenario and
 *  version creation with automatic version numbering, and simulation runs
 *  that move from QUEUED through RUNNING to COMPLETED or FAILED. Generated
 *  ids, the clock and the engine's numeric oracles are parameters. */
module EconomicsService {
  import opened Wrappers
  import opened Strings
  import opened Sorting
  import opened OMaps
  import opened Filters
  import opened EconomicsEngine
  import opened EconomicsData

  /** `{ ...scenario, latestVersion }`. */
  datatype ScenarioView = ScenarioView(scenario: Scenario, latestVersion: Option<ScenarioVersion>)

  /** `getScenario`: the scenario with its highest-numbered version. */
  function GetScenario(db: EconomicsRepository, id: string): (r: Option<ScenarioView>)
    reads db
    requires db.Valid()
    ensures r.Some? <==> id in db.scenarios.entries
    ensures r.Some? ==> r.value.scenario == db.scenarios.entries[id]
                        && r.value.latestVersion == db.GetLatestVersion(id)
  {
    match db.GetScenario(id)
    case None => None
    case Some(s) => Some(ScenarioView(s, db.GetLatestVersion(id)))
  }

  /** `getDefaultInput`: the same input the repository seeds. */
  function DefaultInput(today: string): (r: ScenarioInput)
    ensures r == SeedInput(today)
    ensures Months(r) == 240.0
  {
    ScenarioInput(General(today, 20.0, "USD", 10.0),
                  Production("DECLINE", 1000.0, Some(15.0)),
                  Pricing("FLAT", Some(75.0), Some(2.0)),
                  Costs(5000.0, 2.5, 5000000.0, 100000.0, 21.0, 12.5))
  }

  /** `createScenario`: a DRAFT scenario and its version 1, named 'Initial
   *  Version', holding the given input or the default one. */
  method CreateScenario(db: EconomicsRepository, orgId: string, userId: string, name: string,
                        description: Option<string>, input: Option<ScenarioInput>,
                        id: string, versionId: string, now: int, today: string)
    returns (s: Scenario)
    modifies db
    requires db.Valid()
    ensures db.Valid()
    ensures s == Scenario(id, orgId, userId, name, description, "DRAFT", None, now, now)
    ensures db.scenarios == old(db.scenarios).Set(id, s)
    ensures db.versions == old(db.versions).Set(versionId,
      ScenarioVersion(versionId, id, 1, "Initial Version",
                      if input.Some? then input.value else DefaultInput(today), userId, now))
    ensures db.runs == old(db.runs)
  {
    s := Scenario(id, orgId, userId, name, description, "DRAFT", None, now, now);
    db.CreateScenario(s);
    var initialInput := if input.Some? then input.value else DefaultInput(today);
    var version := ScenarioVersion(versionId, id, 1, "Initial Version", initialInput, userId, now);
    db.CreateVersion(version);
  }

  /** `(versions[0]?.version || 0) + 1`, over versions listed highest first:
   *  one more than every existing number. */
  function NextVersionNumber(vs: seq<ScenarioVersion>): (r: int)
    ensures |vs| == 0 ==> r == 1
    ensures SortedBy(vs, HigherVersion) ==> forall x :: x in vs ==> x.version < r
  {
    if |vs| > 0 then
      assert SortedBy(vs, HigherVersion) ==> forall x :: x in vs ==> x.version <= vs[0].version by {
        if SortedBy(vs, HigherVersion) {
          forall x | x in vs ensures x.version <= vs[0].version {
            var k :| 0 <= k < |vs| && vs[k] == x;
            if k > 0 { assert HigherVersion(vs[0], vs[k]); }
          }
        }
      }
      (if vs[0].version != 0 then vs[0].version else 0) + 1
    else 1
  }

  /** `name || \`Version ${n}\``. */
  function VersionName(name: Option<string>, n: int): (r: string)
    ensures Given(name) ==> r == name.value
    ensures !Given(name) ==> r == "Version " + IntToString(n)
  {
    if Given(name) then name.value else "Version " + IntToString(n)
  }

  /** `createVersion`: the next-numbered version of the scenario, which then
   *  is the scenario's latest. */
  method CreateVersion(db: EconomicsRepository, scenarioId: string, userId: string, input: ScenarioInput,
                       name: Option<string>, versionId: string, now: int)
    returns (v: ScenarioVersion)
    modifies db
    requires db.Valid()
    ensures db.Valid()
    ensures v == ScenarioVersion(versionId, scenarioId, NextVersionNumber(old(db.ListVersions(scenarioId))),
                                 VersionName(name, v.version), input, userId, now)
    ensures forall x :: x in old(db.versions.Values()) && x.scenarioId == scenarioId ==> x.version < v.version
    ensures db.versions == old(db.versions).Set(versionId, v)
    ensures db.scenarios == old(db.scenarios) && db.runs == old(db.runs)
    ensures versionId !in old(db.versions.entries) ==> db.GetLatestVersion(scenarioId) == Some(v)
  {
    var versions := db.ListVersions(scenarioId);
    var nextVersionNum := NextVersionNumber(versions);
    v := ScenarioVersion(versionId, scenarioId, nextVersionNum, VersionName(name, nextVersionNum), input, userId, now);
    ghost var before := db.versions;
    db.CreateVersion(v);
    if versionId !in before.entries {
      NewHighestIsLatest(db, before, v);
    }
  }

  /** Storing a version numbered above all of its scenario's versions under
   *  a fresh key makes it the scenario's latest. */
  lemma NewHighestIsLatest(db: EconomicsRepository, before: OMap<string, ScenarioVersion>, v: ScenarioVersion)
    requires before.Valid() && v.id !in before.entries && db.Valid()
    requires db.versions == before.Set(v.id, v)
    requires forall x :: x in before.Values() && x.scenarioId == v.scenarioId ==> x.version < v.version
    ensures db.GetLatestVersion(v.scenarioId) == Some(v)
  {
    SetValuesNew(before, v.id, v);
    assert v in db.versions.Values();
    var r := db.GetLatestVersion(v.scenarioId);
    assert r.Some?;
    assert r.value.version >= v.version;
    assert r.value in before.Values() + [v];
  }

  /** The run `runSimulation` queues. */
  function QueuedRun(runId: string, versionId: string, now: int): (r: Run)
    ensures r.status == "QUEUED" && r.result.None? && r.startedAt.None? && r.finishedAt.None?
  {
    Run(runId, versionId, "QUEUED", now, None, None, None, None)
  }

  /** `runSimulation`: queues a run of a stored version, or fails with
   *  'Version not found' and changes nothing. */
  method RunSimulation(db: EconomicsRepository, versionId: string, runId: string, now: int)
    returns (r: Result<Run, string>)
    modifies db
    requires db.Valid()
    ensures db.Valid()
    ensures r.Err? <==> versionId !in old(db.versions.entries)
    ensures r.Err? ==> r.error == "Version not found" && db.runs == old(db.runs)
    ensures r.Ok? ==> r.value == QueuedRun(runId, versionId, now) && db.runs == old(db.runs).Set(runId, r.value)
    ensures db.scenarios == old(db.scenarios) && db.versions == old(db.versions)
  {
    var version := db.GetVersion(versionId);
    if version.None? {
      return Err("Version not found");
    }
    var run := QueuedRun(runId, versionId, now);
    db.CreateRun(run);
    return Ok(run);
  }

  /** A run after `executeRun`: started, then finished as COMPLETED with the
   *  engine's result or as FAILED with its error message. */
  function Executed(x: Run, startedAt: int, finishedAt: int, outcome: Result<RunResult, string>): (r: Run)
    ensures r.id == x.id && r.versionId == x.versionId && r.createdAt == x.createdAt
    ensures r.startedAt == Some(startedAt) && r.finishedAt == Some(finishedAt)
    ensures r.status == "COMPLETED" <==> outcome.Ok?
    ensures r.status == "FAILED" <==> outcome.Err?
    ensures outcome.Ok? ==> r.result == Some(outcome.value) && r.error == x.error
    ensures outcome.Err? ==> r.error == Some(outcome.error) && r.result == x.result
  {
    var running := MergeRun(x, RunUpdates(Some("RUNNING"), Some(startedAt), None, None, None));
    match outcome
    case Ok(result) => MergeRun(running, RunUpdates(Some("COMPLETED"), None, Some(finishedAt), Some(result), None))
    case Err(message) => MergeRun(running, RunUpdates(Some("FAILED"), None, Some(finishedAt), None, Some(message)))
  }

  /** `executeRun`, run to completion: marks the run RUNNING, runs the engine
   *  and records its result or its failure. An unknown run id changes
   *  nothing. */
  method ExecuteRun(db: EconomicsRepository, runId: string, input: ScenarioInput, startedAt: int, finishedAt: int,
                    pow12: (real, nat) -> real, period: nat -> Option<string>, discount: nat -> real, irr: Option<real>)
    modifies db
    requires db.Valid()
    ensures db.Valid()
    ensures runId !in old(db.runs.entries) ==> db.runs == old(db.runs)
    ensures runId in old(db.runs.entries) ==>
      db.runs == old(db.runs).Set(runId, Executed(old(db.runs.entries[runId]), startedAt, finishedAt,
                                                  RunOutcome(input, pow12, period, discount, irr)))
    ensures db.scenarios == old(db.scenarios) && db.versions == old(db.versions)
  {
    db.UpdateRun(runId, RunUpdates(Some("RUNNING"), Some(startedAt), None, None, None));
    var result := EconomicsEngine.RunEngine(input, pow12, period, discount, irr);
    if result.Ok? {
      db.UpdateRun(runId, RunUpdates(Some("COMPLETED"), None, Some(finishedAt), Some(result.value), None));
    } else {
      db.UpdateRun(runId, RunUpdates(Some("FAILED"), None, Some(finishedAt), None, Some(result.error)));
    }
    if runId in old(db.runs.entries) {
      SetTwice(old(db.runs), runId,
               MergeRun(old(db.runs.entries[runId]), RunUpdates(Some("RUNNING"), Some(startedAt), None, None, None)),
               db.runs.entries[runId]);
      assert db.runs == old(db.runs).Set(runId, Executed(old(db.runs.entries[runId]), startedAt, finishedAt, result));
    }
  }

  // ---------------------------------------------------------------- lemmas

  /** The seed scenario's next version is version 2, named 'Version 2' when
   *  no name is given. */
  lemma SeedNextVersionIsTwo(db: EconomicsRepository, now: int, today: string)
    requires db.Valid() && db.versions.Values() == [SeedVersion(now, today)]
    ensures NextVersionNumber(db.ListVersions("scenario-001")) == 2
    ensures VersionName(None, 2) == "Version 2"
  {
    var vs := db.ListVersions("scenario-001");
    assert SeedVersion(now, today) in vs;
    assert forall x :: x in vs ==> x == SeedVersion(now, today);
    assert vs[0] == SeedVersion(now, today);
    assert IntToString(2) == "2";
  }
}
