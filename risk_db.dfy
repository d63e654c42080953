/** The compliance repository (apps/web/lib/risk/db.ts): one shared object
 *  holding insertion-ordered maps of jurisdictions, regulations, regulation
 *  versions, obligations, assessments, issues, watchlists and per-watchlist
 *  events, plus one flat feed of every watchlist event. */
module RiskDb {
  import opened Wrappers
  import opened OMaps

  datatype Jurisdiction = Jurisdiction(
    id: string, name: string, code: string, kind: string, parentId: Option<string>)

  datatype Regulation = Regulation(
    id: string, orgId: string, jurisdictionId: string, title: string,
    description: string, status: string, effectiveDate: string,
    createdAt: int, updatedAt: int)

  datatype RegulationVersion = RegulationVersion(
    id: string, regulationId: string, version: nat, effectiveDate: string,
    changesSummary: string, fullText: string, createdAt: int)

  datatype Obligation = Obligation(
    id: string, orgId: string, regulationId: string, title: string,
    description: string, frequency: string)

  datatype Assessment = Assessment(
    id: string, orgId: string, assetId: string, obligationId: Option<string>,
    status: string, score: int, assessedAt: int)

  datatype Issue = Issue(
    id: string, orgId: string, assetId: string, obligationId: Option<string>,
    title: string, severity: string, status: string, createdAt: int, updatedAt: int)

  /** Absent filter lists behave like empty ones (`?.length` is falsy). */
  datatype WatchlistFilters = WatchlistFilters(jurisdictionIds: seq<string>, keywords: seq<string>)

  datatype Watchlist = Watchlist(
    id: string, orgId: string, name: string, description: string,
    filters: WatchlistFilters, createdBy: string, createdAt: int)

  datatype WatchlistEvent = WatchlistEvent(
    id: string, watchlistId: string, regulationId: string,
    regulationVersionId: Option<string>, kind: string, summary: string,
    severity: string, createdAt: int, isRead: bool)

  // ------------------------------------------------------------------ seed

  const UsFed := Jurisdiction("us-fed", "United States (Federal)", "US", "COUNTRY", None)
  const UsTx := Jurisdiction("us-tx", "Texas", "US-TX", "STATE", Some("us-fed"))
  const UsNm := Jurisdiction("us-nm", "New Mexico", "US-NM", "STATE", Some("us-fed"))

  function RegCaa(now: int): Regulation {
    Regulation("reg-caa", "org-demo", "us-fed", "Clean Air Act (CAA)",
               "Comprehensive federal law that regulates air emissions from stationary and mobile sources.",
               "active", "1970-12-31", now, now)
  }

  function RegMerp(now: int): Regulation {
    Regulation("reg-merp", "org-demo", "us-fed", "Methane Emissions Reduction Program (MERP)",
               "Proposed rule to reduce methane emissions from the oil and natural gas sector.",
               "pending", "2024-01-01", now, now)
  }

  function VerCaa1(now: int): RegulationVersion {
    RegulationVersion("ver-caa-1", "reg-caa", 1, "1970-12-31", "Initial enactment.",
                      "The Clean Air Act is the United States primary federal air quality law...", now)
  }

  const OblFlare := Obligation("obl-flare", "org-demo", "reg-merp", "Flare Monitoring",
                               "Continuous monitoring of flare stack efficiency.", "DAILY")
  const OblLeak := Obligation("obl-leak", "org-demo", "reg-merp", "Leak Detection and Repair (LDAR)",
                              "Quarterly surveys of all well sites for methane leaks.", "QUARTERLY")

  function WlEnv(now: int): Watchlist {
    Watchlist("wl-env", "org-demo", "Environmental Compliance",
              "Tracking environmental regulations in active basins.",
              WatchlistFilters(["us-fed", "us-tx"], ["methane", "emissions", "water"]),
              "system", now)
  }

  function Event1(now: int): WatchlistEvent {
    WatchlistEvent("evt-1", "wl-env", "reg-merp", None, "NEW_REGULATION",
                   "New regulation \"Methane Emissions Reduction Program\" matches your filters.",
                   "HIGH", now, false)
  }

  function SeedJurisdictions(): (r: OMap<string, Jurisdiction>)
    ensures r.Valid() && r.Values() == [UsFed, UsTx, UsNm]
  {
    Of3("us-fed", UsFed, "us-tx", UsTx, "us-nm", UsNm)
  }

  function SeedRegulations(now: int): (r: OMap<string, Regulation>)
    ensures r.Valid() && r.Values() == [RegCaa(now), RegMerp(now)]
    ensures r.keys == ["reg-caa", "reg-merp"]
  {
    Of2("reg-caa", RegCaa(now), "reg-merp", RegMerp(now))
  }

  function SeedVersions(now: int): (r: OMap<string, seq<RegulationVersion>>)
    ensures r.Valid() && r.keys == ["reg-caa"] && r.Get("reg-caa") == Some([VerCaa1(now)])
  {
    Of1("reg-caa", [VerCaa1(now)])
  }

  function SeedObligations(): (r: OMap<string, Obligation>)
    ensures r.Valid() && r.Values() == [OblFlare, OblLeak]
  {
    Of2("obl-flare", OblFlare, "obl-leak", OblLeak)
  }

  function SeedWatchlists(now: int): (r: OMap<string, Watchlist>)
    ensures r.Valid() && r.Values() == [WlEnv(now)] && r.entries == map["wl-env" := WlEnv(now)]
  {
    Of1("wl-env", WlEnv(now))
  }

  function SeedWatchlistEvents(now: int): (r: OMap<string, seq<WatchlistEvent>>)
    ensures r.Valid() && r.keys == ["wl-env"] && r.Get("wl-env") == Some([Event1(now)])
  {
    Of1("wl-env", [Event1(now)])
  }

  /** The seed holds three jurisdictions, Texas under the federal level;
   *  only reg-caa has a version history; evt-1 is both on the watchlist and
   *  in the feed. */
  lemma SeedShape(now: int)
    ensures SeedJurisdictions().Size() == 3
    ensures SeedJurisdictions().Get("us-tx") == Some(UsTx)
    ensures UsTx.code == "US-TX" && UsTx.parentId == Some("us-fed")
    ensures SeedVersions(now).Get("reg-merp") == None
    ensures SeedVersions(now).Get("reg-caa").value[0].version == 1
    ensures Event1(now) in SeedWatchlistEvents(now).Get("wl-env").value
  {
    var j := SeedJurisdictions();
    assert j.keys == ["us-fed", "us-tx", "us-nm"];
  }

  // ------------------------------------------------------------ repository

  class RiskRepository {
    var jurisdictions: OMap<string, Jurisdiction>
    var regulations: OMap<string, Regulation>
    var regulationVersions: OMap<string, seq<RegulationVersion>>
    var obligations: OMap<string, Obligation>
    var assessments: OMap<string, Assessment>
    var issues: OMap<string, Issue>
    var watchlists: OMap<string, Watchlist>
    var watchlistEvents: OMap<string, seq<WatchlistEvent>>
    var allWatchlistEvents: seq<WatchlistEvent>

    /** Every map is a well-formed ordered map, and every watchlist is stored
     *  under its own id. */
    ghost predicate Valid()
      reads this
    {
      jurisdictions.Valid() && regulations.Valid() && regulationVersions.Valid()
      && obligations.Valid() && assessments.Valid() && issues.Valid()
      && watchlists.Valid() && watchlistEvents.Valid()
      && (forall k :: k in watchlists.entries ==> watchlists.entries[k].id == k)
    }

    /** `seedData`, run by the private constructor. */
    constructor (now: int)
      ensures Valid()
      ensures jurisdictions.Values() == [UsFed, UsTx, UsNm]
      ensures regulations.Values() == [RegCaa(now), RegMerp(now)]
      ensures regulationVersions.keys == ["reg-caa"]
      ensures regulationVersions.Get("reg-caa") == Some([VerCaa1(now)])
      ensures obligations.Values() == [OblFlare, OblLeak]
      ensures assessments.keys == [] && issues.keys == []
      ensures watchlists.Values() == [WlEnv(now)]
      ensures watchlistEvents.keys == ["wl-env"] && watchlistEvents.Get("wl-env") == Some([Event1(now)])
      ensures allWatchlistEvents == [Event1(now)]
    {
      jurisdictions := SeedJurisdictions();
      regulations := SeedRegulations(now);
      regulationVersions := SeedVersions(now);
      obligations := SeedObligations();
      assessments := Empty();
      issues := Empty();
      watchlists := SeedWatchlists(now);
      watchlistEvents := SeedWatchlistEvents(now);
      allWatchlistEvents := [Event1(now)];
    }
  }

  /** The process-wide slot behind `RiskRepository.getInstance()` and the
   *  exported `db`. */
  class RiskGlobal {
    var instance: RiskRepository?

    constructor ()
      ensures instance == null
    {
      instance := null;
    }

    /** `getInstance`: the first call creates and seeds the repository, every
     *  later call returns that same object. */
    method GetInstance(now: int) returns (db: RiskRepository)
      modifies this
      ensures old(instance) != null ==> db == old(instance)
      ensures old(instance) == null ==> fresh(db) && db.Valid()
      ensures old(instance) == null ==>
        && db.jurisdictions.Values() == [UsFed, UsTx, UsNm]
        && db.regulations.Values() == [RegCaa(now), RegMerp(now)]
        && db.regulationVersions.keys == ["reg-caa"]
        && db.regulationVersions.Get("reg-caa") == Some([VerCaa1(now)])
        && db.obligations.Values() == [OblFlare, OblLeak]
        && db.assessments.keys == [] && db.issues.keys == []
        && db.watchlists.Values() == [WlEnv(now)]
        && db.watchlistEvents.keys == ["wl-env"] && db.watchlistEvents.Get("wl-env") == Some([Event1(now)])
        && db.allWatchlistEvents == [Event1(now)]
      ensures instance == db
    {
      if instance == null {
        instance := new RiskRepository(now);
      }
      db := instance;
    }
  }
}
