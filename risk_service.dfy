/** The compliance service (apps/web/lib/risk/service.ts): organisation-scoped
 *  reads of the repository, regulation creation and versioned updates that
 *  notify matching watchlists, and scored compliance assessments.
 *
 *  The random part of each generated id (`randomUUID().split('-')[0]`) and
 *  the clock are parameters; `eventIds(i)` names the event raised for the
 *  `i`-th watchlist. */
module RiskService {
  import opened Wrappers
  import opened Strings
  import opened Seqs
  import opened Sorting
  import opened OMaps
  import opened Filters
  import opened RiskDb

  datatype RegulationInput = RegulationInput(
    jurisdictionId: string, title: string, description: string,
    status: string, effectiveDate: string)

  /** A `Partial<Regulation>`: every key of a regulation, `None` where it is
   *  absent; `orgId` may be sent but is stripped, `updatedAt` is overwritten. */
  datatype RegulationUpdates = RegulationUpdates(
    id: Option<string>, orgId: Option<string>, jurisdictionId: Option<string>,
    title: Option<string>, description: Option<string>, status: Option<string>,
    effectiveDate: Option<string>, createdAt: Option<int>, updatedAt: Option<int>)

  datatype WatchlistInput = WatchlistInput(
    name: string, description: string, filters: WatchlistFilters, createdBy: string)

  datatype AssessmentInput = AssessmentInput(assetId: string, obligationId: Option<string>, status: string)

  datatype IssueInput = IssueInput(
    assetId: string, obligationId: Option<string>, title: string, severity: string, status: string)

  // ------------------------------------------------------------ regulations

  /** `getRegulations`: the organisation's regulations, optionally of one
   *  jurisdiction, in insertion order. */
  function GetRegulations(db: RiskRepository, orgId: string, jurisdictionId: Option<string>)
    : (r: seq<Regulation>)
    reads db
    requires db.Valid()
    ensures forall x :: x in r <==>
      x in db.regulations.Values() && x.orgId == orgId && MatchesId(jurisdictionId, x.jurisdictionId)
    ensures multiset(r) <= multiset(db.regulations.Values())
  {
    var all := Filter(db.regulations.Values(), (x: Regulation) => x.orgId == orgId);
    if Given(jurisdictionId) then Filter(all, (x: Regulation) => x.jurisdictionId == jurisdictionId.value)
    else all
  }

  /** `getRegulation`: a regulation is visible only to its own organisation. */
  function GetRegulation(db: RiskRepository, orgId: string, id: string): (r: Option<Regulation>)
    reads db
    ensures r.Some? <==> id in db.regulations.entries && db.regulations.entries[id].orgId == orgId
    ensures r.Some? ==> r.value == db.regulations.entries[id]
  {
    match db.regulations.Get(id)
    case Some(reg) => if reg.orgId == orgId then Some(reg) else None
    case None => None
  }

  /** `getRegulationVersions`: nothing for a missing or foreign regulation. */
  function GetRegulationVersions(db: RiskRepository, orgId: string, id: string)
    : (r: seq<RegulationVersion>)
    reads db
    ensures GetRegulation(db, orgId, id).None? ==> r == []
    ensures GetRegulation(db, orgId, id).Some? ==> r == db.regulationVersions.Get(id).GetOr([])
  {
    if GetRegulation(db, orgId, id).None? then [] else db.regulationVersions.Get(id).GetOr([])
  }

  function InitialVersion(reg: Regulation): RegulationVersion {
    RegulationVersion("ver-" + reg.id + "-1", reg.id, 1, reg.effectiveDate,
                      "Initial creation", reg.description, reg.createdAt)
  }

  /** The regulation after `{ ...oldReg, ...validUpdates, updated_at }`: any
   *  given field overwrites (even with an empty string), `org_id` never does
   *  and `updated_at` is always the clock. */
  function Merged(old_: Regulation, u: RegulationUpdates, now: int): Regulation {
    old_.(id := u.id.GetOr(old_.id),
          jurisdictionId := u.jurisdictionId.GetOr(old_.jurisdictionId),
          title := u.title.GetOr(old_.title),
          description := u.description.GetOr(old_.description),
          status := u.status.GetOr(old_.status),
          effectiveDate := u.effectiveDate.GetOr(old_.effectiveDate),
          createdAt := u.createdAt.GetOr(old_.createdAt),
          updatedAt := now)
  }

  /** A field counts as changed when it is given, non-empty and different. */
  predicate Changed(update: Option<string>, current: string) {
    Given(update) && update.value != current
  }

  /** The change descriptions `updateRegulation` records, in order. */
  function Changes(old_: Regulation, u: RegulationUpdates): seq<string> {
    (if Changed(u.title, old_.title)
     then ["Title changed from \"" + old_.title + "\" to \"" + u.title.value + "\""] else [])
    + (if Changed(u.description, old_.description) then ["Description updated."] else [])
    + (if Changed(u.status, old_.status) then ["Status changed to " + u.status.value] else [])
    + (if Changed(u.effectiveDate, old_.effectiveDate)
       then ["Effective date changed to " + u.effectiveDate.value] else [])
  }

  /** The version an update with changes appends: numbered one past the
   *  number of versions already stored. */
  function NextVersion(id: string, versions: seq<RegulationVersion>, reg: Regulation,
                       changes: seq<string>, now: int): RegulationVersion {
    RegulationVersion("ver-" + id + "-" + NatToString(|versions| + 1), id, |versions| + 1,
                      reg.effectiveDate, Join(changes, "; "), reg.description, now)
  }

  // ------------------------------------------------------------- watchlists

  predicate JurisdictionMatch(wl: Watchlist, reg: Regulation) {
    |wl.filters.jurisdictionIds| > 0 && reg.jurisdictionId in wl.filters.jurisdictionIds
  }

  /** Some keyword occurs in the regulation's title and description, ignoring case. */
  predicate KeywordMatch(wl: Watchlist, reg: Regulation) {
    |wl.filters.keywords| > 0
    && exists i | 0 <= i < |wl.filters.keywords| ::
         Contains(ToLower(reg.title + " " + reg.description), ToLower(wl.filters.keywords[i]))
  }

  /** A watchlist is notified when its jurisdictions include the
   *  regulation's or, failing that, one of its keywords occurs. */
  predicate Matches(wl: Watchlist, reg: Regulation) {
    JurisdictionMatch(wl, reg) || KeywordMatch(wl, reg)
  }

  function WatchEvent(wl: Watchlist, reg: Regulation, version: RegulationVersion,
                      kind: string, now: int, id: string): WatchlistEvent {
    WatchlistEvent(EventId(id), wl.id, reg.id, Some(version.id), kind, EventSummary(kind, reg, version),
                   "MEDIUM", now, false)
  }

  function EventId(id: string): string {
    "evt-" + id
  }

  /** The summary line: a new regulation is announced by title, an update
   *  quotes the version's change summary. */
  function EventSummary(kind: string, reg: Regulation, version: RegulationVersion): string {
    if kind == "NEW_REGULATION" then "New regulation \"" + reg.title + "\" matches your watchlist."
    else "Regulation \"" + reg.title + "\" updated: " + version.changesSummary
  }

  /** The events `checkWatchlists` raises, one per matching watchlist, in
   *  watchlist order. */
  function NewEvents(wls: seq<Watchlist>, reg: Regulation, version: RegulationVersion,
                     kind: string, now: int, eventIds: nat -> string): seq<WatchlistEvent>
    decreases |wls|
  {
    if |wls| == 0 then []
    else
      var n := |wls| - 1;
      NewEvents(wls[..n], reg, version, kind, now, eventIds)
      + (if Matches(wls[n], reg) then [WatchEvent(wls[n], reg, version, kind, now, eventIds(n))] else [])
  }

  /** `watchlistEvents.set(wl.id, [event, ...events])` for each event in turn. */
  function PrependAll(m: OMap<string, seq<WatchlistEvent>>, events: seq<WatchlistEvent>)
    : (r: OMap<string, seq<WatchlistEvent>>)
    requires m.Valid()
    ensures r.Valid()
    decreases |events|
  {
    if |events| == 0 then m
    else
      var rest := PrependAll(m, events[..|events| - 1]);
      var e := events[|events| - 1];
      rest.Set(e.watchlistId, [e] + rest.Get(e.watchlistId).GetOr([]))
  }

  /** The tables a notification leaves alone. */
  datatype OtherTables = OtherTables(
    jurisdictions: OMap<string, Jurisdiction>, regulations: OMap<string, Regulation>,
    regulationVersions: OMap<string, seq<RegulationVersion>>, obligations: OMap<string, Obligation>,
    assessments: OMap<string, Assessment>, issues: OMap<string, Issue>,
    watchlists: OMap<string, Watchlist>)

  ghost function Others(db: RiskRepository): OtherTables
    reads db
  {
    OtherTables(db.jurisdictions, db.regulations, db.regulationVersions, db.obligations,
                db.assessments, db.issues, db.watchlists)
  }

  /** One notification: the event goes to the front of its watchlist's list
   *  and to the front of the feed. */
  method Raise(db: RiskRepository, event: WatchlistEvent)
    requires db.Valid()
    modifies db
    ensures db.Valid()
    ensures db.watchlistEvents == old(db.watchlistEvents).Set(
      event.watchlistId, [event] + old(db.watchlistEvents).Get(event.watchlistId).GetOr([]))
    ensures db.allWatchlistEvents == [event] + old(db.allWatchlistEvents)
    ensures Others(db) == old(Others(db))
  {
    var events := db.watchlistEvents.Get(event.watchlistId).GetOr([]);
    db.watchlistEvents := db.watchlistEvents.Set(event.watchlistId, [event] + events);
    db.allWatchlistEvents := [event] + db.allWatchlistEvents;
  }

  /** `allWatchlistEvents.unshift(event)` for each event in turn. */
  function PushAll(feed: seq<WatchlistEvent>, events: seq<WatchlistEvent>): seq<WatchlistEvent>
    decreases |events|
  {
    if |events| == 0 then feed else [events[|events| - 1]] + PushAll(feed, events[..|events| - 1])
  }

  /** `checkWatchlists`: every matching watchlist gets one event at the front
   *  of its own list, and the events are pushed onto the front of the feed. */
  method CheckWatchlists(db: RiskRepository, reg: Regulation, version: RegulationVersion,
                         kind: string, now: int, eventIds: nat -> string)
    requires db.Valid()
    modifies db
    ensures db.Valid()
    ensures db.watchlistEvents ==
      PrependAll(old(db.watchlistEvents), NewEvents(db.watchlists.Values(), reg, version, kind, now, eventIds))
    ensures db.allWatchlistEvents ==
      PushAll(old(db.allWatchlistEvents), NewEvents(db.watchlists.Values(), reg, version, kind, now, eventIds))
    ensures db.jurisdictions == old(db.jurisdictions) && db.regulations == old(db.regulations)
    ensures db.regulationVersions == old(db.regulationVersions) && db.obligations == old(db.obligations)
    ensures db.assessments == old(db.assessments) && db.issues == old(db.issues)
    ensures db.watchlists == old(db.watchlists)
  {
    var wls := db.watchlists.Values();
    ghost var m0 := db.watchlistEvents;
    ghost var feed0 := db.allWatchlistEvents;
    var i := 0;
    while i < |wls|
      invariant 0 <= i <= |wls|
      invariant db.Valid()
      invariant Others(db) == old(Others(db))
      invariant db.watchlistEvents == PrependAll(m0, NewEvents(wls[..i], reg, version, kind, now, eventIds))
      invariant db.allWatchlistEvents == PushAll(feed0, NewEvents(wls[..i], reg, version, kind, now, eventIds))
    {
      CheckOne(db, m0, feed0, wls, i, reg, version, kind, now, eventIds);
      i := i + 1;
    }
    assert wls[..|wls|] == wls;
  }

  /** One turn of the loop in `checkWatchlists`: the i-th watchlist raises
   *  its event when it matches, which extends the round's events by it. */
  method CheckOne(db: RiskRepository, ghost m0: OMap<string, seq<WatchlistEvent>>, ghost feed0: seq<WatchlistEvent>,
                  wls: seq<Watchlist>, i: nat, reg: Regulation, version: RegulationVersion,
                  kind: string, now: int, eventIds: nat -> string)
    requires db.Valid() && m0.Valid() && i < |wls|
    requires db.watchlistEvents == PrependAll(m0, NewEvents(wls[..i], reg, version, kind, now, eventIds))
    requires db.allWatchlistEvents == PushAll(feed0, NewEvents(wls[..i], reg, version, kind, now, eventIds))
    modifies db
    ensures db.Valid()
    ensures db.watchlistEvents == PrependAll(m0, NewEvents(wls[..i + 1], reg, version, kind, now, eventIds))
    ensures db.allWatchlistEvents == PushAll(feed0, NewEvents(wls[..i + 1], reg, version, kind, now, eventIds))
    ensures Others(db) == old(Others(db))
  {
    RaiseStep(m0, feed0, wls, i, reg, version, kind, now, eventIds);
    if Matches(wls[i], reg) {
      Raise(db, WatchEvent(wls[i], reg, version, kind, now, eventIds(i)));
    }
  }

  /** `createRegulation`: stores the regulation with its first version and
   *  notifies the matching watchlists with `NEW_REGULATION`. */
  method CreateRegulation(db: RiskRepository, orgId: string, input: RegulationInput,
                          hex8: string, now: int, eventIds: nat -> string)
    returns (reg: Regulation)
    requires db.Valid()
    modifies db
    ensures db.Valid()
    ensures reg == Regulation("reg-" + hex8, orgId, input.jurisdictionId, input.title,
                              input.description, input.status, input.effectiveDate, now, now)
    ensures db.regulations == old(db.regulations).Set(reg.id, reg)
    ensures db.regulationVersions == old(db.regulationVersions).Set(reg.id, [InitialVersion(reg)])
    ensures db.watchlistEvents ==
      PrependAll(old(db.watchlistEvents), NewEvents(db.watchlists.Values(), reg, InitialVersion(reg), "NEW_REGULATION", now, eventIds))
    ensures db.allWatchlistEvents ==
      PushAll(old(db.allWatchlistEvents), NewEvents(db.watchlists.Values(), reg, InitialVersion(reg), "NEW_REGULATION", now, eventIds))
    ensures db.jurisdictions == old(db.jurisdictions) && db.obligations == old(db.obligations)
    ensures db.assessments == old(db.assessments) && db.issues == old(db.issues)
    ensures db.watchlists == old(db.watchlists)
  {
    reg := Regulation("reg-" + hex8, orgId, input.jurisdictionId, input.title,
                      input.description, input.status, input.effectiveDate, now, now);
    db.regulations := db.regulations.Set(reg.id, reg);
    var version := InitialVersion(reg);
    db.regulationVersions := db.regulationVersions.Set(reg.id, [version]);
    CheckWatchlists(db, reg, version, "NEW_REGULATION", now, eventIds);
  }

  /** `updateRegulation`: fails for a missing or foreign regulation; otherwise
   *  stores the merged regulation and, when something changed, appends the
   *  next version and notifies the watchlists with `REGULATION_UPDATE`. */
  method UpdateRegulation(db: RiskRepository, orgId: string, id: string, updates: RegulationUpdates,
                          now: int, eventIds: nat -> string)
    returns (r: Result<Regulation, string>)
    requires db.Valid()
    modifies db
    ensures db.Valid()
    ensures old(GetRegulation(db, orgId, id)).None? ==>
      r == Err("Regulation " + id + " not found") && unchanged(db)
    ensures old(GetRegulation(db, orgId, id)).Some? ==>
      var oldReg := old(GetRegulation(db, orgId, id)).value;
      var newReg := Merged(oldReg, updates, now);
      var changes := Changes(oldReg, updates);
      var versions := old(db.regulationVersions.Get(id).GetOr([]));
      var version := NextVersion(id, versions, newReg, changes, now);
      && r == Ok(newReg)
      && db.regulations == old(db.regulations).Set(id, newReg)
      && (|changes| == 0 ==>
            db.regulationVersions == old(db.regulationVersions)
            && db.watchlistEvents == old(db.watchlistEvents)
            && db.allWatchlistEvents == old(db.allWatchlistEvents))
      && (|changes| > 0 ==>
            db.regulationVersions == old(db.regulationVersions).Set(id, versions + [version])
            && db.watchlistEvents ==
                 PrependAll(old(db.watchlistEvents),
                            NewEvents(db.watchlists.Values(), newReg, version, "REGULATION_UPDATE", now, eventIds))
            && db.allWatchlistEvents ==
                 PushAll(old(db.allWatchlistEvents),
                         NewEvents(db.watchlists.Values(), newReg, version, "REGULATION_UPDATE", now, eventIds)))
    ensures db.jurisdictions == old(db.jurisdictions) && db.obligations == old(db.obligations)
    ensures db.assessments == old(db.assessments) && db.issues == old(db.issues)
    ensures db.watchlists == old(db.watchlists)
  {
    var found := GetRegulation(db, orgId, id);
    if found.None? {
      return Err("Regulation " + id + " not found");
    }
    var oldReg := found.value;
    var newReg := Merged(oldReg, updates, now);
    var changes := Changes(oldReg, updates);
    if |changes| > 0 {
      var versions := db.regulationVersions.Get(id).GetOr([]);
      var version := NextVersion(id, versions, newReg, changes, now);
      db.regulationVersions := db.regulationVersions.Set(id, versions + [version]);
      CheckWatchlists(db, newReg, version, "REGULATION_UPDATE", now, eventIds);
    }
    db.regulations := db.regulations.Set(id, newReg);
    r := Ok(newReg);
  }

  // ------------------------------------------------------ watchlist queries

  /** `getWatchlists`: the organisation's watchlists. */
  function GetWatchlists(db: RiskRepository, orgId: string): (r: seq<Watchlist>)
    reads db
    requires db.Valid()
    ensures forall w :: w in r <==> w in db.watchlists.Values() && w.orgId == orgId
  {
    Filter(db.watchlists.Values(), (w: Watchlist) => w.orgId == orgId)
  }

  /** `createWatchlist`: stores the watchlist under a fresh `wl-` id. */
  method CreateWatchlist(db: RiskRepository, orgId: string, input: WatchlistInput, hex8: string, now: int)
    returns (wl: Watchlist)
    requires db.Valid()
    modifies db
    ensures db.Valid()
    ensures wl == Watchlist("wl-" + hex8, orgId, input.name, input.description, input.filters, input.createdBy, now)
    ensures db.watchlists == old(db.watchlists).Set(wl.id, wl)
    ensures db.watchlistEvents == old(db.watchlistEvents) && db.allWatchlistEvents == old(db.allWatchlistEvents)
    ensures db.regulations == old(db.regulations) && db.regulationVersions == old(db.regulationVersions)
    ensures db.jurisdictions == old(db.jurisdictions) && db.obligations == old(db.obligations)
    ensures db.assessments == old(db.assessments) && db.issues == old(db.issues)
  {
    wl := Watchlist("wl-" + hex8, orgId, input.name, input.description, input.filters, input.createdBy, now);
    db.watchlists := db.watchlists.Set(wl.id, wl);
  }

  /** `getWatchlistEvents`: nothing for a missing or foreign watchlist. */
  function GetWatchlistEvents(db: RiskRepository, orgId: string, watchlistId: string)
    : (r: seq<WatchlistEvent>)
    reads db
    ensures (watchlistId !in db.watchlists.entries || db.watchlists.entries[watchlistId].orgId != orgId) ==> r == []
    ensures watchlistId in db.watchlists.entries && db.watchlists.entries[watchlistId].orgId == orgId ==>
      r == db.watchlistEvents.Get(watchlistId).GetOr([])
  {
    match db.watchlists.Get(watchlistId)
    case None => []
    case Some(wl) => if wl.orgId != orgId then [] else db.watchlistEvents.Get(watchlistId).GetOr([])
  }

  /** The comparator of the feed: newest first. */
  predicate NewerEvent(a: WatchlistEvent, b: WatchlistEvent) {
    a.createdAt >= b.createdAt
  }

  /** The ids of the organisation's watchlists. */
  function OrgWatchlistIds(db: RiskRepository, orgId: string): set<string>
    reads db
    requires db.Valid()
  {
    set w | w in db.watchlists.Values() && w.orgId == orgId :: w.id
  }

  /** The stored feed events raised for the organisation's watchlists, in
   *  the order they were raised. */
  function OrgFeedEvents(db: RiskRepository, orgId: string): seq<WatchlistEvent>
    reads db
    requires db.Valid()
  {
    var ids := OrgWatchlistIds(db, orgId);
    Filter(db.allWatchlistEvents, (e: WatchlistEvent) => e.watchlistId in ids)
  }

  /** `getAllFeedEvents`: the feed events of the organisation's watchlists,
   *  newest first. */
  function GetAllFeedEvents(db: RiskRepository, orgId: string): (r: seq<WatchlistEvent>)
    reads db
    requires db.Valid()
    ensures forall e :: e in r <==> e in db.allWatchlistEvents && e.watchlistId in OrgWatchlistIds(db, orgId)
    ensures SortedBy(r, NewerEvent)
    ensures multiset(r) == multiset(OrgFeedEvents(db, orgId))
  {
    var mine := OrgFeedEvents(db, orgId);
    var r := SortBy(mine, NewerEvent);
    SameMembers(mine, r);
    r
  }

  // ------------------------------------------------- assessments and issues

  /** The status part of the score: 100, or 0 / 60 / -1 for a non-compliant,
   *  warning or not-applicable assessment. */
  function BaseScore(status: string): int {
    if status == "NON_COMPLIANT" then 0
    else if status == "WARNING" then 60
    else if status == "NOT_APPLICABLE" then -1
    else 100
  }

  /** The assessment score after ten points per open, obligation-linked issue
   *  on the asset, never below zero; zero and -1 are not penalised. */
  function Score(status: string, openIssues: nat): (r: int)
    ensures -1 <= r <= 100
    ensures r <= BaseScore(status)
    ensures r == -1 <==> status == "NOT_APPLICABLE"
    ensures openIssues == 0 ==> r == BaseScore(status)
    ensures BaseScore(status) > 0 && openIssues > 0 ==> r == BaseScore(status) - 10 * openIssues || r == 0
  {
    var score := BaseScore(status);
    if score > 0 && openIssues > 0 then
      (if score - openIssues * 10 > 0 then score - openIssues * 10 else 0)
    else score
  }

  /** `obligation_id && status === 'OPEN'`. */
  predicate Relevant(i: Issue) {
    Given(i.obligationId) && i.status == "OPEN"
  }

  /** `getIssues`: the organisation's issues, optionally on one asset. */
  function GetIssues(db: RiskRepository, orgId: string, assetId: Option<string>): (r: seq<Issue>)
    reads db
    requires db.Valid()
    ensures forall x :: x in r <==> x in db.issues.Values() && x.orgId == orgId && MatchesId(assetId, x.assetId)
  {
    var all := Filter(db.issues.Values(), (x: Issue) => x.orgId == orgId);
    if Given(assetId) then Filter(all, (x: Issue) => x.assetId == assetId.value) else all
  }

  /** `createAssessment`: scores the assessment against the open,
   *  obligation-linked issues on its asset and stores it. */
  method CreateAssessment(db: RiskRepository, orgId: string, data: AssessmentInput, hex8: string, now: int)
    returns (a: Assessment)
    requires db.Valid()
    modifies db
    ensures db.Valid()
    ensures a == Assessment("asm-" + hex8, orgId, data.assetId, data.obligationId, data.status,
                            Score(data.status, |Filter(GetIssues(db, orgId, Some(data.assetId)), Relevant)|), now)
    ensures db.assessments == old(db.assessments).Set(a.id, a)
    ensures db.issues == old(db.issues) && db.regulations == old(db.regulations)
    ensures db.watchlists == old(db.watchlists) && db.allWatchlistEvents == old(db.allWatchlistEvents)
    ensures db.regulationVersions == old(db.regulationVersions) && db.watchlistEvents == old(db.watchlistEvents)
    ensures db.jurisdictions == old(db.jurisdictions) && db.obligations == old(db.obligations)
  {
    var existing := GetIssues(db, orgId, Some(data.assetId));
    var relevant := Filter(existing, Relevant);
    a := Assessment("asm-" + hex8, orgId, data.assetId, data.obligationId, data.status,
                    Score(data.status, |relevant|), now);
    db.assessments := db.assessments.Set(a.id, a);
  }

  /** `getAssessments`: the organisation's assessments, optionally of one asset. */
  function GetAssessments(db: RiskRepository, orgId: string, assetId: Option<string>): (r: seq<Assessment>)
    reads db
    requires db.Valid()
    ensures forall x :: x in r <==> x in db.assessments.Values() && x.orgId == orgId && MatchesId(assetId, x.assetId)
  {
    var all := Filter(db.assessments.Values(), (x: Assessment) => x.orgId == orgId);
    if Given(assetId) then Filter(all, (x: Assessment) => x.assetId == assetId.value) else all
  }

  /** `createIssue`: stores the issue under a fresh `iss-` id. */
  method CreateIssue(db: RiskRepository, orgId: string, data: IssueInput, hex8: string, now: int)
    returns (issue: Issue)
    requires db.Valid()
    modifies db
    ensures db.Valid()
    ensures issue == Issue("iss-" + hex8, orgId, data.assetId, data.obligationId, data.title,
                           data.severity, data.status, now, now)
    ensures db.issues == old(db.issues).Set(issue.id, issue)
    ensures db.assessments == old(db.assessments) && db.regulations == old(db.regulations)
    ensures db.watchlists == old(db.watchlists) && db.allWatchlistEvents == old(db.allWatchlistEvents)
    ensures db.regulationVersions == old(db.regulationVersions) && db.watchlistEvents == old(db.watchlistEvents)
    ensures db.jurisdictions == old(db.jurisdictions) && db.obligations == old(db.obligations)
  {
    issue := Issue("iss-" + hex8, orgId, data.assetId, data.obligationId, data.title,
                   data.severity, data.status, now, now);
    db.issues := db.issues.Set(issue.id, issue);
  }

  /** `getJurisdictions`: every jurisdiction, in insertion order. */
  function GetJurisdictions(db: RiskRepository): (r: seq<Jurisdiction>)
    reads db
    requires db.Valid()
    ensures |r| == |db.jurisdictions.keys|
    ensures forall j :: j in r <==> exists k :: k in db.jurisdictions.entries && db.jurisdictions.entries[k] == j
  {
    var r := db.jurisdictions.Values();
    assert forall j :: j in r ==> exists k :: k in db.jurisdictions.entries && db.jurisdictions.entries[k] == j;
    assert forall k :: k in db.jurisdictions.entries ==> db.jurisdictions.entries[k] in r by {
      forall k | k in db.jurisdictions.entries ensures db.jurisdictions.entries[k] in r {
        var i :| 0 <= i < |db.jurisdictions.keys| && db.jurisdictions.keys[i] == k;
        assert r[i] == db.jurisdictions.entries[k];
      }
    }
    r
  }

  /** `getObligations`: the organisation's obligations. */
  function GetObligations(db: RiskRepository, orgId: string): (r: seq<Obligation>)
    reads db
    requires db.Valid()
    ensures forall o :: o in r <==> o in db.obligations.Values() && o.orgId == orgId
  {
    Filter(db.obligations.Values(), (o: Obligation) => o.orgId == orgId)
  }

  // ------------------------------------------------------------------ lemmas

  lemma NewEventsStep(wls: seq<Watchlist>, i: nat, reg: Regulation, version: RegulationVersion,
                      kind: string, now: int, eventIds: nat -> string)
    requires i < |wls|
    ensures NewEvents(wls[..i + 1], reg, version, kind, now, eventIds)
      == NewEvents(wls[..i], reg, version, kind, now, eventIds)
         + (if Matches(wls[i], reg) then [WatchEvent(wls[i], reg, version, kind, now, eventIds(i))] else [])
  {
    assert wls[..i + 1][..i] == wls[..i];
  }

  /** What one more watchlist adds to the lists and to the feed. */
  lemma RaiseStep(m0: OMap<string, seq<WatchlistEvent>>, feed0: seq<WatchlistEvent>, wls: seq<Watchlist>, i: nat,
                  reg: Regulation, version: RegulationVersion, kind: string, now: int, eventIds: nat -> string)
    requires m0.Valid() && i < |wls|
    ensures var before := NewEvents(wls[..i], reg, version, kind, now, eventIds);
      var after := NewEvents(wls[..i + 1], reg, version, kind, now, eventIds);
      var e := WatchEvent(wls[i], reg, version, kind, now, eventIds(i));
      && (!Matches(wls[i], reg) ==> after == before)
      && (Matches(wls[i], reg) ==>
            PrependAll(m0, after) == PrependAll(m0, before).Set(
              e.watchlistId, [e] + PrependAll(m0, before).Get(e.watchlistId).GetOr([]))
            && PushAll(feed0, after) == [e] + PushAll(feed0, before))
  {
    var before := NewEvents(wls[..i], reg, version, kind, now, eventIds);
    var e := WatchEvent(wls[i], reg, version, kind, now, eventIds(i));
    NewEventsStep(wls, i, reg, version, kind, now, eventIds);
    PrependAllSnoc(m0, before, e);
    PushAllSnoc(feed0, before, e);
  }

  lemma PushAllSnoc(feed: seq<WatchlistEvent>, events: seq<WatchlistEvent>, e: WatchlistEvent)
    ensures PushAll(feed, events + [e]) == [e] + PushAll(feed, events)
  {
    assert (events + [e])[..|events|] == events;
  }

  lemma PrependAllSnoc(m: OMap<string, seq<WatchlistEvent>>, events: seq<WatchlistEvent>, e: WatchlistEvent)
    requires m.Valid()
    ensures PrependAll(m, events + [e])
      == PrependAll(m, events).Set(e.watchlistId, [e] + PrependAll(m, events).Get(e.watchlistId).GetOr([]))
  {
    assert (events + [e])[..|events|] == events;
  }

  /** The feed gains the round's events newest first, ahead of the old feed. */
  lemma {:induction false} PushAllIsReverse(feed: seq<WatchlistEvent>, events: seq<WatchlistEvent>)
    ensures PushAll(feed, events) == Reverse(events) + feed
    decreases |events|
  {
    if |events| > 0 {
      PushAllIsReverse(feed, events[..|events| - 1]);
    }
  }

  /** An update can never move a regulation to another organisation, whatever
   *  it carries; its id and creation time change only when it carries them,
   *  and the update time is always the clock. */
  lemma UpdateKeepsOwnership(reg: Regulation, u: RegulationUpdates, now: int)
    ensures Merged(reg, u, now).orgId == reg.orgId
    ensures Merged(reg, u, now).id == (if u.id.Some? then u.id.value else reg.id)
    ensures Merged(reg, u, now).createdAt == (if u.createdAt.Some? then u.createdAt.value else reg.createdAt)
    ensures Merged(reg, u, now).updatedAt == now
  {
  }

  /** An update records a version exactly when some tracked field is given
   *  with a new, non-empty value. */
  lemma ChangesExactly(reg: Regulation, u: RegulationUpdates)
    ensures |Changes(reg, u)| > 0 <==>
      Changed(u.title, reg.title) || Changed(u.description, reg.description)
      || Changed(u.status, reg.status) || Changed(u.effectiveDate, reg.effectiveDate)
    ensures |Changes(reg, u)| <= 4
  {
  }

  /** Clearing a title with an empty string overwrites it but records no
   *  version: the change test uses truthiness. */
  lemma EmptyTitleIsSilent(reg: Regulation, now: int)
    requires reg.title != ""
    ensures Merged(reg, RegulationUpdates(None, None, None, Some(""), None, None, None, None, None), now).title == ""
    ensures Changes(reg, RegulationUpdates(None, None, None, Some(""), None, None, None, None, None)) == []
  {
  }

  /** Versions of a regulation are numbered 1, 2, 3, ... in order. */
  predicate Numbered(vs: seq<RegulationVersion>) {
    forall i :: 0 <= i < |vs| ==> vs[i].version == i + 1
  }

  /** Creating starts a numbered history and every update that records a
   *  version keeps it numbered. */
  lemma VersionsStayNumbered(reg: Regulation, id: string, vs: seq<RegulationVersion>,
                             changes: seq<string>, now: int)
    requires Numbered(vs)
    ensures Numbered([InitialVersion(reg)])
    ensures Numbered(vs + [NextVersion(id, vs, reg, changes, now)])
    ensures NextVersion(id, vs, reg, changes, now).version == |vs| + 1
  {
  }

  /** The seeded history of reg-caa is numbered, so the first update with a
   *  title change gives it a second version. */
  lemma SeedUpdateGivesSecondVersion(now: int, title: string)
    requires title != "" && title != RegCaa(now).title
    ensures Numbered([VerCaa1(now)])
    ensures |Changes(RegCaa(now), RegulationUpdates(None, None, None, Some(title), None, None, None, None, None))| == 1
    ensures var v := NextVersion("reg-caa", [VerCaa1(now)], RegCaa(now), ["x"], now);
      v.version == 2 && v.id == "ver-reg-caa-2"
  {
    assert NatToString(2) == "2";
  }

  /** The raised events are exactly one per watchlist that matches the
   *  regulation. */
  lemma {:induction false} NewEventsExactly(wls: seq<Watchlist>, reg: Regulation, version: RegulationVersion,
                                            kind: string, now: int, eventIds: nat -> string)
    ensures forall e :: e in NewEvents(wls, reg, version, kind, now, eventIds) <==>
      exists i :: 0 <= i < |wls| && Matches(wls[i], reg) && e == WatchEvent(wls[i], reg, version, kind, now, eventIds(i))
    decreases |wls|
  {
    if |wls| > 0 {
      var n := |wls| - 1;
      NewEventsExactly(wls[..n], reg, version, kind, now, eventIds);
      var r0 := NewEvents(wls[..n], reg, version, kind, now, eventIds);
      var r := NewEvents(wls, reg, version, kind, now, eventIds);
      assert r == r0 + (if Matches(wls[n], reg) then [WatchEvent(wls[n], reg, version, kind, now, eventIds(n))] else []);
      forall e | e in r
        ensures exists i :: 0 <= i < |wls| && Matches(wls[i], reg) && e == WatchEvent(wls[i], reg, version, kind, now, eventIds(i))
      {
        if e in r0 {
          var i :| 0 <= i < n && Matches(wls[..n][i], reg)
                   && e == WatchEvent(wls[..n][i], reg, version, kind, now, eventIds(i));
          assert wls[..n][i] == wls[i];
        } else {
          assert Matches(wls[n], reg) && e == WatchEvent(wls[n], reg, version, kind, now, eventIds(n));
        }
      }
      forall e | exists i :: 0 <= i < |wls| && Matches(wls[i], reg) && e == WatchEvent(wls[i], reg, version, kind, now, eventIds(i))
        ensures e in r
      {
        var i :| 0 <= i < |wls| && Matches(wls[i], reg) && e == WatchEvent(wls[i], reg, version, kind, now, eventIds(i));
        if i < n {
          assert wls[..n][i] == wls[i];
        }
      }
    }
  }

  /** Every raised event is a fresh, unread, medium-severity event of the
   *  given kind about the regulation, and a round raises at most one event
   *  per watchlist. */
  lemma {:induction false} NewEventsShape(wls: seq<Watchlist>, reg: Regulation, version: RegulationVersion,
                                          kind: string, now: int, eventIds: nat -> string)
    ensures forall e :: e in NewEvents(wls, reg, version, kind, now, eventIds) ==>
      e.severity == "MEDIUM" && !e.isRead && e.kind == kind && e.regulationId == reg.id && e.createdAt == now
    ensures |NewEvents(wls, reg, version, kind, now, eventIds)| <= |wls|
    decreases |wls|
  {
    if |wls| > 0 {
      NewEventsShape(wls[..|wls| - 1], reg, version, kind, now, eventIds);
    }
  }

  /** No two events name the same watchlist. */
  predicate DistinctTargets(events: seq<WatchlistEvent>) {
    forall i, j :: 0 <= i < j < |events| ==> events[i].watchlistId != events[j].watchlistId
  }

  /** Each event lands at the front of its own watchlist's list, and lists of
   *  watchlists that raised no event are untouched (events of one round name
   *  distinct watchlists). */
  lemma {:induction false} PrependAllEffect(m: OMap<string, seq<WatchlistEvent>>, events: seq<WatchlistEvent>, w: string)
    requires m.Valid()
    requires DistinctTargets(events)
    ensures (forall i :: 0 <= i < |events| ==> events[i].watchlistId != w) ==>
      PrependAll(m, events).Get(w) == m.Get(w)
    ensures forall i :: 0 <= i < |events| && events[i].watchlistId == w ==>
      PrependAll(m, events).Get(w) == Some([events[i]] + m.Get(w).GetOr([]))
    decreases |events|
  {
    if |events| > 0 {
      var n := |events| - 1;
      assert DistinctTargets(events[..n]) by {
        forall i, j | 0 <= i < j < n ensures events[..n][i].watchlistId != events[..n][j].watchlistId {
          assert events[..n][i] == events[i] && events[..n][j] == events[j];
        }
      }
      PrependAllEffect(m, events[..n], w);
      var rest := PrependAll(m, events[..n]);
      var e := events[n];
      assert PrependAll(m, events) == rest.Set(e.watchlistId, [e] + rest.Get(e.watchlistId).GetOr([]));
      GetSet(rest, e.watchlistId, [e] + rest.Get(e.watchlistId).GetOr([]), w);
      if e.watchlistId == w {
        forall k | 0 <= k < n ensures events[..n][k].watchlistId != w {
          assert events[..n][k] == events[k];
        }
        assert rest.Get(w) == m.Get(w);
      } else {
        forall i | 0 <= i < |events| && events[i].watchlistId == w
          ensures PrependAll(m, events).Get(w) == Some([events[i]] + m.Get(w).GetOr([]))
        {
          assert events[..n][i] == events[i];
        }
      }
    }
  }

  /** Watchlists stored under their own ids have distinct ids. */
  predicate DistinctIds(wls: seq<Watchlist>) {
    forall i, j :: 0 <= i < j < |wls| ==> wls[i].id != wls[j].id
  }

  lemma StoredWatchlistsDistinct(db: RiskRepository)
    requires db.Valid()
    ensures DistinctIds(db.watchlists.Values())
  {
    var wls := db.watchlists.Values();
    forall i, j | 0 <= i < j < |wls| ensures wls[i].id != wls[j].id {
      assert wls[i].id == db.watchlists.keys[i] && wls[j].id == db.watchlists.keys[j];
    }
  }

  /** One round raises at most one event per watchlist. */
  lemma {:induction false} NewEventsDistinct(wls: seq<Watchlist>, reg: Regulation, version: RegulationVersion,
                                             kind: string, now: int, eventIds: nat -> string)
    requires DistinctIds(wls)
    ensures DistinctTargets(NewEvents(wls, reg, version, kind, now, eventIds))
    decreases |wls|
  {
    if |wls| > 0 {
      var n := |wls| - 1;
      var pre := NewEvents(wls[..n], reg, version, kind, now, eventIds);
      assert DistinctIds(wls[..n]) by {
        forall i, j | 0 <= i < j < n ensures wls[..n][i].id != wls[..n][j].id {
          assert wls[..n][i] == wls[i] && wls[..n][j] == wls[j];
        }
      }
      NewEventsDistinct(wls[..n], reg, version, kind, now, eventIds);
      NewEventsExactly(wls[..n], reg, version, kind, now, eventIds);
      forall k | 0 <= k < |pre| ensures pre[k].watchlistId != wls[n].id {
        assert pre[k] in pre;
        var i :| 0 <= i < n && Matches(wls[..n][i], reg)
                 && pre[k] == WatchEvent(wls[..n][i], reg, version, kind, now, eventIds(i));
        assert wls[..n][i] == wls[i];
      }
      var evs := NewEvents(wls, reg, version, kind, now, eventIds);
      if Matches(wls[n], reg) {
        var x := WatchEvent(wls[n], reg, version, kind, now, eventIds(n));
        assert evs == pre + [x];
        forall i, j | 0 <= i < j < |evs| ensures evs[i].watchlistId != evs[j].watchlistId {
          if j == |pre| {
            assert evs[j] == x && evs[i] == pre[i];
          } else {
            assert evs[i] == pre[i] && evs[j] == pre[j];
          }
        }
      } else {
        assert evs == pre;
      }
    }
  }

  /** After a round, a watchlist's list has the round's event for it in front
   *  when it matches the regulation, and is untouched when it does not. */
  lemma RoundNotifiesEachMatch(m: OMap<string, seq<WatchlistEvent>>, wls: seq<Watchlist>, reg: Regulation,
                               version: RegulationVersion, kind: string, now: int, eventIds: nat -> string)
    requires m.Valid() && DistinctIds(wls)
    ensures forall i :: 0 <= i < |wls| ==>
      PrependAll(m, NewEvents(wls, reg, version, kind, now, eventIds)).Get(wls[i].id)
      == if Matches(wls[i], reg)
         then Some([WatchEvent(wls[i], reg, version, kind, now, eventIds(i))] + m.Get(wls[i].id).GetOr([]))
         else m.Get(wls[i].id)
  {
    var evs := NewEvents(wls, reg, version, kind, now, eventIds);
    NewEventsExactly(wls, reg, version, kind, now, eventIds);
    NewEventsDistinct(wls, reg, version, kind, now, eventIds);
    forall i | 0 <= i < |wls|
      ensures PrependAll(m, evs).Get(wls[i].id)
        == if Matches(wls[i], reg)
           then Some([WatchEvent(wls[i], reg, version, kind, now, eventIds(i))] + m.Get(wls[i].id).GetOr([]))
           else m.Get(wls[i].id)
    {
      PrependAllEffect(m, evs, wls[i].id);
      var e := WatchEvent(wls[i], reg, version, kind, now, eventIds(i));
      if Matches(wls[i], reg) {
        assert e in evs;
        var k :| 0 <= k < |evs| && evs[k] == e;
        assert evs[k].watchlistId == wls[i].id;
      } else {
        forall k | 0 <= k < |evs| ensures evs[k].watchlistId != wls[i].id {
          assert evs[k] in evs;
          var j :| 0 <= j < |wls| && Matches(wls[j], reg)
                   && evs[k] == WatchEvent(wls[j], reg, version, kind, now, eventIds(j));
          assert j != i;
        }
      }
    }
  }

  /** Assessment scores never rise with more open issues. */
  lemma ScoreMonotone(status: string, fewer: nat, more: nat)
    requires fewer <= more
    ensures Score(status, more) <= Score(status, fewer)
  {
  }

  /** A warning with no open issues scores 60; a compliant one loses ten
   *  points per open issue and bottoms out at zero from ten issues on. */
  lemma ScoreExamples(n: nat)
    ensures Score("WARNING", 0) == 60
    ensures Score("COMPLIANT", 3) == 70
    ensures n >= 10 ==> Score("COMPLIANT", n) == 0
    ensures Score("NON_COMPLIANT", n) == 0
  {
  }

  /** The seeded watchlist follows every federal regulation. */
  lemma SeedWatchlistFollowsFederal(now: int, reg: Regulation)
    requires reg.jurisdictionId == "us-fed"
    ensures Matches(WlEnv(now), reg)
  {
    assert WlEnv(now).filters.jurisdictionIds[0] == "us-fed";
  }

  /** Keyword matching ignores case: a New Mexico rule whose title says
   *  "Methane" still reaches the seeded watchlist. */
  lemma SeedWatchlistKeywordIgnoresCase(now: int, reg: Regulation)
    requires reg.jurisdictionId == "us-nm" && reg.title == "Methane"
    ensures Matches(WlEnv(now), reg)
  {
    var text := ToLower(reg.title + " " + reg.description);
    var kw := ToLower(WlEnv(now).filters.keywords[0]);
    assert kw == "methane";
    assert text[..7] == ToLower(reg.title) == "methane";
    assert OccursAt(text, kw, 0);
  }
}
