# PetroSquare core logic in Dafny

PetroSquare is a Next.js demonstration platform for oil and gas operations.
Behind its pages sit in-memory services and repositories, a few data
connectors and some small helpers. This project models that logic in Dafny
and proves what each operation promises. One Dafny module stands for each
source file:

- **Operations control center** (`ControlCenter`): assets, alerts,
  remediation workflows and the append-only audit log. Workflows are created,
  simulated and committed in place. Telemetry windows are generated by a
  counting loop. The overview KPIs are computed from the store.
- **Regulatory risk** (`RiskDb`, `RiskService`): the repository of
  insertion-ordered maps with its seed data and singleton. On top of it sit
  organisation-scoped reads and regulation creation. Updates are versioned:
  a version is appended exactly when a tracked field changes. Each matching
  watchlist is notified once, at the front of its list and of the feed.
  Assessments are scored deterministically.
- **Intelligence** (`IntelData`, `IntelService`): the global store, seeded
  only when a field is absent. Rule-based signals are evaluated on every
  save, with one event per (signal, item) pair. Items have CRUD operations
  and a review flow: draft, in review, then published or back to draft.
- **Economics** (`EconomicsData`, `EconomicsService`, `EconomicsEngine`):
  scenarios, versions numbered latest + 1, and runs that move from QUEUED
  through RUNNING to COMPLETED or FAILED. The engine computes the
  month-by-month cash-flow rows and the project indicators.
- **Production** (`ProductionDb`, `ProductionScenarios`, `CsvConnector`,
  `RestConnector`, `Ingestion`): series upsert by timestamp, kept sorted.
  The per-asset lists are append-only, and jobs can be created and updated.
  Scenario adjustments scale a forecast. The CSV and REST ingestion
  connectors parse and validate records and keep counts that add up.
- **Map module** (`GisSpatial`, `GisRegistry`, `GisRateLimit`,
  `GisOverpass`, `GisService`):
  - the bounding-box and ray-casting tests and grid clustering;
  - the layer registry with its cached feature query;
  - a token-bucket rate limiter;
  - the conversion of OpenStreetMap well nodes into GeoJSON;
  - the asset service.
- **Markets** (`MarketsAnalytics`, `MarketsSignals`, `MarketsData`,
  `MarketTypes`): the spread join on dates, the arbitrage test, parametric
  and historical value at risk, and the stress test and emissions. News
  impact is scored by keyword. Instruments, positions, hedges, events and
  scenario runs are held in stores.
- **Operator shell proposals** (`Proposals`): add, approve and dismiss, each
  as a new list.
- **Top producers** (`TopProducers`): the period chosen for the ranking is
  the latest one reported by more than a fifth of the regions. Its regions
  are ranked by output and the list is cut to the limit.
- **Connectors** (`Cer`, `Sec`, `Eia`):
  - CER: per-month sums of one province's crude production;
  - SEC: assembly of recent EDGAR filings;
  - EIA: the first priced WTI and Brent points and the weekly crude stocks.
- **Helpers** (`Errors`, `Ai`, `DataFabric`): error and success envelopes,
  the canned insight text behind its one-hour cache, and provenance records
  with a fallback source.

Shared modules give the JavaScript built-ins the source relies on:
- `OMaps`: a `Map` that remembers insertion order;
- `Sorting`: `Array.prototype.sort` with a comparator;
- `Seqs`: `filter`, `find` and `slice`;
- `Strings`: `toLowerCase`, `includes`, `split`, `trim` and `padStart`;
- `Json`: parsed JSON with JavaScript truthiness;
- `Filters`: optional query parameters;
- `Wrappers`: `Option` and `Result`.

State the source mutates in place is a Dafny `class` whose methods carry
`modifies` clauses. Each such method is proved against a specification
function. Pure code is written as functions, with lemmas relating them.

The clock, fresh ids, `Date` parsing and formatting, `parseFloat`, network
answers and the transcendental numerics are all parameters of the operations
that use them.

## Model

| member | source | states |
|---|---|---|
| ControlCenter.WindowSpec | apps/web/lib/control-center/data.ts:142-161 | the 1h, 24h and 7d windows span exactly one hour, one day and one week; an unknown window falls back to 60 one-minute points |
| ControlCenter.PointTimeSpacing | apps/web/lib/control-center/data.ts:163-164 | two readings are exactly (j - i) intervals apart |
| ControlCenter.PointTimeWithinWindow | apps/web/lib/control-center/data.ts:163-164 | every reading lies in the window that ends at `now` |
| ControlCenter.GenerateTelemetry | apps/web/lib/control-center/data.ts:139-179 | 60, 96 or 168 points at strictly increasing, evenly spaced times, the last one at `now`; values and quality come from the random parameters |
| ControlCenter.Round | apps/web/lib/control-center/data.ts:332 | `Math.round` gives the integer within half of its argument, halves rounding up |
| ControlCenter.SumHealthBounds | apps/web/lib/control-center/data.ts:327 | the health-score total of n assets lies between n times the lowest and n times the highest score |
| ControlCenter.Store.constructor | apps/web/lib/control-center/data.ts:24-135 | the first load holds the seeded assets, alerts and audit log and no workflows |
| ControlCenter.Store.GetAssets | apps/web/lib/control-center/data.ts:183-197 | exactly the assets matching the case-insensitive name/id/type query and the status filter, the order-keeping filter of the store by that predicate; no filters (or status ALL) give the whole store; the store is not changed |
| ControlCenter.Store.GetAssetById | apps/web/lib/control-center/data.ts:199-209 | nothing if and only if no asset has the id; otherwise that asset with one telemetry point taken at `now` |
| ControlCenter.Store.GetAlerts | apps/web/lib/control-center/data.ts:215-221 | exactly the alerts matching every given filter, sorted newest first, a permutation (same multiset) of the matching alerts |
| ControlCenter.Store.UpdateAlert | apps/web/lib/control-center/data.ts:223-229 | an unknown id returns nothing and changes nothing; otherwise only the first alert with that id changes, to the merge of it and the updates (any alert key, the id included), and ids are kept when the update carries none |
| ControlCenter.Store.LogAuditEvent | apps/web/lib/control-center/data.ts:298-306 | the log grows by exactly the new event stamped `now`, earlier entries kept; nothing else changes |
| ControlCenter.Store.CreateWorkflow | apps/web/lib/control-center/data.ts:231-253 | appends one DRAFT workflow with no steps and one CREATE_WORKFLOW audit event correlated with the source alert |
| ControlCenter.Store.SimulateWorkflow | apps/web/lib/control-center/data.ts:255-270 | an unknown id changes nothing; otherwise that workflow gets the fixed impact {-15, 5000, '2 days'} and status SIMULATING, from any status, and the audit log is untouched |
| ControlCenter.Store.CommitWorkflow | apps/web/lib/control-center/data.ts:272-292 | an unknown id changes nothing and logs nothing; otherwise status COMMITTED from any status and exactly one COMMIT_WORKFLOW event with correlation id `id` and the stored impact |
| ControlCenter.Store.GetAuditLog | apps/web/lib/control-center/data.ts:294-296 | a newest-first permutation of the log; the log itself is not changed |
| ControlCenter.Store.GetOverviewKPIs | apps/web/lib/control-center/data.ts:324-335 | active and critical counts with critical <= active, the fleet size, and the mean health rounded to the nearest integer (no value for an empty fleet) |
| ControlCenter.AverageHealthInRange | apps/web/lib/control-center/data.ts:327-332 | when every health score is within 0..100, the rounded mean is too |
| ControlCenter.SimulateThenCommit | apps/web/lib/control-center/data.ts:262-282 | simulating and then committing leaves the workflow COMMITTED carrying the mock impact, with id and steps unchanged |
| ControlCenter.MergeKeepsIdentity | apps/web/lib/control-center/data.ts:226 | each merged key (id, asset, timestamp, status) takes the update's value when present and keeps the alert's otherwise; empty updates change nothing |
| ControlCenter.SeedAlertsNewestFirst | apps/web/lib/control-center/data.ts:85-117 | the seeded alerts are already newest first, so `getAlerts()` returns them in seed order |
| RiskDb.SeedJurisdictions | apps/web/lib/risk/db.ts:44-50 | the seeded jurisdictions are us-fed, us-tx and us-nm, in that order |
| RiskDb.SeedRegulations | apps/web/lib/risk/db.ts:53-78 | the seeded regulations are reg-caa then reg-merp |
| RiskDb.SeedVersions | apps/web/lib/risk/db.ts:81-89 | only reg-caa has a history: its single version 1 |
| RiskDb.SeedObligations | apps/web/lib/risk/db.ts:92-111 | the seeded obligations are obl-flare then obl-leak |
| RiskDb.SeedWatchlists | apps/web/lib/risk/db.ts:114-127 | the single seeded watchlist is wl-env |
| RiskDb.SeedWatchlistEvents | apps/web/lib/risk/db.ts:130-141 | wl-env's list holds exactly evt-1 |
| RiskDb.SeedShape | apps/web/lib/risk/db.ts:44-142 | three jurisdictions, us-tx with code US-TX under us-fed; reg-merp has no version entry and reg-caa's is version 1; evt-1 is on wl-env's list |
| RiskDb.RiskRepository.constructor | apps/web/lib/risk/db.ts:29-142 | `seedData` fills every map with the seed, leaves assessments and issues empty, and puts evt-1 both on wl-env's list and in the feed |
| RiskDb.RiskGlobal.GetInstance | apps/web/lib/risk/db.ts:33-38 | the first call creates and seeds the repository; every later call returns that same object |
| RiskService.GetRegulations | apps/web/lib/risk/service.ts:17-23 | exactly the organisation's regulations, restricted to one jurisdiction when given, as a sub-multiset of the store |
| RiskService.GetRegulation | apps/web/lib/risk/service.ts:25-29 | a regulation is returned if and only if it exists and belongs to the caller's organisation |
| RiskService.GetRegulationVersions | apps/web/lib/risk/service.ts:31-36 | [] for a missing or foreign regulation, otherwise its stored history (or []) |
| RiskService.Raise | apps/web/lib/risk/service.ts:178-180 | one notification puts the event at the front of its watchlist's list and at the front of the feed, and changes nothing else |
| RiskService.RaiseStep | apps/web/lib/risk/service.ts:138-183 | one more watchlist adds nothing when it does not match, and otherwise its event at the front of its list and of the feed |
| RiskService.CheckWatchlists | apps/web/lib/risk/service.ts:138-183 | each matching watchlist gets its event at the front of its own list, the feed gains the round's events at its front, and no other map changes |
| RiskService.CheckOne | apps/web/lib/risk/service.ts:145-181 | one turn of the loop takes the stored lists and feed from the first i watchlists' events to the first i + 1 watchlists' events, keeps the repository valid and changes no other map |
| RiskService.CreateRegulation | apps/web/lib/risk/service.ts:38-66 | stores the regulation under the caller's organisation with a history of exactly one version numbered 1 ('Initial creation') and notifies with NEW_REGULATION |
| RiskService.UpdateRegulation | apps/web/lib/risk/service.ts:68-104 | a missing or foreign id fails with 'Regulation <id> not found' and changes nothing; otherwise the merge of every given key except org_id, stamped with the clock, is stored under the requested id and, exactly when something changed, version count+1 is appended and REGULATION_UPDATE is raised |
| RiskService.GetWatchlists | apps/web/lib/risk/service.ts:108-110 | exactly the organisation's watchlists |
| RiskService.CreateWatchlist | apps/web/lib/risk/service.ts:112-122 | stores the watchlist under a fresh wl- id and the caller's organisation; every other map and the event log are unchanged |
| RiskService.GetWatchlistEvents | apps/web/lib/risk/service.ts:124-128 | [] for a missing or foreign watchlist, otherwise its stored list |
| RiskService.GetAllFeedEvents | apps/web/lib/risk/service.ts:130-136 | exactly the feed events of the organisation's watchlists, newest first, a permutation (same multiset) of those stored events |
| RiskService.Score | apps/web/lib/risk/service.ts:195-207 | the score lies in -1..100, is -1 exactly for NOT_APPLICABLE, is the status's base score with no open issues, and otherwise loses ten points per issue, floored at 0 |
| RiskService.GetIssues | apps/web/lib/risk/service.ts:240-244 | exactly the organisation's issues, restricted to one asset when given |
| RiskService.CreateAssessment | apps/web/lib/risk/service.ts:187-218 | stores the assessment scored against the open, obligation-linked issues on its asset; every other map and the event log are unchanged |
| RiskService.GetAssessments | apps/web/lib/risk/service.ts:220-224 | exactly the organisation's assessments, restricted to one asset when given |
| RiskService.CreateIssue | apps/web/lib/risk/service.ts:226-238 | stores the issue under a fresh iss- id; every other map and the event log are unchanged |
| RiskService.GetJurisdictions | apps/web/lib/risk/service.ts:248-250 | exactly the stored jurisdictions, one per key |
| RiskService.GetObligations | apps/web/lib/risk/service.ts:252-254 | exactly the organisation's obligations |
| RiskService.NewEventsStep | apps/web/lib/risk/service.ts:145-181 | one more watchlist adds one event exactly when it matches |
| RiskService.PushAllIsReverse | apps/web/lib/risk/service.ts:180 | repeated `unshift` leaves the round's events newest first ahead of the old feed |
| RiskService.UpdateKeepsOwnership | apps/web/lib/risk/service.ts:73-75 | an update never changes a regulation's org_id; its id and creation time change only when the update carries them; updated_at is the clock |
| RiskService.ChangesExactly | apps/web/lib/risk/service.ts:78-82 | a change is recorded if and only if title, description, status or effective date is given, non-empty and different |
| RiskService.EmptyTitleIsSilent | apps/web/lib/risk/service.ts:75-84 | an empty title overwrites the old one but records no version, since the test is on truthiness |
| RiskService.VersionsStayNumbered | apps/web/lib/risk/service.ts:49-96 | creation starts a history numbered 1..n and every recorded update appends number count+1 |
| RiskService.SeedUpdateGivesSecondVersion | apps/web/lib/risk/service.ts:79-96 | the first title change of the seeded reg-caa records version 2 (ver-reg-caa-2) |
| RiskService.NewEventsExactly | apps/web/lib/risk/service.ts:145-176 | an event is raised in a round if and only if it is the event built for some watchlist that matches the regulation |
| RiskService.NewEventsShape | apps/web/lib/risk/service.ts:164-176 | every raised event is an unread MEDIUM event of the given kind about the regulation, created at `now`, and a round raises no more events than there are watchlists |
| RiskService.PrependAllEffect | apps/web/lib/risk/service.ts:178-179 | each event lands at the front of its own watchlist's list; the lists of other watchlists are untouched |
| RiskService.StoredWatchlistsDistinct | apps/web/lib/risk/service.ts:143 | the stored watchlists have distinct ids, as map keys |
| RiskService.NewEventsDistinct | apps/web/lib/risk/service.ts:145-181 | one round raises at most one event per watchlist |
| RiskService.RoundNotifiesEachMatch | apps/web/lib/risk/service.ts:138-183 | after a round a watchlist's list starts with that round's event when it matches the regulation, and is untouched when it does not |
| RiskService.ScoreMonotone | apps/web/lib/risk/service.ts:201-207 | more open issues never raise the score |
| RiskService.ScoreExamples | apps/web/lib/risk/service.ts:195-207 | WARNING with no open issues scores 60; COMPLIANT with 3 scores 70 and with 10 or more scores 0; NON_COMPLIANT scores 0 |
| RiskService.SeedWatchlistFollowsFederal | apps/web/lib/risk/service.ts:149-153 | the seeded watchlist matches every federal regulation by jurisdiction |
| RiskService.SeedWatchlistKeywordIgnoresCase | apps/web/lib/risk/service.ts:156-160 | keyword matching ignores case: 'Methane' in a New Mexico title reaches the seeded watchlist |
| IntelData.SeedSignals | apps/web/lib/intel/data.ts:37-60 | both seed signals are enabled and each is a single 'equals' rule |
| IntelData.SeedItem1 | apps/web/lib/intel/data.ts:63-77 | the first seed item is PUBLISHED, with a publication time |
| IntelData.SeedItem2 | apps/web/lib/intel/data.ts:78-95 | the second seed item is IN_REVIEW and unpublished |
| IntelData.SeedItem3 | apps/web/lib/intel/data.ts:96-109 | the third seed item is a DRAFT and unpublished |
| IntelData.SeedItems | apps/web/lib/intel/data.ts:62-111 | three seed items |
| IntelData.IntelStore.constructor | apps/web/lib/intel/data.ts:13-20 | a fresh process has no store field set |
| IntelData.IntelStore.Initialize | apps/web/lib/intel/data.ts:113-118 | each field is seeded only when absent, and a field already set is kept, so a re-import resets nothing; collections and signal events start empty |
| IntelData.IntelStore.SetItems | apps/web/lib/intel/data.ts:129 | replaces the items and no other field |
| IntelData.IntelStore.SetEntities | apps/web/lib/intel/data.ts:130 | replaces the entities and no other field |
| IntelData.IntelStore.SetTags | apps/web/lib/intel/data.ts:131 | replaces the tags and no other field |
| IntelData.IntelStore.SetSignals | apps/web/lib/intel/data.ts:132 | replaces the signals and no other field |
| IntelData.IntelStore.SetCollections | apps/web/lib/intel/data.ts:133 | replaces the collections and no other field |
| IntelData.IntelStore.SetSignalEvents | apps/web/lib/intel/data.ts:134 | replaces the signal events and no other field |
| IntelService.Selected | apps/web/lib/intel/service.ts:111-141 | exactly the items passing every given filter, newest first, a permutation (same multiset) of the matching items |
| IntelService.NewItem | apps/web/lib/intel/service.ts:147-162 | a new item is a DRAFT with no reviews and no publication time, of type NOTE and titled 'Untitled' unless the draft gives them |
| IntelService.NewSignal | apps/web/lib/intel/service.ts:283-292 | a new signal is named 'New Signal', has no rules and is enabled, unless the draft says otherwise (`??` keeps an explicit false) |
| IntelService.EvaluateSignals | apps/web/lib/intel/service.ts:69-107 | the new events of the enabled signals are appended after the existing ones; no other field changes |
| IntelService.CollectSignalEvents | apps/web/lib/intel/service.ts:74-101 | given only enabled signals, the loop collects exactly the events NewSignalEvents specifies: one per signal whose rules are non-empty and all match, skipping pairs that already have an event, in signal order |
| IntelService.GetIntelItems | apps/web/lib/intel/service.ts:111-141 | returns the selected items newest first (a permutation of the matching items); with no filter the store's own array is sorted in place, otherwise the store is unchanged |
| IntelService.GetIntelItemById | apps/web/lib/intel/service.ts:143-145 | nothing if and only if no item has the id; otherwise an item with that id |
| IntelService.CreateIntelItem | apps/web/lib/intel/service.ts:147-170 | the new draft goes to the front of the store and the signals are evaluated on it |
| IntelService.UpdateIntelItem | apps/web/lib/intel/service.ts:172-188 | an unknown id returns nothing and changes nothing; otherwise the merge (any item key, the id included; updated_at the clock) replaces the first item with that id at the same index and the signal events raised for it are appended |
| IntelService.DeleteIntelItem | apps/web/lib/intel/service.ts:190-196 | false, with the store unchanged, if and only if no item has the id; otherwise every item with the id is removed |
| IntelService.SubmitIntelItem | apps/web/lib/intel/service.ts:200-202 | the item moves to IN_REVIEW from any status and the signal events raised for it are appended; an unknown id changes nothing |
| IntelService.ApproveIntelItem | apps/web/lib/intel/service.ts:204-221 | one APPROVED review is appended and the item is PUBLISHED at `now`, from any status; the signal events raised for it are appended |
| IntelService.RejectIntelItem | apps/web/lib/intel/service.ts:223-238 | one REJECTED review is appended and the item returns to DRAFT, from any status; the signal events raised for it are appended |
| IntelService.GetIntelFeed | apps/web/lib/intel/service.ts:242-244 | exactly the published items, newest first, a permutation (same multiset) of the stored published items |
| IntelService.GetIntelDigest | apps/web/lib/intel/service.ts:246-271 | a permutation of the stored items published within the day, and exactly the signal events created within it, in stored order |
| IntelService.CreateIntelTag | apps/web/lib/intel/service.ts:274-278 | appends one org-1 tag with a tag- id |
| IntelService.CreateIntelSignal | apps/web/lib/intel/service.ts:283-295 | appends the new signal after the existing ones |
| IntelService.FilterKeepsAllIff | apps/web/lib/intel/service.ts:192-193 | removing by id keeps the length if and only if no item has the id |
| IntelService.MatchRuleIgnoresCase | apps/web/lib/intel/service.ts:57-64 | title, content and source rules ignore case on both sides |
| IntelService.MatchRuleFalseCases | apps/web/lib/intel/service.ts:36-66 | an unknown field or operator, an absent source, or starts_with on a tag or entity never matches |
| IntelService.TagRulesAreCaseSensitive | apps/web/lib/intel/service.ts:42-62 | tag names compare exactly while titles ignore case |
| IntelService.NewSignalEventsStep | apps/web/lib/intel/service.ts:74-101 | one more signal adds one event exactly when it fires on the item and the pair has no event yet |
| IntelService.NewSignalEventsSound | apps/web/lib/intel/service.ts:80-101 | every new event is for the item at `now`, comes from a signal whose rules all match, carries those rules, and repeats no existing (signal, item) pair |
| IntelService.NewSignalEventsComplete | apps/web/lib/intel/service.ts:80-101 | every firing signal without an event for the item raises one |
| IntelService.CoveredRaisesNothing | apps/web/lib/intel/service.ts:86-88 | nothing is raised once every firing signal has an event for the item |
| IntelService.EvaluateTwiceRaisesNothing | apps/web/lib/intel/service.ts:86-107 | evaluating the same item a second time raises nothing |
| IntelService.ApproveThenReject | apps/web/lib/intel/service.ts:204-238 | approve then reject leaves a DRAFT with both reviews in order and the publication time kept |
| IntelService.SeedSignalsFire | apps/web/lib/intel/data.ts:37-60 | both seed signals fire on an item tagged M&A that names the Permian Basin |
| EconomicsData.MergeScenario | apps/web/lib/economics/data.ts:91-96 | each key the update carries (id, organisation and creation time included) replaces the scenario's, the others are kept, and updated_at is the clock; an empty update only stamps updated_at |
| EconomicsData.MergeRun | apps/web/lib/economics/data.ts:135-140 | the merge keeps id, version and creation time and takes each given field from the updates |
| EconomicsData.SeedInput | apps/web/lib/economics/data.ts:39-64 | the seed input: twenty years of DECLINE production, FLAT price 75 |
| EconomicsData.SeedVersion | apps/web/lib/economics/data.ts:66-74 | the seed version is number 1 of scenario-001 |
| EconomicsData.EconomicsRepository.constructor | apps/web/lib/economics/data.ts:11-75 | `seedData` stores scenario-001 and its single version version-001, and no runs |
| EconomicsData.EconomicsRepository.ListScenarios | apps/web/lib/economics/data.ts:79-81 | exactly the organisation's scenarios: the order-keeping filter of the stored scenarios, in insertion order |
| EconomicsData.EconomicsRepository.GetScenario | apps/web/lib/economics/data.ts:83-85 | found if and only if stored under the id |
| EconomicsData.EconomicsRepository.CreateScenario | apps/web/lib/economics/data.ts:87-89 | stores under the scenario's own id; versions and runs unchanged |
| EconomicsData.EconomicsRepository.UpdateScenario | apps/web/lib/economics/data.ts:91-96 | a missing id changes nothing; otherwise the stored scenario becomes its merge with the updates |
| EconomicsData.EconomicsRepository.ListVersions | apps/web/lib/economics/data.ts:100-104 | exactly the scenario's versions, highest number first |
| EconomicsData.EconomicsRepository.GetVersion | apps/web/lib/economics/data.ts:106-108 | found if and only if stored under the id |
| EconomicsData.EconomicsRepository.CreateVersion | apps/web/lib/economics/data.ts:110-112 | stores under the version's own id; scenarios and runs unchanged |
| EconomicsData.EconomicsRepository.GetLatestVersion | apps/web/lib/economics/data.ts:114-117 | nothing if and only if the scenario has no version; otherwise one of its versions with the highest number |
| EconomicsData.EconomicsRepository.GetRun | apps/web/lib/economics/data.ts:121-123 | found if and only if stored under the id |
| EconomicsData.EconomicsRepository.ListRuns | apps/web/lib/economics/data.ts:125-129 | exactly the version's runs, newest first, a permutation (same multiset) of the version's stored runs |
| EconomicsData.EconomicsRepository.CreateRun | apps/web/lib/economics/data.ts:131-133 | stores under the run's own id; scenarios and versions unchanged |
| EconomicsData.EconomicsRepository.UpdateRun | apps/web/lib/economics/data.ts:135-140 | a missing id changes nothing; otherwise only that run becomes its merge with the updates |
| EconomicsData.EconomicsGlobal.GetInstance | apps/web/lib/economics/data.ts:15-20 | the first call creates the repository holding the seed scenario, its version 1 and no runs; later calls return the same object |
| EconomicsData.SeedLatestIsVersionOne | apps/web/lib/economics/data.ts:66-117 | the seeded scenario's latest version is its version 1 |
| EconomicsData.UpdateRunIsLocal | apps/web/lib/economics/data.ts:135-140 | updating one run leaves every other run as it was |
| EconomicsService.GetScenario | apps/web/lib/economics/service.ts:14-20 | nothing for an unknown id; otherwise the scenario with its highest-numbered version |
| EconomicsService.DefaultInput | apps/web/lib/economics/service.ts:125-152 | the default input equals the seeded one and spans 240 months |
| EconomicsService.CreateScenario | apps/web/lib/economics/service.ts:22-53 | stores a DRAFT scenario and exactly one version, numbered 1 and named 'Initial Version', holding the given input or the default |
| EconomicsService.NextVersionNumber | apps/web/lib/economics/service.ts:57 | 1 when there is no version, otherwise above every existing number |
| EconomicsService.VersionName | apps/web/lib/economics/service.ts:65 | the given name, or 'Version n' |
| EconomicsService.CreateVersion | apps/web/lib/economics/service.ts:55-72 | the new version is numbered above all of the scenario's versions and becomes its latest |
| EconomicsService.NewHighestIsLatest | apps/web/lib/economics/service.ts:55-72 | a version numbered above all of its scenario's versions, stored under a fresh key, is that scenario's latest |
| EconomicsService.QueuedRun | apps/web/lib/economics/service.ts:79-84 | a queued run has no result and has neither started nor finished |
| EconomicsService.RunSimulation | apps/web/lib/economics/service.ts:74-92 | fails with 'Version not found', storing nothing, if and only if the version is unknown; otherwise stores and returns a QUEUED run |
| EconomicsService.Executed | apps/web/lib/economics/service.ts:94-115 | a run ends COMPLETED with the engine's result exactly when the engine succeeds, and FAILED with its error otherwise, with start and finish times set |
| EconomicsService.ExecuteRun | apps/web/lib/economics/service.ts:94-115 | an unknown run is left alone; otherwise the run goes RUNNING and is then finished with exactly the engine's outcome for the input: COMPLETED with its result, or FAILED with its error |
| EconomicsService.SeedNextVersionIsTwo | apps/web/lib/economics/service.ts:55-65 | the seeded scenario's next version is 2, named 'Version 2' |
| EconomicsEngine.ProductionVolume | apps/web/lib/economics/engine.ts:81-102 | FLAT production is the initial rate; DECLINE with an annual decline of 100 % or more is 0; any other curve is 0 |
| EconomicsEngine.Price | apps/web/lib/economics/engine.ts:104-115 | a non-FLAT model prices at 0; FLAT without escalation is the flat price (0 when absent) |
| EconomicsEngine.Capex | apps/web/lib/economics/engine.ts:48-55 | the initial capex in month 0, abandonment in the month numbered durationMonths - 1 (both in a one-month run), 0 in every other month; a fractional month count never charges abandonment |
| EconomicsEngine.Taxes | apps/web/lib/economics/engine.ts:59-60 | 0 on a non-positive operating income; otherwise non-negative for a non-negative rate and at most the income for a rate up to 100 % |
| EconomicsEngine.Rows | apps/web/lib/economics/engine.ts:23-76 | the first n rows of the projection number n |
| EconomicsEngine.RowCount | apps/web/lib/economics/engine.ts:17-23 | the least whole number of months at or above 12 times the (possibly fractional) duration in years, none for a non-positive duration |
| EconomicsEngine.GenerateCashFlows | apps/web/lib/economics/engine.ts:15-79 | the loop yields exactly the rows of the projection and their total volume; it fails with 'Invalid time value' exactly when a month label cannot be formed |
| EconomicsEngine.RowsSnoc | apps/web/lib/economics/engine.ts:23-76 | one more month appends exactly that month's row |
| EconomicsEngine.Payout | apps/web/lib/economics/engine.ts:149-150 | 0 if and only if cumulative cash never turns non-negative; otherwise the 1-based first month where it does |
| EconomicsEngine.CalculateKpis | apps/web/lib/economics/engine.ts:117-172 | NPV is the discounted sum of net cash; total revenue, opex and capex are the sums over the rows; ROI is 0 when capex is 0; breakeven is 0 without volume; IRR is the iteration's value, 0 when it cannot be found; payout as above |
| EconomicsEngine.RunEngine | apps/web/lib/economics/engine.ts:5-13 | the result is the projection's rows with their indicators, or the month-label failure: exactly RunOutcome of the input |
| EconomicsEngine.RunOutcome | apps/web/lib/economics/engine.ts:5-13 | the month-label error 'Invalid time value' exactly when some month cannot be labelled; otherwise one row per month with a payout within the projection |
| EconomicsEngine.FractionalDuration | apps/web/lib/economics/engine.ts:17-55 | 2.3 years make 28 rows and no abandonment is charged |
| EconomicsEngine.NpvUndiscounted | apps/web/lib/economics/engine.ts:125-132 | with every discount factor 1 the NPV is the plain sum of net cash |
| EconomicsEngine.FiveYearsSixtyRows | apps/web/lib/economics/engine.ts:17-23 | a five-year project has 60 rows |
| EconomicsEngine.RowIdentities | apps/web/lib/economics/engine.ts:57-64 | net = revenue - royalties - opex - capex - taxes; taxes are 0 unless operating income is positive; cumulative cash is the running prefix sum of net |
| EconomicsEngine.TotalCapex | apps/web/lib/economics/engine.ts:48-120 | the capex of the whole projection is the initial capex, plus abandonment exactly when the duration is a whole number of months |
| EconomicsEngine.CapexPrefix | apps/web/lib/economics/engine.ts:48-55 | the capex of the first k months is the initial capex, plus abandonment once month durationMonths - 1 is in |
| EconomicsEngine.TotalNetIsFinalCumulative | apps/web/lib/economics/engine.ts:64-153 | the total net cash equals the last row's cumulative cash |
| EconomicsEngine.TaxesBounded | apps/web/lib/economics/engine.ts:59-63 | for a rate within 0..100 %, taxes are non-negative and never turn a month's net cash negative |
| ProductionDb.MergeJob | apps/web/lib/production/db.ts:148-153 | the merge keeps id, kind and creation time, takes each given field from the updates and stamps updated_at |
| ProductionDb.Merged | apps/web/lib/production/db.ts:93-98 | the upserted point is in the merged series |
| ProductionDb.Upserted | apps/web/lib/production/db.ts:90-101 | the series after one upsert is sorted ascending by time and is a permutation of the merged series, which holds the point |
| ProductionDb.UpsertOne | apps/web/lib/production/db.ts:88-102 | one point upserted keeps the store well-formed |
| ProductionDb.UpsertAll | apps/web/lib/production/db.ts:87-103 | the points upserted in order keep the store well-formed |
| ProductionDb.UpsertAllStep | apps/web/lib/production/db.ts:88 | the `forEach` over one more point is one more single upsert |
| ProductionDb.ProductionRepository.constructor | apps/web/lib/production/db.ts:13-79 | `seedData` stores well-01's oil, gas and water series under their keys, one DCA model, one committed scenario, and no anomalies or jobs |
| ProductionDb.ProductionRepository.GetSeries | apps/web/lib/production/db.ts:82-85 | [] for an unknown asset/measurement key, otherwise the stored series |
| ProductionDb.ProductionRepository.UpsertSeries | apps/web/lib/production/db.ts:87-104 | each point in turn replaces the point with its timestamp or is appended, and its series is re-sorted by time; the other maps are unchanged |
| ProductionDb.ProductionRepository.UpsertPoint | apps/web/lib/production/db.ts:88-102 | the loop body upserts one point and changes no other map |
| ProductionDb.ProductionRepository.GetDcaModels | apps/web/lib/production/db.ts:107-109 | [] for an unknown asset, the asset's stored models otherwise |
| ProductionDb.ProductionRepository.SaveDcaModel | apps/web/lib/production/db.ts:111-114 | the asset's list grows by exactly the model, earlier entries kept |
| ProductionDb.ProductionRepository.GetScenarios | apps/web/lib/production/db.ts:118-120 | [] for an unknown asset, the asset's stored scenarios otherwise |
| ProductionDb.ProductionRepository.CreateScenario | apps/web/lib/production/db.ts:122-125 | the asset's list grows by exactly the scenario, earlier entries kept |
| ProductionDb.ProductionRepository.GetAnomalies | apps/web/lib/production/db.ts:129-131 | [] for an unknown asset, the asset's stored anomalies otherwise |
| ProductionDb.ProductionRepository.CreateAnomaly | apps/web/lib/production/db.ts:133-136 | the asset's list grows by exactly the anomaly, earlier entries kept |
| ProductionDb.ProductionRepository.GetJob | apps/web/lib/production/db.ts:140-142 | found if and only if stored under the id |
| ProductionDb.ProductionRepository.CreateJob | apps/web/lib/production/db.ts:144-146 | stores the job under its id; nothing else changes |
| ProductionDb.ProductionRepository.UpdateJob | apps/web/lib/production/db.ts:148-153 | an unknown id changes nothing; otherwise the job becomes its merge with the updates, stamped `now` |
| ProductionDb.SeedScenario | apps/web/lib/production/db.ts:69-78 | the seeded scenario is committed and has no modifications |
| ProductionDb.ProductionGlobal.GetInstance | apps/web/lib/production/db.ts:17-22 | the first call creates the repository holding the three seeded well-01 series, the seed DCA model and scenario, and no anomalies or jobs; later calls return the same object |
| ProductionDb.UpsertedStampCount | apps/web/lib/production/db.ts:93-101 | an upsert never duplicates a timestamp: the point's timestamp occurs as often as before, or once if new, and every other timestamp as often as before |
| ProductionDb.MergedStampCount | apps/web/lib/production/db.ts:93-98 | the same count, before sorting |
| ProductionDb.UpsertOneEffect | apps/web/lib/production/db.ts:88-102 | after an upsert the point's series is sorted by time and holds the point, and no other series changes |
| ProductionDb.UpsertedLength | apps/web/lib/production/db.ts:93-98 | a known timestamp keeps the series' length, a new one adds exactly one point |
| ProductionScenarios.MonthOf | apps/web/lib/production/analytics/scenarios.ts:25 | the first seven characters of the date, or the whole of a shorter text |
| ProductionScenarios.CountDowntime | apps/web/lib/production/analytics/scenarios.ts:23-27 | the `forEach` tally equals the per-month day count |
| ProductionScenarios.DowntimeFactor | apps/web/lib/production/analytics/scenarios.ts:37 | the factor lies in 0..1, is 0 from 30 days on, and 1 with no downtime |
| ProductionScenarios.Adjust | apps/web/lib/production/analytics/scenarios.ts:29-66 | the period is kept, and with no downtime, curtailment or uplift the point is unchanged, whatever decline_rate_multiplier says |
| ProductionScenarios.Apply | apps/web/lib/production/analytics/scenarios.ts:18-67 | a series of the same length with the periods in order, each point adjusted by that month's downtime and the scenario's modifications |
| ProductionScenarios.Create | apps/web/lib/production/analytics/scenarios.ts:69-82 | stores an uncommitted scenario with empty modifications under its asset; every other store is unchanged |
| ProductionScenarios.DowntimeCountsDays | apps/web/lib/production/analytics/scenarios.ts:23-27 | the tally for each month is the number of downtime days falling in it |
| ProductionScenarios.EmptyModificationsAreIdentity | apps/web/lib/production/analytics/scenarios.ts:19-66 | empty modifications leave every point as it is |
| ProductionScenarios.FullMonthDowntimeZeroes | apps/web/lib/production/analytics/scenarios.ts:34-39 | thirty or more downtime days in a month zero that month's value |
| ProductionScenarios.CurtailThenUplift | apps/web/lib/production/analytics/scenarios.ts:42-49 | without downtime, curtailment c and uplift u scale the value by (1 - c/100) * u |
| CsvConnector.Fields | apps/web/lib/production/ingestion/csv-connector.ts:9-13 | as many trimmed fields as the line has comma-separated parts |
| CsvConnector.RecordOf | apps/web/lib/production/ingestion/csv-connector.ts:15-18 | the record's keys are exactly the headers, and each header maps to the field in the same column (a repeated header to the field of its last column) |
| CsvConnector.RecordStep | apps/web/lib/production/ingestion/csv-connector.ts:15-18 | assigning one more column to the record built so far keeps every header mapped to the value of its last column |
| CsvConnector.Rows | apps/web/lib/production/ingestion/csv-connector.ts:12-21 | at most one record per data line |
| CsvConnector.Parsed | apps/web/lib/production/ingestion/csv-connector.ts:5-23 | fewer records than lines, since the header line yields none |
| CsvConnector.BuildRecord | apps/web/lib/production/ingestion/csv-connector.ts:15-18 | the column loop builds exactly the record of the row |
| CsvConnector.RowsStep | apps/web/lib/production/ingestion/csv-connector.ts:12-21 | one more line adds its record exactly when its field count equals the header's |
| CsvConnector.ParseCsv | apps/web/lib/production/ingestion/csv-connector.ts:5-23 | the loop returns exactly the parsed rows: nothing for fewer than two lines, otherwise each row whose field count matches the header's |
| CsvConnector.ParseRows | apps/web/lib/production/ingestion/csv-connector.ts:12-21 | the loop over the data lines keeps exactly the well-formed rows, in order |
| CsvConnector.MeasurementOf | apps/web/lib/production/ingestion/csv-connector.ts:36-43 | one of the four measurements: GAS_RATE, WATER_RATE and PRESSURE_TUBING exactly for 'gas', 'water' and 'pressure' in any case, OIL_RATE for 'oil' and anything else |
| CsvConnector.UnitOf | apps/web/lib/production/ingestion/csv-connector.ts:51 | the record's unit when present, otherwise mcf for gas and bbl for everything else |
| CsvConnector.Normalize | apps/web/lib/production/ingestion/csv-connector.ts:29-60 | a point if and only if asset_id, date, value and measure are non-empty, the value parses and the date renders; the point carries the record's asset, series `asset-measure`, value, measurement and unit, from CSV_UPLOAD |
| CsvConnector.EachRecordCounted | apps/web/lib/production/ingestion/csv-connector.ts:67-74 | every record yields either a point or a message, so valid + failed = total |
| CsvConnector.ValidOf | apps/web/lib/production/ingestion/csv-connector.ts:67-71 | at most one point per record |
| CsvConnector.ErrorsOf | apps/web/lib/production/ingestion/csv-connector.ts:67-74 | at most one message per record |
| CsvConnector.OutcomeStep | apps/web/lib/production/ingestion/csv-connector.ts:67-74 | one more record adds its point, or the message 'Row <index + 2>: Invalid data format' |
| CsvConnector.Fetch | apps/web/lib/production/ingestion/csv-connector.ts:62-87 | the points of the records that normalise, the messages of the rest, counts that add up to the parsed total, source CSV |
| CsvConnector.NormalizeAll | apps/web/lib/production/ingestion/csv-connector.ts:64-74 | the `forEach` returns exactly those points and messages, in order |
| CsvConnector.HeaderOnlyGivesNothing | apps/web/lib/production/ingestion/csv-connector.ts:6-7 | a file with only a header line has fewer than two lines and so gives no records |
| CsvConnector.GasDefaultsToMcf | apps/web/lib/production/ingestion/csv-connector.ts:43-51 | a valid gas record without a unit becomes a GAS_RATE point in mcf |
| CsvConnector.MissingFieldRejected | apps/web/lib/production/ingestion/csv-connector.ts:25-30 | a record missing any of asset_id, date, value or measure is rejected |
| RestConnector.Field | apps/web/lib/production/ingestion/rest-connector.ts:61 | a member exists if and only if the value is an object holding that key |
| RestConnector.FieldOr | apps/web/lib/production/ingestion/rest-connector.ts:71-79 | `x.k \|\| fallback`: the member when present and truthy, otherwise the fallback |
| RestConnector.Text | apps/web/lib/production/ingestion/rest-connector.ts:70-75 | a string renders as itself |
| RestConnector.Number | apps/web/lib/production/ingestion/rest-connector.ts:73 | a number converts to itself |
| RestConnector.Records | apps/web/lib/production/ingestion/rest-connector.ts:19-24 | an array body is the records; an object whose truthy `data` is an array gives those items, one whose truthy `data` is anything else throws 'not a function'; an object without a truthy `data` and any scalar give []; a `null` body throws |
| RestConnector.Normalize | apps/web/lib/production/ingestion/rest-connector.ts:59-81 | nothing exactly when validation fails (asset_id and timestamp truthy, value defined); a null record or unrenderable timestamp throws; series_id defaults to `asset-(measurement\|unknown)`, measurement to OIL_RATE and unit to bbl/d |
| RestConnector.WalkNext | apps/web/lib/production/ingestion/rest-connector.ts:24-31 | a failure so far stays; otherwise one more record adds exactly one point or one message |
| RestConnector.Walk | apps/web/lib/production/ingestion/rest-connector.ts:24-31 | when no record throws, points plus messages number the records, and no record was null |
| RestConnector.Body | apps/web/lib/production/ingestion/rest-connector.ts:7-19 | a failed request keeps its message; a non-OK status throws 'HTTP error! status: <status>' |
| RestConnector.Failure | apps/web/lib/production/ingestion/rest-connector.ts:44-55 | the error envelope: no points, the one message, zero counts |
| RestConnector.WalkStep | apps/web/lib/production/ingestion/rest-connector.ts:24-31 | the walk of one more record is one more step of the walk |
| RestConnector.Fetch | apps/web/lib/production/ingestion/rest-connector.ts:5-57 | on success the walk's points and messages with counts that add up to the record total; if anything throws, the error envelope with that message |
| RestConnector.WalkFailureSticks | apps/web/lib/production/ingestion/rest-connector.ts:24-44 | once a record throws, the whole walk fails with that message |
| RestConnector.ZeroValuePasses | apps/web/lib/production/ingestion/rest-connector.ts:61 | a record whose value is 0 passes validation |
| GisSpatial.BBoxMonotone | apps/web/lib/gis/spatial.ts:6-14 | a point inside a box is inside every box that contains that box |
| GisSpatial.BBoxNeedsCoordinates | apps/web/lib/gis/spatial.ts:7 | a point with fewer than two coordinates or a box with fewer than four never matches |
| GisSpatial.PointInPolygon | apps/web/lib/gis/spatial.ts:19-31 | the ray-casting loop answers inside exactly when an odd number of polygon edges (each vertex paired with the one before it, the first with the last) cross the ray |
| GisSpatial.AboveAllVerticesIsOutside | apps/web/lib/gis/spatial.ts:26-27 | a point on or above every vertex is crossed by no edge, so it is outside |
| GisSpatial.SquareContainsCentre | apps/web/lib/gis/spatial.ts:19-31 | the centre of the unit square is crossed by exactly one edge, so it is inside |
| GisSpatial.GridSize | apps/web/lib/gis/spatial.ts:65-67 | for any zoom, whole or fractional, the cell size is positive and equals 84.375 / `Math.pow(2, zoom)` degrees |
| GisSpatial.GridSizeHalves | apps/web/lib/gis/spatial.ts:65-67 | one zoom level up halves the cell, from any level |
| GisSpatial.GridSizeAtLevel | apps/web/lib/gis/spatial.ts:65-67 | at a whole level n the cell is 84.375 / 2^n degrees |
| GisSpatial.AddPoint | apps/web/lib/gis/spatial.ts:77-91 | counting a point into its cell keeps the tally a well-formed ordered map |
| GisSpatial.Grouped | apps/web/lib/gis/spatial.ts:72-92 | the tally of the point features is a well-formed ordered map |
| GisSpatial.Emitted | apps/web/lib/gis/spatial.ts:97-120 | a one-point cell gives back its feature unchanged; a larger cell gives a point `cluster-<key>` in the first feature's layer and organisation whose properties are cluster = true, point_count = the count and cluster_id = the key, placed at the mean longitude and latitude (sumX / count, sumY / count) of its points and stamped with the clock |
| GisSpatial.EmitAll | apps/web/lib/gis/spatial.ts:96-121 | one output per cell, in cell order |
| GisSpatial.Clustered | apps/web/lib/gis/spatial.ts:55-58 | no features give nothing; at any zoom of 10 or above (a real number) the features come back unchanged |
| GisSpatial.GroupedStep | apps/web/lib/gis/spatial.ts:72-92 | one more feature is tallied into its cell if it is a point and otherwise appended to the non-point features |
| GisSpatial.EmitStep | apps/web/lib/gis/spatial.ts:96-121 | one more cell appends exactly its output |
| GisSpatial.GroupPoints | apps/web/lib/gis/spatial.ts:69-92 | the first loop leaves exactly the tally of the point features and the non-point features in order |
| GisSpatial.TallyFeature | apps/web/lib/gis/spatial.ts:73-91 | the loop body keeps the tally and the non-point list equal to those of the features seen so far |
| GisSpatial.EmitCells | apps/web/lib/gis/spatial.ts:94-121 | the second loop produces exactly one output per cell in cell order |
| GisSpatial.ClusterPoints | apps/web/lib/gis/spatial.ts:55-124 | `clusterPoints` returns exactly the clustering specification, for any real zoom |
| GisSpatial.AddPointTotal | apps/web/lib/gis/spatial.ts:85-89 | counting one point raises the total count of all cells by exactly one |
| GisSpatial.GroupedConservesPoints | apps/web/lib/gis/spatial.ts:72-92 | the cells' counts add up to the number of point features: no point is lost or counted twice |
| GisSpatial.GroupedCellsAreInputs | apps/web/lib/gis/spatial.ts:85-89 | every cell counts at least one point and remembers a point feature of the input |
| GisSpatial.ClusteredKeepsLayers | apps/web/lib/gis/spatial.ts:104-123 | every output belongs to the layer and organisation of some input feature |
| GisSpatial.ClusteredShape | apps/web/lib/gis/spatial.ts:123 | below zoom 10 the output is one item per cell followed by the non-point features, unchanged and in order |
| GisRegistry.SeedLayers | apps/web/lib/gis/registry.ts:9-41 | three layers, all public and owned by org-1 |
| GisRegistry.InLayer | apps/web/lib/gis/registry.ts:126 | exactly the features of the layer |
| GisRegistry.ByBBox | apps/web/lib/gis/registry.ts:129-136 | points are kept only inside the box; every other feature is kept |
| GisRegistry.ByPolygon | apps/web/lib/gis/registry.ts:139-146 | only points inside the polygon are kept |
| GisRegistry.ByRadius | apps/web/lib/gis/registry.ts:149-157 | only points within `km` of the centre are kept |
| GisRegistry.Filtered | apps/web/lib/gis/registry.ts:126-157 | every feature the filters keep is a feature of the requested layer |
| GisRegistry.External | apps/web/lib/gis/registry.ts:108-119 | one feature per fetched pipeline, numbered `pipe-i`, under the layer, keeping the fetched geometry |
| GisRegistry.Registry.constructor | apps/web/lib/gis/registry.ts:9-76 | the three seed layers, the seed features and an empty cache |
| GisRegistry.Registry.GetLayers | apps/web/lib/gis/registry.ts:81-83 | exactly the layers owned by the organisation or public |
| GisRegistry.Registry.GetLayer | apps/web/lib/gis/registry.ts:85-87 | nothing exactly when no layer has the id; otherwise the first stored layer with that id (duplicates are possible) |
| GisRegistry.Registry.AddLayer | apps/web/lib/gis/registry.ts:89-91 | the layer is appended and nothing else changes |
| GisRegistry.Registry.GetFeatureById | apps/web/lib/gis/registry.ts:174-176 | nothing exactly when no feature has the id; otherwise the first stored feature with that id |
| GisRegistry.Registry.GetFeatures | apps/web/lib/gis/registry.ts:93-172 | nothing for an unknown layer; a cached answer as stored; otherwise the pipeline answer (default box `-125,25,-65,50`) or the filtered, clustered and limited internal answer, which is cached under its key |
| GisRegistry.InternalStaysInLayer | apps/web/lib/gis/registry.ts:126-167 | every internal answer belongs to the requested layer, clusters included |
| GisRegistry.LimitIsPrefix | apps/web/lib/gis/registry.ts:165-167 | a positive limit gives at most that many features, a prefix of the clustered answer |
| GisRegistry.NoOptionsIsWholeLayer | apps/web/lib/gis/registry.ts:126-167 | without options the internal answer is the layer's features as stored |
| GisRegistry.EveryOrgSeesSeedLayers | apps/web/lib/gis/registry.ts:9-82 | every organisation sees all three seed layers |
| GisRateLimit.Refill | apps/web/lib/gis/observability.ts:30-36 | a whole number of 6000 ms intervals adds tokens up to 20 and moves the refill time to now; no whole interval changes nothing; tokens never drop and stay within 0..20 |
| GisRateLimit.Step | apps/web/lib/gis/observability.ts:23-43 | a new key starts with 20 tokens; after the refill a call is admitted exactly when a token is left, and then takes it; buckets stay within 0..20 |
| GisRateLimit.RateLimiter.constructor | apps/web/lib/gis/observability.ts:19 | the limiter starts with no buckets |
| GisRateLimit.RateLimiter.CheckRateLimit | apps/web/lib/gis/observability.ts:23-43 | the answer and the key's new bucket are those of one step; every other key's bucket is unchanged |
| GisRateLimit.RefillSettles | apps/web/lib/gis/observability.ts:30-36 | refilling twice at the same instant is refilling once |
| GisRateLimit.SettledAdmitsAtMostTokens | apps/web/lib/gis/observability.ts:38-42 | calls at one instant admit no more than the tokens the bucket holds |
| GisRateLimit.AtMostTwentyInARow | apps/web/lib/gis/observability.ts:21-43 | without the clock moving, at most 20 calls in a row for one key are admitted |
| GisRateLimit.NewKeyStartsFull | apps/web/lib/gis/observability.ts:25-40 | a new key is admitted and left with 19 tokens |
| GisRateLimit.EmptyBucketWaits | apps/web/lib/gis/observability.ts:31-42 | an empty bucket refuses every call until a whole 6000 ms interval has passed, and stays as it was |
| GisOverpass.Tag | apps/web/lib/gis/overpass.ts:61-70 | a tag is present exactly when the node has tags holding that key |
| GisOverpass.WellName | apps/web/lib/gis/overpass.ts:70 | the `name` tag when present and non-empty, otherwise `Well <id>` |
| GisOverpass.TagsJson | apps/web/lib/gis/overpass.ts:66 | the properties spread from the tags have the tags' keys |
| GisOverpass.ToFeature | apps/web/lib/gis/overpass.ts:62-76 | the feature has the node's id and coordinates `[lon, lat]`; id, type WELL, status ACTIVE and the well name override the tags; every other tag is kept |
| GisOverpass.ConvertToGeoJSON | apps/web/lib/gis/overpass.ts:57-82 | a missing element list gives an empty collection; otherwise one feature per well node (a node tagged petroleum_well or oil_well), in order |
| GisOverpass.OverpassBox | apps/web/lib/gis/overpass.ts:20-29 | the west,south,east,north input is reordered into Overpass's (south,west,north,east) |
| GisOverpass.FetchWells | apps/web/lib/gis/overpass.ts:19-55 | an empty box or one without exactly four parts sends nothing and gives an empty collection; otherwise the query for the reordered box is sent, and a successful reply is converted while any failure gives an empty collection |
| GisOverpass.ConvertedAreActiveWells | apps/web/lib/gis/overpass.ts:65-71 | every converted feature is an ACTIVE WELL with a name |
| GisOverpass.NoWellsNoFeatures | apps/web/lib/gis/overpass.ts:60-61 | a list without well nodes gives no features |
| GisOverpass.ThreePartBoxSendsNothing | apps/web/lib/gis/overpass.ts:21 | a three-part box is refused before any query |
| GisService.Narrow | apps/web/lib/gis/service.ts:19-27 | one filter step keeps exactly the assets whose field equals the filter, or all when the filter is absent or empty |
| GisService.GetAssets | apps/web/lib/gis/service.ts:10-30 | exactly the assets matching every given filter (basin, operator, type) |
| GisService.GetAssetById | apps/web/lib/gis/service.ts:32-35 | null exactly when no asset has the id; otherwise an asset with that id |
| GisService.Performance | apps/web/lib/gis/service.ts:60 | `above` exactly when the current production is known and above 1000 |
| GisService.AssetSummary | apps/web/lib/gis/service.ts:53-61 | the placeholder summary names the asset as an ASSET context, model PetroGPT-3.5-Fast, the two fixed sources and confidence 0.85 |
| GisService.GetAISummary | apps/web/lib/gis/service.ts:42-65 | the pre-canned summary if there is one; otherwise null exactly when no asset has the id, else the placeholder for that asset |
| GisService.NarrowIsFilter | apps/web/lib/gis/service.ts:19-27 | each filter step is an order-keeping filter |
| GisService.GetAssetsIsOneFilter | apps/web/lib/gis/service.ts:17-29 | the chain of filters is one filter on their conjunction, keeping store order |
| GisService.NoFiltersIsAllAssets | apps/web/lib/gis/service.ts:17-29 | without filters every asset is returned, in order |
| GisService.CannedSummaryWins | apps/web/lib/gis/service.ts:46-48 | a pre-canned summary wins even over an asset with the same id |
| GisService.ThousandIsWithin | apps/web/lib/gis/service.ts:60 | production of exactly 1000 is reported as within expectations |
| MarketsAnalytics.DateKey | apps/web/lib/markets/analytics.ts:105-109 | the date part of a timestamp: a prefix of it containing no `T` |
| MarketsAnalytics.DatePrices | apps/web/lib/markets/analytics.ts:105 | the map from date to price has exactly the dates of series B |
| MarketsAnalytics.SpreadStep | apps/web/lib/markets/analytics.ts:108-117 | one more point of A appends its spread point exactly when B quotes its date |
| MarketsAnalytics.ComputeSpread | apps/web/lib/markets/analytics.ts:103-119 | the loop returns exactly the spread of A against B's date prices |
| MarketsAnalytics.SpreadIsQuotedPoints | apps/web/lib/markets/analytics.ts:108-117 | the spread has one point per point of A whose date B quotes, in A's order, each `priceA * multiplierA - priceB * multiplierB` at A's time |
| MarketsAnalytics.SpreadKeepsSeriesATimes | apps/web/lib/markets/analytics.ts:108-117 | the spread is no longer than A and carries only times of A |
| MarketsAnalytics.LastPointOfDateWins | apps/web/lib/markets/analytics.ts:105 | when several points of B share a date, the last one sets that date's price |
| MarketsAnalytics.DatePricesLast | apps/web/lib/markets/analytics.ts:105 | building the map is one `set` per point of B, in order |
| MarketsAnalytics.DetectArbitrage | apps/web/lib/markets/analytics.ts:121-124 | with a zero deviation the test holds exactly when the spread is off the mean (an infinite z-score, while 0 / 0 fails) |
| MarketsAnalytics.ArbitrageIsDistanceTest | apps/web/lib/markets/analytics.ts:121-124 | with a deviation, the z-score exceeds the threshold exactly when the distance from the mean exceeds threshold × the absolute deviation |
| MarketsAnalytics.ZScore | apps/web/lib/markets/analytics.ts:134 | 1.645 at 95%, 2.326 at 99%, 1.96 at any other level |
| MarketsAnalytics.ParametricVaROrdered | apps/web/lib/markets/analytics.ts:130-136 | for a positive exposure the 99% VaR is largest, any other level (90% included) lies between, and the 95% VaR is smallest |
| MarketsAnalytics.Round4 | apps/web/lib/markets/analytics.ts:142 | the rounded factor is within 0.00005 of the input |
| MarketsAnalytics.VarIndex | apps/web/lib/markets/analytics.ts:143-144 | the clamped index is a valid position, and is `floor(alpha * n)` whenever that already is one |
| MarketsAnalytics.HistoricalVaR | apps/web/lib/markets/analytics.ts:138-145 | 0 for no returns; otherwise the negation of one of the returns |
| MarketsAnalytics.HistoricalVaRIsOrderStatistic | apps/web/lib/markets/analytics.ts:138-145 | the reported loss is the k-th smallest return, k being the clamped index, whatever the returns' order: at most k returns lie below it and at least k + 1 at or below |
| MarketsAnalytics.SortedRank | apps/web/lib/markets/analytics.ts:140-144 | in an ascending copy at most k elements lie below position k and at least k + 1 at or below it |
| MarketsAnalytics.StressTestShape | apps/web/lib/markets/analytics.ts:147-149 | a zero shock keeps the value, a shock of -1 wipes it out, and the change is value × shock |
| MarketsAnalytics.EstimateEmissions | apps/web/lib/markets/analytics.ts:155-162 | a non-negative factor gives non-negative emissions, whatever the sign of the quantity and even on a unit mismatch |
| MarketsAnalytics.ShortEmitsAsLong | apps/web/lib/markets/analytics.ts:161 | a short position emits as much as the long one of the same size |
| MarketsSignals.Affected | apps/web/lib/markets/signals.ts:10-17 | crude and Brent futures exactly when the text mentions crude or oil, natural gas futures exactly when it mentions gas or LNG, and nothing else |
| MarketsSignals.AssessImpact | apps/web/lib/markets/signals.ts:4-33 | the event is returned unchanged apart from its impact, which is always filled in: the futures its lower-cased title and summary point to, the description naming them (or 'No direct market impact detected'), and the keyword confidence |
| MarketsSignals.ConfidenceBounds | apps/web/lib/markets/signals.ts:8-30 | the confidence lies between 0.50 and 0.95 |
| MarketsSignals.NoKeywordNoImpact | apps/web/lib/markets/signals.ts:6-30 | an event mentioning no keyword affects nothing, with the no-impact text and confidence 0.50 |
| MarketsSignals.NoImpactTextIffNothingAffected | apps/web/lib/markets/signals.ts:29 | the no-impact text is given exactly when no future is affected |
| MarketsSignals.ConfidenceCases | apps/web/lib/markets/signals.ts:8-30 | a storm alone gives 0.60; all four keyword groups are capped at 0.95 |
| MarketsSignals.OilInTitleMarksCrude | apps/web/lib/markets/signals.ts:6-11 | "oil" in the title, in any case, marks the crude future |
| MarketsData.SeededInstruments | apps/web/lib/markets/data.ts:22-23 | seeding keeps the instrument store a well-formed ordered map |
| MarketsData.SeededStep | apps/web/lib/markets/data.ts:22-36 | one more provider instrument stores it, its series and its curve under its id |
| MarketsData.MarketStore.constructor | apps/web/lib/markets/data.ts:6-12 | all seven stores start empty |
| MarketsData.MarketStore.SeedInstruments | apps/web/lib/markets/data.ts:21-36 | the loop leaves each store equal to its seeding function over the provider's instruments, and the position, hedge, event and scenario stores untouched |
| MarketsData.MarketStore.Initialize | apps/web/lib/markets/data.ts:18-82 | nothing changes once an instrument is stored; otherwise every provider instrument with its 30-day series and curve, then the two seed positions and the hedge link of the physical one; events and scenario runs untouched |
| MarketsData.MarketStore.GetInstruments | apps/web/lib/markets/data.ts:87-93 | without a query all instruments in insertion order; with one exactly those whose symbol or name contains it, ignoring case |
| MarketsData.MarketStore.GetInstrument | apps/web/lib/markets/data.ts:95-98 | the stored instrument of the id, or nothing exactly when none is stored |
| MarketsData.MarketStore.GetLatestPrice | apps/web/lib/markets/data.ts:100-119 | the live quote as a USD point when the provider answers; otherwise the last stored point, and nothing when no point is stored |
| MarketsData.MarketStore.GetPriceSeries | apps/web/lib/markets/data.ts:121-124 | the stored series, or an empty one |
| MarketsData.MarketStore.GetForwardCurve | apps/web/lib/markets/data.ts:126-129 | the stored curve, or nothing exactly when none is stored |
| MarketsData.MarketStore.GetPositions | apps/web/lib/markets/data.ts:133-136 | exactly the stored positions |
| MarketsData.MarketStore.GetPosition | apps/web/lib/markets/data.ts:138-140 | the stored position, or nothing exactly when none is stored |
| MarketsData.MarketStore.CreatePosition | apps/web/lib/markets/data.ts:142-145 | the position is stored under its id, replacing any other with that id; every other store unchanged |
| MarketsData.MarketStore.GetHedges | apps/web/lib/markets/data.ts:147-149 | the physical position's links, or none |
| MarketsData.MarketStore.LinkHedge | apps/web/lib/markets/data.ts:151-156 | the link is appended to the physical position's list; everything else unchanged |
| MarketsData.MarketStore.AddEvent | apps/web/lib/markets/data.ts:164-166 | the event is appended; everything else unchanged |
| MarketsData.MarketStore.CreateScenarioRun | apps/web/lib/markets/data.ts:170-173 | the run is stored under its id; everything else unchanged |
| MarketsData.MarketStore.GetScenarioRun | apps/web/lib/markets/data.ts:175-177 | the stored run, or nothing exactly when none is stored |
| MarketsData.MarketStore.ListScenarioRuns | apps/web/lib/markets/data.ts:179-181 | the stored runs, in insertion order |
| MarketsData.SeededStoresInstrument | apps/web/lib/markets/data.ts:22-36 | after seeding, every provider instrument is stored with its series and curve |
| MarketsData.SeededIsEmptyOnlyForNoInstruments | apps/web/lib/markets/data.ts:19-23 | seeding leaves the instrument store empty only when the provider gave nothing, so a second call returns at once |
| MarketsData.LinksAccumulate | apps/web/lib/markets/data.ts:151-156 | a second link for the same physical position keeps the first |
| Proposals.AddProposal | apps/web/src/os/stores/proposalsStore.ts:24-34 | the earlier proposals stay in place and the draft is appended, PENDING, with the given id and time |
| Proposals.WithStatus | apps/web/src/os/stores/proposalsStore.ts:37-45 | same length; every proposal with the id gets the status and every other is unchanged |
| Proposals.ApproveProposal | apps/web/src/os/stores/proposalsStore.ts:36-40 | the proposals with the id become APPROVED |
| Proposals.DismissProposal | apps/web/src/os/stores/proposalsStore.ts:42-46 | the proposals with the id become DISMISSED |
| Proposals.TransitionChangesOnlyStatus | apps/web/src/os/stores/proposalsStore.ts:37-45 | a transition changes only the status field, and only of the proposals with the id |
| Proposals.UnknownIdChangesNothing | apps/web/src/os/stores/proposalsStore.ts:37-45 | an id no proposal has leaves the list unchanged |
| Proposals.LastTransitionWins | apps/web/src/os/stores/proposalsStore.ts:36-46 | nothing guards a second transition: the last one wins, so an approved proposal can still be dismissed |
| Proposals.AddThenApprove | apps/web/src/os/stores/proposalsStore.ts:24-40 | approving a proposal right after adding it makes the new one APPROVED, and the list grows by one |
| TopProducers.Periods | apps/web/app/api/data/production-reserves/top-producers/route.ts:97 | the rows' periods, one per row, in order |
| TopProducers.Distinct | apps/web/app/api/data/production-reserves/top-producers/route.ts:97 | `new Set` keeps every element, each exactly once |
| TopProducers.SortedDistinctIsStrict | apps/web/app/api/data/production-reserves/top-producers/route.ts:97 | sorting distinct periods gives a strictly increasing list |
| TopProducers.ReverseOfStrict | apps/web/app/api/data/production-reserves/top-producers/route.ts:97 | `reverse()` of a strictly increasing list is strictly decreasing with the same elements |
| TopProducers.UniquePeriods | apps/web/app/api/data/production-reserves/top-producers/route.ts:97 | exactly the reported periods, each once, latest first |
| TopProducers.ReportingIsCount | apps/web/app/api/data/production-reserves/top-producers/route.ts:101 | the rows reporting a period are counted as the filter's length |
| TopProducers.Choice | apps/web/app/api/data/production-reserves/top-producers/route.ts:98-107 | the choice is one of the candidate periods |
| TopProducers.SelectedPeriod | apps/web/app/api/data/production-reserves/top-producers/route.ts:97-107 | the selected period is one the rows report |
| TopProducers.FirstCovering | apps/web/app/api/data/production-reserves/top-producers/route.ts:100-107 | the search stops at the first covering period |
| TopProducers.NoneCovering | apps/web/app/api/data/production-reserves/top-producers/route.ts:100-107 | without a covering period the search finds none |
| TopProducers.SelectPeriod | apps/web/app/api/data/production-reserves/top-producers/route.ts:98-107 | the loop with its `break` selects the first period (latest first) held by more than a fifth of the rows, else the latest period |
| TopProducers.ByValue | apps/web/app/api/data/production-reserves/top-producers/route.ts:110-111 | a reordering of exactly the selected period's rows, largest output first |
| TopProducers.AssignRanks | apps/web/app/api/data/production-reserves/top-producers/route.ts:114 | ranks 1, 2, … in order, nothing else changed |
| TopProducers.Ranked | apps/web/app/api/data/production-reserves/top-producers/route.ts:114 | each row gets its position plus one as rank, nothing else changes |
| TopProducers.DigitPrefix | apps/web/app/api/data/production-reserves/top-producers/route.ts:42 | the longest run of digits the text starts with |
| TopProducers.ParseInt | apps/web/app/api/data/production-reserves/top-producers/route.ts:42 | `parseInt(s, 10)` is NaN exactly when no digit follows the leading white space and sign |
| TopProducers.TopN | apps/web/app/api/data/production-reserves/top-producers/route.ts:116 | `slice(0, limit)` with JavaScript's reading of a negative end; a NaN limit gives nothing |
| TopProducers.Kept | apps/web/app/api/data/production-reserves/top-producers/route.ts:76-89 | exactly the rows of the regions that answered |
| TopProducers.UnitsOf | apps/web/app/api/data/production-reserves/top-producers/route.ts:122 | the first row's units when non-empty, otherwise MBBL/d |
| TopProducers.Degraded | apps/web/app/api/data/production-reserves/top-producers/route.ts:136-153 | HTTP 200, status degraded, no data, error UPSTREAM_ERROR with the message or 'Upstream service unavailable' |
| TopProducers.Get | apps/web/app/api/data/production-reserves/top-producers/route.ts:39-154 | 400 without a kind; the degraded reply when no region answered or the kind is neither US_STATE nor CA_PROVINCE; otherwise status ok with the ranked rows of the selected period cut to the limit, their units and the provenance (EIA or CER) |
| TopProducers.SelectedIsLatestCovering | apps/web/app/api/data/production-reserves/top-producers/route.ts:96-107 | the selected period is reported; when some period covers more than a fifth of the rows it is the latest such period, otherwise the latest period of all |
| TopProducers.RankingShape | apps/web/app/api/data/production-reserves/top-producers/route.ts:110-116 | the answer's rows are ranked 1, 2, … in order, all of the selected period, larger output first, and no more than a non-negative limit |
| TopProducers.RankingIsPermutation | apps/web/app/api/data/production-reserves/top-producers/route.ts:110-114 | apart from the ranks, the ranking is a reordering of the period's rows: none lost, none added |
| TopProducers.ParseIntReadsBack | apps/web/app/api/data/production-reserves/top-producers/route.ts:42 | `parseInt` reads back any written natural number |
| TopProducers.DefaultLimitIsTen | apps/web/app/api/data/production-reserves/top-producers/route.ts:42 | without a limit parameter, or with an empty one, ten rows are kept |
| TopProducers.AFifthIsNotEnough | apps/web/app/api/data/production-reserves/top-producers/route.ts:103 | a period held by exactly a fifth of the rows does not cover |
| Cer.SafeParse | packages/connectors/src/cer/index.ts:10-50 | a row passes exactly when its Date, Unit, Region, Type and Value columns are all strings, and keeps just those five |
| Cer.ValidRows | packages/connectors/src/cer/index.ts:48-54 | no more valid rows than parsed ones |
| Cer.CollectValidRows | packages/connectors/src/cer/index.ts:48-54 | the `forEach` keeps exactly the rows that pass the schema, in file order |
| Cer.PeriodOf | packages/connectors/src/cer/index.ts:61-81 | the `YYYY-MM` of a date `Date` can read, otherwise the text itself |
| Cer.Barrels | packages/connectors/src/cer/index.ts:139-142 | cubic metres a day converted with 6.28981 barrels per m³ into thousands of barrels; a value that is not a number counts as 0 |
| Cer.PeriodMap | packages/connectors/src/cer/index.ts:121-145 | the per-period sums form a well-formed ordered map |
| Cer.Points | packages/connectors/src/cer/index.ts:147-152 | one point per period of the map, in the map's order, with its sum |
| Cer.Series | packages/connectors/src/cer/index.ts:147-154 | exactly the map's points inside the bounds, a reordering of them, latest period first |
| Cer.FilterStep | packages/connectors/src/cer/index.ts:148-152 | one more period is kept exactly when it lies inside the bounds |
| Cer.Aggregate | packages/connectors/src/cer/index.ts:123-145 | the first `forEach` builds exactly the per-period sums of the counted rows |
| Cer.InBoundsPoints | packages/connectors/src/cer/index.ts:147-152 | the second `forEach` keeps exactly the periods inside the bounds, in map order |
| Cer.FetchCaProvinceProduction | packages/connectors/src/cer/index.ts:108-167 | the per-period sums in bounds, latest first, in MBBL/d monthly, with the CER provenance |
| Cer.LatestOf | packages/connectors/src/cer/index.ts:169-173 | null exactly when the series is empty; otherwise its first point with the units |
| Cer.ValidRowsAreParsed | packages/connectors/src/cer/index.ts:48-54 | a row is kept exactly when some parsed row passes the schema as that row |
| Cer.PeriodMapIsSums | packages/connectors/src/cer/index.ts:123-145 | the map holds a period exactly when a counted row (the province's, not Total or bitumen, in `Cubic meres per day`) falls in it, and holds the sum of those rows |
| Cer.ContributesPrefix | packages/connectors/src/cer/index.ts:123-145 | a row of a longer list contributes exactly when an earlier one or the new last one does |
| Cer.UncountedRowChangesNothing | packages/connectors/src/cer/index.ts:124-134 | rows of other provinces, of excluded types or in other units change nothing |
| Cer.NaNOpensPeriod | packages/connectors/src/cer/index.ts:139-144 | a counted row whose value is not a number still opens its period, adding nothing |
| Cer.PointsAreEntries | packages/connectors/src/cer/index.ts:147-152 | the points are the map's entries, each once |
| Cer.SeriesMembers | packages/connectors/src/cer/index.ts:147-152 | the series holds exactly the map's periods inside the bounds, with their sums |
| Cer.SeriesStrictlyLatestFirst | packages/connectors/src/cer/index.ts:154 | the series is strictly latest first, so each month appears once |
| Cer.SeriesHeadIsNewest | packages/connectors/src/cer/index.ts:146-154 | without bounds the series is empty exactly when no month was summed, and its first point is the newest month with its sum |
| Cer.LatestIsNewestMonth | packages/connectors/src/cer/index.ts:108-173 | without bounds the latest point is the newest period of any counted row, with its sum; there is none exactly when the province has no counted row |
| Sec.PaddedCik | packages/connectors/src/sec.ts:45 | a CIK of at most ten characters is left-padded with zeros to ten; a longer one is unchanged |
| Sec.At | packages/connectors/src/sec.ts:92-96 | an index is defined exactly inside the array |
| Sec.Ticker | packages/connectors/src/sec.ts:83 | the first ticker when non-empty, otherwise UNKNOWN |
| Sec.FilingAt | packages/connectors/src/sec.ts:89-97 | the i-th filing carries the company name, its ticker, the i-th form, date and the archive link |
| Sec.Taken | packages/connectors/src/sec.ts:86-88 | `min(limit, number of filings)`, and nothing for a negative limit |
| Sec.CompanyFilings | packages/connectors/src/sec.ts:86-98 | exactly the first `Taken` filings of the company, in order |
| Sec.NewestFirst | packages/connectors/src/sec.ts:102 | a reordering of the merged filings, newest date first |
| Sec.AnyFailed | packages/connectors/src/sec.ts:111 | the loop finds a failed request exactly when some result is null |
| Sec.AllFilingsStep | packages/connectors/src/sec.ts:78-99 | one more answered company appends its filings; a failed one adds nothing |
| Sec.Requests | packages/connectors/src/sec.ts:43-46 | one submissions URL per CIK, in list order |
| Sec.Results | packages/connectors/src/sec.ts:74 | `Promise.all` gives the answers in list order |
| Sec.Collect | packages/connectors/src/sec.ts:76-99 | the nested loops collect exactly the merged filings |
| Sec.FetchRecentFilings | packages/connectors/src/sec.ts:23-130 | no requests and an ok empty feed for no CIKs; otherwise one request per CIK, the merged filings newest first cut to the limit, degraded exactly when some request failed, with the EDGAR provenance |
| Sec.AtMostLimitPerCompany | packages/connectors/src/sec.ts:86-98 | the merged list holds at most `limit` filings per answered company |
| Sec.FilingsFromAnsweredCompanies | packages/connectors/src/sec.ts:78-98 | every merged filing comes from an answered company, carrying its name and linking into its archive |
| Sec.FeedOrdered | packages/connectors/src/sec.ts:101-105 | the feed is newest first, no longer than a non-negative limit, and made only of merged filings |
| Sec.LinkHasNoDashedAccession | packages/connectors/src/sec.ts:96 | the link carries the accession number with every dash removed |
| Eia.ValueOf | packages/connectors/src/eia.ts:7 | null stays null, a number stays itself, an empty string becomes null and any other string is parsed |
| Eia.Points | packages/connectors/src/eia.ts:5-63 | one point per data point, with the transformed value |
| Eia.FetchBenchmarkPrices | packages/connectors/src/eia.ts:27-101 | no request and degraded 'Missing EIA_API_KEY' without a key; otherwise the first priced RWTC and RBRTE points, ok exactly when both are found; any failure degraded with its message ('EIA API Error: <status> <text>' for a bad status) |
| Eia.PricesFound | packages/connectors/src/eia.ts:63-86 | the prices of the first priced point of each series, dated by WTI, then Brent, then now; ok exactly when both are found |
| Eia.PricesFailed | packages/connectors/src/eia.ts:52-100 | no data, degraded, with the thrown message |
| Eia.Stocks | packages/connectors/src/eia.ts:135-140 | one stock reading per point that has a value |
| Eia.FetchCrudeInventories | packages/connectors/src/eia.ts:103-172 | no request and degraded without a key; otherwise the valued points in order as Thousand Barrels, ok exactly when there is one; any failure degraded with its message |
| Eia.StocksFound | packages/connectors/src/eia.ts:135-156 | the readings in Thousand Barrels, ok exactly when there is at least one |
| Eia.StocksFailed | packages/connectors/src/eia.ts:125-171 | no data, degraded, with the thrown message |
| Eia.PricesAreFirstValued | packages/connectors/src/eia.ts:66-68 | nothing is found exactly when no point of the series has a value; otherwise the found point has one and every earlier point of that series has none |
| Eia.StocksAreTheValuedPoints | packages/connectors/src/eia.ts:135-140 | the readings are exactly the valued points, in order |
| Eia.EmptyStringIsNull | packages/connectors/src/eia.ts:7-136 | an empty string value is null and left out, while a zero is kept |
| Errors.NewDataError | apps/web/lib/errors.ts:8-14 | the error keeps its message and details; the code defaults to UNKNOWN_ERROR and the status to 500 |
| Errors.CreateErrorEnvelope | apps/web/lib/errors.ts:17-49 | always degraded with no data; a DataError keeps its code, message and details, another Error becomes INTERNAL_ERROR with its message, anything else UNKNOWN_ERROR with 'An unknown error occurred.' |
| Errors.CreateSuccessEnvelope | apps/web/lib/errors.ts:51-57 | ok, with the data and the provenance as given and no error |
| Errors.DataOnlyWhenOk | apps/web/lib/errors.ts:17-57 | an error envelope never carries data or status ok; a success envelope always carries data |
| Errors.DefaultDataErrorIsUnknown | apps/web/lib/errors.ts:8-27 | a DataError built from a message alone reports UNKNOWN_ERROR but keeps its message |
| Ai.MockInsight | apps/web/lib/ai.ts:25-36 | the text of the first of production, markets, gis and economics that the lowercased context contains, and the generic summary exactly when it contains none |
| Ai.InsightCache.constructor | apps/web/lib/ai.ts:6 | the cache starts empty |
| Ai.InsightCache.GenerateInsight | apps/web/lib/ai.ts:9-23 | a cached text younger than one hour is returned as stored and the cache is unchanged; otherwise the canned text is returned and stored under `context:prompt` with the time after the delay |
| Ai.EntryLastsOneHour | apps/web/lib/ai.ts:7-15 | a text stored at t is served until t + 1 h and regenerated from then on |
| Ai.KeysCollide | apps/web/lib/ai.ts:10 | the requests ("x", "gis:y") and ("x:gis", "y") share one cache key |
| Ai.CollisionServesOtherText | apps/web/lib/ai.ts:10-34 | through the shared key, a GIS request within the hour is served the generic text stored for the other request |
| Ai.PairCacheIsTransparent | apps/web/lib/ai.ts:9-23 | with the cache keyed by the (context, prompt) pair, every request gets the canned text of its own context and storing it keeps the cache coherent |
| DataFabric.DataSources | apps/web/lib/data-fabric/registry.ts:12-53 | the five registered sources, each stored under its own id |
| DataFabric.Resolve | apps/web/lib/data-fabric/registry.ts:56 | a registered source resolves to itself, anything else to the demo engine |
| DataFabric.CreateProvenance | apps/web/lib/data-fabric/registry.ts:55-65 | the resolved source's name and URL, the notes as given, the time and the max-age=3600 cache policy |
| DataFabric.PortfolioSourcesFallBack | apps/web/lib/data-fabric/registry.ts:56 | unregistered ids such as petrosquare-ai-assistant are credited to the demo engine |
| DataFabric.UnknownIsDemo | apps/web/lib/data-fabric/registry.ts:56 | naming an unknown source gives the same provenance as naming the demo engine |

## Left out

- Floating point: all arithmetic is exact (`real`). Rounding of doubles, `Infinity` and most `NaN` cases are not modelled. Where the source tests for NaN, the parameter that parses numbers returns `None`.
- Transcendental numerics are parameters and are not computed. These are the powers, exponentials and logarithms of the decline curve and price escalation, NPV discounting, the Newton iteration for IRR, `Math.sqrt` in value at risk, and the haversine distance of the radius filter.
- Black-Scholes pricing (`DerivativesEngine` in apps/web/lib/markets/analytics.ts) is not part of this model. It is floating-point numerics only.
- Randomness is not modelled: generated ids, telemetry sample values and mock data generators are parameters. The random parts of ids in the control center, risk, intel and economics services are passed in.
- Time and dates are parameters. The clock is read as a parameter. `Date` parsing and ISO formatting are functions passed in. Control-center, risk and economics timestamps are integer milliseconds, not ISO text.
- Network I/O is not modelled. Fetching, HTTP status handling below the reply, caching with expiry and abort timeouts are outside the model. The reply of each request is a parameter. This covers the EIA, SEC, CER, Overpass, pipeline and REST requests and the market data provider.
- The CER file download, Papa.parse and its one-hour cache are not part of this model. The model starts from the parsed rows.
- Zod schema checking is modelled by the outcome it gives (the row passes, or the body is refused), not by the schema library.
- apps/web/lib/gis/cache.ts and apps/web/lib/gis/pipelines.ts are not part of this model. `GisRegistry.Registry.GetFeatures` keeps its cache as a map whose entries never expire. The pipeline fetch is a parameter.
- `GisRegistry.Registry.GetFeatures` keys its cache by the layer id and the options as a record. The source keys it by the text `JSON.stringify(options)`, in which the order of the option keys matters: two option objects with the same fields written in different orders are two cache entries there and one here.
- `GisSpatial.PowerOfTwo`: `Math.pow(2, zoom)` is a parameter that is positive for every zoom. In doubles it underflows to 0 for a zoom below about -1074, which gives an infinite cell size; that case and a NaN zoom are not modelled.
- Logging (`console.*`, the structured `log` of the map module) has no effect on results and is left out.
- Concurrency and timers are not modelled. The `fetchWithConcurrency` workers of the top-producers route are replaced by their answers, in the order they arrived. The simulated latencies (`setTimeout`) are dropped. The delayed `executeRun` is modelled as run to completion.
- `ControlCenter` `getTelemetry` only forwards to `generateTelemetry`, which is modelled, so it has no member of its own. `assistQuery` returns a constant answer after a delay and is left out.
- `GisService` `getBasins` and `getOverlays` return constant mock data after a delay and are left out.
- `IntelService` getters that only return a store field are left out: `getIntelTags`, `getIntelEntities`, `getIntelSignals` and `getIntelSignalEventsService`. Their values are the `IntelData` store fields. The plain field readers of apps/web/lib/intel/data.ts (`getEntities`, `getTags`, `getSignals`, `getCollections`, `getSignalEvents`) are field reads of `IntelData.IntelStore` too.
- The `controls` map of the risk repository is never filled or read by the service and is left out.
- The browser and HTTP verification scripts, the React pages and components, and configuration and static content are not part of this model.
- `ControlCenter` workflows have no transition guard in the code. Simulating writes SIMULATING and committing does not check the current status. The model follows the code, not the documented OPEN → DRAFT → SIMULATED → COMMITTED order, and proves no guard.
- `TopProducers.Choice`: its own contract states only that the choice is one of the candidate periods; `TopProducers.SelectedIsLatestCovering` states the full rule. The threshold `count > total * 0.2` is compared exactly, over the reals.
- `TopProducers.Kept`: the regions' answers are taken in the order they arrived, which the model receives as a parameter and does not derive.
- `MarketsData.MarketStore.GetPositions` states which positions are returned, not that they come in insertion order.
- `CsvConnector.ValidOf` and `CsvConnector.ErrorsOf` bound only their lengths in their own contracts. Their contents are stated by `CsvConnector.OutcomeStep` and `CsvConnector.Fetch`.
- `CsvConnector.Rows` and `CsvConnector.Parsed` bound only their lengths in their own contracts. Their contents are stated by `CsvConnector.RowsStep` and `CsvConnector.ParseCsv`.
- `Cer.ValidRows` bounds only its length. Its contents are stated by `Cer.ValidRowsAreParsed`.
- `GisSpatial.Clustered` states only the empty and high-zoom cases. The low-zoom output is stated by `GisSpatial.ClusteredShape`, `GisSpatial.GroupedConservesPoints` and `GisSpatial.ClusteredKeepsLayers`.
- `GisSpatial.Grouped` and `GisSpatial.AddPoint` state only that the tally stays a well-formed map. The counts are stated by `GisSpatial.AddPointTotal`, `GisSpatial.GroupedConservesPoints` and `GisSpatial.GroupedCellsAreInputs`.
- Clustering reads a missing coordinate of a point as 0 (`GisSpatial.Lon`, `GisSpatial.Lat`). In the source it would be `undefined`, giving a `NaN,NaN` cell and `NaN` sums.
- `Strings.ToLower` lowercases only the ASCII letters A-Z. JavaScript's `toLowerCase` also lowercases other letters ("É" becomes "é"). Every case-insensitive match of the model inherits this: the intel filters and signal rules, `MarketsSignals.EventText`, instrument name search, `Ai.MockInsight`, `CsvConnector.MeasurementOf` and the risk keyword match.
- `Cer.LaterFirst` orders periods by code units (`Strings.LessEq`), where the source calls `localeCompare`. The two agree on the digit-and-dash `YYYY-MM` periods the CER rows carry, but not on arbitrary text.
- `CsvConnector.MeasurementOf`, `GisService.GetAISummary`, `DataFabric.Resolve` and `DataFabric.UnknownIsDemo`: a lookup in a plain object literal is modelled as a lookup among the object's own keys. In the source a key such as "constructor", "toString" or "__proto__" finds an `Object.prototype` member instead: the measurement becomes that member, the summary is that member, and a data source named "constructor" resolves to the `Object` function (source_name "Object") rather than to the demo source.
- `RestConnector.Normalize` turns `asset_id`, `series_id`, `measurement` and `unit` into strings through `String(x)`. The source copies those values as they are, so a number there stays a number in its point.
- `MarketsData.MarketStore` getters read the store as it is. In the source every getter first awaits `initializeMarketData()`, which fills an empty store from the provider; in the model a caller runs `MarketsData.MarketStore.Initialize` first.
- `MarketsData.MarketStore` getters return values. In the source `getPriceSeries`, `getHedges`, `getEvents` and the instrument, curve, position and scenario-run getters hand out the stored arrays and objects themselves, so a caller that mutates one changes the store; the model has no such aliasing.
- `GisSpatial.Emitted`: a cell with count 0, which `GisSpatial.AddPoint` never creates, is placed at (0, 0), where the source would divide by zero.
- Sorting: `Array.prototype.sort` is modelled as an insertion sort by the comparator's key. Its results are proved sorted and a permutation of the input. Stability is not stated.

## Findings

| source | as written | input that shows it | evidently intended | confidence | as-written member | corrected member |
|---|---|---|---|---|---|---|
| apps/web/lib/ai.ts:10 | the cache key is `${context}:${prompt}`, and both parts may contain a colon | the context "x" with the prompt "gis:y", then the context "x:gis" with the prompt "y" within the hour: the second request is served the generic text stored for the first, not the geospatial text | one cache entry per (context, prompt) pair, so the cache never changes an answer | low (not executed; the collision needs a colon inside a context or a prompt) | Ai.CollisionServesOtherText | Ai.PairCacheIsTransparent |
