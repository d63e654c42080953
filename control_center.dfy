/** The Control Center's in-memory store (apps/web/lib/control-center/data.ts):
 *  assets, alerts, workflows and an append-only audit log, kept in module
 *  state that the service functions read and update in place.
 *
 *  Timestamps are milliseconds since the epoch (the source stores their ISO
 *  text and compares them through `new Date(..).getTime()`). The clock and the
 *  random parts of generated ids and telemetry samples are parameters. */
module ControlCenter {
  import opened Wrappers
  import opened Strings
  import opened Seqs
  import opened Sorting
  import opened Filters

  datatype ControlAsset = ControlAsset(
    id: string, name: string, kind: string, status: string,
    healthScore: int, activeAlarms: nat, lastContact: int)

  datatype Alert = Alert(
    id: string, title: string, severity: string, status: string,
    assetId: string, assetName: string, timestamp: int,
    assigneeId: Option<string>, kind: string, description: string)

  /** A `Partial<Alert>`: every key of an alert, `None` where it is absent. */
  datatype AlertUpdates = AlertUpdates(
    id: Option<string>, title: Option<string>, severity: Option<string>,
    status: Option<string>, assetId: Option<string>, assetName: Option<string>,
    timestamp: Option<int>, assigneeId: Option<string>, kind: Option<string>,
    description: Option<string>)

  datatype Impact = Impact(riskScoreChange: int, costEstimate: int, timeline: string)

  datatype Workflow = Workflow(
    id: string, title: string, description: Option<string>, status: string,
    steps: seq<string>, createdAt: int, createdBy: string,
    simulatedImpact: Option<Impact>)

  datatype Draft = Draft(
    title: string, description: Option<string>,
    sourceAlertId: Option<string>, sourceAssetId: Option<string>)

  datatype AuditDetails =
    | Message(text: string)
    | WorkflowCreated(workflowId: string, title: string)
    | WorkflowCommitted(workflowId: string, impact: Option<Impact>)

  datatype AuditEvent = AuditEvent(
    id: string, eventType: string, timestamp: int, actorId: string,
    details: AuditDetails, correlationId: Option<string>)

  datatype TelemetryPoint = TelemetryPoint(
    timestamp: int, value: real, unit: string, tag: string, quality: string)

  datatype Snapshot = Snapshot(asset: ControlAsset, telemetry: seq<TelemetryPoint>)

  datatype OverviewKPIs = OverviewKPIs(
    activeAlerts: nat, criticalAlerts: nat, avgHealth: Option<int>, totalAssets: nat)

  // ------------------------------------------------------------------ seed

  function SeedAssets(now: int): seq<ControlAsset> {
    [ ControlAsset("well-101", "North Sea Well 101", "WELL", "ACTIVE", 92, 0, now),
      ControlAsset("pump-202", "Booster Pump 202", "PUMP", "MAINTENANCE", 45, 2, now - 3600000),
      ControlAsset("pipeline-303", "Main Export Line A", "PIPELINE", "ACTIVE", 98, 0, now),
      ControlAsset("facility-404", "Alpha Platform", "FACILITY", "ACTIVE", 88, 1, now) ]
  }

  function SeedAlerts(now: int): seq<Alert> {
    [ Alert("alert-1", "High Vibration Detected", "CRITICAL", "ACTIVE", "pump-202",
            "Booster Pump 202", now - 7200000, None, "ANOMALY",
            "Vibration levels exceeded 5mm/s threshold for > 10 mins."),
      Alert("alert-2", "Pressure Drop Warning", "MEDIUM", "ACKNOWLEDGED", "facility-404",
            "Alpha Platform", now - 14400000, Some("user-1"), "THRESHOLD",
            "Separator pressure dropped below optimal range.") ]
  }

  function SeedAuditLog(now: int): seq<AuditEvent> {
    [ AuditEvent("audit-1", "SYSTEM_CHANGE", now - 86400000, "system",
                 Message("Control Center module initialized"), None) ]
  }

  // ------------------------------------------------------------ telemetry

  /** Sampling interval (ms) and number of points of a telemetry window; an
   *  unknown window falls back to the one-hour settings. */
  function WindowSpec(window: string): (r: (nat, nat))
    ensures r.1 >= 60 && r.0 > 0
    ensures window == "1h" ==> r.0 * r.1 == 3600000
    ensures window == "24h" ==> r.0 * r.1 == 24 * 3600000
    ensures window == "7d" ==> r.0 * r.1 == 7 * 24 * 3600000
    ensures window !in {"1h", "24h", "7d"} ==> r == (60 * 1000, 60)
  {
    match window
    case "1h" => (60 * 1000, 60)
    case "24h" => (15 * 60 * 1000, 96)
    case "7d" => (60 * 60 * 1000, 168)
    case _ => (60 * 1000, 60)
  }

  /** The time of reading `i` of `count` readings spaced `interval` apart
   *  and ending at `now`. */
  function PointTime(now: int, interval: nat, count: nat, i: int): int {
    now - (count - 1 - i) * interval
  }

  lemma PointTimeSpacing(now: int, interval: nat, count: nat, i: int, j: int)
    ensures PointTime(now, interval, count, j) - PointTime(now, interval, count, i) == (j - i) * interval
  {
    assert (count - 1 - i) * interval == (count - 1 - j) * interval + (j - i) * interval;
  }

  lemma PointTimeWithinWindow(now: int, interval: nat, count: nat, i: int)
    requires 0 <= i < count && interval > 0
    ensures 0 <= now - PointTime(now, interval, count, i) < interval * count
  {
    assert (count - 1 - i) * interval < count * interval;
  }

  function Reading(now: int, interval: nat, count: nat, i: nat,
                   sample: nat -> real, uncertain: nat -> bool): TelemetryPoint {
    TelemetryPoint(PointTime(now, interval, count, i), sample(i), "psi", "Pressure",
                   if uncertain(i) then "UNCERTAIN" else "GOOD")
  }

  /** `generateTelemetry`: evenly spaced readings ending at `now`. The noisy
   *  value of reading `i` is `sample(i)` and whether it is flagged uncertain is
   *  `uncertain(i)` (both come from `Math.random` in the source). */
  method GenerateTelemetry(assetId: string, window: string, now: int,
                           sample: nat -> real, uncertain: nat -> bool)
    returns (points: seq<TelemetryPoint>)
    ensures |points| == WindowSpec(window).1
    ensures forall i :: 0 <= i < |points| ==>
      points[i] == Reading(now, WindowSpec(window).0, |points|, i, sample, uncertain)
    ensures points[|points| - 1].timestamp == now
    ensures forall i, j :: 0 <= i < j < |points| ==>
      points[j].timestamp - points[i].timestamp == (j - i) * WindowSpec(window).0
    ensures forall i :: 0 <= i < |points| ==>
      0 <= now - points[i].timestamp < WindowSpec(window).0 * WindowSpec(window).1
  {
    var (interval, count) := WindowSpec(window);
    points := [];
    var i := 0;
    while i < count
      invariant 0 <= i <= count
      invariant |points| == i
      invariant forall k :: 0 <= k < i ==> points[k] == Reading(now, interval, count, k, sample, uncertain)
    {
      var time := now - (count - 1 - i) * interval;
      points := points + [TelemetryPoint(time, sample(i), "psi", "Pressure",
                                         if uncertain(i) then "UNCERTAIN" else "GOOD")];
      i := i + 1;
    }
    forall i, j | 0 <= i < j < |points|
      ensures points[j].timestamp - points[i].timestamp == (j - i) * interval
    {
      PointTimeSpacing(now, interval, count, i, j);
    }
    forall i | 0 <= i < |points|
      ensures 0 <= now - points[i].timestamp < interval * count
    {
      PointTimeWithinWindow(now, interval, count, i);
    }
  }

  // ---------------------------------------------------------- predicates

  /** The `query` filter of `getAssets`: name, id or type contains it, ignoring
   *  case; an absent or empty query matches everything. */
  predicate AssetMatchesQuery(a: ControlAsset, query: Option<string>) {
    !Given(query)
    || Contains(ToLower(a.name), ToLower(query.value))
    || Contains(ToLower(a.id), ToLower(query.value))
    || Contains(ToLower(a.kind), ToLower(query.value))
  }

  /** Both filters of `getAssets`. */
  predicate AssetMatches(a: ControlAsset, query: Option<string>, status: Option<string>) {
    AssetMatchesQuery(a, query) && MatchesEnum(status, a.status)
  }

  predicate AlertMatches(a: Alert, status: Option<string>, severity: Option<string>,
                         assetId: Option<string>) {
    MatchesEnum(status, a.status) && MatchesEnum(severity, a.severity)
    && MatchesId(assetId, a.assetId)
  }

  /** The comparator `new Date(b).getTime() - new Date(a).getTime()`: newest first. */
  predicate NewerAlert(a: Alert, b: Alert) {
    a.timestamp >= b.timestamp
  }

  predicate NewerEvent(a: AuditEvent, b: AuditEvent) {
    a.timestamp >= b.timestamp
  }

  /** `{ ...alert, ...updates }`: each key the update carries replaces the alert's. */
  function MergeAlert(a: Alert, u: AlertUpdates): Alert {
    Alert(u.id.GetOr(a.id), u.title.GetOr(a.title), u.severity.GetOr(a.severity),
          u.status.GetOr(a.status), u.assetId.GetOr(a.assetId),
          u.assetName.GetOr(a.assetName), u.timestamp.GetOr(a.timestamp),
          if u.assigneeId.Some? then u.assigneeId else a.assigneeId,
          u.kind.GetOr(a.kind), u.description.GetOr(a.description))
  }

  /** The fixed outcome `simulateWorkflow` attaches. */
  const MockImpact := Impact(-15, 5000, "2 days")

  function Simulated(w: Workflow): Workflow {
    w.(simulatedImpact := Some(MockImpact), status := "SIMULATING")
  }

  function Committed(w: Workflow): Workflow {
    w.(status := "COMMITTED")
  }

  /** `Math.round`: the nearest integer, halves rounded up. */
  function Round(x: real): (r: int)
    ensures r as real - 0.5 <= x < r as real + 0.5
  {
    (x + 0.5).Floor
  }

  function SumHealth(s: seq<ControlAsset>): int
    decreases |s|
  {
    if |s| == 0 then 0 else s[0].healthScore + SumHealth(s[1..])
  }

  lemma {:induction false} SumHealthBounds(s: seq<ControlAsset>, lo: int, hi: int)
    requires forall i :: 0 <= i < |s| ==> lo <= s[i].healthScore <= hi
    ensures lo * |s| <= SumHealth(s) <= hi * |s|
    decreases |s|
  {
    if |s| > 0 {
      SumHealthBounds(s[1..], lo, hi);
    }
  }

  // ----------------------------------------------------------------- store

  class Store {
    var assets: seq<ControlAsset>
    var alerts: seq<Alert>
    var workflows: seq<Workflow>
    var auditLog: seq<AuditEvent>

    /** First load of the module: the seeded assets, alerts and audit log. */
    constructor (now: int)
      ensures assets == SeedAssets(now) && alerts == SeedAlerts(now)
      ensures workflows == [] && auditLog == SeedAuditLog(now)
    {
      assets := SeedAssets(now);
      alerts := SeedAlerts(now);
      workflows := [];
      auditLog := SeedAuditLog(now);
    }

    /** `getAssets`: the assets matching the query and status filters, in store order. */
    function GetAssets(query: Option<string>, status: Option<string>): (r: seq<ControlAsset>)
      reads this
      ensures forall a :: a in r <==> a in assets && AssetMatches(a, query, status)
      ensures multiset(r) <= multiset(assets)
      ensures r == Filter(assets, (a: ControlAsset) => AssetMatches(a, query, status))
      ensures !Given(query) && (!Given(status) || status.value == "ALL") ==> r == assets
    {
      var p := (a: ControlAsset) => AssetMatches(a, query, status);
      if !Given(query) && (!Given(status) || status.value == "ALL") then
        FilterAll(assets, p);
        Filter(assets, p)
      else Filter(assets, p)
    }

    /** `getAssetById`: the asset with that id plus the last point of a fresh
     *  one-hour telemetry series, or nothing. */
    method GetAssetById(id: string, now: int, sample: nat -> real, uncertain: nat -> bool)
      returns (r: Option<Snapshot>)
      ensures r.None? <==> forall i :: 0 <= i < |assets| ==> assets[i].id != id
      ensures r.Some? ==> r.value.asset in assets && r.value.asset.id == id
      ensures r.Some? ==> |r.value.telemetry| == 1 && r.value.telemetry[0].timestamp == now
    {
      var found := Find(assets, (a: ControlAsset) => a.id == id);
      if found.None? {
        return None;
      }
      var series := GenerateTelemetry(id, "1h", now, sample, uncertain);
      r := Some(Snapshot(found.value, series[|series| - 1..]));
    }

    /** `getAlerts`: the matching alerts, newest first. */
    function GetAlerts(status: Option<string>, severity: Option<string>, assetId: Option<string>)
      : (r: seq<Alert>)
      reads this
      ensures forall a :: a in r <==> a in alerts && AlertMatches(a, status, severity, assetId)
      ensures SortedBy(r, NewerAlert)
      ensures multiset(r) == multiset(Filter(alerts, (a: Alert) => AlertMatches(a, status, severity, assetId)))
      ensures |r| <= |alerts|
    {
      var matching := Filter(alerts, (a: Alert) => AlertMatches(a, status, severity, assetId));
      var r := SortBy(matching, NewerAlert);
      SameMembers(matching, r);
      r
    }

    /** `updateAlert`: merges the updates into the first alert with that id. */
    method UpdateAlert(id: string, updates: AlertUpdates) returns (r: Option<Alert>)
      modifies this
      ensures var k := FirstIndex(old(alerts), (a: Alert) => a.id == id);
        if k < 0 then r.None? && alerts == old(alerts)
        else alerts == old(alerts)[k := MergeAlert(old(alerts)[k], updates)] && r == Some(alerts[k])
      ensures |alerts| == |old(alerts)|
      ensures updates.id.None? ==> forall i :: 0 <= i < |alerts| ==> alerts[i].id == old(alerts)[i].id
      ensures assets == old(assets) && workflows == old(workflows) && auditLog == old(auditLog)
    {
      var k := FirstIndex(alerts, (a: Alert) => a.id == id);
      if k < 0 {
        return None;
      }
      alerts := alerts[k := MergeAlert(alerts[k], updates)];
      r := Some(alerts[k]);
    }

    /** `logAuditEvent`: appends an event stamped `now`; the id is `audit-`
     *  followed by eight random hex digits. */
    method LogAuditEvent(hex8: string, now: int, eventType: string, actorId: string,
                         details: AuditDetails, correlationId: Option<string>)
      returns (e: AuditEvent)
      modifies this
      ensures e == AuditEvent("audit-" + hex8, eventType, now, actorId, details, correlationId)
      ensures auditLog == old(auditLog) + [e]
      ensures assets == old(assets) && alerts == old(alerts) && workflows == old(workflows)
    {
      e := AuditEvent("audit-" + hex8, eventType, now, actorId, details, correlationId);
      auditLog := auditLog + [e];
    }

    /** `createWorkflow`: a new draft workflow with no steps, and a
     *  `CREATE_WORKFLOW` audit entry correlated with the source alert. */
    method CreateWorkflow(draft: Draft, userId: string, wfHex8: string, auditHex8: string, now: int)
      returns (w: Workflow)
      modifies this
      ensures w == Workflow("wf-" + wfHex8, draft.title, draft.description, "DRAFT", [], now, userId, None)
      ensures workflows == old(workflows) + [w]
      ensures auditLog == old(auditLog) + [AuditEvent("audit-" + auditHex8, "CREATE_WORKFLOW", now, userId,
                                                       WorkflowCreated(w.id, w.title), draft.sourceAlertId)]
      ensures assets == old(assets) && alerts == old(alerts)
    {
      w := Workflow("wf-" + wfHex8, draft.title, draft.description, "DRAFT", [], now, userId, None);
      workflows := workflows + [w];
      var _ := LogAuditEvent(auditHex8, now, "CREATE_WORKFLOW", userId,
                             WorkflowCreated(w.id, w.title), draft.sourceAlertId);
    }

    /** `simulateWorkflow`: attaches the mock impact and marks the first
     *  workflow with that id `SIMULATING`, whatever its status was. */
    method SimulateWorkflow(id: string) returns (r: Option<Workflow>)
      modifies this
      ensures var k := FirstIndex(old(workflows), (w: Workflow) => w.id == id);
        if k < 0 then r.None? && workflows == old(workflows)
        else workflows == old(workflows)[k := Simulated(old(workflows)[k])] && r == Some(workflows[k])
      ensures assets == old(assets) && alerts == old(alerts) && auditLog == old(auditLog)
    {
      var k := FirstIndex(workflows, (w: Workflow) => w.id == id);
      if k < 0 {
        return None;
      }
      workflows := workflows[k := Simulated(workflows[k])];
      r := Some(workflows[k]);
    }

    /** `commitWorkflow`: marks the first workflow with that id `COMMITTED`,
     *  whatever its status was, and logs `COMMIT_WORKFLOW` with its impact. */
    method CommitWorkflow(id: string, userId: string, auditHex8: string, now: int)
      returns (r: Option<Workflow>)
      modifies this
      ensures var k := FirstIndex(old(workflows), (w: Workflow) => w.id == id);
        if k < 0 then r.None? && workflows == old(workflows) && auditLog == old(auditLog)
        else
          workflows == old(workflows)[k := Committed(old(workflows)[k])] && r == Some(workflows[k])
          && auditLog == old(auditLog) + [AuditEvent("audit-" + auditHex8, "COMMIT_WORKFLOW", now, userId,
                                                      WorkflowCommitted(workflows[k].id, workflows[k].simulatedImpact),
                                                      Some(id))]
      ensures assets == old(assets) && alerts == old(alerts)
    {
      var k := FirstIndex(workflows, (w: Workflow) => w.id == id);
      if k < 0 {
        return None;
      }
      workflows := workflows[k := Committed(workflows[k])];
      var wf := workflows[k];
      var _ := LogAuditEvent(auditHex8, now, "COMMIT_WORKFLOW", userId,
                             WorkflowCommitted(wf.id, wf.simulatedImpact), Some(id));
      r := Some(wf);
    }

    /** `getAuditLog`: every audit entry, newest first. */
    function GetAuditLog(): (r: seq<AuditEvent>)
      reads this
      ensures SortedBy(r, NewerEvent)
      ensures multiset(r) == multiset(auditLog)
    {
      SortBy(auditLog, NewerEvent)
    }

    /** `getOverviewKPIs`: alert counts, the rounded mean health score (none
     *  for an empty fleet, where the source divides by zero) and the fleet size. */
    function GetOverviewKPIs(): (r: OverviewKPIs)
      reads this
      ensures r.activeAlerts == |Filter(alerts, (a: Alert) => a.status == "ACTIVE")|
      ensures r.criticalAlerts == |Filter(alerts, (a: Alert) => a.status == "ACTIVE" && a.severity == "CRITICAL")|
      ensures r.criticalAlerts <= r.activeAlerts
      ensures r.totalAssets == |assets|
      ensures r.avgHealth.Some? <==> |assets| > 0
      ensures r.avgHealth.Some? ==>
        r.avgHealth.value as real - 0.5 <= SumHealth(assets) as real / |assets| as real
        < r.avgHealth.value as real + 0.5
    {
      var active := Count(alerts, (a: Alert) => a.status == "ACTIVE");
      var critical := Count(alerts, (a: Alert) => a.status == "ACTIVE" && a.severity == "CRITICAL");
      CountImplied(alerts, (a: Alert) => a.status == "ACTIVE" && a.severity == "CRITICAL",
                   (a: Alert) => a.status == "ACTIVE");
      var avg := if |assets| == 0 then None
                 else Some(Round(SumHealth(assets) as real / |assets| as real));
      OverviewKPIs(active, critical, avg, |assets|)
    }
  }

  // ---------------------------------------------------------------- lemmas

  lemma {:induction false} CountImplied<T(!new)>(s: seq<T>, p: T -> bool, q: T -> bool)
    requires forall x :: p(x) ==> q(x)
    ensures Count(s, p) <= Count(s, q)
    decreases |s|
  {
    if |s| > 0 {
      CountImplied(s[1..], p, q);
    }
  }

  /** A mean of health scores in 0..100 rounds to a score in 0..100. */
  lemma AverageHealthInRange(store: Store)
    requires forall i :: 0 <= i < |store.assets| ==> 0 <= store.assets[i].healthScore <= 100
    requires |store.assets| > 0
    ensures 0 <= store.GetOverviewKPIs().avgHealth.value <= 100
  {
    var n := |store.assets| as real;
    SumHealthBounds(store.assets, 0, 100);
    var sum := SumHealth(store.assets) as real;
    assert 0.0 <= sum <= 100.0 * n;
    MeanBounds(sum, n);
  }

  lemma MeanBounds(sum: real, n: real)
    requires n > 0.0 && 0.0 <= sum <= 100.0 * n
    ensures 0.0 <= sum / n <= 100.0
  {
  }

  /** Simulating then committing leaves the workflow committed with the mock
   *  impact attached, and the commit entry records that impact. */
  lemma SimulateThenCommit(w: Workflow)
    ensures Committed(Simulated(w)).status == "COMMITTED"
    ensures Committed(Simulated(w)).simulatedImpact == Some(Impact(-15, 5000, "2 days"))
    ensures Committed(Simulated(w)).id == w.id && Committed(Simulated(w)).steps == w.steps
  {
  }

  /** A merged key takes the update's value when the update carries it and keeps
   *  the alert's otherwise; an empty update is the identity. */
  lemma MergeKeepsIdentity(a: Alert, u: AlertUpdates)
    ensures MergeAlert(a, u).id == (if u.id.Some? then u.id.value else a.id)
    ensures MergeAlert(a, u).assetId == (if u.assetId.Some? then u.assetId.value else a.assetId)
    ensures MergeAlert(a, u).timestamp == (if u.timestamp.Some? then u.timestamp.value else a.timestamp)
    ensures MergeAlert(a, u).status == (if u.status.Some? then u.status.value else a.status)
    ensures u == AlertUpdates(None, None, None, None, None, None, None, None, None, None)
      ==> MergeAlert(a, u) == a
  {
  }

  /** The seeded alerts come back from `getAlerts()` newest first: alert-1
   *  (two hours old) before alert-2 (four hours old). */
  lemma SeedAlertsNewestFirst(now: int)
    ensures SortBy(SeedAlerts(now), NewerAlert) == SeedAlerts(now)
  {
    var s := SeedAlerts(now);
    assert s[1..][1..] == [];
    assert SortBy(s[1..], NewerAlert) == [s[1]];
  }
}
