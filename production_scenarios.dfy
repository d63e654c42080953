/** Scenario adjustments of a production forecast
 *  (apps/web/lib/production/analytics/scenarios.ts): downtime days scale a
 *  month's value down, a curtailment and an uplift multiply every value. */
module ProductionScenarios {
  import opened Wrappers
  import opened Seqs
  import opened Sorting
  import opened OMaps
  import opened ProductionDb

  datatype ForecastPoint = ForecastPoint(period: string, value: real)

  /** `d.slice(0, 7)`: the `YYYY-MM` prefix of a `YYYY-MM-DD` date. */
  function MonthOf(d: string): (r: string)
    ensures |d| >= 7 ==> r == d[..7]
    ensures |d| < 7 ==> r == d
  {
    if |d| >= 7 then d[..7] else d
  }

  /** `downtimeByMonth[month] || 0`. */
  function DaysIn(m: map<string, nat>, month: string): nat {
    if month in m then m[month] else 0
  }

  /** The tally the `forEach` builds over the first days. */
  function DowntimeByMonth(days: seq<string>): map<string, nat>
    decreases |days|
  {
    if |days| == 0 then map[]
    else
      var m := DowntimeByMonth(days[..|days| - 1]);
      var month := MonthOf(days[|days| - 1]);
      m[month := DaysIn(m, month) + 1]
  }

  /** The tally, counted one day at a time. */
  method CountDowntime(days: seq<string>) returns (downtimeByMonth: map<string, nat>)
    ensures downtimeByMonth == DowntimeByMonth(days)
  {
    downtimeByMonth := map[];
    var i := 0;
    while i < |days|
      invariant 0 <= i <= |days|
      invariant downtimeByMonth == DowntimeByMonth(days[..i])
    {
      var month := MonthOf(days[i]);
      downtimeByMonth := downtimeByMonth[month := DaysIn(downtimeByMonth, month) + 1];
      assert days[..i + 1][..i] == days[..i];
      i := i + 1;
    }
    assert days[..|days|] == days;
  }

  /** `Math.max(0, 1 - days / 30)`. */
  function DowntimeFactor(days: nat): (r: real)
    ensures 0.0 <= r <= 1.0
    ensures days >= 30 ==> r == 0.0
    ensures days == 0 ==> r == 1.0
  {
    if 1.0 - (days as real) / 30.0 > 0.0 then 1.0 - (days as real) / 30.0 else 0.0
  }

  /** JavaScript truthiness of an optional number. */
  predicate Truthy(x: Option<real>) {
    x.Some? && x.value != 0.0
  }

  /** One point adjusted: downtime, then curtailment, then uplift; the
   *  decline-rate multiplier has no effect. */
  function Adjust(p: ForecastPoint, mods: Modifications, downtime: map<string, nat>): (r: ForecastPoint)
    ensures r.period == p.period
    ensures DaysIn(downtime, p.period) == 0 && !Truthy(mods.curtailmentPercent) && !Truthy(mods.upliftMultiplier)
            ==> r == p
  {
    var daysDown := DaysIn(downtime, p.period);
    var v0 := if daysDown > 0 then p.value * DowntimeFactor(daysDown) else p.value;
    var v1 := if Truthy(mods.curtailmentPercent) then v0 * (1.0 - mods.curtailmentPercent.value / 100.0) else v0;
    var v2 := if Truthy(mods.upliftMultiplier) then v1 * mods.upliftMultiplier.value else v1;
    ForecastPoint(p.period, v2)
  }

  /** `apply`: every point of the base series adjusted, in order. */
  method Apply(baseSeries: seq<ForecastPoint>, scenario: ProductionScenario) returns (r: seq<ForecastPoint>)
    ensures |r| == |baseSeries|
    ensures forall i :: 0 <= i < |r| ==> r[i].period == baseSeries[i].period
    ensures forall i :: 0 <= i < |r| ==>
      r[i] == Adjust(baseSeries[i], scenario.modifications,
                     DowntimeByMonth(scenario.modifications.downtimeDays.GetOr([])))
  {
    var mods := scenario.modifications;
    var downtimeByMonth := CountDowntime(mods.downtimeDays.GetOr([]));
    r := seq(|baseSeries|, i requires 0 <= i < |baseSeries| => Adjust(baseSeries[i], mods, downtimeByMonth));
  }

  /** `create`: an uncommitted scenario without modifications, stored under
   *  its asset. */
  method Create(db: ProductionRepository, assetId: string, name: string, baseId: Option<string>,
                id: string, now: string)
    returns (scenario: ProductionScenario)
    modifies db
    requires db.Valid()
    ensures db.Valid()
    ensures scenario == ProductionScenario(id, name, assetId, baseId, NoModifications, false, now, "user")
    ensures db.GetScenarios(assetId) == old(db.GetScenarios(assetId)) + [scenario]
    ensures db.scenarios == old(db.scenarios).Set(assetId, old(db.GetScenarios(assetId)) + [scenario])
    ensures db.seriesStore == old(db.seriesStore) && db.jobs == old(db.jobs)
    ensures db.dcaModels == old(db.dcaModels) && db.anomalies == old(db.anomalies)
  {
    scenario := ProductionScenario(id, name, assetId, baseId, NoModifications, false, now, "user");
    db.CreateScenario(scenario);
  }

  function MonthIs(month: string): string -> bool {
    (d: string) => MonthOf(d) == month
  }

  // ---------------------------------------------------------------- lemmas

  /** The tally counts, for every month, the downtime days falling in it. */
  lemma {:induction false} DowntimeCountsDays(days: seq<string>, month: string)
    ensures DaysIn(DowntimeByMonth(days), month) == Count(days, MonthIs(month))
    decreases |days|
  {
    if |days| > 0 {
      var init := days[..|days| - 1];
      var m := DowntimeByMonth(init);
      var lastMonth := MonthOf(days[|days| - 1]);
      DowntimeCountsDays(init, month);
      CountInit(days, MonthIs(month));
      assert MonthIs(month)(days[|days| - 1]) <==> lastMonth == month;
      assert DaysIn(DowntimeByMonth(days), month) == DaysIn(m, month) + (if lastMonth == month then 1 else 0);
    }
  }

  /** A scenario without modifications leaves the series as it is. */
  lemma EmptyModificationsAreIdentity(baseSeries: seq<ForecastPoint>, i: nat)
    requires i < |baseSeries|
    ensures Adjust(baseSeries[i], NoModifications, DowntimeByMonth([])) == baseSeries[i]
  {
  }

  /** Thirty or more downtime days in a month zero that month's value. */
  lemma FullMonthDowntimeZeroes(p: ForecastPoint, mods: Modifications, downtime: map<string, nat>)
    requires DaysIn(downtime, p.period) >= 30
    ensures Adjust(p, mods, downtime).value == 0.0
  {
  }

  /** Absent downtime, a curtailment of `c` percent and an uplift of `u`
   *  scale each value by `(1 - c/100) * u`. */
  lemma CurtailThenUplift(p: ForecastPoint, c: real, u: real, downtime: map<string, nat>)
    requires DaysIn(downtime, p.period) == 0 && c != 0.0 && u != 0.0
    ensures Adjust(p, Modifications(None, Some(c), Some(u), None), downtime).value == p.value * (1.0 - c / 100.0) * u
  {
  }
}
