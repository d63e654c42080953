/** The cash-flow engine (apps/web/lib/economics/engine.ts): a month-by-month
 *  projection of production, price, revenue, costs, royalties, capital
 *  spending, taxes and cumulative cash, and the project indicators derived
 *  from it.
 *
 *  Arithmetic is exact (`real`). The transcendental parts are parameters:
 *  `pow12(b, m)` stands for `b` raised to `m / 12` (what `Math.exp`,
 *  `Math.log` and `Math.pow` compute for the decline curve and the price
 *  escalation), `period(m)` for the `YYYY-MM` label of month `m` after the
 *  start date (`None` when the start date is invalid and `toISOString`
 *  throws), `discount(t)` for `1 / (1 + r_monthly)^t`, and `irr` for the
 *  outcome of the Newton iteration (`None` for NaN). */
module EconomicsEngine {
  import opened Wrappers
  import opened Seqs

  datatype General = General(startDate: string, durationYears: real, currency: string, discountRatePercent: real)

  /** `curveType` is FLAT, DECLINE or CUSTOM; a `None` rate is an absent one. */
  datatype Production = Production(curveType: string, initialRate: real, declineRatePercent: Option<real>)

  datatype Pricing = Pricing(model: string, flatPrice: Option<real>, escalationPercent: Option<real>)

  datatype Costs = Costs(
    opexFixedMonthly: real, opexVariablePerBbl: real, capexInitial: real,
    capexAbandonment: real, taxRatePercent: real, royaltyRatePercent: real)

  datatype ScenarioInput = ScenarioInput(general: General, production: Production, pricing: Pricing, costs: Costs)

  datatype CashFlowRow = CashFlowRow(
    period: string, revenue: real, opex: real, capex: real, royalties: real,
    taxes: real, netCashFlow: real, cumulativeCashFlow: real)

  datatype Kpis = Kpis(
    npv: real, irrPercent: real, payoutPeriodMonths: nat, breakevenPrice: real,
    totalRevenue: real, totalCapex: real, totalOpex: real, roiPercent: real)

  datatype RunResult = RunResult(kpis: Kpis, cashflows: seq<CashFlowRow>)

  datatype CashFlows = CashFlows(rows: seq<CashFlowRow>, totalVolume: real)

  /** The average month length the engine uses. */
  const DaysInMonth: real := 30.44

  /** The error `toISOString` throws for an invalid date. */
  const InvalidTime := "Invalid time value"

  /** `x || 0` on an optional number. */
  function OrZero(x: Option<real>): real {
    if x.Some? then x.value else 0.0
  }

  // ------------------------------------------------------------- one month

  /** `getProductionVolume`: the daily rate in month `m`. */
  function ProductionVolume(p: Production, m: nat, pow12: (real, nat) -> real): (r: real)
    ensures p.curveType == "FLAT" ==> r == p.initialRate
    ensures p.curveType == "DECLINE" && OrZero(p.declineRatePercent) >= 100.0 ==> r == 0.0
    ensures p.curveType != "FLAT" && p.curveType != "DECLINE" ==> r == 0.0
  {
    if p.curveType == "FLAT" then p.initialRate
    else if p.curveType == "DECLINE" then
      var d := OrZero(p.declineRatePercent) / 100.0;
      if d >= 1.0 then 0.0 else p.initialRate * pow12(1.0 - d, m)
    else 0.0
  }

  /** `getPrice`: the price in month `m`. */
  function Price(p: Pricing, m: nat, pow12: (real, nat) -> real): (r: real)
    ensures p.model != "FLAT" ==> r == 0.0
    ensures p.model == "FLAT" && OrZero(p.escalationPercent) == 0.0 ==> r == OrZero(p.flatPrice)
  {
    if p.model == "FLAT" then
      var base := OrZero(p.flatPrice);
      if OrZero(p.escalationPercent) != 0.0 then base * pow12(1.0 + OrZero(p.escalationPercent) / 100.0, m)
      else base
    else 0.0
  }

  /** `durationMonths`: the duration in months, a whole number only when
   *  the duration in years is a multiple of a twelfth. */
  function Months(input: ScenarioInput): real {
    input.general.durationYears * 12.0
  }

  function Volume(input: ScenarioInput, m: nat, pow12: (real, nat) -> real): real {
    ProductionVolume(input.production, m, pow12) * DaysInMonth
  }

  function Revenue(input: ScenarioInput, m: nat, pow12: (real, nat) -> real): real {
    Volume(input, m, pow12) * Price(input.pricing, m, pow12)
  }

  function Opex(input: ScenarioInput, m: nat, pow12: (real, nat) -> real): real {
    input.costs.opexFixedMonthly + input.costs.opexVariablePerBbl * Volume(input, m, pow12)
  }

  function Royalties(input: ScenarioInput, m: nat, pow12: (real, nat) -> real): real {
    Revenue(input, m, pow12) * (input.costs.royaltyRatePercent / 100.0)
  }

  /** Capital spending: the initial capex in the first month, abandonment in
   *  the month numbered `durationMonths - 1`, nothing in any other. When the
   *  duration is not a whole number of months no month carries that number,
   *  so no abandonment is charged. */
  function Capex(c: Costs, m: nat, months: real): (r: real)
    ensures 0 < m && m as real != months - 1.0 ==> r == 0.0
    ensures m == 0 && months != 1.0 ==> r == c.capexInitial
    ensures m == 0 && months == 1.0 ==> r == c.capexInitial + c.capexAbandonment
    ensures m > 0 && m as real == months - 1.0 ==> r == c.capexAbandonment
  {
    (if m == 0 then c.capexInitial else 0.0) + (if m as real == months - 1.0 then c.capexAbandonment else 0.0)
  }

  /** Taxes are due only on a positive operating income. */
  function Taxes(income: real, ratePercent: real): (r: real)
    ensures income <= 0.0 ==> r == 0.0
    ensures income > 0.0 && ratePercent >= 0.0 ==> r >= 0.0
    ensures income > 0.0 && 0.0 <= ratePercent <= 100.0 ==> r <= income
  {
    if income > 0.0 then income * (ratePercent / 100.0) else 0.0
  }

  function OperatingIncome(input: ScenarioInput, m: nat, months: real, pow12: (real, nat) -> real): real {
    Revenue(input, m, pow12) - Royalties(input, m, pow12) - Opex(input, m, pow12) - Capex(input.costs, m, months)
  }

  function Net(input: ScenarioInput, m: nat, months: real, pow12: (real, nat) -> real): real {
    OperatingIncome(input, m, months, pow12) - Taxes(OperatingIncome(input, m, months, pow12), input.costs.taxRatePercent)
  }

  /** The net cash of months `0 .. k-1`. */
  function Cumulative(input: ScenarioInput, k: nat, months: real, pow12: (real, nat) -> real): real
    decreases k
  {
    if k == 0 then 0.0 else Cumulative(input, k - 1, months, pow12) + Net(input, k - 1, months, pow12)
  }

  /** The production of months `0 .. k-1`. */
  function TotalVolume(input: ScenarioInput, k: nat, pow12: (real, nat) -> real): real
    decreases k
  {
    if k == 0 then 0.0 else TotalVolume(input, k - 1, pow12) + Volume(input, k - 1, pow12)
  }

  function Row(input: ScenarioInput, m: nat, months: real, pow12: (real, nat) -> real, period: string): CashFlowRow {
    var income := OperatingIncome(input, m, months, pow12);
    CashFlowRow(period, Revenue(input, m, pow12), Opex(input, m, pow12), Capex(input.costs, m, months),
                Royalties(input, m, pow12), Taxes(income, input.costs.taxRatePercent),
                Net(input, m, months, pow12), Cumulative(input, m + 1, months, pow12))
  }

  /** The first `n` rows of the projection. */
  function Rows(input: ScenarioInput, n: nat, pow12: (real, nat) -> real, period: nat -> Option<string>)
    : (r: seq<CashFlowRow>)
    ensures |r| == n
  {
    seq(n, m requires 0 <= m < n => Row(input, m, Months(input), pow12, period(m).GetOr("")))
  }

  /** The number of rows `for (m = 0; m < durationMonths; m++)` makes: the
   *  least whole number of months at or above the duration, none for a
   *  non-positive duration. */
  function RowCount(input: ScenarioInput): (r: nat)
    ensures Months(input) <= 0.0 ==> r == 0
    ensures Months(input) > 0.0 ==> r > 0 && (r - 1) as real < Months(input) <= r as real
  {
    var months := Months(input);
    if months <= 0.0 then 0
    else if months.Floor as real == months then months.Floor
    else months.Floor + 1
  }

  predicate ValidPeriods(n: nat, period: nat -> Option<string>) {
    forall m :: 0 <= m < n ==> period(m).Some?
  }

  /** `generateCashFlows`: one row per month, each with the running total of
   *  net cash; fails when a month label cannot be formed. */
  method GenerateCashFlows(input: ScenarioInput, pow12: (real, nat) -> real, period: nat -> Option<string>)
    returns (r: Result<CashFlows, string>)
    ensures r.Err? <==> !ValidPeriods(RowCount(input), period)
    ensures r.Err? ==> r.error == InvalidTime
    ensures r.Ok? ==> r.value.rows == Rows(input, RowCount(input), pow12, period)
                      && r.value.totalVolume == TotalVolume(input, RowCount(input), pow12)
  {
    var rows: seq<CashFlowRow> := [];
    var durationMonths := Months(input);
    var cumulative := 0.0;
    var totalVolume := 0.0;
    var m: nat := 0;
    while (m as real) < durationMonths
      invariant m <= RowCount(input)
      invariant ValidPeriods(m, period)
      invariant rows == Rows(input, m, pow12, period)
      invariant cumulative == Cumulative(input, m, durationMonths, pow12)
      invariant totalVolume == TotalVolume(input, m, pow12)
      decreases RowCount(input) - m
    {
      var monthLabel := period(m);
      if monthLabel.None? {
        return Err(InvalidTime);
      }
      var monthlyVolume := Volume(input, m, pow12);
      totalVolume := totalVolume + monthlyVolume;
      var revenue := Revenue(input, m, pow12);
      var opex := Opex(input, m, pow12);
      var royalties := Royalties(input, m, pow12);
      var capex := 0.0;
      if m == 0 {
        capex := capex + input.costs.capexInitial;
      }
      if m as real == durationMonths - 1.0 {
        capex := capex + input.costs.capexAbandonment;
      }
      var operatingIncome := revenue - royalties - opex - capex;
      var taxes := Taxes(operatingIncome, input.costs.taxRatePercent);
      var netCashFlow := revenue - royalties - opex - capex - taxes;
      cumulative := cumulative + netCashFlow;
      var row := CashFlowRow(monthLabel.value, revenue, opex, capex, royalties, taxes, netCashFlow, cumulative);
      assert row == Row(input, m, durationMonths, pow12, period(m).GetOr(""));
      RowsSnoc(input, m, pow12, period);
      rows := rows + [row];
      m := m + 1;
    }
    return Ok(CashFlows(rows, totalVolume));
  }

  lemma RowsSnoc(input: ScenarioInput, n: nat, pow12: (real, nat) -> real, period: nat -> Option<string>)
    ensures Rows(input, n + 1, pow12, period)
            == Rows(input, n, pow12, period) + [Row(input, n, Months(input), pow12, period(n).GetOr(""))]
  {
    var a := Rows(input, n + 1, pow12, period);
    var b := Rows(input, n, pow12, period) + [Row(input, n, Months(input), pow12, period(n).GetOr(""))];
    assert forall k :: 0 <= k < n + 1 ==> a[k] == b[k];
  }

  // ------------------------------------------------------------ indicators

  /** `reduce((s, row) => s + f(row), 0)`. */
  function Sum(rows: seq<CashFlowRow>, f: CashFlowRow -> real): real
    decreases |rows|
  {
    if |rows| == 0 then 0.0 else Sum(rows[..|rows| - 1], f) + f(rows[|rows| - 1])
  }

  function RevenueOf(c: CashFlowRow): real { c.revenue }
  function OpexOf(c: CashFlowRow): real { c.opex }
  function CapexOf(c: CashFlowRow): real { c.capex }
  function NetOf(c: CashFlowRow): real { c.netCashFlow }

  /** `Σ row.net_cash_flow / (1 + r)^(i + 1)`, with `discount(t)` for the factor. */
  function Npv(rows: seq<CashFlowRow>, discount: nat -> real): real
    decreases |rows|
  {
    if |rows| == 0 then 0.0
    else Npv(rows[..|rows| - 1], discount) + rows[|rows| - 1].netCashFlow * discount(|rows|)
  }

  /** The payout period: the 1-based month in which cumulative cash first
   *  turns non-negative, or 0 when it never does. */
  function Payout(rows: seq<CashFlowRow>): (r: nat)
    ensures r == 0 <==> forall i :: 0 <= i < |rows| ==> rows[i].cumulativeCashFlow < 0.0
    ensures r > 0 ==> r <= |rows| && rows[r - 1].cumulativeCashFlow >= 0.0
                      && forall i :: 0 <= i < r - 1 ==> rows[i].cumulativeCashFlow < 0.0
  {
    var k := FirstIndex(rows, (c: CashFlowRow) => c.cumulativeCashFlow >= 0.0);
    if k >= 0 then k + 1 else 0
  }

  /** `calculateKPIs`. */
  function CalculateKpis(rows: seq<CashFlowRow>, totalVolume: real, discount: nat -> real, irr: Option<real>)
    : (r: Kpis)
    ensures r.npv == Npv(rows, discount)
    ensures r.totalRevenue == Sum(rows, RevenueOf) && r.totalOpex == Sum(rows, OpexOf)
    ensures r.totalCapex == Sum(rows, CapexOf)
    ensures r.totalCapex <= 0.0 ==> r.roiPercent == 0.0
    ensures r.totalCapex > 0.0 ==> r.roiPercent == Sum(rows, NetOf) / r.totalCapex * 100.0
    ensures totalVolume <= 0.0 ==> r.breakevenPrice == 0.0
    ensures totalVolume > 0.0 ==> r.breakevenPrice == (r.totalCapex + r.totalOpex) / totalVolume
    ensures irr.None? ==> r.irrPercent == 0.0
    ensures irr.Some? ==> r.irrPercent == irr.value
    ensures r.payoutPeriodMonths == Payout(rows)
  {
    var totalRevenue := Sum(rows, RevenueOf);
    var totalOpex := Sum(rows, OpexOf);
    var totalCapex := Sum(rows, CapexOf);
    var totalNet := Sum(rows, NetOf);
    Kpis(Npv(rows, discount), irr.GetOr(0.0), Payout(rows),
         if totalVolume > 0.0 then (totalCapex + totalOpex) / totalVolume else 0.0,
         totalRevenue, totalCapex, totalOpex,
         if totalCapex > 0.0 then totalNet / totalCapex * 100.0 else 0.0)
  }

  /** What `EconomicsEngine.run` yields: the rows of every month with their
   *  indicators, or the error of a month label that cannot be formed. */
  function RunOutcome(input: ScenarioInput, pow12: (real, nat) -> real, period: nat -> Option<string>,
                      discount: nat -> real, irr: Option<real>): (r: Result<RunResult, string>)
    ensures r.Err? <==> !ValidPeriods(RowCount(input), period)
    ensures r.Err? ==> r.error == InvalidTime
    ensures r.Ok? ==> |r.value.cashflows| == RowCount(input)
                      && r.value.kpis.payoutPeriodMonths <= RowCount(input)
  {
    if !ValidPeriods(RowCount(input), period) then Err(InvalidTime)
    else
      var rows := Rows(input, RowCount(input), pow12, period);
      Ok(RunResult(CalculateKpis(rows, TotalVolume(input, RowCount(input), pow12), discount, irr), rows))
  }

  /** `EconomicsEngine.run`: the projection and its indicators. */
  method RunEngine(input: ScenarioInput, pow12: (real, nat) -> real, period: nat -> Option<string>,
                   discount: nat -> real, irr: Option<real>)
    returns (r: Result<RunResult, string>)
    ensures r.Err? <==> !ValidPeriods(RowCount(input), period)
    ensures r.Ok? ==>
      var rows := Rows(input, RowCount(input), pow12, period);
      r.value == RunResult(CalculateKpis(rows, TotalVolume(input, RowCount(input), pow12), discount, irr), rows)
    ensures r == RunOutcome(input, pow12, period, discount, irr)
  {
    var flows := GenerateCashFlows(input, pow12, period);
    if flows.Err? {
      return Err(flows.error);
    }
    var kpis := CalculateKpis(flows.value.rows, flows.value.totalVolume, discount, irr);
    return Ok(RunResult(kpis, flows.value.rows));
  }

  // ---------------------------------------------------------------- lemmas

  /** Five years give sixty monthly rows. */
  lemma FiveYearsSixtyRows(input: ScenarioInput, pow12: (real, nat) -> real, period: nat -> Option<string>)
    requires input.general.durationYears == 5.0
    ensures |Rows(input, RowCount(input), pow12, period)| == 60
  {
  }

  /** Without discounting (every factor one) the NPV is the plain sum of the
   *  net cash flows. */
  lemma {:induction false} NpvUndiscounted(rows: seq<CashFlowRow>, discount: nat -> real)
    requires forall t :: discount(t) == 1.0
    ensures Npv(rows, discount) == Sum(rows, NetOf)
    decreases |rows|
  {
    if |rows| > 0 {
      NpvUndiscounted(rows[..|rows| - 1], discount);
    }
  }

  /** A duration of 2.3 years is 27.6 months: the projection has 28 rows and,
   *  since no month is numbered 26.6, charges no abandonment. */
  lemma FractionalDuration(input: ScenarioInput, pow12: (real, nat) -> real, period: nat -> Option<string>)
    requires input.general.durationYears == 2.3
    ensures RowCount(input) == 28
    ensures Sum(Rows(input, RowCount(input), pow12, period), CapexOf) == input.costs.capexInitial
  {
    TotalCapex(input, pow12, period);
  }

  /** Every row satisfies the accounting identities: net is revenue less
   *  royalties, opex, capex and taxes; taxes are zero unless the operating
   *  income is positive; and cumulative cash extends the previous row's by
   *  this row's net. */
  lemma RowIdentities(input: ScenarioInput, n: nat, pow12: (real, nat) -> real, period: nat -> Option<string>, m: nat)
    requires m < n
    ensures var rows := Rows(input, n, pow12, period);
      var row := rows[m];
      && row.netCashFlow == row.revenue - row.royalties - row.opex - row.capex - row.taxes
      && (row.revenue - row.royalties - row.opex - row.capex <= 0.0 ==> row.taxes == 0.0)
      && (m == 0 ==> row.cumulativeCashFlow == row.netCashFlow)
      && (m > 0 ==> row.cumulativeCashFlow == rows[m - 1].cumulativeCashFlow + row.netCashFlow)
  {
    var rows := Rows(input, n, pow12, period);
    var months := Months(input);
    var income := OperatingIncome(input, m, months, pow12);
    assert rows[m] == Row(input, m, months, pow12, period(m).GetOr(""));
    assert rows[m].taxes == Taxes(income, input.costs.taxRatePercent);
    if m == 0 {
      assert Cumulative(input, 1, months, pow12) == Net(input, 0, months, pow12);
    }
    if m > 0 {
      assert rows[m - 1] == Row(input, m - 1, months, pow12, period(m - 1).GetOr(""));
    }
  }

  /** The capital spending of the whole projection is the initial capex,
   *  plus abandonment exactly when the duration is a whole number of months. */
  lemma {:induction false} TotalCapex(input: ScenarioInput, pow12: (real, nat) -> real, period: nat -> Option<string>)
    requires RowCount(input) > 0
    ensures Sum(Rows(input, RowCount(input), pow12, period), CapexOf)
            == input.costs.capexInitial
               + (if RowCount(input) as real == Months(input) then input.costs.capexAbandonment else 0.0)
  {
    var n := RowCount(input);
    CapexPrefix(input, n, pow12, period);
  }

  lemma {:induction false} CapexPrefix(input: ScenarioInput, k: nat, pow12: (real, nat) -> real, period: nat -> Option<string>)
    requires 0 < k <= RowCount(input)
    ensures Sum(Rows(input, k, pow12, period), CapexOf)
            == input.costs.capexInitial + (if k as real == Months(input) then input.costs.capexAbandonment else 0.0)
    decreases k
  {
    var rows := Rows(input, k, pow12, period);
    assert rows[..k - 1] == Rows(input, k - 1, pow12, period);
    if k == 1 {
      assert rows[..0] == [];
    } else {
      CapexPrefix(input, k - 1, pow12, period);
    }
  }

  /** The net cash of the whole projection is the last row's cumulative
   *  cash, so ROI compares final cumulative cash with total capex. */
  lemma {:induction false} TotalNetIsFinalCumulative(input: ScenarioInput, k: nat, pow12: (real, nat) -> real,
                                                     period: nat -> Option<string>)
    requires k > 0
    ensures Sum(Rows(input, k, pow12, period), NetOf)
            == Rows(input, k, pow12, period)[k - 1].cumulativeCashFlow
    decreases k
  {
    var rows := Rows(input, k, pow12, period);
    assert rows[..k - 1] == Rows(input, k - 1, pow12, period);
    if k == 1 {
      assert rows[..0] == [];
      assert rows[0] == Row(input, 0, Months(input), pow12, period(0).GetOr(""));
    } else {
      TotalNetIsFinalCumulative(input, k - 1, pow12, period);
      var months := Months(input);
      assert rows[k - 1] == Row(input, k - 1, months, pow12, period(k - 1).GetOr(""));
      assert rows[k - 2] == Row(input, k - 2, months, pow12, period(k - 2).GetOr(""));
    }
  }

  /** Taxes never exceed the operating income they are levied on and are
   *  never negative, for any rate between 0 and 100 percent. */
  lemma TaxesBounded(input: ScenarioInput, n: nat, pow12: (real, nat) -> real, period: nat -> Option<string>, m: nat)
    requires m < n && 0.0 <= input.costs.taxRatePercent <= 100.0
    ensures var row := Rows(input, n, pow12, period)[m];
      0.0 <= row.taxes && (row.taxes > 0.0 ==> row.netCashFlow >= 0.0)
  {
    var months := Months(input);
    var income := OperatingIncome(input, m, months, pow12);
    var rate := input.costs.taxRatePercent;
    assert Rows(input, n, pow12, period)[m] == Row(input, m, months, pow12, period(m).GetOr(""));
    if income > 0.0 {
      assert income - income * (rate / 100.0) == income * (1.0 - rate / 100.0);
      assert income * (1.0 - rate / 100.0) >= 0.0;
    }
  }
}
