/** The Canada Energy Regulator connector (packages/connectors/src/cer/index.ts):
 *  the rows of the estimated monthly crude production file that pass the
 *  schema, summed per month for one province in barrels, bounded by an
 *  optional period range, latest month first. Downloading and parsing the
 *  file and its one-hour cache are not part of this model; `Date` parsing
 *  (`monthOf`: the `YYYY-MM` of a date it can read), `parseFloat` (`None`
 *  for NaN) and the clock are parameters. */
module Cer {
  import opened Wrappers
  import opened Strings
  import opened Seqs
  import opened Sorting
  import opened Json
  import opened OMaps

  const CerDataUrl := "https://www.cer-rec.gc.ca/open/energy/estimated-monthly-production-of-crude-oil-by-province.csv"

  /** `1 m3 = 6.28981 barrels`. */
  const M3ToBbl: real := 6.28981

  datatype CerRow = CerRow(date: string, unit: string, region: string, kind: string, value: string)

  datatype Point = Point(period: string, value: real)

  datatype Provenance = Provenance(sourceName: string, sourceUrl: string, retrievedAt: string, notes: string)

  datatype SeriesResponse = SeriesResponse(series: seq<Point>, units: string, frequency: string, provenance: Provenance)

  datatype Latest = Latest(period: string, value: real, units: string)

  // ---------------------------------------------------------- validation

  predicate TextField(row: Json, k: string) {
    row.JObj? && k in row.fields && row.fields[k].JStr?
  }

  /** `CerRowSchema.safeParse(row)`: an object whose five columns are all
   *  strings; any other column is dropped. */
  function SafeParse(row: Json): (r: Option<CerRow>)
    ensures r.Some? <==>
      TextField(row, "Date") && TextField(row, "Unit") && TextField(row, "Region") && TextField(row, "Type")
      && TextField(row, "Value")
    ensures r.Some? ==> r.value == CerRow(row.fields["Date"].s, row.fields["Unit"].s, row.fields["Region"].s,
                                          row.fields["Type"].s, row.fields["Value"].s)
  {
    if TextField(row, "Date") && TextField(row, "Unit") && TextField(row, "Region") && TextField(row, "Type")
       && TextField(row, "Value")
    then Some(CerRow(row.fields["Date"].s, row.fields["Unit"].s, row.fields["Region"].s, row.fields["Type"].s,
                     row.fields["Value"].s))
    else None
  }

  /** The rows that pass the schema, in file order. */
  function ValidRows(parsed: seq<Json>): (r: seq<CerRow>)
    ensures |r| <= |parsed|
    decreases |parsed|
  {
    if |parsed| == 0 then []
    else
      var n := |parsed| - 1;
      var rest := ValidRows(parsed[..n]);
      match SafeParse(parsed[n])
      case Some(row) => rest + [row]
      case None => rest
  }

  /** The `forEach` that keeps the valid rows. */
  method CollectValidRows(parsed: seq<Json>) returns (validRows: seq<CerRow>)
    ensures validRows == ValidRows(parsed)
  {
    validRows := [];
    var i := 0;
    while i < |parsed|
      invariant 0 <= i <= |parsed|
      invariant validRows == ValidRows(parsed[..i])
    {
      assert parsed[..i + 1][..i] == parsed[..i];
      var result := SafeParse(parsed[i]);
      if result.Some? {
        validRows := validRows + [result.value];
      }
      i := i + 1;
    }
    assert parsed[..|parsed|] == parsed;
  }

  // --------------------------------------------------------- aggregation

  /** The types left out of the sum: the Canada-wide total and raw bitumen,
   *  which the upgraded and non-upgraded types already count. */
  predicate Excluded(kind: string) {
    kind == "Total" || kind == "Mined bitumen" || kind == "In situ bitumen"
  }

  /** A row that enters the province's sum: its region, a counted type, and
   *  the metric unit (spelled as the file spells it). */
  predicate Counted(row: CerRow, provinceCode: string) {
    row.region == provinceCode && !Excluded(row.kind) && row.unit == "Cubic meres per day"
  }

  /** `parseCerDate`: the `YYYY-MM` of a date `Date` can read, else the text
   *  itself. */
  function PeriodOf(date: string, monthOf: string -> Option<string>): (r: string)
    ensures monthOf(date).Some? ==> r == monthOf(date).value
    ensures monthOf(date).None? ==> r == date
  {
    monthOf(date).GetOr(date)
  }

  /** One row's output in thousands of barrels a day; a value that is not a
   *  number counts as 0. */
  function Barrels(value: string, parseFloat: string -> Option<real>): (r: real)
    ensures parseFloat(value).None? ==> r == 0.0
    ensures parseFloat(value).Some? ==> r == parseFloat(value).value * M3ToBbl / 1000.0
  {
    var v := parseFloat(value).GetOr(0.0);
    (v * M3ToBbl) / 1000.0
  }

  /** `periodMap` after the rows: per period, the running sum of the counted
   *  rows, periods in the order first met. */
  function PeriodMap(rows: seq<CerRow>, provinceCode: string, monthOf: string -> Option<string>,
                     parseFloat: string -> Option<real>): (r: OMap<string, real>)
    ensures r.Valid()
    decreases |rows|
  {
    if |rows| == 0 then Empty()
    else
      var n := |rows| - 1;
      var m := PeriodMap(rows[..n], provinceCode, monthOf, parseFloat);
      var row := rows[n];
      if !Counted(row, provinceCode) then m
      else
        var period := PeriodOf(row.date, monthOf);
        m.Set(period, m.Get(period).GetOr(0.0) + Barrels(row.value, parseFloat))
  }

  /** The sum of a period's counted rows, the quantity the map holds. */
  function PeriodTotal(rows: seq<CerRow>, period: string, provinceCode: string, monthOf: string -> Option<string>,
                       parseFloat: string -> Option<real>): real
    decreases |rows|
  {
    if |rows| == 0 then 0.0
    else
      var n := |rows| - 1;
      var row := rows[n];
      PeriodTotal(rows[..n], period, provinceCode, monthOf, parseFloat)
      + (if Counted(row, provinceCode) && PeriodOf(row.date, monthOf) == period
         then Barrels(row.value, parseFloat) else 0.0)
  }

  /** A row of the province falls in the period. */
  predicate Contributes(row: CerRow, period: string, provinceCode: string, monthOf: string -> Option<string>) {
    Counted(row, provinceCode) && PeriodOf(row.date, monthOf) == period
  }

  // -------------------------------------------------------------- series

  /** The map's entries in its order. */
  function Points(m: OMap<string, real>): (r: seq<Point>)
    requires m.Valid()
    ensures |r| == |m.keys|
    ensures forall i :: 0 <= i < |r| ==> r[i] == Point(m.keys[i], m.entries[m.keys[i]])
  {
    seq(|m.keys|, i requires 0 <= i < |m.keys| && m.Valid() => Point(m.keys[i], m.entries[m.keys[i]]))
  }

  /** A bound applies only when given and non-empty; both are inclusive. */
  predicate InBounds(period: string, start: Option<string>, until: Option<string>) {
    && !(start.Some? && start.value != "" && Less(period, start.value))
    && !(until.Some? && until.value != "" && Less(until.value, period))
  }

  function Within(start: Option<string>, until: Option<string>): Point -> bool {
    (pt: Point) => InBounds(pt.period, start, until)
  }

  /** The comparator `b.period.localeCompare(a.period)`: later periods
   *  first. */
  predicate LaterFirst(a: Point, b: Point) {
    LessEq(b.period, a.period)
  }

  lemma LaterFirstIsTotalPreorder()
    ensures TotalPreorder(LaterFirst)
  {
    forall a: Point, b: Point ensures LaterFirst(a, b) || LaterFirst(b, a) {
      LessEqTotal(a.period, b.period);
    }
    forall a: Point, b: Point, c: Point | LaterFirst(a, b) && LaterFirst(b, c) ensures LaterFirst(a, c) {
      LessEqTransitive(c.period, b.period, a.period);
    }
  }

  /** The series `fetchCaProvinceProduction` returns. */
  function Series(m: OMap<string, real>, start: Option<string>, until: Option<string>): (r: seq<Point>)
    requires m.Valid()
    ensures forall pt :: pt in r <==> pt in Points(m) && InBounds(pt.period, start, until)
    ensures multiset(r) == multiset(Filter(Points(m), Within(start, until)))
    ensures SortedBy(r, LaterFirst)
  {
    LaterFirstIsTotalPreorder();
    var kept := Filter(Points(m), Within(start, until));
    var r := SortBy(kept, LaterFirst);
    forall pt ensures pt in r <==> pt in kept {
      SortByMembers(kept, LaterFirst, pt);
    }
    r
  }

  /** `Within` agrees with `InBounds` at every point. */
  lemma FilterStep(s: seq<Point>, i: nat, start: Option<string>, until: Option<string>)
    requires i < |s|
    ensures Filter(s[..i + 1], Within(start, until)) ==
      Filter(s[..i], Within(start, until)) + (if InBounds(s[i].period, start, until) then [s[i]] else [])
  {
    assert s[..i + 1] == s[..i] + [s[i]];
    FilterAppend(s[..i], [s[i]], Within(start, until));
    assert [s[i]][1..] == [];
  }

  /** The first `forEach`: each counted row added to its period's sum. */
  method Aggregate(data: seq<CerRow>, provinceCode: string, monthOf: string -> Option<string>,
                   parseFloat: string -> Option<real>)
    returns (periodMap: OMap<string, real>)
    ensures periodMap == PeriodMap(data, provinceCode, monthOf, parseFloat)
  {
    periodMap := Empty();
    var i := 0;
    while i < |data|
      invariant 0 <= i <= |data|
      invariant periodMap == PeriodMap(data[..i], provinceCode, monthOf, parseFloat)
    {
      assert data[..i + 1][..i] == data[..i];
      var row := data[i];
      if Counted(row, provinceCode) {
        var period := PeriodOf(row.date, monthOf);
        var val := parseFloat(row.value).GetOr(0.0);
        val := (val * M3ToBbl) / 1000.0;
        periodMap := periodMap.Set(period, periodMap.Get(period).GetOr(0.0) + val);
      }
      i := i + 1;
    }
    assert data[..|data|] == data;
  }

  /** The second `forEach`: the periods inside the bounds, in map order. */
  method InBoundsPoints(periodMap: OMap<string, real>, start: Option<string>, until: Option<string>)
    returns (series: seq<Point>)
    requires periodMap.Valid()
    ensures series == Filter(Points(periodMap), Within(start, until))
  {
    var points := Points(periodMap);
    series := [];
    var k := 0;
    while k < |points|
      invariant 0 <= k <= |points|
      invariant series == Filter(points[..k], Within(start, until))
    {
      FilterStep(points, k, start, until);
      var pt := points[k];
      if InBounds(pt.period, start, until) {
        series := series + [pt];
      }
      k := k + 1;
    }
    assert points[..|points|] == points;
  }

  /** `fetchCaProvinceProduction` on the rows of the file: the per-period
   *  sums in bounds, latest first, in thousands of barrels a day. */
  method FetchCaProvinceProduction(data: seq<CerRow>, provinceCode: string, start: Option<string>,
                                   until: Option<string>, monthOf: string -> Option<string>,
                                   parseFloat: string -> Option<real>, now: string)
    returns (response: SeriesResponse)
    ensures response.series == Series(PeriodMap(data, provinceCode, monthOf, parseFloat), start, until)
    ensures response.units == "MBBL/d" && response.frequency == "monthly"
    ensures response.provenance == Provenance("CER", CerDataUrl, now,
                                              "Estimated Monthly Production (Converted from m3/d to MBBL/d)")
  {
    var periodMap := Aggregate(data, provinceCode, monthOf, parseFloat);
    var series := InBoundsPoints(periodMap, start, until);
    LaterFirstIsTotalPreorder();
    series := SortBy(series, LaterFirst);
    response := SeriesResponse(series, "MBBL/d", "monthly",
                               Provenance("CER", CerDataUrl, now,
                                          "Estimated Monthly Production (Converted from m3/d to MBBL/d)"));
  }

  /** `fetchCaProvinceProductionLatest`: nothing for an empty series, else
   *  its first point with the units. */
  function LatestOf(response: SeriesResponse): (r: Option<Latest>)
    ensures r.None? <==> response.series == []
    ensures r.Some? ==> r.value == Latest(response.series[0].period, response.series[0].value, response.units)
  {
    if |response.series| == 0 then None
    else Some(Latest(response.series[0].period, response.series[0].value, response.units))
  }

  // ---------------------------------------------------------------- lemmas

  /** A row is kept exactly when some parsed row passes the schema as that
   *  row. */
  lemma {:induction false} ValidRowsAreParsed(parsed: seq<Json>, row: CerRow)
    ensures row in ValidRows(parsed) <==> exists i :: 0 <= i < |parsed| && SafeParse(parsed[i]) == Some(row)
    decreases |parsed|
  {
    if |parsed| > 0 {
      var n := |parsed| - 1;
      ValidRowsAreParsed(parsed[..n], row);
      if exists i :: 0 <= i < |parsed| && SafeParse(parsed[i]) == Some(row) {
        var i :| 0 <= i < |parsed| && SafeParse(parsed[i]) == Some(row);
        if i < n {
          assert parsed[..n][i] == parsed[i];
        }
      }
      if exists i :: 0 <= i < n && SafeParse(parsed[..n][i]) == Some(row) {
        var i :| 0 <= i < n && SafeParse(parsed[..n][i]) == Some(row);
        assert parsed[i] == parsed[..n][i];
      }
    }
  }

  /** The map holds a period exactly when some counted row falls in it, and
   *  it holds that period's sum. */
  lemma {:induction false} PeriodMapIsSums(rows: seq<CerRow>, period: string, provinceCode: string,
                                           monthOf: string -> Option<string>, parseFloat: string -> Option<real>)
    ensures var m := PeriodMap(rows, provinceCode, monthOf, parseFloat);
      && (period in m.entries <==>
            exists i :: 0 <= i < |rows| && Contributes(rows[i], period, provinceCode, monthOf))
      && (period in m.entries ==> m.entries[period] == PeriodTotal(rows, period, provinceCode, monthOf, parseFloat))
      && (period !in m.entries ==> PeriodTotal(rows, period, provinceCode, monthOf, parseFloat) == 0.0)
    decreases |rows|
  {
    if |rows| > 0 {
      var n := |rows| - 1;
      PeriodMapIsSums(rows[..n], period, provinceCode, monthOf, parseFloat);
      var m := PeriodMap(rows[..n], provinceCode, monthOf, parseFloat);
      var p := PeriodOf(rows[n].date, monthOf);
      if Counted(rows[n], provinceCode) {
        GetSet(m, p, m.Get(p).GetOr(0.0) + Barrels(rows[n].value, parseFloat), period);
      }
      ContributesPrefix(rows, n, period, provinceCode, monthOf);
    }
  }

  /** Some row contributes exactly when an earlier one does or the last one
   *  does. */
  lemma ContributesPrefix(rows: seq<CerRow>, n: nat, period: string, provinceCode: string,
                          monthOf: string -> Option<string>)
    requires n + 1 == |rows|
    ensures (exists i :: 0 <= i < |rows| && Contributes(rows[i], period, provinceCode, monthOf)) <==>
      (exists i :: 0 <= i < n && Contributes(rows[..n][i], period, provinceCode, monthOf))
      || Contributes(rows[n], period, provinceCode, monthOf)
  {
    if exists i :: 0 <= i < |rows| && Contributes(rows[i], period, provinceCode, monthOf) {
      var i :| 0 <= i < |rows| && Contributes(rows[i], period, provinceCode, monthOf);
      if i < n {
        assert rows[..n][i] == rows[i];
      }
    }
    if exists i :: 0 <= i < n && Contributes(rows[..n][i], period, provinceCode, monthOf) {
      var i :| 0 <= i < n && Contributes(rows[..n][i], period, provinceCode, monthOf);
      assert rows[i] == rows[..n][i];
    }
  }

  /** Rows of other provinces, excluded types and other units change
   *  nothing. */
  lemma UncountedRowChangesNothing(rows: seq<CerRow>, row: CerRow, provinceCode: string,
                                   monthOf: string -> Option<string>, parseFloat: string -> Option<real>)
    requires !Counted(row, provinceCode)
    ensures PeriodMap(rows + [row], provinceCode, monthOf, parseFloat) == PeriodMap(rows, provinceCode, monthOf, parseFloat)
  {
    assert (rows + [row])[..|rows|] == rows;
  }

  /** A counted row whose value is not a number still opens its period, with
   *  nothing added. */
  lemma NaNOpensPeriod(rows: seq<CerRow>, row: CerRow, provinceCode: string, monthOf: string -> Option<string>,
                       parseFloat: string -> Option<real>)
    requires Counted(row, provinceCode) && parseFloat(row.value).None?
    ensures var before := PeriodMap(rows, provinceCode, monthOf, parseFloat);
      var after := PeriodMap(rows + [row], provinceCode, monthOf, parseFloat);
      var p := PeriodOf(row.date, monthOf);
      p in after.entries && after.entries[p] == before.Get(p).GetOr(0.0)
  {
    assert (rows + [row])[..|rows|] == rows;
  }

  /** The map's points are its entries, each once. */
  lemma PointsAreEntries(m: OMap<string, real>)
    requires m.Valid()
    ensures forall pt :: pt in Points(m) <==> pt.period in m.entries && pt.value == m.entries[pt.period]
    ensures forall x :: multiset(Points(m))[x] <= 1
  {
    var points := Points(m);
    forall pt ensures pt in points <==> pt.period in m.entries && pt.value == m.entries[pt.period] {
      if pt.period in m.entries {
        var k :| 0 <= k < |m.keys| && m.keys[k] == pt.period;
        if pt.value == m.entries[pt.period] {
          assert points[k] == pt;
        }
      }
    }
    forall i, j | 0 <= i < j < |points| ensures points[i] != points[j] {
      assert points[i].period == m.keys[i] && points[j].period == m.keys[j];
    }
    DistinctCounts(points);
  }

  /** The series holds exactly the months of the map inside the bounds,
   *  with their sums. */
  lemma SeriesMembers(m: OMap<string, real>, start: Option<string>, until: Option<string>)
    requires m.Valid()
    ensures forall pt :: pt in Series(m, start, until) <==>
      pt.period in m.entries && InBounds(pt.period, start, until) && pt.value == m.entries[pt.period]
  {
    PointsAreEntries(m);
  }

  /** The series is strictly latest first: each month once. */
  lemma SeriesStrictlyLatestFirst(m: OMap<string, real>, start: Option<string>, until: Option<string>)
    requires m.Valid()
    ensures var r := Series(m, start, until);
      forall i, j :: 0 <= i < j < |r| ==> Less(r[j].period, r[i].period)
  {
    var r := Series(m, start, until);
    PointsAreEntries(m);
    var kept := Filter(Points(m), Within(start, until));
    assert forall x :: multiset(r)[x] <= 1 by {
      assert multiset(r) == multiset(kept) && multiset(kept) <= multiset(Points(m));
    }
    NoRepeats(r);
    forall i, j | 0 <= i < j < |r| ensures Less(r[j].period, r[i].period) {
      assert LaterFirst(r[i], r[j]);
      assert r[i] in Points(m) && r[j] in Points(m);
    }
  }

  /** Without bounds the series is empty exactly when the map is, and its
   *  first point is the map's newest period with that period's sum. */
  lemma SeriesHeadIsNewest(m: OMap<string, real>)
    requires m.Valid()
    ensures var r := Series(m, None, None);
      && (r == [] <==> forall p :: p !in m.entries)
      && (r != [] ==> r[0].period in m.entries && r[0].value == m.entries[r[0].period])
      && (r != [] ==> forall p :: p in m.entries ==> LessEq(p, r[0].period))
  {
    var r := Series(m, None, None);
    SeriesMembers(m, None, None);
    SeriesStrictlyLatestFirst(m, None, None);
    forall p | p in m.entries ensures r != [] {
      assert Point(p, m.entries[p]) in r;
    }
    if r != [] {
      assert r[0] in r;
      forall p | p in m.entries ensures LessEq(p, r[0].period) {
        var pt := Point(p, m.entries[p]);
        assert pt in r;
        var k :| 0 <= k < |r| && r[k] == pt;
        if k > 0 {
          assert Less(r[k].period, r[0].period);
        }
      }
    }
  }

  /** Without bounds the latest point is the newest period any counted row
   *  reports, with that period's sum; there is none exactly when the
   *  province has no counted row. */
  lemma LatestIsNewestMonth(data: seq<CerRow>, provinceCode: string, monthOf: string -> Option<string>,
                            parseFloat: string -> Option<real>, now: string)
    ensures var m := PeriodMap(data, provinceCode, monthOf, parseFloat);
      var response := SeriesResponse(Series(m, None, None), "MBBL/d", "monthly",
                                     Provenance("CER", CerDataUrl, now,
                                                "Estimated Monthly Production (Converted from m3/d to MBBL/d)"));
      var latest := LatestOf(response);
      && (latest.None? <==> forall i :: 0 <= i < |data| ==> !Counted(data[i], provinceCode))
      && (latest.Some? ==>
            && latest.value.value == PeriodTotal(data, latest.value.period, provinceCode, monthOf, parseFloat)
            && forall i :: 0 <= i < |data| && Counted(data[i], provinceCode) ==>
                 LessEq(PeriodOf(data[i].date, monthOf), latest.value.period))
  {
    var m := PeriodMap(data, provinceCode, monthOf, parseFloat);
    var r := Series(m, None, None);
    SeriesHeadIsNewest(m);
    forall i | 0 <= i < |data| && Counted(data[i], provinceCode)
      ensures PeriodOf(data[i].date, monthOf) in m.entries
    {
      PeriodMapIsSums(data, PeriodOf(data[i].date, monthOf), provinceCode, monthOf, parseFloat);
    }
    if r != [] {
      PeriodMapIsSums(data, r[0].period, provinceCode, monthOf, parseFloat);
      var i :| 0 <= i < |data| && Contributes(data[i], r[0].period, provinceCode, monthOf);
    }
  }
}
