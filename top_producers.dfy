/** The ranking behind the top-producers route
 *  (apps/web/app/api/data/production-reserves/top-producers/route.ts): the
 *  regions' latest production rows, the latest period reported by more than
 *  a fifth of them, and the regions of that period ranked by output. The
 *  concurrent upstream fetch is a parameter: its answers in the order they
 *  arrived, `None` for a region without data (failed fetches leave no
 *  answer). The clock is a parameter. */
module TopProducers {
  import opened Wrappers
  import opened Strings
  import opened Seqs
  import opened Sorting

  datatype Region = Region(kind: string, code: string, name: string)

  /** `TopProducerRow`; the rank is set only when the row is ranked. */
  datatype Row = Row(region: Region, latestPeriod: string, latestValue: real, units: string, rank: Option<int>)

  datatype Provenance = Provenance(sourceName: string, sourceUrl: string, retrievedAt: string, notes: Option<string>)

  datatype TopProducersResponse = TopProducersResponse(
    kind: string, commodity: string, latestPeriod: string, units: string, rows: seq<Row>, provenance: Provenance)

  datatype ErrorInfo = ErrorInfo(code: string, message: string)

  /** The JSON body and the HTTP status of the answer. */
  datatype Reply = Reply(
    httpStatus: int, status: string, data: Option<TopProducersResponse>, error: Option<ErrorInfo>,
    provenance: Option<Provenance>)

  // ------------------------------------------------------------- periods

  function Periods(rows: seq<Row>): (r: seq<string>)
    ensures |r| == |rows|
    ensures forall i :: 0 <= i < |rows| ==> r[i] == rows[i].latestPeriod
  {
    seq(|rows|, i requires 0 <= i < |rows| => rows[i].latestPeriod)
  }

  /** `Array.from(new Set(s))`: each element once, at its first occurrence. */
  function Distinct(s: seq<string>): (r: seq<string>)
    ensures forall x :: x in r <==> x in s
    ensures forall x :: multiset(r)[x] <= 1
    decreases |s|
  {
    if |s| == 0 then []
    else
      var n := |s| - 1;
      assert s == s[..n] + [s[n]];
      var d := Distinct(s[..n]);
      if s[n] in d then d else d + [s[n]]
  }

  lemma LessEqIsTotalPreorder()
    ensures TotalPreorder(LessEq)
  {
    forall a, b ensures LessEq(a, b) || LessEq(b, a) {
      LessEqTotal(a, b);
    }
    forall a, b, c | LessEq(a, b) && LessEq(b, c) ensures LessEq(a, c) {
      LessEqTransitive(a, b, c);
    }
  }

  /** A sorted sequence without repeats is strictly increasing. */
  lemma SortedDistinctIsStrict(a: seq<string>)
    requires SortedBy(a, LessEq)
    requires forall i, j :: 0 <= i < j < |a| ==> a[i] != a[j]
    ensures forall i, j :: 0 <= i < j < |a| ==> Less(a[i], a[j])
  {
  }

  /** The reverse of a strictly increasing sequence is strictly decreasing
   *  and holds the same elements. */
  lemma ReverseOfStrict(a: seq<string>, r: seq<string>)
    requires forall i, j :: 0 <= i < j < |a| ==> Less(a[i], a[j])
    requires |r| == |a| && forall i :: 0 <= i < |a| ==> r[i] == a[|a| - 1 - i]
    ensures forall i, j :: 0 <= i < j < |r| ==> Less(r[j], r[i])
    ensures forall p :: p in r <==> p in a
  {
    var n := |a|;
    forall i, j | 0 <= i < j < n ensures Less(r[j], r[i]) {
      assert r[j] == a[n - 1 - j] && r[i] == a[n - 1 - i];
    }
    forall p ensures p in r <==> p in a {
      if p in r {
        var k :| 0 <= k < n && r[k] == p;
        assert a[n - 1 - k] == p;
      }
      if p in a {
        var k :| 0 <= k < n && a[k] == p;
        assert r[n - 1 - k] == p;
      }
    }
  }

  /** `uniquePeriods`: the periods the rows report, each once, latest first
   *  (`sort()` compares the texts, which for `YYYY-MM` periods is time
   *  order, and `reverse()` turns it round). */
  function UniquePeriods(rows: seq<Row>): (r: seq<string>)
    ensures forall p :: p in r <==> p in Periods(rows)
    ensures forall i, j :: 0 <= i < j < |r| ==> Less(r[j], r[i])
  {
    LessEqIsTotalPreorder();
    var d := Distinct(Periods(rows));
    var sorted := SortBy(d, LessEq);
    assert forall p :: p in sorted <==> p in Periods(rows) by {
      forall p ensures p in sorted <==> p in Periods(rows) {
        SortByMembers(d, LessEq, p);
      }
    }
    NoRepeats(sorted);
    SortedDistinctIsStrict(sorted);
    var r := Reverse(sorted);
    ReverseOfStrict(sorted, r);
    r
  }

  function HasPeriod(p: string): Row -> bool {
    (row: Row) => row.latestPeriod == p
  }

  /** How many rows report `p`. */
  function Reporting(rows: seq<Row>, p: string): nat
    decreases |rows|
  {
    if |rows| == 0 then 0 else (if rows[0].latestPeriod == p then 1 else 0) + Reporting(rows[1..], p)
  }

  /** `rows.filter(r => r.latest_period === p).length` counts the same. */
  lemma {:induction false} ReportingIsCount(rows: seq<Row>, p: string)
    ensures Reporting(rows, p) == |Filter(rows, HasPeriod(p))|
    decreases |rows|
  {
    if |rows| > 0 {
      ReportingIsCount(rows[1..], p);
    }
  }

  /** `count > total * 0.2`: more than a fifth of the rows report `p`. */
  predicate Covers(rows: seq<Row>, p: string) {
    (Reporting(rows, p) as real) > (|rows| as real) * 0.2
  }

  function CoversIn(rows: seq<Row>): string -> bool {
    (p: string) => Covers(rows, p)
  }

  /** The first of `periods` that covers, or else the first of them. */
  function Choice(periods: seq<string>, rows: seq<Row>): (r: string)
    requires |periods| > 0
    ensures r in periods
  {
    var k := FirstIndex(periods, CoversIn(rows));
    if k < 0 then periods[0] else periods[k]
  }

  /** The period the route ranks. */
  function SelectedPeriod(rows: seq<Row>): (r: string)
    requires |rows| > 0
    ensures r in Periods(rows)
  {
    assert rows[0].latestPeriod in Periods(rows);
    Choice(UniquePeriods(rows), rows)
  }

  /** The first index that satisfies `p`, after indices that do not. */
  lemma FirstCovering(s: seq<string>, p: string -> bool, i: nat)
    requires i < |s| && p(s[i])
    requires forall j :: 0 <= j < i ==> !p(s[j])
    ensures FirstIndex(s, p) == i
  {
  }

  lemma NoneCovering(s: seq<string>, p: string -> bool)
    requires forall j :: 0 <= j < |s| ==> !p(s[j])
    ensures FirstIndex(s, p) == -1
  {
  }

  /** The `for … of` loop with its `break`. */
  method SelectPeriod(rows: seq<Row>, uniquePeriods: seq<string>) returns (selectedPeriod: string)
    requires |uniquePeriods| > 0
    ensures selectedPeriod == Choice(uniquePeriods, rows)
  {
    selectedPeriod := uniquePeriods[0];
    var i := 0;
    while i < |uniquePeriods|
      invariant 0 <= i <= |uniquePeriods|
      invariant selectedPeriod == uniquePeriods[0]
      invariant forall j :: 0 <= j < i ==> !CoversIn(rows)(uniquePeriods[j])
    {
      var p := uniquePeriods[i];
      var count := |Filter(rows, HasPeriod(p))|;
      var total := |rows|;
      ReportingIsCount(rows, p);
      if count as real > total as real * 0.2 {
        selectedPeriod := p;
        assert CoversIn(rows)(uniquePeriods[i]);
        FirstCovering(uniquePeriods, CoversIn(rows), i);
        return;
      }
      assert !CoversIn(rows)(uniquePeriods[i]);
      i := i + 1;
    }
    NoneCovering(uniquePeriods, CoversIn(rows));
  }

  // ------------------------------------------------------------- ranking

  /** The comparator `b.latest_value - a.latest_value`: larger output first. */
  predicate ValueFirst(a: Row, b: Row) {
    a.latestValue >= b.latestValue
  }

  lemma ValueFirstIsTotalPreorder()
    ensures TotalPreorder(ValueFirst)
  {
  }

  /** The period's rows, largest output first. */
  function ByValue(rows: seq<Row>, period: string): (r: seq<Row>)
    ensures forall i :: 0 <= i < |r| ==> r[i].latestPeriod == period
    ensures forall i, j :: 0 <= i < j < |r| ==> r[i].latestValue >= r[j].latestValue
    ensures multiset(r) == multiset(Filter(rows, HasPeriod(period)))
  {
    ValueFirstIsTotalPreorder();
    var kept := Filter(rows, HasPeriod(period));
    var r := SortBy(kept, ValueFirst);
    forall i | 0 <= i < |r| ensures r[i].latestPeriod == period {
      SortByMembers(kept, ValueFirst, r[i]);
    }
    r
  }

  /** `forEach((r, i) => r.rank = i + 1)`: ranks 1, 2, … in order, nothing
   *  else changed. */
  method AssignRanks(rows: seq<Row>) returns (ranked: seq<Row>)
    ensures |ranked| == |rows|
    ensures forall i :: 0 <= i < |rows| ==> ranked[i] == rows[i].(rank := Some(i + 1))
  {
    ranked := rows;
    var i := 0;
    while i < |ranked|
      invariant 0 <= i <= |ranked| == |rows|
      invariant forall j :: 0 <= j < i ==> ranked[j] == rows[j].(rank := Some(j + 1))
      invariant forall j :: i <= j < |rows| ==> ranked[j] == rows[j]
    {
      ranked := ranked[i := ranked[i].(rank := Some(i + 1))];
      i := i + 1;
    }
  }

  function Ranked(rows: seq<Row>): (r: seq<Row>)
    ensures |r| == |rows|
    ensures forall i :: 0 <= i < |rows| ==> r[i] == rows[i].(rank := Some(i + 1))
  {
    seq(|rows|, i requires 0 <= i < |rows| => rows[i].(rank := Some(i + 1)))
  }

  // ------------------------------------------------------------- the limit

  predicate IsDigit(c: char) {
    '0' <= c <= '9'
  }

  /** The longest run of digits `s` starts with. */
  function DigitPrefix(s: string): (r: string)
    ensures |r| <= |s| && r == s[..|r|]
    ensures forall i :: 0 <= i < |r| ==> IsDigit(r[i])
    ensures |r| < |s| ==> !IsDigit(s[|r|])
  {
    if |s| > 0 && IsDigit(s[0]) then [s[0]] + DigitPrefix(s[1..]) else []
  }

  /** `parseInt(s, 10)`: leading white space, an optional sign, then the
   *  digits up to the first other character; `None` (NaN) without digits. */
  function ParseInt(s: string): (r: Option<int>)
    ensures r.None? <==> DigitPrefix(SignFree(TrimStart(s))) == ""
  {
    var t := TrimStart(s);
    var digits := DigitPrefix(SignFree(t));
    if digits == "" then None
    else if |t| > 0 && t[0] == '-' then Some(0 - DigitsValue(digits) as int)
    else Some(DigitsValue(digits))
  }

  function SignFree(t: string): string {
    if |t| > 0 && (t[0] == '-' || t[0] == '+') then t[1..] else t
  }

  /** `parseInt(searchParams.get('limit') || '10', 10)`. */
  function LimitOf(param: Option<string>): Option<int> {
    ParseInt(if param.Some? && param.value != "" then param.value else "10")
  }

  /** `slice(0, limit)`; a NaN limit slices to nothing. */
  function TopN(ranked: seq<Row>, limit: Option<int>): (r: seq<Row>)
    ensures limit.None? ==> r == []
    ensures limit.Some? ==> r == Take(ranked, limit.value)
  {
    if limit.None? then [] else Take(ranked, limit.value)
  }

  // ------------------------------------------------------------- the route

  /** The rows of the answers that carried data (`filter(r => r !== null)`). */
  function Kept(results: seq<Option<Row>>): (r: seq<Row>)
    ensures |r| <= |results|
    ensures forall x :: x in r <==> Some(x) in results
    decreases |results|
  {
    if |results| == 0 then []
    else
      var n := |results| - 1;
      assert results == results[..n] + [results[n]];
      var rest := Kept(results[..n]);
      if results[n].Some? then rest + [results[n].value] else rest
  }

  /** The `!kind` test. */
  predicate KindGiven(kind: Option<string>) {
    kind.Some? && kind.value != ""
  }

  function SourceName(kind: string): string {
    if kind == "US_STATE" then "EIA" else "CER"
  }

  /** `topN[0]?.units || 'MBBL/d'`. */
  function UnitsOf(top: seq<Row>): (r: string)
    ensures |top| > 0 && top[0].units != "" ==> r == top[0].units
    ensures (|top| == 0 || top[0].units == "") ==> r == "MBBL/d"
  {
    if |top| > 0 && top[0].units != "" then top[0].units else "MBBL/d"
  }

  const BadRequest := Reply(400, "error", None, Some(ErrorInfo("BAD_REQUEST", "Missing kind")), None)

  const NoData := "No data returned from upstream"

  /** The degraded answer of the `catch`, sent with HTTP 200. */
  function Degraded(kind: string, message: string, now: string): (r: Reply)
    ensures r.httpStatus == 200 && r.status == "degraded" && r.data.None?
    ensures r.error == Some(ErrorInfo("UPSTREAM_ERROR", if message != "" then message else "Upstream service unavailable"))
  {
    Reply(200, "degraded", None,
          Some(ErrorInfo("UPSTREAM_ERROR", if message != "" then message else "Upstream service unavailable")),
          Some(Provenance(SourceName(kind), "N/A", now, None)))
  }

  /** The rows for the requested kind; any other kind fetches nothing. */
  function RowsFor(kind: string, usResults: seq<Option<Row>>, caResults: seq<Option<Row>>): seq<Row> {
    if kind == "US_STATE" then Kept(usResults) else if kind == "CA_PROVINCE" then Kept(caResults) else []
  }

  /** `GET`: 400 without a kind; degraded when no region answered; else the
   *  selected period's regions ranked, cut to the limit. */
  method Get(kind: Option<string>, limitParam: Option<string>, usResults: seq<Option<Row>>,
             caResults: seq<Option<Row>>, now: string) returns (reply: Reply)
    ensures !KindGiven(kind) ==> reply == BadRequest
    ensures KindGiven(kind) && RowsFor(kind.value, usResults, caResults) == [] ==>
      reply == Degraded(kind.value, NoData, now)
    ensures KindGiven(kind) && RowsFor(kind.value, usResults, caResults) != [] ==>
      var rows := RowsFor(kind.value, usResults, caResults);
      var period := SelectedPeriod(rows);
      var top := TopN(Ranked(ByValue(rows, period)), LimitOf(limitParam));
      var provenance := Provenance(SourceName(kind.value), "N/A", now,
                                   Some("Ranking based on production in " + period + "."));
      reply == Reply(200, "ok", Some(TopProducersResponse(kind.value, "CRUDE_OIL", period, UnitsOf(top), top,
                                                          provenance)), None, Some(provenance))
  {
    if !KindGiven(kind) {
      return BadRequest;
    }
    var limit := LimitOf(limitParam);
    var rows := RowsFor(kind.value, usResults, caResults);
    if |rows| == 0 {
      return Degraded(kind.value, NoData, now);
    }
    var uniquePeriods := UniquePeriods(rows);
    assert rows[0].latestPeriod in Periods(rows);
    var selectedPeriod := SelectPeriod(rows, uniquePeriods);
    var filteredRows := ByValue(rows, selectedPeriod);
    filteredRows := AssignRanks(filteredRows);
    assert filteredRows == Ranked(ByValue(rows, selectedPeriod));
    var topN := TopN(filteredRows, limit);
    var provenance := Provenance(SourceName(kind.value), "N/A", now,
                                 Some("Ranking based on production in " + selectedPeriod + "."));
    reply := Reply(200, "ok", Some(TopProducersResponse(kind.value, "CRUDE_OIL", selectedPeriod, UnitsOf(topN),
                                                        topN, provenance)), None, Some(provenance));
  }

  // ---------------------------------------------------------------- lemmas

  /** The selected period is one the rows report. When some period covers
   *  more than a fifth of the rows, it is the latest such period; when none
   *  does, it is the latest period of all. */
  lemma SelectedIsLatestCovering(rows: seq<Row>)
    requires |rows| > 0
    ensures var sel := SelectedPeriod(rows);
      && (exists i :: 0 <= i < |rows| && rows[i].latestPeriod == sel)
      && ((exists i :: 0 <= i < |rows| && Covers(rows, rows[i].latestPeriod)) ==>
            Covers(rows, sel)
            && forall i :: 0 <= i < |rows| && Less(sel, rows[i].latestPeriod) ==> !Covers(rows, rows[i].latestPeriod))
      && ((forall i :: 0 <= i < |rows| ==> !Covers(rows, rows[i].latestPeriod)) ==>
            forall i :: 0 <= i < |rows| ==> LessEq(rows[i].latestPeriod, sel))
  {
    var periods := UniquePeriods(rows);
    var sel := SelectedPeriod(rows);
    assert sel in Periods(rows);
    var k := FirstIndex(periods, CoversIn(rows));
    forall i | 0 <= i < |rows| ensures rows[i].latestPeriod in periods {
      assert Periods(rows)[i] == rows[i].latestPeriod;
    }
    if exists i :: 0 <= i < |rows| && Covers(rows, rows[i].latestPeriod) {
      var i :| 0 <= i < |rows| && Covers(rows, rows[i].latestPeriod);
      var m :| 0 <= m < |periods| && periods[m] == rows[i].latestPeriod;
      assert CoversIn(rows)(periods[m]);
      assert k >= 0;
      forall i | 0 <= i < |rows| && Less(sel, rows[i].latestPeriod) ensures !Covers(rows, rows[i].latestPeriod) {
        var m :| 0 <= m < |periods| && periods[m] == rows[i].latestPeriod;
        if m == k {
          LessIrreflexive(sel);
        } else if m > k {
          LessAsymmetric(periods[m], periods[k]);
        } else {
          assert !CoversIn(rows)(periods[m]);
        }
      }
    } else {
      forall m | 0 <= m < |periods| ensures !CoversIn(rows)(periods[m]) {
        assert periods[m] in Periods(rows);
      }
      assert k < 0;
      forall i | 0 <= i < |rows| ensures LessEq(rows[i].latestPeriod, sel) {
        var m :| 0 <= m < |periods| && periods[m] == rows[i].latestPeriod;
        if m > 0 {
          assert Less(periods[m], periods[0]);
        }
      }
    }
  }

  /** The rows of the answer, ranked 1, 2, … in order, all report the
   *  selected period, larger output first, and no more of them than a
   *  non-negative limit. */
  lemma RankingShape(ranked: seq<Row>, rows: seq<Row>, period: string, limit: Option<int>)
    requires ranked == TopN(Ranked(ByValue(rows, period)), limit)
    ensures forall i :: 0 <= i < |ranked| ==> ranked[i].rank == Some(i + 1) && ranked[i].latestPeriod == period
    ensures forall i, j :: 0 <= i < j < |ranked| ==> ranked[i].latestValue >= ranked[j].latestValue
    ensures limit.Some? && limit.value >= 0 ==> |ranked| <= limit.value
  {
  }

  /** Without the ranks, the ranking is a reordering of the period's rows:
   *  none lost, none added. */
  lemma RankingIsPermutation(rows: seq<Row>, period: string)
    requires forall i :: 0 <= i < |rows| ==> rows[i].rank.None?
    ensures var r := Ranked(ByValue(rows, period));
      multiset(seq(|r|, i requires 0 <= i < |r| => r[i].(rank := None))) == multiset(Filter(rows, HasPeriod(period)))
  {
    var s := ByValue(rows, period);
    var r := Ranked(s);
    forall i | 0 <= i < |s| ensures s[i].rank.None? {
      assert s[i] in multiset(Filter(rows, HasPeriod(period)));
      assert s[i] in rows;
    }
    assert seq(|r|, i requires 0 <= i < |r| => r[i].(rank := None)) == s;
  }

  /** `parseInt` reads back what `String(n)` writes. */
  lemma ParseIntReadsBack(n: nat)
    ensures ParseInt(NatToString(n)) == Some(n)
  {
    var s := NatToString(n);
    assert !IsWhite(s[0]) && s[0] != '-' && s[0] != '+';
    assert TrimStart(s) == s;
    assert SignFree(s) == s;
    DigitPrefixAll(s);
    NatToStringValue(n);
  }

  /** Without a `limit` parameter the route keeps ten rows. */
  lemma DefaultLimitIsTen()
    ensures LimitOf(None) == Some(10)
    ensures LimitOf(Some("")) == Some(10)
  {
    var s := "10";
    assert !IsWhite(s[0]);
    assert TrimStart(s) == s;
    assert SignFree(s) == s;
    DigitPrefixAll(s);
    assert s[..1] == "1";
    assert DigitsValue(s) == 10;
  }

  lemma {:induction false} DigitPrefixAll(s: string)
    requires forall i :: 0 <= i < |s| ==> IsDigit(s[i])
    ensures DigitPrefix(s) == s
  {
    if |s| > 0 {
      DigitPrefixAll(s[1..]);
      assert s == [s[0]] + s[1..];
    }
  }

  /** Five periods reported equally often each hold exactly a fifth of the
   *  rows, which is not more than a fifth: the latest one is then taken by
   *  default. */
  lemma AFifthIsNotEnough(rows: seq<Row>, p: string)
    requires |rows| == 5 && Reporting(rows, p) == 1
    ensures !Covers(rows, p)
  {
  }
}
