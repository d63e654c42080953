/** The SEC EDGAR connector (packages/connectors/src/sec.ts): recent filings
 *  of a list of companies, at most `limit` from each, merged latest first
 *  and cut to `limit`. The per-company request is a parameter (`None` for a
 *  company whose request failed, answered with an error status, or whose
 *  answer did not match the schema), and so are the date reading of
 *  `new Date(filed_at).getTime()` and the clock. */
module Sec {
  import opened Wrappers
  import opened Strings
  import opened Seqs
  import opened Sorting

  const BaseUrl := "https://data.sec.gov/submissions"
  const SearchUrl := "https://www.sec.gov/edgar/searchedgar/companysearch"

  /** The recent-filings columns; the schema checks only that each is an
   *  array of strings, so they may differ in length. */
  datatype Recent = Recent(
    accessionNumber: seq<string>, filingDate: seq<string>, form: seq<string>, primaryDocument: seq<string>)

  datatype Submission = Submission(name: string, tickers: seq<string>, cik: string, recent: Recent)

  /** A filing; a column shorter than the accession numbers leaves its field
   *  undefined. */
  datatype Filing = Filing(
    company: string, ticker: string, formType: Option<string>, filedAt: Option<string>, link: string)

  datatype Provenance = Provenance(
    sourceName: string, sourceUrl: string, retrievedAt: string, units: string, notes: string,
    cachePolicy: Option<string>)

  datatype FilingFeed = FilingFeed(data: seq<Filing>, status: string, provenance: Provenance)

  /** `cik.padStart(10, '0')`. */
  function PaddedCik(cik: string): (r: string)
    ensures |cik| <= 10 ==> |r| == 10
    ensures |cik| >= 10 ==> r == cik
    ensures r[|r| - |cik|..] == cik && forall i :: 0 <= i < |r| - |cik| ==> r[i] == '0'
  {
    PadStart(cik, 10, '0')
  }

  function Url(cik: string): string {
    BaseUrl + "/CIK" + PaddedCik(cik) + ".json"
  }

  /** `s[i]`, undefined past the end. */
  function At(s: seq<string>, i: int): (r: Option<string>)
    ensures r.Some? <==> 0 <= i < |s|
  {
    if 0 <= i < |s| then Some(s[i]) else None
  }

  /** A template literal's text for a value that may be undefined. */
  function Shown(x: Option<string>): string {
    x.GetOr("undefined")
  }

  /** `tickers[0] || 'UNKNOWN'`. */
  function Ticker(tickers: seq<string>): (r: string)
    ensures |tickers| > 0 && tickers[0] != "" ==> r == tickers[0]
    ensures (|tickers| == 0 || tickers[0] == "") ==> r == "UNKNOWN"
  {
    if |tickers| > 0 && tickers[0] != "" then tickers[0] else "UNKNOWN"
  }

  /** The archive link: the company's CIK, the accession number without its
   *  dashes, and the primary document. */
  function Link(cik: string, accession: string, document: Option<string>): string {
    "https://www.sec.gov/Archives/edgar/data/" + cik + "/" + Remove(accession, '-') + "/" + Shown(document)
  }

  /** The `i`th recent filing of a company. */
  function FilingAt(sub: Submission, i: nat): (r: Filing)
    requires i < |sub.recent.accessionNumber|
    ensures r.company == sub.name && r.ticker == Ticker(sub.tickers)
    ensures r.formType == At(sub.recent.form, i) && r.filedAt == At(sub.recent.filingDate, i)
    ensures r.link == Link(sub.cik, sub.recent.accessionNumber[i], At(sub.recent.primaryDocument, i))
  {
    Filing(sub.name, Ticker(sub.tickers), At(sub.recent.form, i), At(sub.recent.filingDate, i),
           Link(sub.cik, sub.recent.accessionNumber[i], At(sub.recent.primaryDocument, i)))
  }

  /** `Math.min(limit, recent.accessionNumber.length)`; a negative count
   *  takes nothing. */
  function Taken(sub: Submission, limit: int): (r: nat)
    ensures r <= |sub.recent.accessionNumber|
    ensures limit >= 0 ==> r <= limit
    ensures r == if limit < 0 then 0 else if limit < |sub.recent.accessionNumber| then limit
                 else |sub.recent.accessionNumber|
  {
    if limit < 0 then 0
    else if limit < |sub.recent.accessionNumber| then limit else |sub.recent.accessionNumber|
  }

  /** The filings the inner loop takes from one company. */
  function CompanyFilings(sub: Submission, limit: int): (r: seq<Filing>)
    ensures |r| == Taken(sub, limit)
    ensures forall i :: 0 <= i < |r| ==> r[i] == FilingAt(sub, i)
  {
    seq(Taken(sub, limit), i requires 0 <= i < Taken(sub, limit) => FilingAt(sub, i))
  }

  /** `allFilings` after the companies: each answered company's filings in
   *  turn, failed companies skipped. */
  function AllFilings(results: seq<Option<Submission>>, limit: int): (r: seq<Filing>)
    decreases |results|
  {
    if |results| == 0 then []
    else
      var n := |results| - 1;
      AllFilings(results[..n], limit) + (if results[n].Some? then CompanyFilings(results[n].value, limit) else [])
  }

  /** The comparator `new Date(b.filed_at) - new Date(a.filed_at)`: the
   *  newer filing first. */
  function NewerFirst(timeOf: Option<string> -> int): (Filing, Filing) -> bool {
    (a: Filing, b: Filing) => timeOf(a.filedAt) >= timeOf(b.filedAt)
  }

  lemma NewerFirstIsTotalPreorder(timeOf: Option<string> -> int)
    ensures TotalPreorder(NewerFirst(timeOf))
  {
  }

  /** The `sort` of the merged filings, newest first. */
  function NewestFirst(all: seq<Filing>, timeOf: Option<string> -> int): (r: seq<Filing>)
    ensures multiset(r) == multiset(all)
    ensures forall i, j :: 0 <= i < j < |r| ==> timeOf(r[i].filedAt) >= timeOf(r[j].filedAt)
  {
    NewerFirstIsTotalPreorder(timeOf);
    var r := SortBy(all, NewerFirst(timeOf));
    assert forall i, j :: 0 <= i < j < |r| ==> NewerFirst(timeOf)(r[i], r[j]);
    r
  }

  predicate Answered(r: Option<Submission>) {
    r.Some?
  }

  /** Some company's request failed. */
  predicate HasErrors(results: seq<Option<Submission>>) {
    exists i :: 0 <= i < |results| && results[i].None?
  }

  /** `results.some(r => r === null)` as the loop computes it. */
  function AnyFailed(results: seq<Option<Submission>>): (r: bool)
    ensures r <==> HasErrors(results)
    decreases |results|
  {
    if |results| == 0 then false
    else
      assert forall i :: 1 <= i < |results| ==> results[1..][i - 1] == results[i];
      results[0].None? || AnyFailed(results[1..])
  }

  /** Both inner-loop steps of the outer loop's body at once. */
  lemma AllFilingsStep(results: seq<Option<Submission>>, k: nat, limit: int)
    requires k < |results|
    ensures AllFilings(results[..k + 1], limit) ==
      AllFilings(results[..k], limit) + (if results[k].Some? then CompanyFilings(results[k].value, limit) else [])
  {
    assert results[..k + 1][..k] == results[..k];
  }

  /** The URL of each company's submissions, in list order. */
  function Requests(ciks: seq<string>): (r: seq<string>)
    ensures |r| == |ciks| && forall i :: 0 <= i < |ciks| ==> r[i] == Url(ciks[i])
  {
    seq(|ciks|, i requires 0 <= i < |ciks| => Url(ciks[i]))
  }

  /** `Promise.all` of the requests: the answers in list order. */
  function Results(requests: seq<string>, fetchCompany: string -> Option<Submission>): (r: seq<Option<Submission>>)
    ensures |r| == |requests| && forall i :: 0 <= i < |requests| ==> r[i] == fetchCompany(requests[i])
  {
    seq(|requests|, i requires 0 <= i < |requests| => fetchCompany(requests[i]))
  }

  /** The nested loops that collect the filings. */
  method Collect(results: seq<Option<Submission>>, limit: int) returns (allFilings: seq<Filing>)
    ensures allFilings == AllFilings(results, limit)
  {
    allFilings := [];
    var k := 0;
    while k < |results|
      invariant 0 <= k <= |results|
      invariant allFilings == AllFilings(results[..k], limit)
    {
      AllFilingsStep(results, k, limit);
      var companyData := results[k];
      if companyData.Some? {
        var sub := companyData.value;
        var count := Taken(sub, limit);
        ghost var before := allFilings;
        var i := 0;
        while i < count
          invariant 0 <= i <= count
          invariant allFilings == before + CompanyFilings(sub, limit)[..i]
        {
          assert CompanyFilings(sub, limit)[..i + 1] == CompanyFilings(sub, limit)[..i] + [FilingAt(sub, i)];
          allFilings := allFilings + [FilingAt(sub, i)];
          i := i + 1;
        }
        assert CompanyFilings(sub, limit)[..count] == CompanyFilings(sub, limit);
      }
      k := k + 1;
    }
    assert results[..|results|] == results;
  }

  /** `fetchRecentFilings`: no requests for an empty list; otherwise one
   *  request per company (`requested`), the merged filings newest first cut
   *  to `limit`, degraded when any request failed. */
  method FetchRecentFilings(ciks: seq<string>, limit: int, fetchCompany: string -> Option<Submission>,
                            timeOf: Option<string> -> int, now: string)
    returns (feed: FilingFeed, requested: seq<string>)
    ensures ciks == [] ==>
      && requested == [] && feed.data == [] && feed.status == "ok"
      && feed.provenance == Provenance("SEC EDGAR", SearchUrl, now, "Filings", "No CIKs provided", None)
    ensures ciks != [] ==>
      var results := Results(Requests(ciks), fetchCompany);
      && requested == Requests(ciks)
      && feed.data == Take(NewestFirst(AllFilings(results, limit), timeOf), limit)
      && (feed.status == "degraded" <==> HasErrors(results))
      && (feed.status == "ok" <==> !HasErrors(results))
      && feed.provenance == Provenance("SEC EDGAR", SearchUrl, now, "Filings",
                                       "Recent filings for CIKs: " + Join(ciks, ", "), Some("revalidate: 600s"))
  {
    if |ciks| == 0 {
      return FilingFeed([], "ok", Provenance("SEC EDGAR", SearchUrl, now, "Filings", "No CIKs provided", None)), [];
    }
    requested := Requests(ciks);
    var results := Results(requested, fetchCompany);
    var allFilings := Collect(results, limit);
    allFilings := NewestFirst(allFilings, timeOf);
    var finalFilings := Take(allFilings, limit);
    var status := "ok";
    if AnyFailed(results) {
      status := "degraded";
    }
    feed := FilingFeed(finalFilings, status,
                       Provenance("SEC EDGAR", SearchUrl, now, "Filings", "Recent filings for CIKs: " + Join(ciks, ", "),
                                  Some("revalidate: 600s")));
  }

  // ---------------------------------------------------------------- lemmas

  /** Each company gives at most `limit` filings, and only answered
   *  companies give any: the merged list is no longer than `limit` times
   *  the number of answers. */
  lemma {:induction false} AtMostLimitPerCompany(results: seq<Option<Submission>>, limit: nat)
    ensures |AllFilings(results, limit)| <= limit * Count(results, Answered)
    decreases |results|
  {
    if |results| > 0 {
      var n := |results| - 1;
      AtMostLimitPerCompany(results[..n], limit);
      CountLast(results, n);
      if results[n].Some? {
        BoundStep(limit, |AllFilings(results[..n], limit)|, Taken(results[n].value, limit), Count(results[..n], Answered));
      }
    }
  }

  /** Counting answers over one more result. */
  lemma CountLast(results: seq<Option<Submission>>, n: nat)
    requires n + 1 == |results|
    ensures Count(results, Answered) == Count(results[..n], Answered) + (if results[n].Some? then 1 else 0)
  {
    CountInit(results, Answered);
  }

  /** One more company adds at most `limit` to a bound of `limit` per answer. */
  lemma BoundStep(limit: nat, before: nat, taken: nat, c: nat)
    requires before <= limit * c && taken <= limit
    ensures before + taken <= limit * (c + 1)
  {
    MulAdd(limit, c, 1);
  }

  lemma MulAdd(a: nat, b: nat, c: nat)
    ensures a * (b + c) == a * b + a * c
  {
  }

  /** Every merged filing comes from an answered company, carries its name
   *  and links into that company's archive. */
  lemma {:induction false} FilingsFromAnsweredCompanies(results: seq<Option<Submission>>, limit: int, f: Filing)
    requires f in AllFilings(results, limit)
    ensures exists i :: (0 <= i < |results| && results[i].Some? && f.company == results[i].value.name
      && StartsWith(f.link, "https://www.sec.gov/Archives/edgar/data/" + results[i].value.cik + "/"))
    decreases |results|
  {
    var n := |results| - 1;
    if f in AllFilings(results[..n], limit) {
      FilingsFromAnsweredCompanies(results[..n], limit, f);
      var i :| 0 <= i < n && results[..n][i].Some? && f.company == results[..n][i].value.name
        && StartsWith(f.link, "https://www.sec.gov/Archives/edgar/data/" + results[..n][i].value.cik + "/");
      assert results[i] == results[..n][i];
    } else {
      var sub := results[n].value;
      var k :| 0 <= k < |CompanyFilings(sub, limit)| && CompanyFilings(sub, limit)[k] == f;
      var head := "https://www.sec.gov/Archives/edgar/data/" + sub.cik + "/";
      assert f.link == head + (Remove(sub.recent.accessionNumber[k], '-') + "/" + Shown(At(sub.recent.primaryDocument, k)));
      assert f.link[..|head|] == head;
    }
  }

  /** The feed is newest first, never longer than `limit`, and made only of
   *  merged filings. */
  lemma FeedOrdered(all: seq<Filing>, limit: int, timeOf: Option<string> -> int)
    ensures var r := Take(NewestFirst(all, timeOf), limit);
      && (forall i, j :: 0 <= i < j < |r| ==> timeOf(r[i].filedAt) >= timeOf(r[j].filedAt))
      && (limit >= 0 ==> |r| <= limit)
      && (forall f :: f in r ==> f in all)
  {
    var s := NewestFirst(all, timeOf);
    var r := Take(s, limit);
    forall f | f in r ensures f in all {
      assert f in multiset(s);
    }
  }

  /** Dashes are dropped from the accession number in the link. */
  lemma LinkHasNoDashedAccession(cik: string, accession: string, document: Option<string>)
    ensures var head := "https://www.sec.gov/Archives/edgar/data/" + cik + "/";
      Link(cik, accession, document)[|head|..|head| + |Remove(accession, '-')|] == Remove(accession, '-')
      && '-' !in Remove(accession, '-')
  {
  }
}
