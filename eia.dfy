/** The EIA connector (packages/connectors/src/eia.ts): the latest WTI and
 *  Brent spot prices and the weekly crude stocks, each with its status and
 *  provenance. What the request and the schema check give is a parameter
 *  (an `Exchange`), and so are `parseFloat` and the clock. */
module Eia {
  import opened Wrappers
  import opened Seqs

  /** A data point's `value` as the body holds it. */
  datatype RawValue = RNum(n: real) | RNull | RStr(s: string)

  datatype RawPoint = RawPoint(period: string, value: RawValue, series: Option<string>)

  /** A data point after the schema, whose transform reads a non-empty string
   *  with `parseFloat` and an empty one as `null`. */
  datatype EiaPoint = EiaPoint(period: string, value: Option<real>, series: Option<string>)

  /** What the request gives: it threw (an `Error` with its message, or
   *  something else), an error status, a body the schema refuses, or the
   *  body's data points. */
  datatype Exchange =
    | ThrewError(message: string)
    | ThrewOther
    | NotOk(status: int, statusText: string)
    | Unparsable
    | Parsed(data: seq<RawPoint>)

  datatype Provenance = Provenance(
    sourceName: string, sourceUrl: string, retrievedAt: string, units: string, notes: string,
    cachePolicy: Option<string>)

  datatype Benchmarks = Benchmarks(wtiPrice: Option<real>, brentPrice: Option<real>, unit: string, lastUpdated: string)

  datatype StockPoint = StockPoint(date: string, value: real)

  datatype Inventories = Inventories(series: seq<StockPoint>, unit: string)

  datatype ApiResponse<T> = ApiResponse(data: Option<T>, status: string, error: Option<string>, provenance: Provenance)

  const BaseUrl := "https://api.eia.gov/v2"

  /** A request to the v2 API: the route, the key and the rest of the query. */
  datatype Request = Request(route: string, apiKey: string, query: string)

  /** The URL a request is sent to. */
  function Url(q: Request): string {
    BaseUrl + q.route + "?api_key=" + q.apiKey + q.query
  }

  /** The schema's transform of one value. */
  function ValueOf(v: RawValue, parseFloat: string -> real): (r: Option<real>)
    ensures v.RNull? ==> r.None?
    ensures v.RNum? ==> r == Some(v.n)
    ensures v.RStr? ==> (r.None? <==> v.s == "")
  {
    match v
    case RNum(n) => Some(n)
    case RNull => None
    case RStr(s) => if s != "" then Some(parseFloat(s)) else None
  }

  function Points(data: seq<RawPoint>, parseFloat: string -> real): (r: seq<EiaPoint>)
    ensures |r| == |data|
    ensures forall i :: 0 <= i < |data| ==>
      r[i] == EiaPoint(data[i].period, ValueOf(data[i].value, parseFloat), data[i].series)
  {
    seq(|data|, i requires 0 <= i < |data| => EiaPoint(data[i].period, ValueOf(data[i].value, parseFloat), data[i].series))
  }

  /** The message of what the `try` block threw, as the `catch` reports it. */
  function Thrown(x: Exchange, notOkText: string): (r: string)
    requires !x.Parsed?
  {
    match x
    case ThrewError(message) => message
    case ThrewOther => "Unknown error"
    case NotOk(_, _) => notOkText
    case Unparsable => "Invalid EIA response structure"
  }

  // ------------------------------------------------------------- benchmarks

  /** The priced series, newest first, ten values at most. */
  const PricesQuery := "&frequency=daily&data[0]=value&data[1]=series&facets[series][]=RWTC&facets[series][]=RBRTE&sort[0][column]=period&sort[0][direction]=desc&length=10"

  function BenchmarkRequest(apiKey: string): Request {
    Request("/petroleum/pri/spt/data/", apiKey, PricesQuery)
  }

  /** A point of the series that has a value. */
  function IsPriced(series: string): EiaPoint -> bool {
    (d: EiaPoint) => d.series == Some(series) && d.value.Some?
  }

  /** `a?.period || b?.period || now`. */
  function LastUpdated(wti: Option<EiaPoint>, brent: Option<EiaPoint>, now: string): string {
    if wti.Some? && wti.value.period != "" then wti.value.period
    else if brent.Some? && brent.value.period != "" then brent.value.period
    else now
  }

  /** `fetchBenchmarkPrices` and the request it sends: none without a key;
   *  otherwise the first priced RWTC and RBRTE points, `ok` only when both
   *  are found, and any failure degraded with its message. */
  function FetchBenchmarkPrices(apiKey: string, reply: Exchange, parseFloat: string -> real,
                                now: string): (r: (ApiResponse<Benchmarks>, Option<Request>))
    ensures apiKey == "" ==> r.1.None? && r.0.data.None? && r.0.status == "degraded"
                             && r.0.error == Some("Missing EIA_API_KEY")
    ensures apiKey != "" ==> r.1 == Some(BenchmarkRequest(apiKey))
    ensures apiKey != "" && !reply.Parsed? ==>
      var x := reply;
      && r.0.data.None? && r.0.status == "degraded"
      && r.0.error == Some(Thrown(x, if x.NotOk? then "EIA API Error: " + IntText(x.status) + " " + x.statusText else ""))
    ensures apiKey != "" && reply.Parsed? ==>
      var data := Points(reply.data, parseFloat);
      var wti := Find(data, IsPriced("RWTC"));
      var brent := Find(data, IsPriced("RBRTE"));
      && r.0.error.None?
      && r.0.data == Some(Benchmarks(if wti.Some? then wti.value.value else None,
                                     if brent.Some? then brent.value.value else None,
                                     "USD/bbl", LastUpdated(wti, brent, now)))
      && (r.0.status == "ok" <==> wti.Some? && brent.Some?)
      && (r.0.status == "degraded" <==> wti.None? || brent.None?)
  {
    if apiKey == "" then
      (ApiResponse(None, "degraded", Some("Missing EIA_API_KEY"),
                   Provenance("EIA", "https://www.eia.gov/opendata/", now, "USD/bbl",
                              "Configuration error: Missing API Key", None)), None)
    else
      var request := BenchmarkRequest(apiKey);
      var x := reply;
      if x.Parsed? then (PricesFound(Points(x.data, parseFloat), now), Some(request))
      else (PricesFailed(x, now), Some(request))
  }

  /** The `try` block's answer for a parsed body. */
  function PricesFound(data: seq<EiaPoint>, now: string): (r: ApiResponse<Benchmarks>)
    ensures var wti := Find(data, IsPriced("RWTC"));
      var brent := Find(data, IsPriced("RBRTE"));
      && r.error.None?
      && r.data == Some(Benchmarks(if wti.Some? then wti.value.value else None,
                                   if brent.Some? then brent.value.value else None,
                                   "USD/bbl", LastUpdated(wti, brent, now)))
      && (r.status == "ok" <==> wti.Some? && brent.Some?)
      && (r.status == "degraded" <==> wti.None? || brent.None?)
  {
    var wti := Find(data, IsPriced("RWTC"));
    var brent := Find(data, IsPriced("RBRTE"));
    ApiResponse(Some(Benchmarks(if wti.Some? then wti.value.value else None,
                                if brent.Some? then brent.value.value else None,
                                "USD/bbl", LastUpdated(wti, brent, now))),
                if wti.Some? && brent.Some? then "ok" else "degraded", None,
                Provenance("U.S. Energy Information Administration (EIA)", "https://www.eia.gov/petroleum/data.php",
                           now, "USD/bbl", "Spot Prices (RWTC, RBRTE)", Some("revalidate: 3600s")))
  }

  /** The `catch` block's answer. */
  function PricesFailed(x: Exchange, now: string): (r: ApiResponse<Benchmarks>)
    requires !x.Parsed?
    ensures r.data.None? && r.status == "degraded"
    ensures r.error == Some(Thrown(x, if x.NotOk? then "EIA API Error: " + IntText(x.status) + " " + x.statusText else ""))
  {
    ApiResponse(None, "degraded",
                Some(Thrown(x, if x.NotOk? then "EIA API Error: " + IntText(x.status) + " " + x.statusText else "")),
                Provenance("EIA", "https://www.eia.gov/", now, "USD/bbl", "Failed to fetch benchmark prices", None))
  }

  /** Decimal text of the status code. */
  function IntText(n: int): string {
    if n < 0 then "-" + NatText(-n) else NatText(n)
  }

  function NatText(n: nat): string
    decreases n
  {
    if n < 10 then [('0' as int + n) as char] else NatText(n / 10) + [('0' as int + n % 10) as char]
  }

  // ------------------------------------------------------------- inventories

  /** The weekly stocks series, newest first, twelve values at most. */
  const StocksQuery := "&frequency=weekly&data[0]=value&facets[series][]=WCRSTUS1&sort[0][column]=period&sort[0][direction]=desc&length=12"

  function InventoryRequest(apiKey: string): Request {
    Request("/petroleum/stoc/wstk/data/", apiKey, StocksQuery)
  }

  predicate Valued(d: EiaPoint) {
    d.value.Some?
  }

  /** `filter(d => d.value !== null).map(d => ({ date: d.period, value: d.value! }))`. */
  function Stocks(data: seq<EiaPoint>): (r: seq<StockPoint>)
    ensures |r| == Count(data, Valued)
  {
    var kept := Filter(data, Valued);
    seq(|kept|, i requires 0 <= i < |kept| => StockPoint(kept[i].period, kept[i].value.value))
  }

  /** `fetchCrudeInventories` and the request it sends: none without a key;
   *  otherwise the valued points in order, `ok` only when there is one, and
   *  any failure degraded with its message. */
  function FetchCrudeInventories(apiKey: string, reply: Exchange, parseFloat: string -> real,
                                 now: string): (r: (ApiResponse<Inventories>, Option<Request>))
    ensures apiKey == "" ==> r.1.None? && r.0.data.None? && r.0.status == "degraded"
                             && r.0.error == Some("Missing EIA_API_KEY")
    ensures apiKey != "" ==> r.1 == Some(InventoryRequest(apiKey))
    ensures apiKey != "" && !reply.Parsed? ==>
      var x := reply;
      && r.0.data.None? && r.0.status == "degraded"
      && r.0.error == Some(Thrown(x, if x.NotOk? then "EIA API Error: " + IntText(x.status) else ""))
    ensures apiKey != "" && reply.Parsed? ==>
      var series := Stocks(Points(reply.data, parseFloat));
      && r.0.error.None?
      && r.0.data == Some(Inventories(series, "Thousand Barrels"))
      && (r.0.status == "ok" <==> |series| > 0)
      && (r.0.status == "degraded" <==> |series| == 0)
  {
    if apiKey == "" then
      (ApiResponse(None, "degraded", Some("Missing EIA_API_KEY"),
                   Provenance("EIA", "https://www.eia.gov/", now, "Mbbl", "Configuration error", None)), None)
    else
      var request := InventoryRequest(apiKey);
      var x := reply;
      if x.Parsed? then (StocksFound(Stocks(Points(x.data, parseFloat)), now), Some(request))
      else (StocksFailed(x, now), Some(request))
  }

  /** The `try` block's answer for a parsed body. */
  function StocksFound(series: seq<StockPoint>, now: string): (r: ApiResponse<Inventories>)
    ensures r.error.None? && r.data == Some(Inventories(series, "Thousand Barrels"))
    ensures r.status == "ok" <==> |series| > 0
    ensures r.status == "degraded" <==> |series| == 0
  {
    ApiResponse(Some(Inventories(series, "Thousand Barrels")), if |series| > 0 then "ok" else "degraded", None,
                Provenance("EIA", "https://www.eia.gov/petroleum/supply/weekly/", now, "Thousand Barrels",
                           "Weekly U.S. Ending Stocks of Crude Oil (WCRSTUS1)", Some("revalidate: 86400s")))
  }

  /** The `catch` block's answer. */
  function StocksFailed(x: Exchange, now: string): (r: ApiResponse<Inventories>)
    requires !x.Parsed?
    ensures r.data.None? && r.status == "degraded"
    ensures r.error == Some(Thrown(x, if x.NotOk? then "EIA API Error: " + IntText(x.status) else ""))
  {
    ApiResponse(None, "degraded", Some(Thrown(x, if x.NotOk? then "EIA API Error: " + IntText(x.status) else "")),
                Provenance("EIA", "https://www.eia.gov/", now, "Mbbl", "Failed to fetch inventory data", None))
  }

  // ---------------------------------------------------------------- lemmas

  /** The prices are those of the first priced point of each series: every
   *  earlier point of that series has no value. */
  lemma PricesAreFirstValued(data: seq<EiaPoint>, series: string)
    ensures var found := Find(data, IsPriced(series));
      && (found.None? <==> forall i :: 0 <= i < |data| ==> data[i].series != Some(series) || data[i].value.None?)
      && (found.Some? ==>
            found.value.value.Some? && found.value.series == Some(series)
            && exists k :: (0 <= k < |data| && data[k] == found.value
                            && forall j :: 0 <= j < k ==> data[j].series != Some(series) || data[j].value.None?))
  {
    var k := FirstIndex(data, IsPriced(series));
    if k >= 0 {
      assert forall j :: 0 <= j < k ==> !IsPriced(series)(data[j]);
    }
  }

  /** The stocks are the valued points and no others, in their order: each
   *  valued point gives a stock reading, and the k-th reading is the k-th
   *  point with a value. */
  lemma StocksAreTheValuedPoints(data: seq<EiaPoint>)
    ensures forall d :: d in data && Valued(d) ==> StockPoint(d.period, d.value.value) in Stocks(data)
    ensures forall k :: 0 <= k < |Stocks(data)| ==>
      Filter(data, Valued)[k] in data && Valued(Filter(data, Valued)[k])
      && Stocks(data)[k] == StockPoint(Filter(data, Valued)[k].period, Filter(data, Valued)[k].value.value)
  {
    var kept := Filter(data, Valued);
    forall d | d in data && Valued(d)
      ensures StockPoint(d.period, d.value.value) in Stocks(data)
    {
      assert d in kept;
      var i :| 0 <= i < |kept| && kept[i] == d;
      assert Stocks(data)[i] == StockPoint(d.period, d.value.value);
    }
  }

  /** An empty string value is `null` and is left out of the stocks, while a
   *  zero stays. */
  lemma EmptyStringIsNull(period: string, parseFloat: string -> real)
    ensures Stocks(Points([RawPoint(period, RStr(""), None)], parseFloat)) == []
    ensures Stocks(Points([RawPoint(period, RNum(0.0), None)], parseFloat)) == [StockPoint(period, 0.0)]
  {
    assert Points([RawPoint(period, RStr(""), None)], parseFloat)[1..] == [];
    assert Points([RawPoint(period, RNum(0.0), None)], parseFloat)[1..] == [];
  }
}
