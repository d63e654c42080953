/** The REST connector (apps/web/lib/production/ingestion/rest-connector.ts):
 *  reads a JSON body, takes the array itself or its `data` member, and
 *  normalises each record into a series point. Anything thrown on the way
 *  (an HTTP error status, an unreadable body, a `null` record, a timestamp
 *  `Date` cannot render) replaces the whole result with one error message.
 *  The HTTP exchange, `String(x)`, `Number(x)` and `toISOString` are
 *  parameters. */
module RestConnector {
  import opened Wrappers
  import opened Strings
  import opened Json
  import opened ProductionDb
  import opened Ingestion

  /** What `await fetch(url)` and `await response.json()` give: a request that
   *  throws, or a response with its status and its body, parsed or not. */
  datatype Response =
    | Unreachable(message: string)
    | Received(ok: bool, status: int, body: Result<Json, string>)

  const NullData := "Cannot read properties of null (reading 'data')"
  const NullRecord := "Cannot read properties of null (reading 'asset_id')"
  const NotIterable := "records.forEach is not a function"
  const InvalidTime := "Invalid time value"

  /** `x.k` of a parsed JSON value that is not `null`: only objects have members. */
  function Field(x: Json, k: string): (r: Option<Json>)
    ensures r.Some? <==> x.JObj? && k in x.fields
  {
    if x.JObj? && k in x.fields then Some(x.fields[k]) else None
  }

  /** `x.k` is present and truthy. */
  predicate Given(x: Json, k: string) {
    Field(x, k).Some? && Truthy(Field(x, k).value)
  }

  /** `x.k || fallback`. */
  function FieldOr(x: Json, k: string, fallback: Json): (r: Json)
    ensures Given(x, k) ==> r == x.fields[k]
    ensures !Given(x, k) ==> r == fallback
  {
    if Given(x, k) then x.fields[k] else fallback
  }

  /** `String(x)`: a string is itself, anything else goes through `show`. */
  function Text(x: Json, show: Json -> string): (r: string)
    ensures x.JStr? ==> r == x.s
  {
    if x.JStr? then x.s else show(x)
  }

  /** `Number(x)`: a number is itself, anything else goes through `toNumber`. */
  function Number(x: Json, toNumber: Json -> real): (r: real)
    ensures x.JNum? ==> r == x.n
  {
    if x.JNum? then x.n else toNumber(x)
  }

  /** `Array.isArray(json) ? json : (json.data || [])`, which `forEach` then
   *  walks: a `null` body and a non-array `data` throw. */
  function Records(json: Json): (r: Result<seq<Json>, string>)
    ensures json.JArr? ==> r == Ok(json.items)
    ensures json.JNull? ==> r == Err(NullData)
    ensures (json.JNum? || json.JStr? || json.JBool?) ==> r == Ok([])
    ensures json.JObj? && !Given(json, "data") ==> r == Ok([])
    ensures json.JObj? && Given(json, "data") && json.fields["data"].JArr? ==> r == Ok(json.fields["data"].items)
    ensures json.JObj? && Given(json, "data") && !json.fields["data"].JArr? ==> r == Err(NotIterable)
  {
    if json.JArr? then Ok(json.items)
    else if json.JNull? then Err(NullData)
    else
      match FieldOr(json, "data", JArr([]))
      case JArr(items) => Ok(items)
      case _ => Err(NotIterable)
  }

  /** `validate`: asset and timestamp truthy, value present. */
  predicate Validate(record: Json) {
    Given(record, "asset_id") && Given(record, "timestamp") && Field(record, "value").Some?
  }

  /** `normalize`: nothing for a record that fails validation, a point for one
   *  that passes; a `null` record and an unrenderable timestamp throw. */
  function Normalize(record: Json, show: Json -> string, isoOf: Json -> Option<string>,
                     toNumber: Json -> real, now: string): (r: Result<Option<SeriesPoint>, string>)
    ensures record.JNull? ==> r == Err(NullRecord)
    ensures !record.JNull? && !Validate(record) ==> r == Ok(None)
    ensures !record.JNull? && Validate(record) && isoOf(record.fields["timestamp"]).None? ==> r == Err(InvalidTime)
    ensures r.Ok? ==> (r.value.None? <==> !Validate(record))
    ensures r.Ok? && r.value.Some? ==> (
      var p := r.value.value;
      && p.assetId == Text(record.fields["asset_id"], show)
      && p.timestamp == isoOf(record.fields["timestamp"]).value
      && p.value == Number(record.fields["value"], toNumber)
      && p.sourceSystem == "REST_API" && p.ingestedAt == now
      && (Given(record, "series_id") ==> p.seriesId == Text(record.fields["series_id"], show))
      && (!Given(record, "series_id") ==>
            p.seriesId == Text(record.fields["asset_id"], show) + "-" +
                          Text(FieldOr(record, "measurement", JStr("unknown")), show))
      && p.measurement == Text(FieldOr(record, "measurement", JStr("OIL_RATE")), show)
      && p.unit == Text(FieldOr(record, "unit", JStr("bbl/d")), show)
      && p.qualityFlags == FieldOr(record, "quality_flags", JArr([]))
      && p.tags == FieldOr(record, "tags", JObj(map[])))
  {
    if record.JNull? then Err(NullRecord)
    else if !Validate(record) then Ok(None)
    else
      var assetId := Text(record.fields["asset_id"], show);
      var seriesId :=
        if Given(record, "series_id") then Text(record.fields["series_id"], show)
        else assetId + "-" + Text(FieldOr(record, "measurement", JStr("unknown")), show);
      match isoOf(record.fields["timestamp"])
      case None => Err(InvalidTime)
      case Some(timestamp) =>
        Ok(Some(SeriesPoint(assetId, seriesId, timestamp, Number(record.fields["value"], toNumber),
                            Text(FieldOr(record, "measurement", JStr("OIL_RATE")), show),
                            Text(FieldOr(record, "unit", JStr("bbl/d")), show), "REST_API", now,
                            FieldOr(record, "quality_flags", JArr([])), FieldOr(record, "tags", JObj(map[])))))
  }

  /** The message for the record at `index` that fails validation. */
  function RecordError(index: nat): string {
    "Record " + NatToString(index) + ": Validation failed"
  }

  /** One `forEach` step: the record at `index` added to the walk so far. */
  function WalkNext(sofar: Result<(seq<SeriesPoint>, seq<string>), string>, record: Json, index: nat,
                    show: Json -> string, isoOf: Json -> Option<string>, toNumber: Json -> real,
                    now: string): (r: Result<(seq<SeriesPoint>, seq<string>), string>)
    ensures sofar.Err? ==> r == sofar
    ensures record.JNull? ==> r.Err?
    ensures sofar.Ok? && r.Ok? ==>
      |r.value.0| + |r.value.1| == |sofar.value.0| + |sofar.value.1| + 1
  {
    match sofar
    case Err(e) => Err(e)
    case Ok((data, errors)) =>
      match Normalize(record, show, isoOf, toNumber, now)
      case Err(e) => Err(e)
      case Ok(Some(p)) => Ok((data + [p], errors))
      case Ok(None) => Ok((data, errors + [RecordError(index)]))
  }

  /** The `forEach` over the records: the points and messages so far, or the
   *  message of the first record that throws. */
  function Walk(records: seq<Json>, show: Json -> string, isoOf: Json -> Option<string>,
                toNumber: Json -> real, now: string): (r: Result<(seq<SeriesPoint>, seq<string>), string>)
    ensures r.Ok? ==> |r.value.0| + |r.value.1| == |records|
    ensures r.Ok? ==> forall i :: 0 <= i < |records| ==> !records[i].JNull?
    decreases |records|
  {
    if |records| == 0 then Ok(([], []))
    else
      var n := |records| - 1;
      WalkNext(Walk(records[..n], show, isoOf, toNumber, now), records[n], n, show, isoOf, toNumber, now)
  }

  /** The records a response yields, or the message of what it throws
   *  before the walk. */
  function Body(response: Response): (r: Result<seq<Json>, string>)
    ensures response.Unreachable? ==> r == Err(response.message)
    ensures response.Received? && !response.ok ==> r == Err("HTTP error! status: " + IntToString(response.status))
  {
    match response
    case Unreachable(message) => Err(message)
    case Received(ok, status, body) =>
      if !ok then Err("HTTP error! status: " + IntToString(status))
      else
        match body
        case Err(e) => Err(e)
        case Ok(json) => Records(json)
  }

  /** The envelope of a fetch that threw `message`. */
  function Failure(url: string, message: string, now: string): (r: IngestionResult)
    ensures r.data == [] && r.errors == [message]
    ensures r.metadata == Metadata(0, 0, 0, url, now)
  {
    IngestionResult([], [message], Metadata(0, 0, 0, url, now))
  }

  /** One more record of the walk. */
  lemma WalkStep(records: seq<Json>, i: nat, show: Json -> string, isoOf: Json -> Option<string>,
                 toNumber: Json -> real, now: string)
    requires i < |records|
    ensures Walk(records[..i + 1], show, isoOf, toNumber, now) ==
      WalkNext(Walk(records[..i], show, isoOf, toNumber, now), records[i], i, show, isoOf, toNumber, now)
  {
    assert records[..i + 1][..i] == records[..i];
  }

  /** `fetch`: the walk's points and messages with counts that add up, or, if
   *  anything threw, no points, that one message and zero counts. */
  method Fetch(url: string, response: Response, show: Json -> string, isoOf: Json -> Option<string>,
               toNumber: Json -> real, now: string)
    returns (r: IngestionResult)
    ensures r.metadata.source == url && r.metadata.timestamp == now
    ensures Body(response).Err? ==> r == Failure(url, Body(response).error, now)
    ensures Body(response).Ok? && Walk(Body(response).value, show, isoOf, toNumber, now).Err? ==>
      r == Failure(url, Walk(Body(response).value, show, isoOf, toNumber, now).error, now)
    ensures Body(response).Ok? && Walk(Body(response).value, show, isoOf, toNumber, now).Ok? ==>
      && r.data == Walk(Body(response).value, show, isoOf, toNumber, now).value.0
      && r.errors == Walk(Body(response).value, show, isoOf, toNumber, now).value.1
      && Consistent(r) && r.metadata.totalRecords == |Body(response).value|
  {
    var body := Body(response);
    if body.Err? {
      return Failure(url, body.error, now);
    }
    var records := body.value;
    var validData: seq<SeriesPoint> := [];
    var errors: seq<string> := [];
    var index := 0;
    while index < |records|
      invariant 0 <= index <= |records|
      invariant Walk(records[..index], show, isoOf, toNumber, now) == Ok((validData, errors))
    {
      WalkStep(records, index, show, isoOf, toNumber, now);
      var normalized := Normalize(records[index], show, isoOf, toNumber, now);
      if normalized.Err? {
        WalkFailureSticks(records, index + 1, show, isoOf, toNumber, now);
        return Failure(url, normalized.error, now);
      }
      if normalized.value.Some? {
        validData := validData + [normalized.value.value];
      } else {
        errors := errors + [RecordError(index)];
      }
      index := index + 1;
    }
    assert records[..|records|] == records;
    r := IngestionResult(validData, errors, Metadata(|records|, |validData|, |errors|, url, now));
  }

  // ---------------------------------------------------------------- lemmas

  /** Once a record throws, the walk of every longer prefix fails with the
   *  same message. */
  lemma {:induction false} WalkFailureSticks(records: seq<Json>, i: nat, show: Json -> string,
                                             isoOf: Json -> Option<string>, toNumber: Json -> real, now: string)
    requires i <= |records|
    requires Walk(records[..i], show, isoOf, toNumber, now).Err?
    ensures Walk(records, show, isoOf, toNumber, now) == Walk(records[..i], show, isoOf, toNumber, now)
    decreases |records| - i
  {
    if i < |records| {
      WalkStep(records, i, show, isoOf, toNumber, now);
      WalkFailureSticks(records, i + 1, show, isoOf, toNumber, now);
    } else {
      assert records[..i] == records;
    }
  }

  /** A record with a value of `0` passes validation: only a missing value
   *  is rejected. */
  lemma ZeroValuePasses(assetId: string, timestamp: string)
    requires assetId != "" && timestamp != ""
    ensures Validate(JObj(map["asset_id" := JStr(assetId), "timestamp" := JStr(timestamp), "value" := JNum(0.0)]))
  {
    var record := JObj(map["asset_id" := JStr(assetId), "timestamp" := JStr(timestamp), "value" := JNum(0.0)]);
    assert Field(record, "asset_id") == Some(JStr(assetId));
    assert Field(record, "timestamp") == Some(JStr(timestamp));
  }
}
