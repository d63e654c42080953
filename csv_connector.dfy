/** The CSV connector (apps/web/lib/production/ingestion/csv-connector.ts):
 *  splits an upload into header and rows, turns each row with the right
 *  number of fields into a record, and normalises the records into series
 *  points. `parseFloat` (`None` for NaN) and the ISO rendering of a date
 *  (`None` when `toISOString` throws) are parameters. */
module CsvConnector {
  import opened Wrappers
  import opened Strings
  import opened Json
  import opened ProductionDb
  import opened Ingestion

  /** A parsed row: header name to field text. */
  type CsvRecord = map<string, string>

  /** `line.split(',').map(v => v.trim())`. */
  function Fields(line: string): (r: seq<string>)
    ensures |r| == |Split(line, ',')|
  {
    var parts := Split(line, ',');
    seq(|parts|, i requires 0 <= i < |parts| => Trim(parts[i]))
  }

  /** `headers.forEach((h, i) => record[h] = values[i])`: a later column
   *  with a repeated header overwrites an earlier one. */
  function RecordOf(headers: seq<string>, values: seq<string>): (r: CsvRecord)
    requires |headers| == |values|
    ensures r.Keys == HeaderSet(headers)
    ensures forall i :: 0 <= i < |headers| && LastOf(headers, i) ==> r[headers[i]] == values[i]
    decreases |headers|
  {
    if |headers| == 0 then map[]
    else
      var n := |headers| - 1;
      var earlier := RecordOf(headers[..n], values[..n]);
      RecordStep(headers, values, headers[..n], values[..n], earlier);
      earlier[headers[n] := values[n]]
  }

  /** One more column extends the record of the columns before it. */
  lemma RecordStep(headers: seq<string>, values: seq<string>, init: seq<string>, vals: seq<string>,
                   earlier: CsvRecord)
    requires |headers| == |values| > 0
    requires init == headers[..|headers| - 1] && vals == values[..|values| - 1]
    requires earlier.Keys == HeaderSet(init)
    requires forall i :: 0 <= i < |init| && LastOf(init, i) ==> earlier[init[i]] == vals[i]
    ensures earlier[headers[|headers| - 1] := values[|headers| - 1]].Keys == HeaderSet(headers)
    ensures forall i :: 0 <= i < |headers| && LastOf(headers, i)
              ==> earlier[headers[|headers| - 1] := values[|headers| - 1]][headers[i]] == values[i]
  {
    var n := |headers| - 1;
    assert headers == headers[..n] + [headers[n]];
    assert HeaderSet(headers) == HeaderSet(headers[..n]) + {headers[n]};
    forall i | 0 <= i < |headers| && LastOf(headers, i)
      ensures earlier[headers[n] := values[n]][headers[i]] == values[i]
    {
      if i < n {
        assert headers[n] != headers[i];
        assert LastOf(headers[..n], i);
      }
    }
  }

  /** The header names of a row. */
  function HeaderSet(headers: seq<string>): set<string> {
    set h | h in headers
  }



  /** Column `i` is the last one carrying its header. */
  predicate LastOf(headers: seq<string>, i: nat)
    requires i < |headers|
  {
    forall j :: i < j < |headers| ==> headers[j] != headers[i]
  }

  /** The records of the data lines whose field count equals the header's. */
  function Rows(headers: seq<string>, lines: seq<string>): (r: seq<CsvRecord>)
    ensures |r| <= |lines|
    decreases |lines|
  {
    if |lines| == 0 then []
    else
      var n := |lines| - 1;
      var values := Fields(lines[n]);
      if |values| == |headers| then Rows(headers, lines[..n]) + [RecordOf(headers, values)]
      else Rows(headers, lines[..n])
  }

  /** `content.trim().split('\n')`. */
  function Lines(content: string): seq<string> {
    Split(Trim(content), '\n')
  }

  /** What `parseCsv` returns: nothing for fewer than two lines, otherwise
   *  the well-formed rows under the first line's headers. */
  function Parsed(content: string): (r: seq<CsvRecord>)
    ensures |r| < |Lines(content)|
  {
    var lines := Lines(content);
    if |lines| < 2 then [] else Rows(Fields(lines[0]), lines[1..])
  }

  /** The record of one row, one column at a time. */
  method BuildRecord(headers: seq<string>, values: seq<string>) returns (record: CsvRecord)
    requires |headers| == |values|
    ensures record == RecordOf(headers, values)
  {
    record := map[];
    var j := 0;
    while j < |headers|
      invariant 0 <= j <= |headers|
      invariant record == RecordOf(headers[..j], values[..j])
    {
      record := record[headers[j] := values[j]];
      assert headers[..j + 1][..j] == headers[..j];
      assert values[..j + 1][..j] == values[..j];
      j := j + 1;
    }
    assert headers[..|headers|] == headers && values[..|values|] == values;
  }

  /** The rows of the first `i + 1` lines: those of the first `i`, and the
   *  record of line `i` when its field count is right. */
  lemma RowsStep(headers: seq<string>, body: seq<string>, i: nat)
    requires i < |body|
    ensures Rows(headers, body[..i + 1]) ==
      if |Fields(body[i])| == |headers| then Rows(headers, body[..i]) + [RecordOf(headers, Fields(body[i]))]
      else Rows(headers, body[..i])
  {
    assert body[..i + 1][..i] == body[..i];
    assert body[..i + 1][i] == body[i];
    RowsLast(headers, body[..i + 1]);
  }

  /** `Rows` of a non-empty list of lines, unfolded once. */
  lemma RowsLast(headers: seq<string>, ls: seq<string>)
    requires |ls| > 0
    ensures Rows(headers, ls) ==
      var values := Fields(ls[|ls| - 1]);
      if |values| == |headers| then Rows(headers, ls[..|ls| - 1]) + [RecordOf(headers, values)]
      else Rows(headers, ls[..|ls| - 1])
  {
  }

  /** `parseCsv`, line by line. */
  method ParseCsv(content: string) returns (data: seq<CsvRecord>)
    ensures data == Parsed(content)
  {
    var lines := Lines(content);
    if |lines| < 2 {
      return [];
    }
    data := ParseRows(Fields(lines[0]), lines[1..]);
  }

  /** The loop of `parseCsv` over the data lines: keep a record for each
   *  line with as many fields as there are headers. */
  method ParseRows(headers: seq<string>, body: seq<string>) returns (data: seq<CsvRecord>)
    ensures data == Rows(headers, body)
  {
    data := [];
    var i := 0;
    while i < |body|
      invariant 0 <= i <= |body|
      invariant data == Rows(headers, body[..i])
    {
      var values := Fields(body[i]);
      RowsStep(headers, body, i);
      if |values| == |headers| {
        var record := BuildRecord(headers, values);
        data := data + [record];
      }
      i := i + 1;
    }
    assert body[..i] == body;
  }

  /** `record.k` is present and not empty. */
  predicate Has(record: CsvRecord, k: string) {
    k in record && record[k] != ""
  }

  /** `validate`: asset, date, value and measure are all given. */
  predicate Validate(record: CsvRecord) {
    Has(record, "asset_id") && Has(record, "date") && Has(record, "value") && Has(record, "measure")
  }

  /** The measurement named by a `measure` field, case-insensitively;
   *  anything unknown is oil. */
  function MeasurementOf(measure: string): (r: string)
    ensures r in {"OIL_RATE", "GAS_RATE", "WATER_RATE", "PRESSURE_TUBING"}
    ensures ToLower(measure) == "gas" <==> r == "GAS_RATE"
    ensures ToLower(measure) == "water" <==> r == "WATER_RATE"
    ensures ToLower(measure) == "pressure" <==> r == "PRESSURE_TUBING"
    ensures r == "OIL_RATE" <==> ToLower(measure) !in {"gas", "water", "pressure"}
  {
    var m := ToLower(measure);
    if m == "oil" then "OIL_RATE"
    else if m == "gas" then "GAS_RATE"
    else if m == "water" then "WATER_RATE"
    else if m == "pressure" then "PRESSURE_TUBING"
    else "OIL_RATE"
  }

  /** `record.unit ||` the measurement's default unit. */
  function UnitOf(record: CsvRecord, measurement: string): (r: string)
    ensures Has(record, "unit") ==> r == record["unit"]
    ensures !Has(record, "unit") ==> r == if measurement == "GAS_RATE" then "mcf" else "bbl"
  {
    if Has(record, "unit") then record["unit"] else if measurement == "GAS_RATE" then "mcf" else "bbl"
  }

  /** A record `normalize` turns into a point: valid, with a value that
   *  parses and a date that renders. */
  predicate Accepted(record: CsvRecord, parseFloat: string -> Option<real>, isoOf: string -> Option<string>) {
    Validate(record) && parseFloat(record["value"]).Some? && isoOf(record["date"]).Some?
  }

  /** `normalize`: a point for a valid record whose value parses and whose
   *  date renders, otherwise nothing. */
  function Normalize(record: CsvRecord, parseFloat: string -> Option<real>, isoOf: string -> Option<string>,
                     now: string): (r: Option<SeriesPoint>)
    ensures r.Some? <==> Accepted(record, parseFloat, isoOf)
    ensures r.Some? ==>
      && r.value.assetId == record["asset_id"]
      && r.value.seriesId == record["asset_id"] + "-" + record["measure"]
      && r.value.value == parseFloat(record["value"]).value
      && r.value.measurement == MeasurementOf(record["measure"])
      && r.value.unit == UnitOf(record, r.value.measurement)
      && r.value.sourceSystem == "CSV_UPLOAD"
  {
    if !Validate(record) then None
    else
      var value := parseFloat(record["value"]);
      if value.None? then None
      else
        var measure := MeasurementOf(record["measure"]);
        match isoOf(record["date"])
        case None => None
        case Some(timestamp) =>
          Some(SeriesPoint(record["asset_id"], record["asset_id"] + "-" + record["measure"], timestamp,
                           value.value, measure, UnitOf(record, measure), "CSV_UPLOAD", now,
                           JArr([]), JObj(map[])))
  }

  /** `Row <index + 2>: Invalid data format`, for the record at position
   *  `index` among the parsed records; the number is the record's line in
   *  the file only when no earlier line was dropped for its field count. */
  function RowError(index: nat): string {
    "Row " + NatToString(index + 2) + ": Invalid data format"
  }

  /** The points of the records that normalise, in order. */
  function ValidOf(records: seq<CsvRecord>, parseFloat: string -> Option<real>, isoOf: string -> Option<string>,
                   now: string): (r: seq<SeriesPoint>)
    ensures |r| <= |records|
    decreases |records|
  {
    if |records| == 0 then []
    else
      var n := |records| - 1;
      var rest := ValidOf(records[..n], parseFloat, isoOf, now);
      match Normalize(records[n], parseFloat, isoOf, now)
      case Some(p) => rest + [p]
      case None => rest
  }

  /** The messages of the records that do not normalise, in order. */
  function ErrorsOf(records: seq<CsvRecord>, parseFloat: string -> Option<real>, isoOf: string -> Option<string>,
                    now: string): (r: seq<string>)
    ensures |r| <= |records|
    decreases |records|
  {
    if |records| == 0 then []
    else
      var n := |records| - 1;
      var rest := ErrorsOf(records[..n], parseFloat, isoOf, now);
      if Accepted(records[n], parseFloat, isoOf) then rest else rest + [RowError(n)]
  }

  /** Every record gives either a point or a message. */
  lemma {:induction false} EachRecordCounted(records: seq<CsvRecord>, parseFloat: string -> Option<real>,
                                             isoOf: string -> Option<string>, now: string)
    ensures |ValidOf(records, parseFloat, isoOf, now)| + |ErrorsOf(records, parseFloat, isoOf, now)| == |records|
    decreases |records|
  {
    if |records| > 0 {
      EachRecordCounted(records[..|records| - 1], parseFloat, isoOf, now);
    }
  }

  /** The points and messages of one more record. */
  lemma OutcomeStep(records: seq<CsvRecord>, i: nat, parseFloat: string -> Option<real>,
                    isoOf: string -> Option<string>, now: string)
    requires i < |records|
    ensures var p := Normalize(records[i], parseFloat, isoOf, now);
      && ValidOf(records[..i + 1], parseFloat, isoOf, now) ==
         ValidOf(records[..i], parseFloat, isoOf, now) + (if p.Some? then [p.value] else [])
      && ErrorsOf(records[..i + 1], parseFloat, isoOf, now) ==
         ErrorsOf(records[..i], parseFloat, isoOf, now) + (if p.Some? then [] else [RowError(i)])
  {
    assert records[..i + 1][..i] == records[..i];
  }

  /** `fetch`: every parsed record either becomes a point or an error
   *  message, and the counts add up. */
  method Fetch(content: string, parseFloat: string -> Option<real>, isoOf: string -> Option<string>, now: string)
    returns (r: IngestionResult)
    ensures Consistent(r)
    ensures r.metadata.totalRecords == |Parsed(content)|
    ensures r.data == ValidOf(Parsed(content), parseFloat, isoOf, now)
    ensures r.errors == ErrorsOf(Parsed(content), parseFloat, isoOf, now)
    ensures r.metadata.source == "CSV" && r.metadata.timestamp == now
  {
    var rawData := ParseCsv(content);
    var validData, errors := NormalizeAll(rawData, parseFloat, isoOf, now);
    EachRecordCounted(rawData, parseFloat, isoOf, now);
    r := IngestionResult(validData, errors, Metadata(|rawData|, |validData|, |errors|, "CSV", now));
  }

  /** The loop of `fetch`: normalise each record or note its row as failed. */
  method NormalizeAll(rawData: seq<CsvRecord>, parseFloat: string -> Option<real>, isoOf: string -> Option<string>,
                      now: string)
    returns (validData: seq<SeriesPoint>, errors: seq<string>)
    ensures validData == ValidOf(rawData, parseFloat, isoOf, now)
    ensures errors == ErrorsOf(rawData, parseFloat, isoOf, now)
  {
    validData, errors := [], [];
    var index := 0;
    while index < |rawData|
      invariant 0 <= index <= |rawData|
      invariant validData == ValidOf(rawData[..index], parseFloat, isoOf, now)
      invariant errors == ErrorsOf(rawData[..index], parseFloat, isoOf, now)
    {
      var normalized := Normalize(rawData[index], parseFloat, isoOf, now);
      OutcomeStep(rawData, index, parseFloat, isoOf, now);
      if normalized.Some? {
        validData := validData + [normalized.value];
      } else {
        errors := errors + [RowError(index)];
      }
      index := index + 1;
    }
    assert rawData[..|rawData|] == rawData;
  }

  // ---------------------------------------------------------------- lemmas

  /** A file with a header line only, or an empty one, gives no records. */
  lemma HeaderOnlyGivesNothing(header: string)
    requires '\n' !in header
    ensures |Lines(header)| < 2
  {
    var t := Trim(header);
    var k :| 0 <= k <= |header| - |t| && OccursAt(header, t, k);
    forall i | 0 <= i < |t| ensures t[i] != '\n' {
      assert t[i] == header[k..k + |t|][i] == header[k + i];
    }
    SplitWithoutSeparator(t, '\n');
  }

  lemma SplitWithoutSeparator(s: string, sep: char)
    requires sep !in s
    ensures Split(s, sep) == [s]
  {
    BeforeIsFirstPart(s, sep);
    JoinSplit(s, sep);
  }

  /** A valid record is normalised with the measurement its measure names;
   *  gas defaults to mcf, everything else to bbl. */
  lemma GasDefaultsToMcf(record: CsvRecord, parseFloat: string -> Option<real>, isoOf: string -> Option<string>,
                         now: string)
    requires Validate(record) && !Has(record, "unit") && ToLower(record["measure"]) == "gas"
    requires parseFloat(record["value"]).Some? && isoOf(record["date"]).Some?
    ensures var p := Normalize(record, parseFloat, isoOf, now);
      p.Some? && p.value.measurement == "GAS_RATE" && p.value.unit == "mcf"
  {
  }

  /** A record missing any of the four required fields is rejected. */
  lemma MissingFieldRejected(record: CsvRecord, parseFloat: string -> Option<real>, isoOf: string -> Option<string>,
                             now: string)
    requires !Has(record, "asset_id") || !Has(record, "date") || !Has(record, "value") || !Has(record, "measure")
    ensures Normalize(record, parseFloat, isoOf, now).None?
  {
  }
}
