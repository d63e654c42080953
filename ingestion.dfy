/** What every ingestion connector returns (`IngestionResult` of
 *  apps/web/lib/production/ingestion): the normalised points, one message
 *  per rejected record, and the counts. */
module Ingestion {
  import opened ProductionDb

  datatype Metadata = Metadata(
    totalRecords: nat, validRecords: nat, failedRecords: nat, source: string, timestamp: string)

  datatype IngestionResult = IngestionResult(data: seq<SeriesPoint>, errors: seq<string>, metadata: Metadata)

  /** The counts agree with the data and the errors. */
  predicate Consistent(r: IngestionResult) {
    && r.metadata.validRecords == |r.data|
    && r.metadata.failedRecords == |r.errors|
    && r.metadata.totalRecords == r.metadata.validRecords + r.metadata.failedRecords
  }
}
