/** The error and success envelopes of the data routes (apps/web/lib/errors.ts).
 *  What a route catches is a `DataError`, another `Error`, or any other
 *  thrown value. */
module Errors {
  import opened Wrappers
  import opened Json
  import opened DataFabric

  /** `DataError`: a message with a code, an HTTP status and optional
   *  details. */
  datatype DataError = DataError(message: string, code: string, status: int, details: Option<Json>)

  datatype Thrown = ThrownDataError(error: DataError) | ThrownError(message: string) | ThrownOther

  datatype ErrorInfo = ErrorInfo(code: string, message: string, details: Option<Json>)

  /** `DataEnvelope<T>`: `data` is null unless the status is `ok`. */
  datatype Envelope<T> = Envelope(
    status: string, data: Option<T>, error: Option<ErrorInfo>, provenance: Option<Provenance>)

  /** `new DataError(message, code?, status?, details?)`: the code defaults
   *  to `UNKNOWN_ERROR` and the status to 500. */
  function NewDataError(message: string, code: Option<string>, status: Option<int>, details: Option<Json>)
    : (r: DataError)
    ensures r.message == message && r.details == details
    ensures r.code == code.GetOr("UNKNOWN_ERROR") && r.status == status.GetOr(500)
  {
    DataError(message, code.GetOr("UNKNOWN_ERROR"), status.GetOr(500), details)
  }

  /** `createErrorEnvelope`: always degraded and without data; a `DataError`
   *  keeps its code, message and details, another `Error` becomes an
   *  internal error with its message, anything else an unknown error. */
  function CreateErrorEnvelope<T>(thrown: Thrown): (r: Envelope<T>)
    ensures r.status == "degraded" && r.data.None? && r.error.Some? && r.provenance.None?
    ensures thrown.ThrownDataError? ==>
      r.error.value == ErrorInfo(thrown.error.code, thrown.error.message, thrown.error.details)
    ensures thrown.ThrownError? ==> r.error.value == ErrorInfo("INTERNAL_ERROR", thrown.message, None)
    ensures thrown.ThrownOther? ==> r.error.value == ErrorInfo("UNKNOWN_ERROR", "An unknown error occurred.", None)
  {
    match thrown
    case ThrownDataError(e) => Envelope("degraded", None, Some(ErrorInfo(e.code, e.message, e.details)), None)
    case ThrownError(message) => Envelope("degraded", None, Some(ErrorInfo("INTERNAL_ERROR", message, None)), None)
    case ThrownOther =>
      Envelope("degraded", None, Some(ErrorInfo("UNKNOWN_ERROR", "An unknown error occurred.", None)), None)
  }

  /** `createSuccessEnvelope`: `ok` with the data and provenance as given. */
  function CreateSuccessEnvelope<T>(data: T, provenance: Option<Provenance>): (r: Envelope<T>)
    ensures r.status == "ok" && r.data == Some(data) && r.provenance == provenance && r.error.None?
  {
    Envelope("ok", Some(data), None, provenance)
  }

  // ---------------------------------------------------------------- lemmas

  /** An envelope carries data exactly when it is a success envelope. */
  lemma DataOnlyWhenOk<T>(thrown: Thrown, data: T, provenance: Option<Provenance>)
    ensures CreateErrorEnvelope<T>(thrown).data.None? && CreateErrorEnvelope<T>(thrown).status != "ok"
    ensures CreateSuccessEnvelope(data, provenance).data.Some?
  {
  }

  /** A `DataError` built with only a message reports `UNKNOWN_ERROR`, just
   *  like a thrown non-error, but keeps its own message. */
  lemma DefaultDataErrorIsUnknown(message: string)
    ensures var e := CreateErrorEnvelope<bool>(ThrownDataError(NewDataError(message, None, None, None)));
      e.error.value.code == "UNKNOWN_ERROR" && e.error.value.message == message
  {
  }
}
