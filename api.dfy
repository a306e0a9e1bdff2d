/**
 * The processing endpoint's `/process` handler: it shapes one warehouse
 * record from the request and the extraction outcome, attempts exactly one
 * insert, and collapses the outcomes into three statuses.
 */
module Api {

  import opened Wrappers
  import opened Values
  import opened Warehouse

  /** The `/process` request body. */
  datatype ProcessRequest = ProcessRequest(gcsUri: string, name: string, size: int, contentType: Option<string>)

  /**
   * What the extraction model gave back: the parsed JSON object, or the text
   * of the exception that stopped it.
   */
  datatype Extraction = Extracted(result: Dict) | ExtractionFailed(message: string)

  /** The `error` half of the extraction pair. */
  function ErrorOf(e: Extraction): Option<string> {
    if e.ExtractionFailed? then Some(e.message) else None
  }

  /** `if result:` — a parsed, non-empty object. */
  predicate HasResult(e: Extraction) {
    e.Extracted? && Truthy(Obj(e.result))
  }

  const RecordColumns: set<string> :=
    {"document_name", "document_size", "document_type", "processed_at", "extracted_data", "error_message", "gcs_uri"}

  /** The record `/process` hands to the warehouse, before the handler normalises it. */
  function BuildRecord(req: ProcessRequest, e: Extraction, processedAt: string): (r: Dict)
    ensures r.Keys == RecordColumns
    ensures r["document_name"] == Str(req.name) && r["document_size"] == Int(req.size)
    ensures r["gcs_uri"] == Str(req.gcsUri)
    ensures r["processed_at"] == Str(processedAt)
    ensures !HasResult(e) ==> r["document_type"] == Str("Unknown") && r["extracted_data"] == Null
    ensures HasResult(e) ==>
              r["document_type"] == Get(e.result, "document_type") && r["extracted_data"] == Get(e.result, "extracted_data")
    ensures e.Extracted? ==> r["error_message"] == Null
    ensures e.ExtractionFailed? ==> r["error_message"] == Str(e.message)
  {
    var hasResult := HasResult(e);
    map[
      "document_name" := Str(req.name),
      "document_size" := Int(req.size),
      "document_type" := if hasResult then Get(e.result, "document_type") else Str("Unknown"),
      "processed_at" := Str(processedAt),
      "extracted_data" := if hasResult then Get(e.result, "extracted_data") else Null,
      "error_message" := if e.ExtractionFailed? then Str(e.message) else Null,
      "gcs_uri" := Str(req.gcsUri)
    ]
  }

  /**
   * The handler's normalisation of a `/process` record changes only
   * `extracted_data`: the columns stay the same, the handler's own timestamp
   * is kept, and every other column is copied.
   */
  lemma NormalisedRecord(req: ProcessRequest, e: Extraction, processedAt: string,
                         dumps: Value -> string, later: string)
    ensures var row := Normalised(BuildRecord(req, e, processedAt), dumps, later);
            && row.Keys == RecordColumns
            && row["processed_at"] == Str(processedAt)
            && (forall k :: k in RecordColumns && k != "extracted_data" ==> row[k] == BuildRecord(req, e, processedAt)[k])
            && !row["extracted_data"].Obj?
  {
    assert "processed_at" in RecordColumns;
  }

  datatype Status = Success | Failed | PartialSuccess

  /** The `/process` response bodies, one per status. */
  datatype Response =
    | SuccessResponse(documentType: Value)
    | FailedResponse(error: string)
    | PartialSuccessResponse(insertError: Option<string>, documentType: Value)
  {
    function Status(): Status {
      match this
      case SuccessResponse(_) => Success
      case FailedResponse(_) => Failed
      case PartialSuccessResponse(_, _) => PartialSuccess
    }

    /** The JSON object the endpoint returns. */
    function Body(): (body: Dict)
      ensures "status" in body
      ensures "document_type" in body <==> !FailedResponse?
      ensures "error" in body <==> !SuccessResponse?
      ensures body["status"] == Str(match Status()
                                    case Success => "success"
                                    case Failed => "failed"
                                    case PartialSuccess => "partial_success")
      ensures FailedResponse? ==> body["error"] == Str(error)
      ensures PartialSuccessResponse? ==>
                body["error"] == (if insertError.Some? then Str(insertError.value) else Null)
      ensures !FailedResponse? ==> body["document_type"] == documentType
    {
      match this
      case SuccessResponse(t) =>
        map["status" := Str("success"), "document_type" := t]
      case FailedResponse(error) =>
        map["status" := Str("failed"), "error" := Str(error)]
      case PartialSuccessResponse(insertError, t) =>
        map["status" := Str("partial_success"),
            "error" := (if insertError.Some? then Str(insertError.value) else Null),
            "document_type" := t]
    }
  }

  /**
   * The three-way decision after the insert: a failed insert wins, then a
   * truthy extraction error, then success.
   */
  function Decide(inserted: bool, insertError: Option<string>, error: Option<string>, documentType: Value): (r: Response)
    ensures r.Status() == PartialSuccess <==> !inserted
    ensures r.Status() == Failed <==> inserted && TruthyText(error)
    ensures r.Status() == Success <==> inserted && !TruthyText(error)
    ensures r.PartialSuccessResponse? ==> r.insertError == insertError && r.documentType == documentType
    ensures r.FailedResponse? ==> Some(r.error) == error && r.error != ""
    ensures r.SuccessResponse? ==> r.documentType == documentType
  {
    if !inserted then PartialSuccessResponse(insertError, documentType)
    else if TruthyText(error) then FailedResponse(error.value)
    else SuccessResponse(documentType)
  }

  /** The response of `/process` for a request, its extraction outcome and the insert reply. */
  function Respond(req: ProcessRequest, e: Extraction, processedAt: string, reply: InsertReply, show: Value -> string): Response {
    var (inserted, insertError) := InsertResult(reply, show);
    Decide(inserted, insertError, ErrorOf(e), BuildRecord(req, e, processedAt)["document_type"])
  }

  /** A failed insert is reported as partial success, with the insert error and the record's type, whatever the extraction did. */
  lemma InsertFailureIsPartialSuccess(req: ProcessRequest, e: Extraction, processedAt: string, reply: InsertReply, show: Value -> string)
    requires reply != Returned([])
    ensures var r := Respond(req, e, processedAt, reply, show);
            && r.PartialSuccessResponse?
            && r.insertError == InsertResult(reply, show).1 && r.insertError.Some?
            && r.documentType == BuildRecord(req, e, processedAt)["document_type"]
  {
  }

  /** A stored row with a non-empty extraction error is reported as failed, carrying that error and no document type. */
  lemma ExtractionFailureIsFailed(req: ProcessRequest, message: string, processedAt: string, show: Value -> string)
    requires message != ""
    ensures var r := Respond(req, ExtractionFailed(message), processedAt, Returned([]), show);
            r == FailedResponse(message) && "document_type" !in r.Body()
  {
  }

  /** When both steps succeed, the status is success and the type is the one the model reported (or "Unknown" for an empty result). */
  lemma BothSucceedIsSuccess(req: ProcessRequest, result: Dict, processedAt: string, show: Value -> string)
    ensures Respond(req, Extracted(result), processedAt, Returned([]), show)
            == SuccessResponse(if result != map[] then Get(result, "document_type") else Str("Unknown"))
  {
  }

  /**
   * Every pair of outcomes gets exactly one status: partial success for a
   * failed insert, failed for a stored row with an error, success otherwise.
   */
  lemma StatusTable(req: ProcessRequest, e: Extraction, processedAt: string, reply: InsertReply, show: Value -> string)
    ensures var s := Respond(req, e, processedAt, reply, show).Status();
            && (s == PartialSuccess <==> reply != Returned([]))
            && (s == Failed <==> reply == Returned([]) && e.ExtractionFailed? && e.message != "")
            && (s == Success <==> reply == Returned([]) && (e.Extracted? || e.message == ""))
  {
  }

  /**
   * `if error:` tests truthiness, so an extraction that raised with an empty
   * message is reported as success, with type "Unknown".
   */
  lemma EmptyErrorReportsSuccess(req: ProcessRequest, processedAt: string, show: Value -> string)
    ensures Respond(req, ExtractionFailed(""), processedAt, Returned([]), show) == SuccessResponse(Str("Unknown"))
  {
  }

  /**
   * `/process`: build the record stamped with `now`, insert it once through
   * the handler (which may change it in place), then decide the response.
   * `insertNow` is the clock reading the handler would use for a missing timestamp.
   */
  method ProcessDocument(handler: BigQueryHandler, req: ProcessRequest, e: Extraction,
                         now: Timestamp, insertNow: Timestamp, reply: InsertReply,
                         dumps: Value -> string, iso: Timestamp -> string, show: Value -> string)
    returns (response: Response)
    modifies handler.client
    ensures handler.client.inserts
            == old(handler.client.inserts)
               + [InsertCall(handler.tableRef, [Normalised(BuildRecord(req, e, iso(now)), dumps, iso(insertNow))])]
    ensures handler.client.queries == old(handler.client.queries)
    ensures response == Respond(req, e, iso(now), reply, show)
  {
    var record := new Record(BuildRecord(req, e, iso(now)));
    var success, insertError := handler.InsertRecord(record, reply, insertNow, dumps, iso, show);
    NormalisedRecord(req, e, iso(now), dumps, iso(insertNow));
    response := Decide(success, insertError, ErrorOf(e), record.fields["document_type"]);
  }

}
