/**
 * `handler`: the function-URL entry point. It answers a CORS preflight at
 * once; otherwise it validates the request, runs the stages in order (text,
 * fields, stored record, purchase order, PDF report, summary) and answers
 * 200 with all of their results, or 500 with the message of the first
 * exception any of them raises.
 *
 * Every library and service the stages call is a field of `Services`; the
 * identifiers and clock readings the run draws are the fields of `Fresh`.
 */
module Handler {
  import opened Values
  import opened Text
  import opened Decimals
  import opened TextExtraction
  import opened FieldExtraction
  import opened Normalization
  import opened PurchaseOrders
  import opened Reports

  datatype Services = Services(
    parseJson: string -> Result<Json>,              // json.loads on the request body
    decodeBase64: Json -> Result<Bytes>,            // base64.b64decode
    libraries: Libraries,
    readPdf: Bytes -> Result<PdfContent>,
    readWord: Bytes -> Result<seq<string>>,
    show: Json -> string,                           // str() of a value that is not a string
    invokeModel: string -> Result<string>,          // the model call, prompt to reply text
    parseObject: string -> Result<map<string, Json>>,  // json.loads on the reply's span
    putItem: Quotation -> Option<string>,           // table.put_item: the error it raises, if any
    renderPdf: PdfFields -> Result<Bytes>,          // FPDF layout and output
    putObject: Uploader,
    bucketEnv: Option<string>)                      // the S3_BUCKET variable

  /** The values `uuid.uuid4()` and the clocks yield during one request. */
  datatype Fresh = Fresh(
    quotationId: string,
    poUuid: string,
    poStamp: string,      // %Y%m%d
    poDate: string,       // %Y-%m-%d
    processedAt: string,  // utcnow().isoformat()
    today: string,        // %Y-%m-%d, the PDF's date when the order has none
    summaryTime: string)  // now().isoformat()

  datatype Body =
    | NoContent
    | Success(quotationId: string, extractedData: map<string, Json>, purchaseOrder: PurchaseOrder,
              pdfUrl: string, summary: Summary)
    | Failure(error: string)

  datatype Response = Response(statusCode: int, headers: map<string, string>, body: Body)

  /** The response, and the record handed to the quotations table, if the run got that far. */
  datatype Outcome = Outcome(response: Response, stored: Option<Quotation>)

  /** A decoded request: the file bytes and the declared name and media type. */
  datatype Upload = Upload(content: Bytes, fileName: Json, fileType: Json)

  const NoBody: string := "No body in request"
  const NoFile: string := "No file in request body"
  const DefaultFileName: string := "unknown.pdf"

  const CorsHeaders: map<string, string> :=
    map["Access-Control-Allow-Origin" := "*",
        "Access-Control-Allow-Headers" := "Content-Type",
        "Access-Control-Allow-Methods" := "POST,OPTIONS"]

  const PreflightHeaders: map<string, string> := CorsHeaders["Access-Control-Max-Age" := "86400"]

  const JsonHeaders: map<string, string> := CorsHeaders["Content-Type" := "application/json"]

  const Preflight: Response := Response(200, PreflightHeaders, NoContent)

  function ErrorResponse(message: string): Response {
    Response(500, JsonHeaders, Failure(message))
  }

  /**
   * `event.get('requestContext', {}).get('http', {}).get('method', 'POST')`;
   * a present value that is not a dict has no `.get` and raises.
   */
  function RequestMethod(event: map<string, Json>): (r: Result<Json>)
    ensures "requestContext" !in event ==> r == Ok(JStr("POST"))
    ensures "requestContext" in event && !event["requestContext"].JObj? ==> r.Err?
    ensures r.Ok? && r != Ok(JStr("POST")) ==>
      && "requestContext" in event && event["requestContext"].JObj?
      && var context := event["requestContext"].fields;
      && "http" in context && context["http"].JObj? && "method" in context["http"].fields
      && r.value == context["http"].fields["method"]
    ensures "requestContext" in event && event["requestContext"].JObj? ==>
      var context := event["requestContext"].fields;
      && ("http" !in context ==> r == Ok(JStr("POST")))
      && ("http" in context && !context["http"].JObj? ==> r.Err?)
      && ("http" in context && context["http"].JObj? && "method" in context["http"].fields
          ==> r == Ok(context["http"].fields["method"]))
      && ("http" in context && context["http"].JObj? && "method" !in context["http"].fields
          ==> r == Ok(JStr("POST")))
  {
    var context := GetOr(event, "requestContext", JObj(map[]));
    if !context.JObj? then Err("object has no attribute 'get'")
    else
      var http := GetOr(context.fields, "http", JObj(map[]));
      if !http.JObj? then Err("object has no attribute 'get'")
      else Ok(GetOr(http.fields, "method", JStr("POST")))
  }

  /** `key in container`: dict keys, list elements or substrings; other values raise. */
  function HasKey(key: string, container: Json): (r: Result<bool>)
    ensures r.Err? <==> !(container.JObj? || container.JArr? || container.JStr?)
    ensures container.JObj? ==> r == Ok(key in container.fields)
    ensures container.JStr? ==> r == Ok(Contains(container.s, key))
    ensures container.JArr? ==> r == Ok(JStr(key) in container.elems)
  {
    match container
    case JObj(m) => Ok(key in m)
    case JArr(a) => Ok(JStr(key) in a)
    case JStr(s) => Ok(Contains(s, key))
    case _ => Err("argument is not iterable")
  }

  /** The request body as a value: `json.loads(body)` when it is text, the body itself otherwise. */
  function DecodedBody(body: Json, services: Services): (r: Result<Json>)
    ensures body.JStr? ==> r == services.parseJson(body.s)
    ensures !body.JStr? ==> r == Ok(body)
  {
    if body.JStr? then services.parseJson(body.s) else Ok(body)
  }

  /**
   * The validation steps: a non-empty body (decoded when it is text), a
   * `file` entry, its base64 decoding, and the name and type defaults.
   */
  function ParseRequest(event: map<string, Json>, services: Services): (r: Result<Upload>)
    ensures ("body" !in event || !Truthy(event["body"])) ==> r == Err(NoBody)
    ensures ("body" in event && Truthy(event["body"]) && DecodedBody(event["body"], services).Err?)
            ==> r == Err(DecodedBody(event["body"], services).message)
    ensures ("body" in event && Truthy(event["body"])
             && DecodedBody(event["body"], services).Ok? && DecodedBody(event["body"], services).value.JObj?
             && "file" !in DecodedBody(event["body"], services).value.fields) ==> r == Err(NoFile)
    ensures r.Ok? ==>
      && "body" in event
      && var body := DecodedBody(event["body"], services);
      && body.Ok? && body.value.JObj? && "file" in body.value.fields
      && services.decodeBase64(body.value.fields["file"]) == Ok(r.value.content)
      && ("fileName" in body.value.fields ==> r.value.fileName == body.value.fields["fileName"])
      && ("fileName" !in body.value.fields ==> r.value.fileName == JStr(DefaultFileName))
      && ("fileType" in body.value.fields ==> r.value.fileType == body.value.fields["fileType"])
      && ("fileType" !in body.value.fields ==> r.value.fileType == JStr(PdfType))
    ensures ("body" in event && Truthy(event["body"])
             && DecodedBody(event["body"], services).Ok? && DecodedBody(event["body"], services).value.JObj?
             && "file" in DecodedBody(event["body"], services).value.fields
             && services.decodeBase64(DecodedBody(event["body"], services).value.fields["file"]).Ok?) ==> r.Ok?
  {
    if "body" !in event || !Truthy(event["body"]) then Err(NoBody)
    else
      match DecodedBody(event["body"], services)
      case Err(m) => Err(m)
      case Ok(body) =>
        match HasKey("file", body)
        case Err(m) => Err(m)
        case Ok(present) =>
          if !present then Err(NoFile)
          else if !body.JObj? then Err("indices must be integers")
          else
            match services.decodeBase64(body.fields["file"])
            case Err(m) => Err(m)
            case Ok(content) =>
              Ok(Upload(content, GetOr(body.fields, "fileName", JStr(DefaultFileName)),
                        GetOr(body.fields, "fileType", JStr(PdfType))))
  }

  /** The stages after validation, in order; the first exception ends the run. */
  function Pipeline(upload: Upload, services: Services, draws: Fresh): Outcome {
    var text := ExtractedText(upload.content, upload.fileType, services.libraries,
                              services.readPdf, services.readWord, services.show);
    var data := ExtractFields(text, services.invokeModel, services.parseObject);
    match Normalize(draws.quotationId, data, upload.fileName, text, draws.processedAt, services.show(JObj(data)))
    case Err(m) => Outcome(ErrorResponse(m), None)
    case Ok(record) => Outcome(Respond(record, data, services, draws), Some(record))
  }

  /** The stages from writing the record on: table, purchase order, PDF report, summary. */
  function Respond(record: Quotation, data: map<string, Json>, services: Services, draws: Fresh): Response {
    if services.putItem(record).Some? then ErrorResponse(services.putItem(record).value)
    else
      match GeneratePurchaseOrder(data, draws.poStamp, draws.poUuid, draws.poDate)
      case Err(m) => ErrorResponse(m)
      case Ok(po) =>
        match GeneratePdfReport(record.quotationId, data, po, draws.today, services.bucketEnv,
                                services.renderPdf, services.putObject)
        case Err(m) => ErrorResponse(m)
        case Ok(pdfUrl) =>
          match GenerateSummary(data, po, draws.summaryTime)
          case Err(m) => ErrorResponse(m)
          case Ok(summary) =>
            Response(200, JsonHeaders, Success(record.quotationId, data, po, pdfUrl, summary))
  }

  /** What `handler(event)` answers, and what it hands to the quotations table. */
  function HandlerOutcome(event: map<string, Json>, services: Services, draws: Fresh): Outcome {
    match RequestMethod(event)
    case Err(m) => Outcome(ErrorResponse(m), None)
    case Ok(verb) =>
      if verb == JStr("OPTIONS") then Outcome(Preflight, None)
      else
        match ParseRequest(event, services)
        case Err(m) => Outcome(ErrorResponse(m), None)
        case Ok(upload) => Pipeline(upload, services, draws)
  }

  /** `handler`: straight-line dispatch with an early return at each failure. */
  method Handle(event: map<string, Json>, services: Services, draws: Fresh)
    returns (response: Response, stored: Option<Quotation>)
    ensures Outcome(response, stored) == HandlerOutcome(event, services, draws)
  {
    stored := None;
    var verb := RequestMethod(event);
    if verb.Err? {
      return ErrorResponse(verb.message), None;
    }
    if verb.value == JStr("OPTIONS") {
      return Preflight, None;
    }
    var upload := ParseRequest(event, services);
    if upload.Err? {
      return ErrorResponse(upload.message), None;
    }
    var text := ExtractText(upload.value.content, upload.value.fileType, services.libraries,
                            services.readPdf, services.readWord, services.show);
    var data := ExtractFields(text, services.invokeModel, services.parseObject);
    var quotationId := draws.quotationId;
    var record := StoreQuotation(quotationId, data, upload.value.fileName, text, draws.processedAt,
                                 services.show(JObj(data)));
    if record.Err? {
      return ErrorResponse(record.message), None;
    }
    stored := Some(record.value);
    var failure := services.putItem(record.value);
    if failure.Some? {
      return ErrorResponse(failure.value), stored;
    }
    var po := GeneratePurchaseOrder(data, draws.poStamp, draws.poUuid, draws.poDate);
    if po.Err? {
      return ErrorResponse(po.message), stored;
    }
    var pdfUrl := GeneratePdfReport(quotationId, data, po.value, draws.today, services.bucketEnv,
                                    services.renderPdf, services.putObject);
    if pdfUrl.Err? {
      return ErrorResponse(pdfUrl.message), stored;
    }
    match GenerateSummary(data, po.value, draws.summaryTime)
    case Err(m) =>
      return ErrorResponse(m), stored;
    case Ok(summary) =>
      response := Response(200, JsonHeaders, Success(quotationId, data, po.value, pdfUrl.value, summary));
  }

  /** From the table write on, the answer is a full success or an error envelope. */
  lemma RespondEnvelope(record: Quotation, data: map<string, Json>, services: Services, draws: Fresh)
    ensures var r := Respond(record, data, services, draws);
      && r.headers == JsonHeaders
      && ((r.statusCode == 200 && r.body.Success?) || (r.statusCode == 500 && r.body.Failure?))
  {
    var r := Respond(record, data, services, draws);
    if services.putItem(record).Some? {
      assert r == ErrorResponse(services.putItem(record).value);
    } else {
      match GeneratePurchaseOrder(data, draws.poStamp, draws.poUuid, draws.poDate)
      case Err(m) => assert r == ErrorResponse(m);
      case Ok(po) =>
        match GeneratePdfReport(record.quotationId, data, po, draws.today, services.bucketEnv,
                                services.renderPdf, services.putObject)
        case Err(m) => assert r == ErrorResponse(m);
        case Ok(pdfUrl) =>
          match GenerateSummary(data, po, draws.summaryTime)
          case Err(m) => assert r == ErrorResponse(m);
          case Ok(summary) =>
            assert r == Response(200, JsonHeaders, Success(record.quotationId, data, po, pdfUrl, summary));
    }
  }

  /**
   * Every answer is a 200 or a 500; a 500 carries exactly an error message,
   * and a 200 is the empty preflight answer or the full success body.
   */
  lemma StatusEnvelope(event: map<string, Json>, services: Services, draws: Fresh)
    ensures var r := HandlerOutcome(event, services, draws).response;
      && (r.statusCode == 200 || r.statusCode == 500)
      && (r.statusCode == 500 <==> r.body.Failure?)
      && (r.statusCode == 200 ==> r == Preflight || (r.body.Success? && r.headers == JsonHeaders))
      && (r.body.Failure? ==> r.headers == JsonHeaders)
  {
    var verb := RequestMethod(event);
    if verb.Ok? && verb.value != JStr("OPTIONS") {
      var upload := ParseRequest(event, services);
      if upload.Ok? {
        var u := upload.value;
        var text := ExtractedText(u.content, u.fileType, services.libraries,
                                  services.readPdf, services.readWord, services.show);
        var data := ExtractFields(text, services.invokeModel, services.parseObject);
        var q := Normalize(draws.quotationId, data, u.fileName, text, draws.processedAt, services.show(JObj(data)));
        if q.Ok? {
          RespondEnvelope(q.value, data, services, draws);
        }
      }
    }
  }

  /**
   * A preflight request is answered with the empty 200 and the CORS headers,
   * whatever the services would do, and nothing is stored.
   */
  /** An event whose `requestContext.http.method` is OPTIONS is answered as a preflight. */
  lemma OptionsRequestIsPreflight(event: map<string, Json>, services: Services, draws: Fresh)
    requires "requestContext" in event && event["requestContext"].JObj?
    requires var context := event["requestContext"].fields;
      "http" in context && context["http"].JObj? && "method" in context["http"].fields
      && context["http"].fields["method"] == JStr("OPTIONS")
    ensures HandlerOutcome(event, services, draws) == Outcome(Preflight, None)
  {
    assert RequestMethod(event) == Ok(JStr("OPTIONS"));
    PreflightRunsNoStage(event, services, services, draws, draws);
  }

  lemma PreflightRunsNoStage(event: map<string, Json>, s1: Services, s2: Services, f1: Fresh, f2: Fresh)
    requires RequestMethod(event) == Ok(JStr("OPTIONS"))
    ensures HandlerOutcome(event, s1, f1) == HandlerOutcome(event, s2, f2) == Outcome(Preflight, None)
    ensures Preflight.body == NoContent && "Access-Control-Max-Age" in Preflight.headers
  {
  }

  /** Without a (truthy) body the answer is the "No body" error, and nothing is stored. */
  lemma MissingBodyRejected(event: map<string, Json>, services: Services, draws: Fresh)
    requires RequestMethod(event).Ok? && RequestMethod(event).value != JStr("OPTIONS")
    requires "body" !in event || !Truthy(event["body"])
    ensures HandlerOutcome(event, services, draws) == Outcome(ErrorResponse(NoBody), None)
  {
  }

  /**
   * A body object without `file`, given directly or as JSON text, is answered
   * with the "No file" error, and nothing is stored.
   */
  lemma MissingFileRejected(event: map<string, Json>, services: Services, draws: Fresh)
    requires RequestMethod(event).Ok? && RequestMethod(event).value != JStr("OPTIONS")
    requires "body" in event && Truthy(event["body"])
    requires DecodedBody(event["body"], services).Ok? && DecodedBody(event["body"], services).value.JObj?
    requires "file" !in DecodedBody(event["body"], services).value.fields
    ensures HandlerOutcome(event, services, draws) == Outcome(ErrorResponse(NoFile), None)
  {
  }

  /** A success from the table write on names the record's id, its PDF key and the order's number. */
  lemma RespondSuccess(record: Quotation, data: map<string, Json>, services: Services, draws: Fresh)
    requires Respond(record, data, services, draws).body.Success?
    ensures Respond(record, data, services, draws).statusCode == 200
    ensures var b := Respond(record, data, services, draws).body;
      && services.putItem(record).None?
      && b.quotationId == record.quotationId
      && b.extractedData == data
      && b.pdfUrl == ObjectUrl(BucketName(services.bucketEnv), PdfKey(record.quotationId))
      && b.purchaseOrder.poNumber == PoNumber(draws.poStamp, draws.poUuid)
      && b.summary.poGenerated == JStr(b.purchaseOrder.poNumber)
      && Len(ItemsField(data)) == Some(b.summary.itemsProcessed)
  {
  }

  /** Past validation, the handler's outcome is that of the stages. */
  lemma HandlerRunsPipeline(event: map<string, Json>, services: Services, draws: Fresh)
    requires RequestMethod(event).Ok? && RequestMethod(event).value != JStr("OPTIONS")
    requires ParseRequest(event, services).Ok?
    ensures HandlerOutcome(event, services, draws) == Pipeline(ParseRequest(event, services).value, services, draws)
  {
  }

  /**
   * A successful answer ties the stages together: it carries the drawn
   * quotation id, the record the table received has that id, the file name
   * and the length of the text that was extracted, the URL points at the
   * PDF key, and the summary names the purchase order's number and counts
   * the stored items.
   */
  lemma SuccessIsConsistent(upload: Upload, services: Services, draws: Fresh)
    requires Pipeline(upload, services, draws).response.body.Success?
    ensures var o := Pipeline(upload, services, draws);
            var text := ExtractedText(upload.content, upload.fileType, services.libraries,
                                      services.readPdf, services.readWord, services.show);
      && o.response.statusCode == 200
      && o.response.body.quotationId == draws.quotationId
      && o.response.body.extractedData == ExtractFields(text, services.invokeModel, services.parseObject)
      && o.stored.Some? && o.stored.value.quotationId == draws.quotationId
      && o.stored.value.originalFile == upload.fileName
      && o.stored.value.metadata.textLength == |text|
      && services.putItem(o.stored.value).None?
      && o.response.body.pdfUrl == ObjectUrl(BucketName(services.bucketEnv), PdfKey(draws.quotationId))
      && o.response.body.purchaseOrder.poNumber == PoNumber(draws.poStamp, draws.poUuid)
      && o.response.body.summary.poGenerated == JStr(o.response.body.purchaseOrder.poNumber)
      && o.response.body.summary.itemsProcessed == |o.stored.value.items|
  {
    var text := ExtractedText(upload.content, upload.fileType, services.libraries,
                              services.readPdf, services.readWord, services.show);
    var data := ExtractFields(text, services.invokeModel, services.parseObject);
    var q := Normalize(draws.quotationId, data, upload.fileName, text, draws.processedAt, services.show(JObj(data)));
    assert q.Ok?;
    var o := Pipeline(upload, services, draws);
    assert o.stored == Some(q.value);
    assert o.response == Respond(q.value, data, services, draws);
    RespondSuccess(q.value, data, services, draws);
    var source := ItemDicts(ItemsField(data)).value;
    assert |q.value.items| == |source|;
    assert Len(ItemsField(data)) == Some(|source|);
  }

  /** When every stage from the table write on succeeds, the answer is the full success body. */
  lemma RespondAllStages(record: Quotation, data: map<string, Json>, services: Services, draws: Fresh,
                         po: PurchaseOrder, pdfUrl: string, summary: Summary)
    requires services.putItem(record).None?
    requires GeneratePurchaseOrder(data, draws.poStamp, draws.poUuid, draws.poDate) == Ok(po)
    requires GeneratePdfReport(record.quotationId, data, po, draws.today, services.bucketEnv,
                               services.renderPdf, services.putObject) == Ok(pdfUrl)
    requires GenerateSummary(data, po, draws.summaryTime) == Ok(summary)
    ensures Respond(record, data, services, draws)
         == Response(200, JsonHeaders, Success(record.quotationId, data, po, pdfUrl, summary))
  {
  }

  /** A purchase order that cannot be derived turns a stored record into a 500. */
  lemma RespondOrderFails(record: Quotation, data: map<string, Json>, services: Services, draws: Fresh)
    requires services.putItem(record).None?
    requires GeneratePurchaseOrder(data, draws.poStamp, draws.poUuid, draws.poDate).Err?
    ensures Respond(record, data, services, draws)
         == ErrorResponse(GeneratePurchaseOrder(data, draws.poStamp, draws.poUuid, draws.poDate).message)
  {
  }

  /** Once the record is built, the outcome is the stages' answer with that record stored. */
  lemma PipelineStores(upload: Upload, services: Services, draws: Fresh, text: string,
                       data: map<string, Json>, record: Quotation)
    requires text == ExtractedText(upload.content, upload.fileType, services.libraries,
                                   services.readPdf, services.readWord, services.show)
    requires data == ExtractFields(text, services.invokeModel, services.parseObject)
    requires Normalize(draws.quotationId, data, upload.fileName, text, draws.processedAt,
                       services.show(JObj(data))) == Ok(record)
    ensures Pipeline(upload, services, draws) == Outcome(Respond(record, data, services, draws), Some(record))
  {
  }

  /**
   * A failure after the record was handed to the table still answers 500:
   * a text subtotal that is no infinity or NaN, with no tax and no total, is
   * stored, then the purchase order's `subtotal + tax` raises.
   */
  lemma StoredThenFailed(upload: Upload, services: Services, draws: Fresh, sub: string)
    requires sub != "" && SafeDecimal(JStr(sub)).Finite?
    requires forall p :: services.invokeModel(p) == Ok("{}")
    requires forall span :: services.parseObject(span) == Ok(map["subtotal" := JStr(sub)])
    requires forall q :: services.putItem(q).None?
    ensures var o := Pipeline(upload, services, draws);
            o.stored.Some? && o.response.statusCode == 500
  {
    var text := ExtractedText(upload.content, upload.fileType, services.libraries,
                              services.readPdf, services.readWord, services.show);
    var data := map["subtotal" := JStr(sub)];
    assert "{" + "" + "}" == "{}";
    BracedReplyParsed(text, services.invokeModel, services.parseObject, "", data);
    var q := Normalize(draws.quotationId, data, upload.fileName, text, draws.processedAt, services.show(JObj(data)));
    SubtotalOnlyStored(sub, draws.quotationId, upload.fileName, text, draws.processedAt, services.show(JObj(data)));
    TextSubtotalRaises(sub, draws.poStamp, draws.poUuid, draws.poDate);
    RespondOrderFails(q.value, data, services, draws);
    PipelineStores(upload, services, draws, text, data, q.value);
  }

  /** A record holding only a finite subtotal can be stored. */
  lemma SubtotalOnlyStored(sub: string, quotationId: string, fileName: Json, text: string,
                           processedAt: string, recordText: string)
    requires SafeDecimal(JStr(sub)).Finite?
    ensures Normalize(quotationId, map["subtotal" := JStr(sub)], fileName, text, processedAt, recordText).Ok?
  {
    var data := map["subtotal" := JStr(sub)];
    assert ItemsField(data) == JArr([]);
    assert Get(data, "tax") == JNull && Get(data, "total") == JNull;
  }

  /**
   * With the model service down, any upload that passes validation and whose
   * stages succeed is answered from the canned record: its vendor, three
   * items and a value of 135.
   */
  lemma ServiceDownAnswersFromFallback(upload: Upload, services: Services, draws: Fresh)
    requires forall p :: services.invokeModel(p).Err?
    requires forall q :: services.putItem(q).None?
    requires forall f :: services.renderPdf(f).Ok?
    requires forall b, k, body, t :: services.putObject(b, k, body, t).None?
    ensures var o := Pipeline(upload, services, draws);
      && o.response.body.Success?
      && o.response.body.extractedData == FallbackRecord
      && o.response.body.summary.vendor == JStr("ABC Stationery Supplies Pte Ltd.")
      && o.response.body.summary.itemsProcessed == 3
      && o.response.body.summary.totalValue == JNum(135.0)
      && o.response.body.purchaseOrder.total == JNum(135.0)
      && o.stored.Some? && o.stored.value.total == 135.0 && |o.stored.value.items| == 3
  {
    var text := ExtractedText(upload.content, upload.fileType, services.libraries,
                              services.readPdf, services.readWord, services.show);
    assert services.invokeModel(Prompt(text)).Err?;
    assert ExtractFields(text, services.invokeModel, services.parseObject) == FallbackRecord;
    var q := Normalize(draws.quotationId, FallbackRecord, upload.fileName, text, draws.processedAt,
                       services.show(JObj(FallbackRecord)));
    FallbackRecordStored(draws.quotationId, upload.fileName, text, draws.processedAt,
                         services.show(JObj(FallbackRecord)));
    PipelineStores(upload, services, draws, text, FallbackRecord, q.value);
    FallbackRecordAnswered(q.value, services, draws);
  }

  /** Every stage after the table write succeeds on the canned record. */
  lemma FallbackRecordAnswered(record: Quotation, services: Services, draws: Fresh)
    requires services.putItem(record).None?
    requires forall f :: services.renderPdf(f).Ok?
    requires forall b, k, body, t :: services.putObject(b, k, body, t).None?
    ensures var r := Respond(record, FallbackRecord, services, draws);
      && r.body.Success?
      && r.body.extractedData == FallbackRecord
      && r.body.summary.vendor == JStr("ABC Stationery Supplies Pte Ltd.")
      && r.body.summary.itemsProcessed == 3
      && r.body.summary.totalValue == JNum(135.0)
      && r.body.purchaseOrder.total == JNum(135.0)
  {
    var data := FallbackRecord;
    var po := GeneratePurchaseOrder(data, draws.poStamp, draws.poUuid, draws.poDate);
    FallbackRecordOrdered(draws.poStamp, draws.poUuid, draws.poDate);
    var pdf := GeneratePdfReport(record.quotationId, data, po.value, draws.today, services.bucketEnv,
                                 services.renderPdf, services.putObject);
    FallbackRecordReported(po.value, draws.today);
    PdfReportUploaded(record.quotationId, data, po.value, draws.today, services.bucketEnv,
                      services.renderPdf, services.putObject);
    var summary := GenerateSummary(data, po.value, draws.summaryTime);
    FallbackRecordSummarized(po.value, draws.summaryTime);
    RespondAllStages(record, data, services, draws, po.value, pdf.value, summary.value);
  }

  /** With rendering and upload succeeding, the report is produced whenever its fields are. */
  lemma PdfReportUploaded(quotationId: string, data: map<string, Json>, po: PurchaseOrder, today: string,
                          bucketEnv: Option<string>, renderPdf: PdfFields -> Result<Bytes>, putObject: Uploader)
    requires PdfReportFields(data, po, today).Ok?
    requires forall f :: renderPdf(f).Ok?
    requires forall b, k, body, t :: putObject(b, k, body, t).None?
    ensures GeneratePdfReport(quotationId, data, po, today, bucketEnv, renderPdf, putObject).Ok?
  {
  }

  /** The canned record is stored with its three items and a total of 135. */
  lemma FallbackRecordStored(quotationId: string, fileName: Json, text: string, processedAt: string,
                             recordText: string)
    ensures var q := Normalize(quotationId, FallbackRecord, fileName, text, processedAt, recordText);
      q.Ok? && q.value.total == 135.0 && |q.value.items| == 3
  {
    FallbackRecordConsistent();
  }

  /** The canned record is ordered with its own total of 135. */
  lemma FallbackRecordOrdered(stamp: string, uuid: string, poDate: string)
    ensures var po := GeneratePurchaseOrder(FallbackRecord, stamp, uuid, poDate);
      po.Ok? && po.value.total == JNum(135.0)
  {
    assert "total" in FallbackRecord && Truthy(FallbackRecord["total"]);
  }

  /** The canned record's items are all objects, so the PDF fields can be gathered. */
  lemma FallbackRecordReported(po: PurchaseOrder, today: string)
    ensures PdfReportFields(FallbackRecord, po, today).Ok?
  {
    FallbackRecordConsistent();
  }

  /** The summary of the canned record names its vendor, counts three items and is worth 135. */
  lemma FallbackRecordSummarized(po: PurchaseOrder, now: string)
    ensures var s := GenerateSummary(FallbackRecord, po, now);
      && s.Ok? && s.value.itemsProcessed == 3
      && s.value.vendor == JStr("ABC Stationery Supplies Pte Ltd.")
      && s.value.totalValue == JNum(135.0)
  {
    FallbackRecordConsistent();
    assert "total" in FallbackRecord && FallbackRecord["total"] == JNum(135.0);
    assert Truthy(FallbackRecord["total"]);
  }
}
