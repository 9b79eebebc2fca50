/**
 * `simple_reports`: the processing summary, the fields the purchase-order
 * PDF shows, the rows of the CSV report, and the storage keys and URLs of
 * both reports. Typesetting (`renderPdf`), CSV text encoding and the object
 * store (`putObject`) are collaborators.
 */
module Reports {
  import opened Values
  import opened Text
  import opened Normalization
  import opened PurchaseOrders

  /** The bucket used when S3_BUCKET is not set. */
  const DefaultBucket: string := "quotation-processor-docs"

  /** `os.environ.get('S3_BUCKET', 'quotation-processor-docs')` */
  function BucketName(env: Option<string>): (r: string)
    ensures env.Some? ==> r == env.value
    ensures env.None? ==> r == "quotation-processor-docs"
  {
    match env
    case Some(name) => name
    case None => DefaultBucket
  }

  function PdfKey(quotationId: string): (r: string)
    ensures |r| == |quotationId| + 27
    ensures r[..8] == "reports/" && r[8..8 + |quotationId|] == quotationId
    ensures r[8 + |quotationId|..] == "_purchase_order.pdf"
  {
    "reports/" + quotationId + "_purchase_order.pdf"
  }

  function CsvKey(quotationId: string): (r: string)
    ensures |r| == |quotationId| + 17
    ensures r[..8] == "reports/" && r[8..8 + |quotationId|] == quotationId
    ensures r[8 + |quotationId|..] == "_data.csv"
  {
    "reports/" + quotationId + "_data.csv"
  }

  function ObjectUrl(bucket: string, key: string): (r: string)
    ensures |r| == |bucket| + 26 + |key|
    ensures r[..8] == "https://" && r[8..8 + |bucket|] == bucket
    ensures r[8 + |bucket|..26 + |bucket|] == ".s3.amazonaws.com/"
    ensures |r| >= |key| && r[|r| - |key|..] == key
  {
    "https://" + bucket + ".s3.amazonaws.com/" + key
  }

  /** What is uploaded: the typeset PDF, or the CSV table before encoding. */
  datatype ObjectBody = PdfBytes(bytes: Bytes) | CsvTable(rows: seq<seq<Json>>)

  /** `put_object(Bucket, Key, Body, ContentType)`: the error it raises, if any. */
  type Uploader = (string, string, ObjectBody, string) -> Option<string>

  /** Different quotations get different report keys. */
  lemma ReportKeysInjective(a: string, b: string)
    ensures PdfKey(a) == PdfKey(b) ==> a == b
    ensures CsvKey(a) == CsvKey(b) ==> a == b
  {
    if PdfKey(a) == PdfKey(b) {
      assert a == PdfKey(a)[8..8 + |a|];
      assert b == PdfKey(b)[8..8 + |b|];
    }
    if CsvKey(a) == CsvKey(b) {
      assert a == CsvKey(a)[8..8 + |a|];
      assert b == CsvKey(b)[8..8 + |b|];
    }
  }

  /** A PDF key is never a CSV key, so the two reports never overwrite each other. */
  lemma PdfAndCsvKeysDiffer(a: string, b: string)
    ensures PdfKey(a) != CsvKey(b)
  {
    assert PdfKey(a)[|PdfKey(a)| - 1] == 'f';
    assert CsvKey(b)[|CsvKey(b)| - 1] == 'v';
  }

  /** The URL of an object ends with its key, and one bucket's URLs tell keys apart. */
  lemma ObjectUrlKey(bucket: string, k1: string, k2: string)
    ensures var u := ObjectUrl(bucket, k1); |u| >= |k1| && u[|u| - |k1|..] == k1
    ensures ObjectUrl(bucket, k1) == ObjectUrl(bucket, k2) ==> k1 == k2
  {
    var u1, u2 := ObjectUrl(bucket, k1), ObjectUrl(bucket, k2);
    var n := |"https://" + bucket + ".s3.amazonaws.com/"|;
    assert u1[n..] == k1;
    assert u2[n..] == k2;
  }

  // ----- generate_summary -----

  datatype Summary = Summary(
    processingStatus: string,
    itemsProcessed: nat,
    totalValue: Json,
    vendor: Json,
    poGenerated: Json,
    processingTime: string)

  const Completed: string := "completed"

  /**
   * `generate_summary(data, po)` at clock reading `now`. It raises only when
   * `len` of the items value does.
   */
  function GenerateSummary(data: map<string, Json>, po: PurchaseOrder, now: string): (r: Result<Summary>)
    ensures r.Err? <==> Len(ItemsField(data)).None?
    ensures r.Ok? ==>
      var s := r.value;
      && s.processingStatus == Completed && s.processingTime == now
      && s.itemsProcessed == Len(ItemsField(data)).value
      && s.poGenerated == JStr(po.poNumber)
      && (Truthy(GetOr(data, "total", JNum(0.0))) ==> s.totalValue == data["total"])
      && (!Truthy(GetOr(data, "total", JNum(0.0))) ==> s.totalValue == GetOr(data, "subtotal", JNum(0.0)))
      && ("company_name" in data ==> s.vendor == data["company_name"])
      && ("company_name" !in data ==> s.vendor == JStr("Unknown"))
  {
    match Len(ItemsField(data))
    case None => Err("object has no len()")
    case Some(count) =>
      Ok(Summary(
        Completed,
        count,
        Or(GetOr(data, "total", JNum(0.0)), GetOr(data, "subtotal", JNum(0.0))),
        GetOr(data, "company_name", JStr("Unknown")),
        JStr(po.poNumber),
        now))
  }

  /** Whenever the record could be stored, the summary counts exactly the stored items. */
  lemma SummaryCountsStoredItems(data: map<string, Json>, po: PurchaseOrder, now: string,
                                 quotationId: string, fileName: Json, rawText: string,
                                 processedAt: string, recordText: string)
    requires Normalize(quotationId, data, fileName, rawText, processedAt, recordText).Ok?
    ensures GenerateSummary(data, po, now).Ok?
    ensures GenerateSummary(data, po, now).value.itemsProcessed
         == Normalize(quotationId, data, fileName, rawText, processedAt, recordText).value.metadata.itemsCount
  {
  }

  /**
   * An empty company name reads "Unknown" in the stored record but stays
   * empty in the summary.
   */
  lemma EmptyCompanyNamedDifferently(data: map<string, Json>, po: PurchaseOrder, now: string,
                                     quotationId: string, fileName: Json, rawText: string,
                                     processedAt: string, recordText: string)
    requires Normalize(quotationId, data, fileName, rawText, processedAt, recordText).Ok?
    requires "company_name" in data && data["company_name"] == JStr("")
    ensures Normalize(quotationId, data, fileName, rawText, processedAt, recordText).value.companyName
         == JStr("Unknown")
    ensures GenerateSummary(data, po, now).value.vendor == JStr("")
  {
  }

  /**
   * The summary's value leaves tax out when no total was extracted, while the
   * purchase order adds it: subtotal 100 and tax 7 give 100 and 107.
   */
  lemma SummaryValueOmitsTax(now: string, stamp: string, uuid: string, poDate: string)
    ensures var data := map["subtotal" := JNum(100.0), "tax" := JNum(7.0)];
            var po := GeneratePurchaseOrder(data, stamp, uuid, poDate);
            && po.Ok? && po.value.total == JNum(107.0)
            && GenerateSummary(data, po.value, now).Ok?
            && GenerateSummary(data, po.value, now).value.totalValue == JNum(100.0)
  {
  }

  // ----- generate_pdf_report: field selection -----

  datatype PdfLine = PdfLine(description: Json, quantity: Json, unitPrice: Json, totalAmount: Json)

  datatype PdfFields = PdfFields(
    poNumber: Json,
    poDate: Json,
    companyName: Json,
    address: Json,
    phone: Json,
    email: Json,
    lines: seq<PdfLine>,
    subtotal: Json,
    tax: Json,
    grandTotal: Json,
    quoteReference: Json)

  const NotAvailable: string := "N/A"

  function PdfLineOf(item: map<string, Json>): PdfLine {
    PdfLine(Or(Get(item, "description"), JStr(NotAvailable)),
            Or(Get(item, "quantity"), JNum(0.0)),
            Or(Get(item, "unit_price"), JNum(0.0)),
            Or(Get(item, "total_amount"), JNum(0.0)))
  }

  /** One table row per item, in item order. */
  function PdfLines(items: seq<map<string, Json>>): (r: seq<PdfLine>)
    ensures |r| == |items|
    ensures forall k | 0 <= k < |items| :: r[k] == PdfLineOf(items[k])
  {
    if items == [] then [] else PdfLines(items[..|items| - 1]) + [PdfLineOf(items[|items| - 1])]
  }

  /** A text cell is shown as given when truthy and as "N/A" otherwise. */
  predicate TextShown(shown: Json, given: Json) {
    if Truthy(given) then shown == given else shown == JStr(NotAvailable)
  }

  /** An amount cell is shown as given when truthy and as 0 otherwise. */
  predicate AmountShown(shown: Json, given: Json) {
    if Truthy(given) then shown == given else shown == JNum(0.0)
  }

  /**
   * What the purchase-order PDF shows. The grand total is the purchase
   * order's; subtotal, tax and the rest come from the extracted record, and
   * `today` stands in for a missing order date.
   */
  function PdfReportFields(data: map<string, Json>, po: PurchaseOrder, today: string): (r: Result<PdfFields>)
    ensures r.Err? <==> ItemDicts(ItemsField(data)).None?
    ensures r.Ok? ==>
      var f := r.value;
      && TextShown(f.poNumber, JStr(po.poNumber))
      && f.poDate == (if po.poDate != "" then JStr(po.poDate) else JStr(today))
      && TextShown(f.companyName, Get(data, "company_name")) && TextShown(f.address, Get(data, "address"))
      && TextShown(f.phone, Get(data, "phone")) && TextShown(f.email, Get(data, "email"))
      && TextShown(f.quoteReference, Get(data, "quote_number"))
      && AmountShown(f.subtotal, Get(data, "subtotal")) && AmountShown(f.tax, Get(data, "tax"))
      && AmountShown(f.grandTotal, po.total)
      && |f.lines| == |ItemDicts(ItemsField(data)).value|
      && forall k | 0 <= k < |f.lines| ::
           var item := ItemDicts(ItemsField(data)).value[k];
           && TextShown(f.lines[k].description, Get(item, "description"))
           && AmountShown(f.lines[k].quantity, Get(item, "quantity"))
           && AmountShown(f.lines[k].unitPrice, Get(item, "unit_price"))
           && AmountShown(f.lines[k].totalAmount, Get(item, "total_amount"))
  {
    match ItemDicts(ItemsField(data))
    case None => Err(ItemsNotObjects)
    case Some(items) =>
      Ok(PdfFields(
        Or(JStr(po.poNumber), JStr(NotAvailable)),
        Or(JStr(po.poDate), JStr(today)),
        Or(Get(data, "company_name"), JStr(NotAvailable)),
        Or(Get(data, "address"), JStr(NotAvailable)),
        Or(Get(data, "phone"), JStr(NotAvailable)),
        Or(Get(data, "email"), JStr(NotAvailable)),
        PdfLines(items),
        Or(Get(data, "subtotal"), JNum(0.0)),
        Or(Get(data, "tax"), JNum(0.0)),
        Or(po.total, JNum(0.0)),
        Or(Get(data, "quote_number"), JStr(NotAvailable))))
  }

  /** Every cell of the PDF is filled: no text cell is empty and no amount is None. */
  lemma PdfCellsFilled(data: map<string, Json>, po: PurchaseOrder, today: string)
    requires PdfReportFields(data, po, today).Ok?
    ensures var f := PdfReportFields(data, po, today).value;
      && Truthy(f.companyName) && Truthy(f.address) && Truthy(f.phone) && Truthy(f.email)
      && Truthy(f.quoteReference) && Truthy(f.poNumber)
      && (Truthy(f.subtotal) || f.subtotal == JNum(0.0))
      && (Truthy(f.tax) || f.tax == JNum(0.0))
      && (Truthy(f.grandTotal) || f.grandTotal == JNum(0.0))
      && forall k | 0 <= k < |f.lines| :: Truthy(f.lines[k].description)
  {
  }

  /**
   * For the purchase order of the same record, a PDF without an extracted
   * total shows a grand total equal to its subtotal plus its tax.
   */
  lemma PdfGrandTotalAddsUp(data: map<string, Json>, stamp: string, uuid: string, poDate: string,
                            today: string, s: real, t: real)
    requires ItemDicts(ItemsField(data)).Some?
    requires !Truthy(Get(data, "total"))
    requires Get(data, "subtotal") == JNum(s) && Get(data, "tax") == JNum(t) && s + t != 0.0
    ensures var po := GeneratePurchaseOrder(data, stamp, uuid, poDate);
            po.Ok? &&
            var f := PdfReportFields(data, po.value, today).value;
            && f.grandTotal == JNum(s + t)
            && NumericValue(f.subtotal).value + NumericValue(f.tax).value == s + t
  {
  }

  /**
   * `generate_pdf_report`: select the fields, typeset them, upload them under
   * the PDF key and answer the object's URL.
   */
  function GeneratePdfReport(quotationId: string, data: map<string, Json>, po: PurchaseOrder,
                             today: string, bucketEnv: Option<string>,
                             renderPdf: PdfFields -> Result<Bytes>, putObject: Uploader): (r: Result<string>)
    ensures r.Ok? ==> r.value == ObjectUrl(BucketName(bucketEnv), PdfKey(quotationId))
    ensures r.Ok? <==>
      && PdfReportFields(data, po, today).Ok?
      && renderPdf(PdfReportFields(data, po, today).value).Ok?
      && putObject(BucketName(bucketEnv), PdfKey(quotationId),
                   PdfBytes(renderPdf(PdfReportFields(data, po, today).value).value),
                   "application/pdf").None?
  {
    match PdfReportFields(data, po, today)
    case Err(m) => Err(m)
    case Ok(fields) =>
      match renderPdf(fields)
      case Err(m) => Err(m)
      case Ok(bytes) =>
        var bucket := BucketName(bucketEnv);
        var key := PdfKey(quotationId);
        match putObject(bucket, key, PdfBytes(bytes), "application/pdf")
        case Some(m) => Err(m)
        case None => Ok(ObjectUrl(bucket, key))
  }

  // ----- generate_csv_report -----

  /** The rows written so far by `csv.writer` into its buffer. */
  class CsvWriter {
    var rows: seq<seq<Json>>

    constructor()
      ensures rows == []
    {
      rows := [];
    }

    /** `writer.writerow(row)` */
    method WriteRow(row: seq<Json>)
      modifies this
      ensures rows == old(rows) + [row]
    {
      rows := rows + [row];
    }
  }

  function Cell(s: string): Json {
    JStr(s)
  }

  /** The report header and its blank line. */
  function CsvPreamble(generated: string): seq<seq<Json>> {
    [ [Cell("Report Type"), Cell("Quotation Processing Data")],
      [Cell("Generated"), Cell(generated)],
      [] ]
  }

  /** The extracted-information section, closed by a blank line. */
  function CsvExtracted(data: map<string, Json>): seq<seq<Json>> {
    [ [Cell("Section"), Cell("Extracted Information")],
      [Cell("Company"), GetOr(data, "company_name", Cell(NotAvailable))],
      [Cell("Email"), GetOr(data, "email", Cell(NotAvailable))],
      [Cell("Phone"), GetOr(data, "phone", Cell(NotAvailable))],
      [Cell("Address"), GetOr(data, "address", Cell(NotAvailable))],
      [Cell("Quote Number"), GetOr(data, "quote_number", Cell(NotAvailable))],
      [Cell("Date"), GetOr(data, "date", Cell(NotAvailable))],
      [Cell("Subtotal"), GetOr(data, "subtotal", JNum(0.0))],
      [Cell("Tax"), Or(GetOr(data, "tax", JNum(0.0)), JNum(0.0))],
      [Cell("Total"), Or(GetOr(data, "total", JNum(0.0)), GetOr(data, "subtotal", JNum(0.0)))],
      [] ]
  }

  const ItemsHeading: seq<seq<Json>> := [[Cell("Items")], ItemsHeader]

  /** The rows before the items. */
  function CsvHead(data: map<string, Json>, generated: string): seq<seq<Json>> {
    CsvPreamble(generated) + CsvExtracted(data) + ItemsHeading
  }

  const ItemsHeader: seq<Json> := [Cell("Description"), Cell("Quantity"), Cell("Unit Price"), Cell("Total Amount")]

  function CsvItemRow(item: map<string, Json>): seq<Json> {
    [GetOr(item, "description", Cell(NotAvailable)), GetOr(item, "quantity", JNum(0.0)),
     GetOr(item, "unit_price", JNum(0.0)), GetOr(item, "total_amount", JNum(0.0))]
  }

  /** One row per item, in item order. */
  function CsvItemRows(items: seq<map<string, Json>>): (r: seq<seq<Json>>)
    ensures |r| == |items|
    ensures forall k | 0 <= k < |items| :: r[k] == CsvItemRow(items[k])
  {
    if items == [] then [] else CsvItemRows(items[..|items| - 1]) + [CsvItemRow(items[|items| - 1])]
  }

  /** The rows after the items: a separator and the purchase-order section. */
  function CsvTail(po: PurchaseOrder): seq<seq<Json>> {
    [ [],
      [Cell("Section"), Cell("Purchase Order")],
      [Cell("PO Number"), Cell(po.poNumber)],
      [Cell("Vendor"), po.vendor],
      [Cell("Vendor Email"), po.vendorEmail],
      [Cell("Vendor Phone"), po.vendorPhone],
      [Cell("Vendor Address"), po.vendorAddress],
      [Cell("Status"), Cell(po.status)],
      [Cell("Total Amount"), po.total] ]
  }

  /** The whole table, or the error the item loop raises. */
  function CsvRows(data: map<string, Json>, po: PurchaseOrder, generated: string): Result<seq<seq<Json>>> {
    match ItemDicts(ItemsField(data))
    case None => Err(ItemsNotObjects)
    case Some(items) => Ok(CsvHead(data, generated) + CsvItemRows(items) + CsvTail(po))
  }

  /** The URL `generate_csv_report` answers, or what it raises. */
  function CsvReport(quotationId: string, data: map<string, Json>, po: PurchaseOrder, generated: string,
                     bucketEnv: Option<string>, putObject: Uploader): Result<string> {
    match CsvRows(data, po, generated)
    case Err(m) => Err(m)
    case Ok(rows) =>
      match putObject(BucketName(bucketEnv), CsvKey(quotationId), CsvTable(rows), "text/csv")
      case Some(m) => Err(m)
      case None => Ok(ObjectUrl(BucketName(bucketEnv), CsvKey(quotationId)))
  }

  /**
   * `generate_csv_report`: writes the rows one by one, uploads the table
   * under the CSV key and answers its URL.
   */
  method GenerateCsvReport(quotationId: string, data: map<string, Json>, po: PurchaseOrder,
                           generated: string, bucketEnv: Option<string>, putObject: Uploader)
    returns (url: Result<string>)
    ensures url == CsvReport(quotationId, data, po, generated, bucketEnv, putObject)
  {
    var bucket := BucketName(bucketEnv);
    var writer := new CsvWriter();
    WritePreamble(writer, generated);
    WriteExtracted(writer, data);
    writer.WriteRow([Cell("Items")]);
    writer.WriteRow(ItemsHeader);
    assert writer.rows == CsvHead(data, generated);

    var source := ItemDicts(ItemsField(data));
    if source.None? {
      return Err(ItemsNotObjects);
    }
    WriteItems(writer, source.value);
    var body := writer.rows;

    WritePurchaseOrder(writer, po);
    assert writer.rows == body + CsvTail(po);

    var key := CsvKey(quotationId);
    var failure := putObject(bucket, key, CsvTable(writer.rows), "text/csv");
    if failure.Some? {
      return Err(failure.value);
    }
    url := Ok(ObjectUrl(bucket, key));
  }

  method WritePreamble(writer: CsvWriter, generated: string)
    modifies writer
    ensures writer.rows == old(writer.rows) + CsvPreamble(generated)
  {
    writer.WriteRow([Cell("Report Type"), Cell("Quotation Processing Data")]);
    writer.WriteRow([Cell("Generated"), Cell(generated)]);
    writer.WriteRow([]);
  }

  method WriteExtracted(writer: CsvWriter, data: map<string, Json>)
    modifies writer
    ensures writer.rows == old(writer.rows) + CsvExtracted(data)
  {
    writer.WriteRow([Cell("Section"), Cell("Extracted Information")]);
    writer.WriteRow([Cell("Company"), GetOr(data, "company_name", Cell(NotAvailable))]);
    writer.WriteRow([Cell("Email"), GetOr(data, "email", Cell(NotAvailable))]);
    writer.WriteRow([Cell("Phone"), GetOr(data, "phone", Cell(NotAvailable))]);
    writer.WriteRow([Cell("Address"), GetOr(data, "address", Cell(NotAvailable))]);
    writer.WriteRow([Cell("Quote Number"), GetOr(data, "quote_number", Cell(NotAvailable))]);
    writer.WriteRow([Cell("Date"), GetOr(data, "date", Cell(NotAvailable))]);
    writer.WriteRow([Cell("Subtotal"), GetOr(data, "subtotal", JNum(0.0))]);
    writer.WriteRow([Cell("Tax"), Or(GetOr(data, "tax", JNum(0.0)), JNum(0.0))]);
    writer.WriteRow([Cell("Total"), Or(GetOr(data, "total", JNum(0.0)), GetOr(data, "subtotal", JNum(0.0)))]);
    writer.WriteRow([]);
  }

  /** The item loop of `generate_csv_report`: one row per item, in order. */
  method WriteItems(writer: CsvWriter, items: seq<map<string, Json>>)
    modifies writer
    ensures writer.rows == old(writer.rows) + CsvItemRows(items)
  {
    var i := 0;
    while i < |items|
      invariant 0 <= i <= |items|
      invariant writer.rows == old(writer.rows) + CsvItemRows(items[..i])
    {
      writer.WriteRow(CsvItemRow(items[i]));
      assert items[..i + 1][..i] == items[..i];
      i := i + 1;
    }
    assert items[..i] == items;
  }

  method WritePurchaseOrder(writer: CsvWriter, po: PurchaseOrder)
    modifies writer
    ensures writer.rows == old(writer.rows) + CsvTail(po)
  {
    writer.WriteRow([]);
    writer.WriteRow([Cell("Section"), Cell("Purchase Order")]);
    writer.WriteRow([Cell("PO Number"), Cell(po.poNumber)]);
    writer.WriteRow([Cell("Vendor"), po.vendor]);
    writer.WriteRow([Cell("Vendor Email"), po.vendorEmail]);
    writer.WriteRow([Cell("Vendor Phone"), po.vendorPhone]);
    writer.WriteRow([Cell("Vendor Address"), po.vendorAddress]);
    writer.WriteRow([Cell("Status"), Cell(po.status)]);
    writer.WriteRow([Cell("Total Amount"), po.total]);
  }

  /**
   * The layout of the table: 25 rows plus one per item; the item rows sit in
   * item order between the column header (row 15) and a blank separator; the
   * Tax row shows the tax when truthy and 0 otherwise; the Total row shows
   * the total when truthy and the subtotal otherwise; the last row is the
   * purchase order's total.
   */
  lemma CsvLayout(data: map<string, Json>, po: PurchaseOrder, generated: string)
    requires ItemDicts(ItemsField(data)).Some?
    ensures var items := ItemDicts(ItemsField(data)).value;
            var n := |items|;
            var r := CsvRows(data, po, generated);
      && r.Ok? && |r.value| == 25 + n
      && r.value[15] == ItemsHeader
      && (forall k | 0 <= k < n :: r.value[16 + k] == CsvItemRow(items[k]))
      && r.value[16 + n] == []
      && r.value[11][0] == Cell("Tax") && AmountShown(r.value[11][1], GetOr(data, "tax", JNum(0.0)))
      && r.value[12][0] == Cell("Total")
      && (Truthy(GetOr(data, "total", JNum(0.0))) ==> r.value[12][1] == data["total"])
      && (!Truthy(GetOr(data, "total", JNum(0.0))) ==> r.value[12][1] == GetOr(data, "subtotal", JNum(0.0)))
      && r.value[24 + n] == [Cell("Total Amount"), po.total]
  {
    var items := ItemDicts(ItemsField(data)).value;
    var head, middle, tail := CsvHead(data, generated), CsvItemRows(items), CsvTail(po);
    var rows := head + middle + tail;
    assert |head| == 16 && |tail| == 9;
    forall k | 0 <= k < |items| ensures rows[16 + k] == CsvItemRow(items[k]) {
      assert rows[16 + k] == middle[k];
    }
    assert rows[16 + |items|] == tail[0];
    assert rows[24 + |items|] == tail[8];
  }
}
