# Quotation processor: a Dafny model

This project models the back end of a quotation-to-purchase-order service. A
supplier's quotation is uploaded to a function URL as a PDF or Word document.
The handler then does the following, in order:

1. It answers a CORS preflight at once. Otherwise it validates the request
   body and decodes the file.
2. It extracts the document's text (`extract_text`).
3. It asks a language model to turn the text into a structured record
   (`process_with_bedrock`). When that fails, it falls back to a canned record
   (`parse_fallback`).
4. It normalises the record and writes it to the quotations table
   (`store_quotation`).
5. It derives a purchase order from the record (`generate_purchase_order`).
6. It typesets and uploads a purchase-order PDF (`generate_pdf_report`) and
   builds a processing summary (`generate_summary`).

The answer is 200 with all of those results, or 500 with the message of the
first exception any stage raised. A CSV report of the same data
(`generate_csv_report`) is modelled too.

Python values are modelled as a `Json` datatype (`values.dfy`). Truthiness,
`d.get`, `or`, `+`, `len` and the `for item in items: item.get(...)` loops are
written out over that datatype. An exception is an `Err` carrying its message.

Every library and remote service is a function-typed field of
`Handler.Services`:

- `json.loads` and base64 decoding;
- the PDF and Word readers;
- the model call;
- the table write;
- the PDF typesetter;
- the object store.

The uuids and clock readings one request draws are the fields of
`Handler.Fresh`. Amounts are exact reals. `safe_decimal`'s `Decimal(str(v))`
is a parser written out in `decimals.dfy`: it reads finite numerals, the
Infinity and NaN words and underscores between digits, as `Decimal` does.

Modules, one per file, in dependency order:

- `Values`: Python values and operations.
- `Text`: `strip`, `find`, `rfind`, slicing, `in`.
- `Decimals`: `safe_decimal`.
- `TextExtraction`: `extract_text`.
- `FieldExtraction`: `process_with_bedrock` and `parse_fallback`.
- `Normalization`: `store_quotation`.
- `PurchaseOrders`: `generate_purchase_order`.
- `Reports`: `simple_reports.py`.
- `Handler`: `handler`.

Where the source updates state step by step, the model does too:

- `ExtractText`, `ReadPdfText` and `ReadWordText` accumulate the text in loops.
- `StoreQuotation` copies the items in a loop and reassigns the total.
- `GenerateCsvReport` writes rows through a `CsvWriter` object.
- `Handle` returns early at each failure.

Each of these methods is proved equal to the function that specifies it. The
properties of that function are then proved as lemmas.

## Model

| member | source | states |
|---|---|---|
| `Values.ItemDicts` | backend/document_processor.py:401-408 | the dicts an item loop visits exist only when `len` of the items value is defined, and then there is one per element; a list is visitable exactly when every element is a dict, and then element k is dict k; a text or dict is visitable exactly when empty (otherwise `.get` is called on a character or key and raises); any other value raises |
| `Values.Add` | backend/document_processor.py:452 | `a + b` succeeds exactly for two numbers, two texts or two lists; numbers (booleans as 0 and 1) are summed, texts and lists concatenated; any other pair raises |
| `Text.Strip` | backend/document_processor.py:192 | `s.strip()` is `s` minus leading and trailing whitespace, starts and ends with a non-space, and is empty exactly when `s` is blank |
| `Text.FindChar` | backend/document_processor.py:242 | `find` returns -1 exactly when the character is absent, and otherwise its first index |
| `Text.RFindChar` | backend/document_processor.py:243 | `rfind` returns -1 exactly when the character is absent, and otherwise its last index |
| `Text.Take` | backend/document_processor.py:434 | `s[:n]` is a prefix of `s` of length `min(n, len(s))` |
| `Decimals.ParseDecimalOfNatText` | backend/document_processor.py:393-397 | the text of a whole number reads back as that number |
| `Decimals.ParseDecimalOfAmount` | backend/document_processor.py:393-397 | an amount written `w.f` (such as "25.00") reads back as `w + 0.f` |
| `Decimals.ParseDecimal` | backend/document_processor.py:395 | `Decimal(s)` rejects a text that is blank once stripped and rid of underscores |
| `Decimals.SafeDecimal` | backend/document_processor.py:393-397 | `None` and any text `Decimal` rejects become 0, a number is kept, a text `Decimal` accepts is read as `Decimal` reads it, and a non-finite value only comes from such a text |
| `Decimals.SpecialValuesRead` | backend/document_processor.py:395 | `Decimal` reads "Infinity", "inf", "NaN" and "sNaN", in any case and with an optional sign, as the special values |
| `Decimals.InfinityAccepted` | backend/document_processor.py:395 | "Infinity" is read as positive infinity, not rejected |
| `Decimals.NaNAccepted` | backend/document_processor.py:395 | "NaN" is read as a quiet NaN, not rejected |
| `Decimals.UnderscoresIgnored` | backend/document_processor.py:395 | within a text without whitespace, underscores do not change what `Decimal` reads |
| `Decimals.GroupedThousandsRead` | backend/document_processor.py:395 | "1_000" is read as 1000 |
| `Decimals.NotApplicableIsZero` | backend/document_processor.py:393-397 | `safe_decimal("N/A")` is 0 |
| `Decimals.SafeDecimalOfAmountText` | backend/document_processor.py:393-397 | `safe_decimal` of an amount given as text is that amount |
| `Decimals.SafeDecimalOfWord` | backend/document_processor.py:393-397 | `safe_decimal` of a text whose first visible character cannot start a numeral, and which is not an Infinity or NaN word, is 0 instead of an exception |
| `Decimals.NonNumeralRejected` | backend/document_processor.py:395 | `Decimal` rejects a text that, stripped and rid of underscores, starts with neither a digit, a point nor a sign and is not an Infinity or NaN word |
| `Decimals.RenderedBoolsAreNotNumerals` | backend/document_processor.py:395 | `Decimal(str(True))` and `Decimal(str(False))` raise, so booleans become 0 |
| `Decimals.RenderedContainersAreNotNumerals` | backend/document_processor.py:395 | the `str()` of a list or dict is not a numeral, so containers become 0 |
| `TextExtraction.ExtractText` | backend/document_processor.py:139-183 | the dispatch on the media type returns exactly the text `ExtractedText` describes for every library, reader and media-type case |
| `TextExtraction.ReadPdfText` | backend/document_processor.py:146-168 | the page loop and the alternate-engine loop build exactly `PdfText`: readable pages joined with newlines, the alternate text only when they are blank, the placeholder when both are |
| `TextExtraction.ReadWordText` | backend/document_processor.py:174-177 | the paragraph loop builds every paragraph plus a newline, or the placeholder when that is blank |
| `TextExtraction.PdfJoinBlank` | backend/document_processor.py:147-157 | the joined page text is blank only when empty, and empty exactly when every page raised or was blank |
| `TextExtraction.PdfTextKeepsPrimary` | backend/document_processor.py:157-168 | a readable page text is returned as is and the alternate engine is not consulted |
| `TextExtraction.PdfTextFallsBackToAlternate` | backend/document_processor.py:157-168 | with no readable page the result is the alternate engine's text, or the placeholder when that is blank too |
| `TextExtraction.WordJoinBlank` | backend/document_processor.py:174-177 | the Word text is blank exactly when every paragraph is |
| `TextExtraction.PlaceholdersNotBlank` | backend/document_processor.py:143-183 | every message `extract_text` returns in place of a text is non-blank |
| `TextExtraction.ExtractedTextNeverBlank` | backend/document_processor.py:139-183 | `extract_text` never fails and always returns a non-blank text |
| `TextExtraction.UnsupportedTypeNamed` | backend/document_processor.py:179-180 | any other media type is answered by a message that contains that type |
| `FieldExtraction.JsonSpan` | backend/document_processor.py:242-245 | there is no span exactly when every `}` precedes every `{`; otherwise the span runs from the first `{` to the last `}` inclusive |
| `FieldExtraction.SpanBounds` | backend/document_processor.py:242-245 | the first `{` and last `}` delimit a span exactly when some `}` follows some `{` |
| `FieldExtraction.BracedReplyIsSpan` | backend/document_processor.py:242-245 | a reply that is one braced text is its own span |
| `FieldExtraction.ExtractFields` | backend/document_processor.py:185-255 | the canned record when the model call raises, the reply has no span or the span does not parse; the dict parsed from the span when it parses |
| `FieldExtraction.BracedReplyParsed` | backend/document_processor.py:242-248 | a braced reply yields the dict it parses to |
| `FieldExtraction.ModelInput` | backend/document_processor.py:192-228 | a text under 100 visible characters is replaced by the sample quotation, and a longer one is kept |
| `FieldExtraction.ShortTextsInterchangeable` | backend/document_processor.py:192-228 | all texts under 100 visible characters send the same prompt, which holds the sample quotation, and get the same record |
| `FieldExtraction.LongTextSentUnchanged` | backend/document_processor.py:192-228 | a long enough text is sent unchanged after the fixed instruction |
| `FieldExtraction.FallbackRecordConsistent` | backend/document_processor.py:368-387 | the canned record lists three item dicts; each line total is quantity times unit price, and the line totals add up to the subtotal 135, which with a tax of 0 is the total |
| `FieldExtraction.FallbackLines` | backend/document_processor.py:368-384 | `parse_fallback` lists the pens, the notebooks and the stapler, in that order, with their quantities, prices and totals |
| `FieldExtraction.FallbackLinesConsistent` | backend/document_processor.py:368-384 | for those three lines, every total is quantity times price and the totals add up to 135 |
| `Normalization.NormalizeItems` | backend/document_processor.py:400-408 | one copied item per source item, in order, with the amounts coerced |
| `Normalization.Record` | backend/document_processor.py:417-441 | keeps the id, file and clock reading; keeps each of `company_name`, `email`, `phone`, `address`, `buyer_name`, `buyer_address`, `quote_number` and `date` when truthy and otherwise stores "Unknown" or ""; stores at most 1000 characters of the text and its full length; sets `has_tax` iff tax > 0 and SGD iff the record's text mentions it, USD otherwise |
| `Normalization.StoredTotal` | backend/document_processor.py:413-415 | a non-zero total is kept, and a positive subtotal with a non-negative tax never leaves the total 0 |
| `Normalization.ArithmeticRaises` | backend/document_processor.py:414-437 | the comparisons at lines 414 and 437 and the sum at line 415 never raise on finite amounts, always raise on a NaN tax or an sNaN total, and cannot raise with a non-zero finite total unless the tax is a NaN |
| `Normalization.Currency` | backend/document_processor.py:438 | the currency is SGD exactly when the text mentions SGD, and USD otherwise |
| `Normalization.Normalize` | backend/document_processor.py:389-441 | raises (`ItemsNotObjects`) when the items cannot be visited as dicts; otherwise succeeds exactly when every amount is finite, raises `InvalidOperation` exactly when a comparison or sum on the amounts does (a NaN tax, an sNaN total, a NaN subtotal or infinities of opposite signs with a zero total) and otherwise refuses the non-finite amount as the table client does; on success it copies every item in order, stores the coerced subtotal and tax and the recomputed total, and builds the item `Record` describes |
| `Normalization.StoreQuotation` | backend/document_processor.py:389-441 | the item loop and the total reassignment build exactly the record `Normalize` describes |
| `Normalization.CopyItems` | backend/document_processor.py:400-408 | the item loop reports whether every item's amounts are finite and, when they are, copies exactly `NormalizeItems` |
| `Normalization.TotalRecomputation` | backend/document_processor.py:410-415 | the total is replaced by subtotal + tax exactly when it is 0 and the subtotal is positive; a stored zero total means a non-positive subtotal or a cancelling tax; recomputing again changes nothing |
| `Normalization.StoredAmounts` | backend/document_processor.py:411-415 | absent subtotal and tax are stored as 0 (so `has_tax` is false), and an absent total is recomputed from them |
| `Normalization.ArithmeticRaisesOnlyOnSpecials` | backend/document_processor.py:411-437 | the arithmetic raises only when some amount is not finite, and always raises on an sNaN total or a NaN tax |
| `Normalization.NaNTaxRejected` | backend/document_processor.py:437 | a tax given as "NaN" makes `store_quotation` raise `InvalidOperation` at the `has_tax` comparison |
| `Normalization.NormalizeDependsOnlyOnData` | backend/document_processor.py:417-441 | two calls on the same data fail alike, or succeed with records that differ only in id, file name and clock reading |
| `PurchaseOrders.AmountOrZero` | backend/document_processor.py:450-451 | `data.get(k, 0) or 0` is the value when truthy and 0 otherwise |
| `PurchaseOrders.PoNumber` | backend/document_processor.py:447 | the number is "PO-", the stamp, "-" and a prefix of the uuid of at most eight characters |
| `PurchaseOrders.GeneratePurchaseOrder` | backend/document_processor.py:445-469 | raises exactly when there is no truthy total and `subtotal + tax` raises; copies vendor, contact, reference and items; a truthy total is kept |
| `PurchaseOrders.PoNumberShape` | backend/document_processor.py:447 | the number is "PO-", the date stamp, "-" and the first eight uuid characters, so it is 12 characters longer than the stamp |
| `PurchaseOrders.PoNumberInjective` | backend/document_processor.py:447 | for stamps of one length, equal numbers have equal stamps and uuid prefixes |
| `PurchaseOrders.DerivedTotal` | backend/document_processor.py:450-452 | a missing or zero total is the sum of the numeric subtotal and tax |
| `PurchaseOrders.EmptyRecordTotalsZero` | backend/document_processor.py:450-462 | an empty record gives a total of 0 and no items |
| `PurchaseOrders.TextAmountsConcatenate` | backend/document_processor.py:452 | a text subtotal and a text tax with no total are concatenated, not added |
| `PurchaseOrders.TextSubtotalRaises` | backend/document_processor.py:452 | a text subtotal with no tax and no total makes `subtotal + tax` raise |
| `PurchaseOrders.StoredAndOrderedTotalsAgree` | backend/document_processor.py:411-452 | for numeric amounts and a positive subtotal, the order is derived, the record is stored exactly when the item amounts are finite, and then the stored total and the order's total agree |
| `PurchaseOrders.OrderedTotal` | backend/document_processor.py:450-452 | with a positive numeric subtotal and numeric or absent tax and total, the order is derived and its total is the total `store_quotation` would recompute |
| `PurchaseOrders.StoredTotalOfNumbers` | backend/document_processor.py:411-415 | with the same amounts, the record is stored exactly when its item amounts are finite, and then with that recomputed total |
| `PurchaseOrders.ZeroSubtotalTotalsDiffer` | backend/document_processor.py:411-452 | a zero subtotal with a tax of 10 is stored with total 0 but ordered with total 10 |
| `Reports.ReportKeysInjective` | backend/simple_reports.py:132-190 | different quotations get different PDF keys and different CSV keys |
| `Reports.PdfKey` | backend/simple_reports.py:132 | the PDF key is "reports/", the quotation id and "_purchase_order.pdf" |
| `Reports.BucketName` | backend/simple_reports.py:17 | the bucket is `S3_BUCKET` when set and "quotation-processor-docs" otherwise, for the PDF (line 17) and the CSV (line 145) alike |
| `Reports.CsvKey` | backend/simple_reports.py:190 | the CSV key is "reports/", the quotation id and "_data.csv" |
| `Reports.ObjectUrl` | backend/simple_reports.py:141 | the URL is "https://", the bucket, ".s3.amazonaws.com/" and the key |
| `Reports.PdfAndCsvKeysDiffer` | backend/simple_reports.py:132-190 | a PDF key is never a CSV key |
| `Reports.ObjectUrlKey` | backend/simple_reports.py:141 | an object's URL ends with its key, and within one bucket distinct keys give distinct URLs |
| `Reports.GenerateSummary` | backend/simple_reports.py:201-215 | raises exactly when `len` of the items does; counts the items; the value is the truthy total or else the subtotal; the vendor is the `company_name` value whenever the key is present, whatever that value is, and "Unknown" only when it is absent |
| `Reports.SummaryCountsStoredItems` | backend/simple_reports.py:203 | whenever the record could be stored, the summary counts exactly the stored items |
| `Reports.EmptyCompanyNamedDifferently` | backend/simple_reports.py:210 | when the record can be stored, an empty company name is stored as "Unknown" but stays empty in the summary |
| `Reports.SummaryValueOmitsTax` | backend/simple_reports.py:204 | with no total, the summary's value leaves the tax out while the order adds it (100 vs 107) |
| `Reports.PdfLines` | backend/simple_reports.py:70-74 | one table line per item, in order |
| `Reports.PdfReportFields` | backend/simple_reports.py:29-99 | raises exactly when the items cannot be visited; every text cell is the value when truthy and "N/A" otherwise, and every amount the value or 0; the grand total is the order's; `today` replaces a missing order date |
| `Reports.PdfCellsFilled` | backend/simple_reports.py:42-99 | no text cell of the PDF is empty |
| `Reports.PdfGrandTotalAddsUp` | backend/simple_reports.py:84-94 | without an extracted total, the grand total the PDF shows is its subtotal plus its tax |
| `Reports.GeneratePdfReport` | backend/simple_reports.py:15-141 | succeeds exactly when the fields, the typesetting and the upload under the PDF key all succeed, and then answers that object's URL |
| `Reports.CsvWriter.constructor` | backend/simple_reports.py:147-148 | a new writer holds no rows |
| `Reports.CsvWriter.WriteRow` | backend/simple_reports.py:151 | `writerow` appends exactly one row |
| `Reports.CsvItemRows` | backend/simple_reports.py:171-177 | one row per item, in order |
| `Reports.WritePreamble` | backend/simple_reports.py:151-153 | appends the report header and a blank row |
| `Reports.WriteExtracted` | backend/simple_reports.py:156-166 | appends the extracted-information section |
| `Reports.WriteItems` | backend/simple_reports.py:171-177 | the item loop appends one row per item, in order, and nothing else |
| `Reports.WritePurchaseOrder` | backend/simple_reports.py:178-188 | appends the separator and the purchase-order section |
| `Reports.GenerateCsvReport` | backend/simple_reports.py:143-199 | the row writing and the upload answer exactly `CsvReport`: the URL of the CSV key, or the error of the item loop or the upload |
| `Reports.CsvLayout` | backend/simple_reports.py:150-188 | the table has 25 rows plus one per item; the items sit in order after the column header (row 15); the Tax and Total rows apply their defaults; the last row is the order's total |
| `Handler.ParseRequest` | backend/document_processor.py:50-61 | a missing or falsy body is "No body in request"; a text body is parsed first and a parse error is raised; a body dict without `file` is "No file in request body"; a body dict with a decodable `file` is accepted, and then the content is the decoded `file` and the name and type default to "unknown.pdf" and "application/pdf" |
| `Handler.DecodedBody` | backend/document_processor.py:54 | a text body is what `json.loads` makes of it, any other body is taken as it is |
| `Handler.RequestMethod` | backend/document_processor.py:33 | with no request context, no `http` entry or no `method` entry the method is POST; a context or `http` entry that is not a dict raises; otherwise the method is `requestContext.http.method` |
| `Handler.HasKey` | backend/document_processor.py:56 | `key in body` is key membership for a dict, element membership for a list and substring search for a text, and raises for any other value |
| `Handler.Handle` | backend/document_processor.py:30-137 | the handler with its early returns yields exactly the response and stored record that `HandlerOutcome` describes |
| `Handler.RespondEnvelope` | backend/document_processor.py:115-137 | from the table write on, the answer is a 200 success body or a 500 error body, with the JSON CORS headers |
| `Handler.StatusEnvelope` | backend/document_processor.py:30-137 | every answer is 200 or 500; a 500 carries exactly an error; a 200 is the preflight answer or a full success |
| `Handler.PreflightRunsNoStage` | backend/document_processor.py:38-48 | an OPTIONS request gets the empty 200 with the CORS and Max-Age headers, whatever the services do, and nothing is stored |
| `Handler.OptionsRequestIsPreflight` | backend/document_processor.py:33-48 | an event whose `requestContext.http.method` is "OPTIONS" gets the preflight answer and nothing is stored |
| `Handler.MissingBodyRejected` | backend/document_processor.py:51-52 | without a truthy body the answer is the "No body" error and nothing is stored |
| `Handler.MissingFileRejected` | backend/document_processor.py:54-57 | a body, given as a dict or as JSON text parsing to one, that has no `file` is answered with the "No file" error and nothing is stored |
| `Handler.HandlerRunsPipeline` | backend/document_processor.py:65-91 | past validation the outcome is that of the stages |
| `Handler.RespondSuccess` | backend/document_processor.py:79-124 | a success means the table write succeeded, and the body names the record's id, its PDF URL, the order's number and the item count |
| `Handler.SuccessIsConsistent` | backend/document_processor.py:65-124 | a success ties the stages together: the drawn id in answer and record, the file name and text length in the record, the PDF URL, the order number in the summary, and the stored item count |
| `Handler.RespondAllStages` | backend/document_processor.py:79-124 | when every stage from the table write on succeeds, the answer is the full success body |
| `Handler.RespondOrderFails` | backend/document_processor.py:84-137 | an order that cannot be derived turns a stored record into a 500 |
| `Handler.PipelineStores` | backend/document_processor.py:67-79 | once the record is built, it is handed to the table and the answer is that of the later stages |
| `Handler.StoredThenFailed` | backend/document_processor.py:79-137 | a record can be stored and the request still answer 500: a finite text subtotal makes the order raise |
| `Handler.SubtotalOnlyStored` | backend/document_processor.py:389-441 | a record holding only a finite text subtotal can be stored |
| `Handler.ServiceDownAnswersFromFallback` | backend/document_processor.py:73-124 | with the model service down and the other services up, every validated upload is answered from the canned record: its vendor, three items, and a value of 135 in the record, order and summary |
| `Handler.FallbackRecordAnswered` | backend/document_processor.py:84-124 | once the canned record is stored and the typesetting and uploads succeed, the answer is a success carrying the canned record, its vendor, three items and 135 as summary value and order total |
| `Handler.PdfReportUploaded` | backend/simple_reports.py:15-141 | when the PDF fields can be gathered and typesetting and upload succeed, `generate_pdf_report` succeeds |
| `Handler.FallbackRecordStored` | backend/document_processor.py:389-441 | the canned record is stored with three items and a total of 135 |
| `Handler.FallbackRecordOrdered` | backend/document_processor.py:445-469 | the canned record is ordered with a total of 135 |
| `Handler.FallbackRecordReported` | backend/simple_reports.py:29-99 | the canned record's PDF fields can be gathered |
| `Handler.FallbackRecordSummarized` | backend/simple_reports.py:201-215 | the canned record's summary names its vendor, counts three items and is worth 135 |

## Left out

- Remote services are not modelled; they are parameters. This covers the AWS
  clients: the model call, the table write and the object upload. It also
  covers the PDF and Word libraries, `json.loads`, base64 decoding and the
  FPDF typesetting. Their failures are modelled as `Err` results.
- The model call's request layout is not modelled. That is the model id, the
  token limit and the reply envelope `response_body['content'][0]['text']`.
  The call is one collaborator from prompt to reply text. A malformed envelope
  is one of the exceptions it may raise.
- `uuid.uuid4()` and the clock readings are not drawn by the model. They are
  inputs, the fields of `Handler.Fresh`. The order number and the order date
  read the clock separately, and so do the PDF's fallback date and the
  summary's time; each is its own input.
- StoredAndOrderedTotalsAgree: holds for amounts read as exact numbers only.
  `json.loads` gives binary floats, and `generate_purchase_order` adds them
  as floats (line 452), while `store_quotation` adds the decimals read from
  their text (lines 411-415). For fractional amounts the two can differ by a
  rounding error: a subtotal of 0.1 and a tax of 0.2 are ordered with a total
  of 0.30000000000000004 but stored with 0.3. `OrderedTotal`,
  `DerivedTotal` and `PdfGrandTotalAddsUp` use the same exact sums.
- Logging (`print`) has no effect on results and is left out.
- `decimal_to_float` and the response's `json.dumps` are left out. Amounts
  are exact reals, so float conversion and rounding, and the serialised text
  of the body, are not modelled. A record parsed from JSON always serialises,
  so this cannot raise.
- Python's exception messages are placeholders. Examples are
  `ItemsNotObjects` and "object has no attribute 'get'". Only the fact that
  the stage raised, and that the 500 body carries the message, is modelled.
- `Decimal`'s special values are read. In `store_quotation` they make the
  comparisons at lines 414 and 437, or the sum at line 415, raise
  `InvalidOperation`; a special value that gets past them is refused by the
  table client's serializer, modelled as the `NonFiniteAmount` error. The
  exact text of that refusal, and the table service's own refusals, are
  placeholders.
- `Decimal`'s exponent range, the rounding of `subtotal + tax` to 28
  significant digits and the table client's 38-digit limit are not
  modelled: every finite numeral is read and added exactly. Digits outside ASCII
  (which `Decimal` accepts) are not modelled; they are rejected like any
  other non-numeral. Nor are the NaN and Infinity literals that `json.loads`
  itself accepts; the parsed record is the collaborator `parseObject`.
- The `str()` of a non-string value is the collaborator `show`, except for the
  booleans, lists and dicts that the lemmas name.
- Reading `DYNAMODB_TABLE` from the environment is not modelled. It raises a
  `KeyError` when the variable is unset.
- FPDF's layout of the PDF is not modelled: fonts, positions, the fixed buyer
  block and the logo. Only the fields the PDF shows are selected, and
  `renderPdf` stands for the typesetting, which may raise. The typesetting
  also includes the `float()` of each amount cell (lines 78-94). That call
  reads a numeric text such as "25.00" but raises on any other text and on a
  list or dict; since `renderPdf` may fail on any fields, this is one of its
  failures and is not singled out.
- The CSV text encoding by `csv.writer` is not modelled. The upload receives
  the table of cells.
- `generate_csv_report` is modelled on its own, because the handler never
  calls it.
- `unused_bedrock_code` is not modelled. Nothing calls it, and it refers to
  an undefined `text_content`.
