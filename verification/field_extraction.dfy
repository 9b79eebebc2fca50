/**
 * `process_with_bedrock` and `parse_fallback`: the structured record of a
 * quotation. The language-model service is a collaborator (`invokeModel`:
 * the prompt in, the reply text out, or the exception any step of the call
 * raised); so is `json.loads` applied to the candidate JSON span
 * (`parseObject`), which yields a dict or raises.
 */
module FieldExtraction {
  import opened Values
  import opened Text
  import opened Decimals

  /** Below this many characters after stripping, the text is taken as a failed extraction. */
  const MinimumText: nat := 100

  const Indent: string := "        "

  /** The lines of the sample quotation substituted for a too-short text. */
  const SampleLines: seq<string> := [
    "ABC Stationery Supplies Pte Ltd.",
    "10 Anson Road, #15-01 International Plaza",
    "Singapore 079903",
    "Phone: +65 6123 4567",
    "Email: contact@abcstationery.com",
    "From:",
    "ABC Stationery Supplies Pte Ltd.",
    "10 Anson Road, #15-01 International Plaza",
    "Singapore 079903",
    "To:",
    "XYZ School Supplies",
    "25 Bukit Timah Road",
    "Singapore 259756",
    "QUOTATION",
    "Quote Number: QTN-2025-001",
    "Date: 18 August 2025",
    "Item Description Quantity Unit Price (SGD) Total (SGD)",
    "Pen Blue Ink Ballpoint Pen 50 0.50 25.00",
    "Notebook A4 Size, 200 Pages 30 2.00 60.00",
    "Stapler Heavy Duty Stapler 10 5.00 50.00",
    "Subtotal: 135.00"
  ]

  /** Each line indented and ended, as they stand in the source's triple-quoted literal. */
  function IndentedLines(lines: seq<string>): string {
    if lines == [] then "" else IndentedLines(lines[..|lines| - 1]) + Indent + lines[|lines| - 1] + "\n"
  }

  /** The sample text: a newline, the indented lines, and the indentation of the closing quotes. */
  const SampleText: string := "\n" + IndentedLines(SampleLines) + Indent

  const PromptPrefix: string :=
    "Extract quotation data from this text and return JSON with fields: company_name, email, "
    + "phone, address, buyer_name, buyer_address, quote_number, date, items (array), subtotal, "
    + "tax, total. Text: "

  /** The text the extraction works on: the sample when the input is too short. */
  function ModelInput(text: string): (r: string)
    ensures |Strip(text)| >= MinimumText ==> r == text
    ensures |Strip(text)| < MinimumText ==> r == SampleText
  {
    if |Strip(text)| < MinimumText then SampleText else text
  }

  function Prompt(text: string): string {
    PromptPrefix + ModelInput(text)
  }

  /**
   * The candidate JSON in a reply: from the first `{` to the last `}`.
   * There is none exactly when every `}` comes before every `{`.
   */
  function JsonSpan(reply: string): (span: Option<string>)
    ensures span.None? <==>
      forall a, b | 0 <= a < |reply| && 0 <= b < |reply| && reply[a] == '{' && reply[b] == '}' :: b < a
    ensures span.Some? ==>
      && 0 <= FindChar(reply, '{') < RFindChar(reply, '}') < |reply|
      && span.value == reply[FindChar(reply, '{')..RFindChar(reply, '}') + 1]
      && |span.value| >= 2 && span.value[0] == '{' && span.value[|span.value| - 1] == '}'
  {
    var start := FindChar(reply, '{');
    var end := RFindChar(reply, '}') + 1;
    SpanBounds(reply);
    if start >= 0 && end > start then Some(reply[start..end]) else None
  }

  lemma SpanBounds(reply: string)
    ensures var i, j := FindChar(reply, '{'), RFindChar(reply, '}');
      (i >= 0 && j + 1 > i) <==>
      !forall a, b | 0 <= a < |reply| && 0 <= b < |reply| && reply[a] == '{' && reply[b] == '}' :: b < a
  {
    var i, j := FindChar(reply, '{'), RFindChar(reply, '}');
    forall a | 0 <= a < |reply| && reply[a] == '{' ensures 0 <= i <= a {
      assert reply[a] in reply;
      forall k | 0 <= k < i ensures reply[k] != '{' {
        assert reply[k] == reply[..i][k];
      }
    }
    forall b | 0 <= b < |reply| && reply[b] == '}' ensures 0 <= b <= j {
      assert reply[b] in reply;
      forall k | j < k < |reply| ensures reply[k] != '}' {
        assert reply[k] == reply[j + 1..][k - j - 1];
      }
    }
    if i >= 0 && j + 1 > i {
      assert reply[i] == '{' && reply[j] == '}';
    }
  }

  function Item(description: string, quantity: real, unitPrice: real, total: real): Json {
    JObj(map["description" := JStr(description), "quantity" := JNum(quantity),
             "unit_price" := JNum(unitPrice), "total_amount" := JNum(total)])
  }

  /** The canned record returned whenever no structured record could be obtained. */
  const FallbackRecord: map<string, Json> :=
    map[
      "company_name" := JStr("ABC Stationery Supplies Pte Ltd."),
      "email" := JStr("contact@abcstationery.com"),
      "phone" := JStr("+65 6123 4567"),
      "address" := JStr("10 Anson Road, #15-01 International Plaza Singapore 079903"),
      "buyer_name" := JStr("XYZ School Supplies"),
      "buyer_address" := JStr("25 Bukit Timah Road Singapore 259756"),
      "quote_number" := JStr("QTN-2025-001"),
      "date" := JStr("2025-08-18"),
      "items" := JArr([
        Item("Blue Ink Ballpoint Pen", 50.0, 0.50, 25.00),
        Item("A4 Size, 200 Pages Notebook", 30.0, 2.00, 60.00),
        Item("Heavy Duty Stapler", 10.0, 5.00, 50.00)
      ]),
      "subtotal" := JNum(135.00),
      "tax" := JNum(0.0),
      "total" := JNum(135.00)
    ]

  /** `parse_fallback(text)`: the canned record, whatever the text. */
  function ParseFallback(text: string): map<string, Json> {
    FallbackRecord
  }

  /**
   * `process_with_bedrock(text)`: the dict parsed from the reply's JSON span,
   * or the canned record when the call raised, the reply has no span, or the
   * span does not parse.
   */
  function ExtractFields(text: string, invokeModel: string -> Result<string>,
                         parseObject: string -> Result<map<string, Json>>): (r: map<string, Json>)
    ensures invokeModel(Prompt(text)).Err? ==> r == FallbackRecord
    ensures invokeModel(Prompt(text)).Ok? && JsonSpan(invokeModel(Prompt(text)).value).None? ==>
              r == FallbackRecord
    ensures invokeModel(Prompt(text)).Ok? && JsonSpan(invokeModel(Prompt(text)).value).Some?
            && parseObject(JsonSpan(invokeModel(Prompt(text)).value).value).Ok? ==>
              r == parseObject(JsonSpan(invokeModel(Prompt(text)).value).value).value
    ensures r != FallbackRecord ==>
              && invokeModel(Prompt(text)).Ok?
              && JsonSpan(invokeModel(Prompt(text)).value).Some?
              && parseObject(JsonSpan(invokeModel(Prompt(text)).value).value) == Ok(r)
  {
    var input := ModelInput(text);
    match invokeModel(Prompt(text))
    case Err(_) => ParseFallback(input)
    case Ok(reply) =>
      match JsonSpan(reply)
      case None => ParseFallback(input)
      case Some(span) =>
        match parseObject(span)
        case Ok(record) => record
        case Err(_) => ParseFallback(input)
  }

  /** A reply that is one braced text is its own span. */
  lemma BracedReplyIsSpan(inner: string)
    ensures JsonSpan("{" + inner + "}") == Some("{" + inner + "}")
  {
    var reply := "{" + inner + "}";
    FindCharAt(reply, '{', 0);
    assert reply[|reply| - 1] == '}';
    assert RFindChar(reply, '}') == |reply| - 1;
    assert reply[0..|reply|] == reply;
  }

  /** When the reply is one braced text, the record is what that text parses to. */
  lemma BracedReplyParsed(text: string, invokeModel: string -> Result<string>,
                          parseObject: string -> Result<map<string, Json>>,
                          inner: string, record: map<string, Json>)
    requires invokeModel(Prompt(text)) == Ok("{" + inner + "}")
    requires parseObject("{" + inner + "}") == Ok(record)
    ensures ExtractFields(text, invokeModel, parseObject) == record
  {
    BracedReplyIsSpan(inner);
  }

  /**
   * Short texts are all replaced by the same sample, so the outcome does not
   * depend on which short text came in.
   */
  lemma ShortTextsInterchangeable(t1: string, t2: string, invokeModel: string -> Result<string>,
                                  parseObject: string -> Result<map<string, Json>>)
    requires |Strip(t1)| < MinimumText && |Strip(t2)| < MinimumText
    ensures Prompt(t1) == Prompt(t2) == PromptPrefix + SampleText
    ensures ExtractFields(t1, invokeModel, parseObject) == ExtractFields(t2, invokeModel, parseObject)
  {
  }

  /** A text long enough is sent to the service unchanged, after the fixed instruction. */
  lemma LongTextSentUnchanged(text: string)
    requires |Strip(text)| >= MinimumText
    ensures Prompt(text) == PromptPrefix + text
    ensures Contains(Prompt(text), text)
  {
    ContainsInside(PromptPrefix, text, "");
    assert PromptPrefix + text + "" == PromptPrefix + text;
  }

  /** The sum of the items' line totals, where these are numbers. */
  function LineTotalSum(items: seq<map<string, Json>>): real {
    if items == [] then 0.0
    else LineTotalSum(items[..|items| - 1]) + NumberOr0(Get(items[|items| - 1], "total_amount"))
  }

  function NumberOr0(v: Json): real {
    if v.JNum? then v.n else 0.0
  }

  /**
   * The canned record is internally consistent: its amounts are numbers,
   * every line total is quantity times unit price, the line totals add up to
   * the subtotal (135), and the total is subtotal plus tax.
   */
  lemma FallbackRecordConsistent()
    ensures ItemDicts(ItemsField(FallbackRecord)).Some?
    ensures var items := ItemDicts(ItemsField(FallbackRecord)).value;
      && |items| == 3
      && (forall k | 0 <= k < |items| :: LineConsistent(items[k]))
      && LineTotalSum(items) == 135.0
    ensures FallbackRecord["subtotal"] == JNum(135.0) && FallbackRecord["tax"] == JNum(0.0)
    ensures FallbackRecord["total"] == JNum(135.0)
  {
    FallbackLines();
    FallbackLinesConsistent(ItemDicts(ItemsField(FallbackRecord)).value);
  }

  /** A line whose amounts are numbers and whose total is quantity times unit price. */
  predicate LineConsistent(item: map<string, Json>) {
    && "quantity" in item && item["quantity"].JNum?
    && "unit_price" in item && item["unit_price"].JNum?
    && "total_amount" in item && item["total_amount"] == JNum(item["quantity"].n * item["unit_price"].n)
  }

  lemma FallbackLinesConsistent(items: seq<map<string, Json>>)
    requires |items| == 3
    requires items[0] == Item("Blue Ink Ballpoint Pen", 50.0, 0.50, 25.00).fields
    requires items[1] == Item("A4 Size, 200 Pages Notebook", 30.0, 2.00, 60.00).fields
    requires items[2] == Item("Heavy Duty Stapler", 10.0, 5.00, 50.00).fields
    ensures forall k | 0 <= k < |items| :: LineConsistent(items[k])
    ensures LineTotalSum(items) == 135.0
  {
    assert LineTotalSum(items[..1]) == 25.00 by {
      assert items[..1][..0] == [];
    }
    assert items[..2][..1] == items[..1];
    assert items[..3][..2] == items[..2];
    assert items[..3] == items;
  }

  /** The canned record lists its three items as dicts. */
  lemma FallbackLines()
    ensures ItemDicts(ItemsField(FallbackRecord)).Some?
    ensures var items := ItemDicts(ItemsField(FallbackRecord)).value;
      && |items| == 3
      && items[0] == Item("Blue Ink Ballpoint Pen", 50.0, 0.50, 25.00).fields
      && items[1] == Item("A4 Size, 200 Pages Notebook", 30.0, 2.00, 60.00).fields
      && items[2] == Item("Heavy Duty Stapler", 10.0, 5.00, 50.00).fields
  {
    var lines := FallbackRecord["items"].elems;
    assert |lines| == 3;
  }

}
