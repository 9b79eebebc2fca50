/**
 * `generate_purchase_order`: the purchase order derived from an extracted
 * quotation record. The two clock readings (`%Y%m%d` for the number,
 * `%Y-%m-%d` for the date) and the uuid text are inputs.
 */
module PurchaseOrders {
  import opened Values
  import opened Text
  import opened Decimals
  import opened Normalization

  datatype PurchaseOrder = PurchaseOrder(
    poNumber: string,
    vendor: Json,
    vendorEmail: Json,
    vendorPhone: Json,
    vendorAddress: Json,
    quoteReference: Json,
    poDate: string,
    items: Json,
    subtotal: Json,
    tax: Json,
    total: Json,
    status: string)

  const PendingApproval: string := "pending_approval"

  /** Characters of the uuid text that go into a purchase-order number. */
  const UuidPrefix: nat := 8

  /** `f"PO-{stamp}-{uuid[:8]}"` */
  function PoNumber(stamp: string, uuid: string): (r: string)
    ensures |r| == 4 + |stamp| + (if |uuid| < UuidPrefix then |uuid| else UuidPrefix)
    ensures r[..3] == "PO-" && r[3..3 + |stamp|] == stamp && r[3 + |stamp|] == '-'
    ensures r[4 + |stamp|..] <= uuid
  {
    "PO-" + stamp + "-" + Take(uuid, UuidPrefix)
  }

  /** `data.get(key, 0) or 0`: the value when truthy, else the number 0. */
  function AmountOrZero(data: map<string, Json>, key: string): (v: Json)
    ensures Truthy(Get(data, key)) ==> v == data[key]
    ensures !Truthy(Get(data, key)) ==> v == JNum(0.0)
  {
    Or(GetOr(data, key, JNum(0.0)), JNum(0.0))
  }

  /**
   * The purchase order for `data`. A truthy total is taken as given;
   * otherwise the total is `subtotal + tax`, which raises a TypeError when the
   * two cannot be added (a text subtotal and a numeric tax, say).
   */
  function GeneratePurchaseOrder(data: map<string, Json>, stamp: string, uuid: string,
                                 poDate: string): (r: Result<PurchaseOrder>)
    ensures r.Err? <==> !Truthy(Get(data, "total"))
                        && Add(AmountOrZero(data, "subtotal"), AmountOrZero(data, "tax")).Err?
    ensures r.Ok? ==>
      var po := r.value;
      && po.poNumber == PoNumber(stamp, uuid) && po.poDate == poDate && po.status == PendingApproval
      && po.items == ItemsField(data)
      && po.vendor == Get(data, "company_name") && po.vendorEmail == Get(data, "email")
      && po.vendorPhone == Get(data, "phone") && po.vendorAddress == Get(data, "address")
      && po.quoteReference == Get(data, "quote_number")
      && po.subtotal == AmountOrZero(data, "subtotal") && po.tax == AmountOrZero(data, "tax")
    ensures Truthy(Get(data, "total")) ==> r.Ok? && r.value.total == data["total"]
  {
    var subtotal := AmountOrZero(data, "subtotal");
    var tax := AmountOrZero(data, "tax");
    var total := if Truthy(Get(data, "total")) then Ok(Get(data, "total")) else Add(subtotal, tax);
    match total
    case Err(m) => Err(m)
    case Ok(t) =>
      Ok(PurchaseOrder(
        PoNumber(stamp, uuid),
        Get(data, "company_name"),
        Get(data, "email"),
        Get(data, "phone"),
        Get(data, "address"),
        Get(data, "quote_number"),
        poDate,
        ItemsField(data),
        subtotal, tax, t,
        PendingApproval))
  }

  /** The number is "PO-", the date stamp, "-" and the first eight characters of the uuid. */
  lemma PoNumberShape(stamp: string, uuid: string)
    requires |uuid| >= UuidPrefix
    ensures PoNumber(stamp, uuid) == "PO-" + stamp + "-" + uuid[..UuidPrefix]
    ensures |PoNumber(stamp, uuid)| == |stamp| + 12
    ensures PoNumber(stamp, uuid)[..3] == "PO-" && PoNumber(stamp, uuid)[3 + |stamp|] == '-'
  {
  }

  /**
   * Purchase-order numbers with stamps of one length tell their parts apart:
   * equal numbers have equal stamps and equal uuid prefixes.
   */
  lemma PoNumberInjective(s1: string, u1: string, s2: string, u2: string)
    requires |s1| == |s2| && |u1| >= UuidPrefix && |u2| >= UuidPrefix
    requires PoNumber(s1, u1) == PoNumber(s2, u2)
    ensures s1 == s2 && u1[..UuidPrefix] == u2[..UuidPrefix]
  {
    var n := PoNumber(s1, u1);
    assert n == "PO-" + s1 + "-" + u1[..UuidPrefix];
    assert n == "PO-" + s2 + "-" + u2[..UuidPrefix];
    assert s1 == n[3..3 + |s1|];
    assert s2 == n[3..3 + |s2|];
    assert u1[..UuidPrefix] == n[4 + |s1|..];
    assert u2[..UuidPrefix] == n[4 + |s2|..];
  }

  /**
   * A missing or zero total is derived: the sum of the numeric values of the
   * (defaulted) subtotal and tax.
   */
  lemma DerivedTotal(data: map<string, Json>, stamp: string, uuid: string, poDate: string)
    requires !Truthy(Get(data, "total"))
    requires NumericValue(AmountOrZero(data, "subtotal")).Some?
    requires NumericValue(AmountOrZero(data, "tax")).Some?
    ensures var r := GeneratePurchaseOrder(data, stamp, uuid, poDate);
      && r.Ok?
      && r.value.total == JNum(NumericValue(AmountOrZero(data, "subtotal")).value
                               + NumericValue(AmountOrZero(data, "tax")).value)
  {
  }

  /** With neither subtotal, tax nor total, the purchase order totals 0. */
  lemma EmptyRecordTotalsZero(stamp: string, uuid: string, poDate: string)
    ensures var r := GeneratePurchaseOrder(map[], stamp, uuid, poDate);
      r.Ok? && r.value.total == JNum(0.0) && r.value.items == JArr([])
  {
  }

  /**
   * Amounts that arrive as text are not added but concatenated: a subtotal
   * "135.00" and a tax "9.45" without a total give the total "135.009.45".
   */
  lemma TextAmountsConcatenate(sub: string, tax: string, stamp: string, uuid: string, poDate: string)
    requires sub != "" && tax != ""
    ensures var r := GeneratePurchaseOrder(map["subtotal" := JStr(sub), "tax" := JStr(tax)],
                                           stamp, uuid, poDate);
      r.Ok? && r.value.total == JStr(sub + tax)
  {
  }

  /** A text subtotal with a numeric (or missing) tax and no total makes the derivation raise. */
  lemma TextSubtotalRaises(sub: string, stamp: string, uuid: string, poDate: string)
    requires sub != ""
    ensures GeneratePurchaseOrder(map["subtotal" := JStr(sub)], stamp, uuid, poDate).Err?
  {
  }

  /** Numeric amounts: absent or numbers. */
  predicate NumericAmount(data: map<string, Json>, key: string) {
    key !in data || data[key].JNum?
  }

  /**
   * For numeric amounts and a positive subtotal, the record is stored exactly
   * when the item amounts are finite, and then, with amounts read as exact
   * numbers, the total the quotation table stores and the total of the
   * purchase order are the same number. The order adds binary floats while
   * the table adds decimals, so fractional amounts can part by a rounding
   * error (0.1 + 0.2).
   */
  lemma StoredAndOrderedTotalsAgree(data: map<string, Json>, quotationId: string, fileName: Json,
                                    rawText: string, processedAt: string, recordText: string,
                                    stamp: string, uuid: string, poDate: string)
    requires ItemDicts(ItemsField(data)).Some?
    requires "subtotal" in data && data["subtotal"].JNum? && data["subtotal"].n > 0.0
    requires NumericAmount(data, "tax") && NumericAmount(data, "total")
    ensures var q := Normalize(quotationId, data, fileName, rawText, processedAt, recordText);
            var po := GeneratePurchaseOrder(data, stamp, uuid, poDate);
            && (q.Ok? <==> ItemsFinite(ItemDicts(ItemsField(data)).value))
            && po.Ok?
            && (q.Ok? ==> po.value.total == JNum(q.value.total))
  {
    var tax := if "tax" in data then data["tax"].n else 0.0;
    var total := if "total" in data then data["total"].n else 0.0;
    OrderedTotal(data, stamp, uuid, poDate, tax, total);
    StoredTotalOfNumbers(data, quotationId, fileName, rawText, processedAt, recordText, tax, total);
  }

  /** The amounts of `StoredAndOrderedTotalsAgree`: a positive subtotal and numeric or absent tax and total. */
  predicate NumericAmounts(data: map<string, Json>, tax: real, total: real) {
    && "subtotal" in data && data["subtotal"].JNum? && data["subtotal"].n > 0.0
    && Get(data, "tax") == (if "tax" in data then JNum(tax) else JNull) && ("tax" !in data ==> tax == 0.0)
    && Get(data, "total") == (if "total" in data then JNum(total) else JNull) && ("total" !in data ==> total == 0.0)
  }

  /** The order's total for numeric amounts is the recomputed total. */
  lemma OrderedTotal(data: map<string, Json>, stamp: string, uuid: string, poDate: string, tax: real, total: real)
    requires NumericAmounts(data, tax, total)
    ensures var po := GeneratePurchaseOrder(data, stamp, uuid, poDate);
            po.Ok? && po.value.total == JNum(StoredTotal(data["subtotal"].n, tax, total))
  {
  }

  /** For numeric amounts the record is stored exactly when its items are finite, with the recomputed total. */
  lemma StoredTotalOfNumbers(data: map<string, Json>, quotationId: string, fileName: Json, rawText: string,
                             processedAt: string, recordText: string, tax: real, total: real)
    requires ItemDicts(ItemsField(data)).Some?
    requires NumericAmounts(data, tax, total)
    ensures var q := Normalize(quotationId, data, fileName, rawText, processedAt, recordText);
            && (q.Ok? <==> ItemsFinite(ItemDicts(ItemsField(data)).value))
            && (q.Ok? ==> q.value.total == StoredTotal(data["subtotal"].n, tax, total))
  {
    assert SafeDecimal(Get(data, "subtotal")) == Finite(data["subtotal"].n);
    assert SafeDecimal(Get(data, "tax")) == Finite(tax);
    assert SafeDecimal(Get(data, "total")) == Finite(total);
  }

  /**
   * Without a positive subtotal the two totals part: a zero subtotal with a
   * tax of 10 is stored with total 0 but ordered with total 10.
   */
  lemma ZeroSubtotalTotalsDiffer(quotationId: string, fileName: Json, rawText: string,
                                 processedAt: string, recordText: string,
                                 stamp: string, uuid: string, poDate: string)
    ensures var data := map["subtotal" := JNum(0.0), "tax" := JNum(10.0)];
            var q := Normalize(quotationId, data, fileName, rawText, processedAt, recordText);
            var po := GeneratePurchaseOrder(data, stamp, uuid, poDate);
            q.Ok? && q.value.total == 0.0 && po.Ok? && po.value.total == JNum(10.0)
  {
  }
}
