/**
 * `store_quotation`: the record written to the quotations table. Amounts are
 * coerced with `safe_decimal`, a missing total is recomputed, text fields get
 * their defaults and extraction metadata is derived. Writing the record
 * (`put_item`) is left to the caller, except for the table client's refusal
 * of an infinite or NaN amount, which is part of this model.
 */
module Normalization {
  import opened Values
  import opened Text
  import opened Decimals

  /** One stored line item: the description as given, the amounts coerced. */
  datatype LineItem = LineItem(description: Json, quantity: real, unitPrice: real, totalAmount: real)

  datatype Metadata = Metadata(itemsCount: nat, hasTax: bool, currency: string, textLength: nat)

  /** The stored quotation record. */
  datatype Quotation = Quotation(
    quotationId: string,
    companyName: Json,
    email: Json,
    phone: Json,
    address: Json,
    buyerName: Json,
    buyerAddress: Json,
    quoteNumber: Json,
    date: Json,
    items: seq<LineItem>,
    subtotal: real,
    tax: real,
    total: real,
    originalFile: Json,
    processedAt: string,
    status: string,
    rawText: string,
    metadata: Metadata)

  /** At most this many characters of the extracted text are stored. */
  const RawTextLimit: nat := 1000

  const Processed: string := "processed"

  /** What a trapped `InvalidOperation` from a comparison or sum says. */
  const InvalidOperation: string := "[<class 'decimal.InvalidOperation'>]"

  /** What writing a record with an infinite or NaN amount raises. */
  const NonFiniteAmount: string := "Infinity and NaN not supported"

  /** The three coerced amounts of one item are finite. */
  predicate ItemFinite(item: map<string, Json>) {
    && SafeDecimal(Get(item, "quantity")).Finite?
    && SafeDecimal(Get(item, "unit_price")).Finite?
    && SafeDecimal(Get(item, "total_amount")).Finite?
  }

  predicate ItemsFinite(items: seq<map<string, Json>>) {
    forall k {:trigger ItemFinite(items[k])} | 0 <= k < |items| :: ItemFinite(items[k])
  }

  function NormalizeItem(item: map<string, Json>): LineItem
    requires ItemFinite(item)
  {
    LineItem(GetOr(item, "description", JStr("")),
             SafeDecimal(Get(item, "quantity")).value,
             SafeDecimal(Get(item, "unit_price")).value,
             SafeDecimal(Get(item, "total_amount")).value)
  }

  /** The copied items, one per input item and in input order. */
  function NormalizeItems(items: seq<map<string, Json>>): (r: seq<LineItem>)
    requires ItemsFinite(items)
    ensures |r| == |items|
    ensures forall k | 0 <= k < |items| :: r[k] == NormalizeItem(items[k])
  {
    if items == [] then []
    else NormalizeItems(items[..|items| - 1]) + [NormalizeItem(items[|items| - 1])]
  }

  /** Finiteness of a prefix one item longer. */
  lemma ItemsFiniteExtend(items: seq<map<string, Json>>, i: nat)
    requires i < |items|
    ensures ItemsFinite(items[..i + 1]) <==> ItemsFinite(items[..i]) && ItemFinite(items[i])
  {
    var longer := items[..i + 1];
    assert longer[i] == items[i];
    assert forall k | 0 <= k < i :: longer[k] == items[..i][k];
  }

  /** The copies of a prefix one item longer. */
  lemma NormalizeItemsExtend(items: seq<map<string, Json>>, i: nat)
    requires i < |items| && ItemsFinite(items[..i + 1])
    ensures ItemsFinite(items[..i]) && ItemFinite(items[i])
    ensures NormalizeItems(items[..i + 1]) == NormalizeItems(items[..i]) + [NormalizeItem(items[i])]
  {
    ItemsFiniteExtend(items, i);
    assert items[..i + 1][..i] == items[..i];
  }

  /**
   * The stored total: the coerced total, except that a zero total with a
   * positive subtotal is replaced by subtotal + tax.
   */
  function StoredTotal(subtotal: real, tax: real, total: real): (r: real)
    ensures total != 0.0 ==> r == total
    ensures subtotal > 0.0 && tax >= 0.0 ==> r != 0.0
  {
    if total == 0.0 && subtotal > 0.0 then subtotal + tax else total
  }

  /**
   * Whether `total == 0`, `subtotal > 0`, `subtotal + tax` or `tax > 0` raise
   * `InvalidOperation`: an equality with a signalling NaN, an order comparison
   * with any NaN, or infinities of opposite signs added.
   */
  predicate ArithmeticRaises(subtotal: Dec, tax: Dec, total: Dec): (b: bool)
    ensures subtotal.Finite? && tax.Finite? && total.Finite? ==> !b
    ensures tax.NotANumber? || total == NotANumber(true) ==> b
    ensures total.Finite? && total.value != 0.0 && !tax.NotANumber? ==> !b
  {
    || total == NotANumber(true)
    || (total == Finite(0.0) && subtotal.NotANumber?)
    || (total == Finite(0.0) && subtotal == Infinite(false) && tax == Infinite(true))
    || tax.NotANumber?
  }

  /** Every amount the record would store is finite. */
  predicate AmountsFinite(items: seq<map<string, Json>>, data: map<string, Json>) {
    && ItemsFinite(items)
    && SafeDecimal(Get(data, "subtotal")).Finite?
    && SafeDecimal(Get(data, "tax")).Finite?
    && SafeDecimal(Get(data, "total")).Finite?
  }

  /** The currency guess: SGD when the text of the whole record mentions it, USD otherwise. */
  function Currency(recordText: string): (r: string)
    ensures r == "SGD" || r == "USD"
    ensures r == "SGD" <==> Contains(recordText, "SGD")
  {
    if Contains(recordText, "SGD") then "SGD" else "USD"
  }

  /** `data.get(key) or default`, as a relation between a stored field and the input. */
  predicate KeptOrDefault(field: Json, data: map<string, Json>, key: string, default: Json) {
    if Truthy(Get(data, key)) then field == data[key] else field == default
  }

  /**
   * The `item` dict `store_quotation` builds from the copied items and the
   * coerced amounts, with the clock reading `processedAt` and `recordText` =
   * str(data).
   */
  function Record(quotationId: string, data: map<string, Json>, fileName: Json, rawText: string,
                  processedAt: string, recordText: string,
                  items: seq<LineItem>, subtotal: real, tax: real, total: real): (q: Quotation)
    ensures q.quotationId == quotationId && q.originalFile == fileName && q.processedAt == processedAt
    ensures q.status == Processed && q.items == items && q.metadata.itemsCount == |items|
    ensures q.subtotal == subtotal && q.tax == tax && q.total == total
    ensures q.rawText <= rawText
    ensures |q.rawText| == (if |rawText| < RawTextLimit then |rawText| else RawTextLimit)
    ensures q.metadata.textLength == |rawText|
    ensures q.metadata.hasTax <==> tax > 0.0
    ensures q.metadata.currency == "SGD" <==> Contains(recordText, "SGD")
    ensures q.metadata.currency == "SGD" || q.metadata.currency == "USD"
    ensures Truthy(q.companyName)
    ensures KeptOrDefault(q.companyName, data, "company_name", JStr("Unknown"))
    ensures KeptOrDefault(q.email, data, "email", JStr(""))
    ensures KeptOrDefault(q.phone, data, "phone", JStr(""))
    ensures KeptOrDefault(q.address, data, "address", JStr(""))
    ensures KeptOrDefault(q.buyerName, data, "buyer_name", JStr(""))
    ensures KeptOrDefault(q.buyerAddress, data, "buyer_address", JStr(""))
    ensures KeptOrDefault(q.quoteNumber, data, "quote_number", JStr(""))
    ensures KeptOrDefault(q.date, data, "date", JStr(""))
    ensures forall f | f in TextFields(q) :: Truthy(f) || f == JStr("")
  {
    Quotation(
      quotationId,
      Or(Get(data, "company_name"), JStr("Unknown")),
      Or(Get(data, "email"), JStr("")),
      Or(Get(data, "phone"), JStr("")),
      Or(Get(data, "address"), JStr("")),
      Or(Get(data, "buyer_name"), JStr("")),
      Or(Get(data, "buyer_address"), JStr("")),
      Or(Get(data, "quote_number"), JStr("")),
      Or(Get(data, "date"), JStr("")),
      items, subtotal, tax, total, fileName, processedAt, Processed,
      Take(rawText, RawTextLimit),
      Metadata(|items|, tax > 0.0, Currency(recordText), |rawText|))
  }

  /**
   * The record `store_quotation(quotationId, data, fileName, rawText)` writes.
   * It fails when the items cannot be visited as dicts, and when an amount is
   * infinite or NaN: either a comparison or the sum of the total raises, or
   * the table refuses the record.
   */
  function Normalize(quotationId: string, data: map<string, Json>, fileName: Json, rawText: string,
                     processedAt: string, recordText: string): (r: Result<Quotation>)
    ensures ItemDicts(ItemsField(data)).None? ==> r == Err(ItemsNotObjects)
    ensures ItemDicts(ItemsField(data)).Some? ==>
      (r.Ok? <==> AmountsFinite(ItemDicts(ItemsField(data)).value, data))
    ensures ItemDicts(ItemsField(data)).Some? && r.Err? ==>
      (r == Err(InvalidOperation) <==> ArithmeticRaises(SafeDecimal(Get(data, "subtotal")),
                                                        SafeDecimal(Get(data, "tax")),
                                                        SafeDecimal(Get(data, "total"))))
      && (r == Err(InvalidOperation) || r == Err(NonFiniteAmount))
    ensures r.Ok? ==>
      var source := ItemDicts(ItemsField(data)).value;
      && |r.value.items| == |source|
      && (forall k | 0 <= k < |source| :: r.value.items[k] == NormalizeItem(source[k]))
      && Finite(r.value.subtotal) == SafeDecimal(Get(data, "subtotal"))
      && Finite(r.value.tax) == SafeDecimal(Get(data, "tax"))
      && r.value.total == StoredTotal(r.value.subtotal, r.value.tax, SafeDecimal(Get(data, "total")).value)
      && r.value == Record(quotationId, data, fileName, rawText, processedAt, recordText,
                           r.value.items, r.value.subtotal, r.value.tax, r.value.total)
  {
    match ItemDicts(ItemsField(data))
    case None => Err(ItemsNotObjects)
    case Some(source) =>
      var subtotal := SafeDecimal(Get(data, "subtotal"));
      var tax := SafeDecimal(Get(data, "tax"));
      var total := SafeDecimal(Get(data, "total"));
      if ArithmeticRaises(subtotal, tax, total) then Err(InvalidOperation)
      else if !AmountsFinite(source, data) then Err(NonFiniteAmount)
      else
        Ok(Record(quotationId, data, fileName, rawText, processedAt, recordText, NormalizeItems(source),
                  subtotal.value, tax.value, StoredTotal(subtotal.value, tax.value, total.value)))
  }

  /** The text fields that default to the empty string. */
  function TextFields(q: Quotation): set<Json> {
    {q.email, q.phone, q.address, q.buyerName, q.buyerAddress, q.quoteNumber, q.date}
  }

  /**
   * The item loop of `store_quotation`: one copy per item, in order, and
   * whether every copied amount is finite.
   */
  method CopyItems(dicts: seq<map<string, Json>>) returns (items: seq<LineItem>, finite: bool)
    ensures finite == ItemsFinite(dicts)
    ensures finite ==> items == NormalizeItems(dicts)
  {
    items := [];
    finite := true;
    var i := 0;
    while i < |dicts|
      invariant 0 <= i <= |dicts|
      invariant finite == ItemsFinite(dicts[..i])
      invariant finite ==> items == NormalizeItems(dicts[..i])
    {
      var item := dicts[i];
      ItemsFiniteExtend(dicts, i);
      var quantity := SafeDecimal(Get(item, "quantity"));
      var unitPrice := SafeDecimal(Get(item, "unit_price"));
      var totalAmount := SafeDecimal(Get(item, "total_amount"));
      if finite && quantity.Finite? && unitPrice.Finite? && totalAmount.Finite? {
        NormalizeItemsExtend(dicts, i);
        items := items + [LineItem(GetOr(item, "description", JStr("")),
                                   quantity.value, unitPrice.value, totalAmount.value)];
      } else {
        finite := false;
      }
      i := i + 1;
    }
    assert dicts[..i] == dicts;
  }

  /**
   * `store_quotation` builds the item copies one by one and reassigns the
   * total; the record it builds is the one `Normalize` describes.
   */
  method StoreQuotation(quotationId: string, data: map<string, Json>, fileName: Json, rawText: string,
                        processedAt: string, recordText: string)
    returns (r: Result<Quotation>)
    ensures r == Normalize(quotationId, data, fileName, rawText, processedAt, recordText)
  {
    var source := ItemDicts(ItemsField(data));
    if source.None? {
      return Err(ItemsNotObjects);
    }
    var items, finite := CopyItems(source.value);
    var subtotal := SafeDecimal(Get(data, "subtotal"));
    var tax := SafeDecimal(Get(data, "tax"));
    var total := SafeDecimal(Get(data, "total"));
    if ArithmeticRaises(subtotal, tax, total) {
      return Err(InvalidOperation);
    }
    if !(finite && subtotal.Finite? && tax.Finite? && total.Finite?) {
      return Err(NonFiniteAmount);
    }
    var stored := total.value;
    if stored == 0.0 && subtotal.value > 0.0 {
      stored := subtotal.value + tax.value;
    }
    assert stored == StoredTotal(subtotal.value, tax.value, total.value);
    r := Ok(Record(quotationId, data, fileName, rawText, processedAt, recordText, items,
                   subtotal.value, tax.value, stored));
  }

  /**
   * The recomputation rule: the coerced total is replaced by subtotal + tax
   * exactly in the zero-total, positive-subtotal case; otherwise it is kept.
   * A stored total is therefore zero only when the subtotal is not positive
   * or the tax cancels it, and recomputing a stored total changes nothing.
   */
  lemma TotalRecomputation(subtotal: real, tax: real, total: real)
    ensures var stored := StoredTotal(subtotal, tax, total);
      && (total == 0.0 && subtotal > 0.0 ==> stored == subtotal + tax)
      && (total != 0.0 || subtotal <= 0.0 ==> stored == total)
      && (stored == 0.0 ==> subtotal <= 0.0 || subtotal + tax == 0.0)
      && (subtotal > 0.0 && tax >= 0.0 ==> stored != 0.0)
      && StoredTotal(subtotal, tax, stored) == stored
  {
  }

  /**
   * The arithmetic raises only on amounts that are not finite, so a record
   * of finite amounts is always stored.
   */
  lemma ArithmeticRaisesOnlyOnSpecials(subtotal: Dec, tax: Dec, total: Dec)
    ensures ArithmeticRaises(subtotal, tax, total) ==> !subtotal.Finite? || !tax.Finite? || !total.Finite?
    ensures total.NotANumber? && total.signalling ==> ArithmeticRaises(subtotal, tax, total)
    ensures tax.NotANumber? ==> ArithmeticRaises(subtotal, tax, total)
  {
  }

  /** Absent amounts are stored as 0, and no tax means `has_tax` is false. */
  lemma StoredAmounts(quotationId: string, data: map<string, Json>, fileName: Json, rawText: string,
                      processedAt: string, recordText: string)
    requires Normalize(quotationId, data, fileName, rawText, processedAt, recordText).Ok?
    ensures var q := Normalize(quotationId, data, fileName, rawText, processedAt, recordText).value;
      && ("subtotal" !in data ==> q.subtotal == 0.0)
      && ("tax" !in data ==> q.tax == 0.0 && !q.metadata.hasTax)
      && ("total" !in data ==> q.total == StoredTotal(q.subtotal, q.tax, 0.0))
  {
  }

  /**
   * A tax written "NaN" is read as a NaN rather than 0, so `tax > 0` raises
   * and nothing is stored.
   */
  lemma NaNTaxRejected(quotationId: string, data: map<string, Json>, fileName: Json, rawText: string,
                       processedAt: string, recordText: string)
    requires ItemDicts(ItemsField(data)).Some?
    requires Get(data, "tax") == JStr("NaN")
    ensures Normalize(quotationId, data, fileName, rawText, processedAt, recordText) == Err(InvalidOperation)
  {
    NaNAccepted();
    var tax := SafeDecimal(Get(data, "tax"));
    assert tax == NotANumber(false);
    assert !AmountsFinite(ItemDicts(ItemsField(data)).value, data);
    assert ArithmeticRaises(SafeDecimal(Get(data, "subtotal")), tax, SafeDecimal(Get(data, "total")));
  }

  /**
   * Two uploads of the same record differ only in their identifiers, file
   * name and clock reading; the same data fails the same way.
   */
  lemma NormalizeDependsOnlyOnData(id1: string, id2: string, data: map<string, Json>,
                                   file1: Json, file2: Json, rawText: string,
                                   at1: string, at2: string, recordText: string)
    ensures var r1 := Normalize(id1, data, file1, rawText, at1, recordText);
            var r2 := Normalize(id2, data, file2, rawText, at2, recordText);
            r2 == match r1
                  case Ok(q1) => Ok(q1.(quotationId := id2, originalFile := file2, processedAt := at2))
                  case Err(m) => Err(m)
  {
  }
}
