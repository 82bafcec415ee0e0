/**
 * The Acme EDI adapter: turns Acme's native flat record (`doc_kind`,
 * `doc_number`, `lines`, ...) into a canonical document.
 */
module AcmeEdiAdapter {
  import opened Base
  import opened Json
  import opened Documents

  /** Acme's native code for each known document type. */
  function NativeKind(t: DocType): string {
    match t
    case PurchaseOrder => "PO"
    case Invoice => "INV"
    case ShipmentNotice => "ASN"
    case UnknownType => ""
  }

  /** The native `doc_kind` read case-insensitively: PO, INV, ASN, anything else is unknown. */
  function ToType(c: Coercion, docKind: Raw): (t: DocType)
    ensures t != UnknownType ==> Upper(ToStr(c, Coalesce(docKind, RStr("")))) == NativeKind(t)
    ensures t == UnknownType <==> Upper(ToStr(c, Coalesce(docKind, RStr("")))) !in {"PO", "INV", "ASN"}
  {
    var kind := Upper(ToStr(c, Coalesce(docKind, RStr(""))));
    if kind == "PO" then PurchaseOrder
    else if kind == "INV" then Invoice
    else if kind == "ASN" then ShipmentNotice
    else UnknownType
  }

  lemma UpperIdempotent(s: string)
    ensures Upper(Upper(s)) == Upper(s)
  {
  }

  /** Reading a native code, in any letter case, gives back its type. */
  lemma ToTypeRoundTrip(c: Coercion, t: DocType, s: string)
    requires t != UnknownType
    requires Upper(s) == NativeKind(t)
    ensures ToType(c, RStr(s)) == t
  {
  }

  /** A lower-case code reads the same as its upper-case form. */
  lemma ToTypeCaseInsensitive(c: Coercion, s: string)
    ensures ToType(c, RStr(s)) == ToType(c, RStr(Upper(s)))
  {
    UpperIdempotent(s);
  }

  /** A money amount with its currency code. */
  datatype Money = Money(amount: real, currency: string)

  function MoneyToRaw(m: Money): Raw {
    RObj(map["amount" := RNum(m.amount), "currency" := RStr(m.currency)])
  }

  /** The total as money: absent when it is not a number, currency defaulting to USD. */
  function ToMoney(c: Coercion, total: Raw, currency: Raw): (m: Option<Money>)
    ensures m.Some? <==> ToNumber(c, total).Some?
    ensures m.Some? ==> m.value.amount == ToNumber(c, total).value
    ensures m.Some? && Nullish(currency) ==> m.value.currency == "USD"
    ensures m.Some? && currency.RStr? ==> m.value.currency == currency.s
  {
    match ToNumber(c, total)
    case None => None
    case Some(amount) => Some(Money(amount, ToStr(c, Coalesce(currency, RStr("USD")))))
  }

  /** One normalised Acme line. */
  datatype Line = Line(
    lineNumber: string,
    sku: Option<string>,
    description: Option<string>,
    quantity: Option<real>,
    unitPrice: Option<real>,
    total: Option<real>)

  function OptStr(o: Option<string>): Raw {
    match o
    case Some(s) => RStr(s)
    case None => RUndefined
  }

  function OptNum(o: Option<real>): Raw {
    match o
    case Some(n) => RNum(n)
    case None => RUndefined
  }

  function LineToRaw(l: Line): Raw {
    RObj(map[
      "lineNumber" := RStr(l.lineNumber),
      "sku" := OptStr(l.sku),
      "description" := OptStr(l.description),
      "quantity" := OptNum(l.quantity),
      "unitPrice" := OptNum(l.unitPrice),
      "total" := OptNum(l.total)])
  }

  /** A property rendered as text when truthy, otherwise absent. */
  function TextIfTruthy(c: Coercion, r: Raw): (o: Option<string>)
    ensures o.Some? <==> Truthy(r)
  {
    if Truthy(r) then Some(ToStr(c, r)) else None
  }

  /** One native row at position `index`. */
  function MapLine(c: Coercion, row: Raw, index: nat): (l: Line)
    ensures Nullish(Get(row, "line_no")) ==> l.lineNumber == NatToString(index + 1)
    ensures l.sku.Some? <==> Truthy(Get(row, "item_code"))
    ensures l.quantity == ToNumber(c, Get(row, "qty"))
  {
    var lineNo := Get(row, "line_no");
    Line(
      if Nullish(lineNo) then NatToString(index + 1) else ToStr(c, lineNo),
      TextIfTruthy(c, Get(row, "item_code")),
      TextIfTruthy(c, Get(row, "description")),
      ToNumber(c, Get(row, "qty")),
      ToNumber(c, Get(row, "unit_price")),
      ToNumber(c, Get(row, "ext_price")))
  }

  /** The native `lines`: nothing unless it is an array, otherwise one line per row. */
  function MapLineItems(c: Coercion, rawItems: Raw): (ls: seq<Line>)
    ensures !rawItems.RArr? ==> ls == []
    ensures rawItems.RArr? ==> |ls| == |rawItems.items|
    ensures rawItems.RArr? ==> forall i :: 0 <= i < |ls| ==>
      ls[i].quantity == ToNumber(c, Get(rawItems.items[i], "qty")) &&
      (Nullish(Get(rawItems.items[i], "line_no")) ==> ls[i].lineNumber == NatToString(i + 1))
  {
    match rawItems
    case RArr(items) => seq(|items|, i requires 0 <= i < |items| => MapLine(c, items[i], i))
    case _ => []
  }

  /** A canonical `{type, value}` reference. */
  function RefRaw(kind: string, value: string): Raw {
    RObj(map["type" := RStr(kind), "value" := RStr(value)])
  }

  /** The references present on the record, in the order PO, invoice, ASN number. */
  function References(c: Coercion, raw: Raw): (refs: seq<Raw>)
    ensures |refs| <= 3
    ensures |refs| == (if Truthy(Get(raw, "po_number")) then 1 else 0)
                    + (if Truthy(Get(raw, "invoice_number")) then 1 else 0)
                    + (if Truthy(Get(raw, "asn_number")) then 1 else 0)
    ensures Truthy(Get(raw, "po_number")) ==> refs[0] == RefRaw("po_number", ToStr(c, Get(raw, "po_number")))
    ensures forall i :: 0 <= i < |refs| ==> refs[i].RObj? && "type" in refs[i].fields
    ensures (exists i :: 0 <= i < |refs| && refs[i].fields["type"] == RStr("po_number")) <==> Truthy(Get(raw, "po_number"))
  {
    var po := Get(raw, "po_number");
    var inv := Get(raw, "invoice_number");
    var asn := Get(raw, "asn_number");
    (if Truthy(po) then [RefRaw("po_number", ToStr(c, po))] else [])
    + (if Truthy(inv) then [RefRaw("invoice_number", ToStr(c, inv))] else [])
    + (if Truthy(asn) then [RefRaw("asn_number", ToStr(c, asn))] else [])
  }

  function PartyRaw(c: Coercion, name: Raw, role: string): Raw {
    if Truthy(name) then RObj(map["name" := RStr(ToStr(c, name)), "role" := RStr(role)]) else RUndefined
  }

  const ErrorMessage: string := "acme_edi adapter expects object document input"

  /**
   * Normalises an Acme record; `freshId` stands in for the random UUID used
   * when the record has no `doc_id`.
   */
  function NormalizeDocument(c: Coercion, document: Raw, freshId: string): (r: Result<Document>)
    ensures r.Err? <==> !Truthy(document) || !IsObjectLike(document)
    ensures r.Err? ==> r.message == ErrorMessage
    ensures r.Ok? ==> r.value.sourceTrace.adapter == "acme_edi"
    ensures r.Ok? ==> r.value.docType == ToType(c, Get(document, "doc_kind"))
    ensures r.Ok? && !Nullish(Get(document, "doc_number")) ==> r.value.documentNumber == ToStr(c, Get(document, "doc_number"))
    ensures r.Ok? && Nullish(Get(document, "doc_number")) && Nullish(Get(document, "doc_id")) ==>
      r.value.documentNumber == "UNKNOWN"
    ensures r.Ok? && Nullish(Get(document, "doc_number")) && !Nullish(Get(document, "doc_id")) ==>
      r.value.documentNumber == ToStr(c, Get(document, "doc_id"))
    ensures r.Ok? ==> r.value.extensions == RObj(map["originalPayload" := document])
    ensures r.Ok? && !Get(document, "lines").RArr? ==> r.value.lineItems == []
    ensures r.Ok? && Get(document, "lines").RArr? ==> |r.value.lineItems| == |Get(document, "lines").items|
    ensures r.Ok? ==> r.value.references == References(c, document)
    ensures r.Ok? && Nullish(Get(document, "currency")) && r.value.totalAmount != RUndefined ==>
      Get(r.value.totalAmount, "currency") == RStr("USD")
  {
    if !Truthy(document) || !IsObjectLike(document) then Err(ErrorMessage)
    else
      var docId := Get(document, "doc_id");
      var money := ToMoney(c, Get(document, "total"), Get(document, "currency"));
      var lines := MapLineItems(c, Get(document, "lines"));
      Ok(Document(
        id := ToStr(c, Coalesce(docId, RStr(freshId))),
        docType := ToType(c, Get(document, "doc_kind")),
        documentNumber := ToStr(c, Coalesce(Get(document, "doc_number"), Coalesce(docId, RStr("UNKNOWN")))),
        issueDate := TextIfTruthy(c, Get(document, "doc_date")),
        partnerName := TextIfTruthy(c, Get(document, "trading_partner")),
        buyer := PartyRaw(c, Get(document, "buyer_name"), "buyer"),
        seller := PartyRaw(c, Get(document, "seller_name"), "seller"),
        shipTo := RUndefined,
        billTo := RUndefined,
        totalAmount := if money.Some? then MoneyToRaw(money.value) else RUndefined,
        lineItems := seq(|lines|, i requires 0 <= i < |lines| => LineToRaw(lines[i])),
        references := References(c, document),
        sourceTrace := SourceTrace("acme_edi", TextIfTruthy(c, Get(document, "doc_kind")), TextIfTruthy(c, docId)),
        extensions := RObj(map["originalPayload" := document])))
  }
}
