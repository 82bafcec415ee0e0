/**
 * The canonical JSON adapter: documents already in the canonical shape are
 * checked, defaulted and passed through.
 */
module CanonicalAdapter {
  import opened Base
  import opened Json
  import opened Documents

  /** Only the three known canonical type names are kept; anything else is unknown. */
  function NormalizeType(value: Raw): (t: DocType)
    ensures t != UnknownType ==> value == RStr(DocTypeName(t))
    ensures (value.RStr? && value.s in {"purchase_order", "invoice", "shipment_notice"}) <==> t != UnknownType
  {
    if value == RStr("purchase_order") then PurchaseOrder
    else if value == RStr("invoice") then Invoice
    else if value == RStr("shipment_notice") then ShipmentNotice
    else UnknownType
  }

  /** `x ?? undefined`: `null` becomes absent, everything else is kept. */
  function Undefined(r: Raw): (u: Raw)
    ensures u == (if r.RNull? then RUndefined else r)
  {
    if Nullish(r) then RUndefined else r
  }

  /** An array property's elements, or nothing when the property is not an array. */
  function ArrayOrEmpty(r: Raw): (items: seq<Raw>)
    ensures r.RArr? ==> items == r.items
    ensures !r.RArr? ==> items == []
  {
    if r.RArr? then r.items else []
  }

  const ErrorMessage: string := "canonical adapter expects object document input"

  /**
   * Normalises a canonical JSON document; `freshId` stands in for the random
   * UUID used when the document has no `id`.
   */
  function NormalizeDocument(c: Coercion, document: Raw, freshId: string): (r: Result<Document>)
    ensures r.Err? <==> !Truthy(document) || !IsObjectLike(document)
    ensures r.Err? ==> r.message == ErrorMessage
    ensures r.Ok? ==> r.value.sourceTrace.adapter == "canonical" && r.value.sourceTrace.rawReference.None?
    ensures r.Ok? ==> r.value.lineItems == ArrayOrEmpty(Get(document, "lineItems"))
    ensures r.Ok? ==> r.value.references == ArrayOrEmpty(Get(document, "references"))
    ensures r.Ok? && Nullish(Get(document, "documentNumber")) && Nullish(Get(document, "id")) ==>
      r.value.documentNumber == "UNKNOWN"
    ensures r.Ok? && Nullish(Get(document, "extensions")) ==> r.value.extensions == EmptyObject
  {
    if !Truthy(document) || !IsObjectLike(document) then Err(ErrorMessage)
    else
      var id := Get(document, "id");
      var rawType := Get(document, "type");
      Ok(Document(
        id := ToStr(c, Coalesce(id, RStr(freshId))),
        docType := NormalizeType(rawType),
        documentNumber := ToStr(c, Coalesce(Get(document, "documentNumber"), Coalesce(id, RStr("UNKNOWN")))),
        issueDate := if Truthy(Get(document, "issueDate")) then Some(ToStr(c, Get(document, "issueDate"))) else None,
        partnerName := if Truthy(Get(document, "partnerName")) then Some(ToStr(c, Get(document, "partnerName"))) else None,
        buyer := Undefined(Get(document, "buyer")),
        seller := Undefined(Get(document, "seller")),
        shipTo := Undefined(Get(document, "shipTo")),
        billTo := Undefined(Get(document, "billTo")),
        totalAmount := Undefined(Get(document, "totalAmount")),
        lineItems := ArrayOrEmpty(Get(document, "lineItems")),
        references := ArrayOrEmpty(Get(document, "references")),
        sourceTrace := SourceTrace("canonical", if Truthy(rawType) then Some(ToStr(c, rawType)) else None, None),
        extensions := Coalesce(Get(document, "extensions"), EmptyObject)))
  }

  /** The canonical JSON form of a document, the inverse direction of normalisation. */
  function Serialize(d: Document): Raw {
    RObj(map[
      "id" := RStr(d.id),
      "type" := RStr(DocTypeName(d.docType)),
      "documentNumber" := RStr(d.documentNumber),
      "issueDate" := if d.issueDate.Some? then RStr(d.issueDate.value) else RUndefined,
      "partnerName" := if d.partnerName.Some? then RStr(d.partnerName.value) else RUndefined,
      "buyer" := d.buyer,
      "seller" := d.seller,
      "shipTo" := d.shipTo,
      "billTo" := d.billTo,
      "totalAmount" := d.totalAmount,
      "lineItems" := RArr(d.lineItems),
      "references" := RArr(d.references),
      "extensions" := d.extensions])
  }

  /** The documents that survive a trip through their canonical JSON form unchanged. */
  predicate WellFormed(d: Document) {
    && (d.issueDate.Some? ==> d.issueDate.value != "")
    && (d.partnerName.Some? ==> d.partnerName.value != "")
    && !d.buyer.RNull? && !d.seller.RNull? && !d.shipTo.RNull? && !d.billTo.RNull?
    && !d.totalAmount.RNull?
    && !Nullish(d.extensions)
    && d.sourceTrace == SourceTrace("canonical", Some(DocTypeName(d.docType)), None)
  }

  /** The identifying properties of the canonical JSON form read back as the document's. */
  lemma SerializeHeader(d: Document)
    ensures Get(Serialize(d), "id") == RStr(d.id)
    ensures Get(Serialize(d), "type") == RStr(DocTypeName(d.docType))
    ensures Get(Serialize(d), "documentNumber") == RStr(d.documentNumber)
    ensures Get(Serialize(d), "issueDate") == (if d.issueDate.Some? then RStr(d.issueDate.value) else RUndefined)
    ensures Get(Serialize(d), "partnerName") == (if d.partnerName.Some? then RStr(d.partnerName.value) else RUndefined)
  {
  }

  /** The party and amount properties of the canonical JSON form read back as the document's. */
  lemma SerializeParties(d: Document)
    ensures Get(Serialize(d), "buyer") == d.buyer && Get(Serialize(d), "seller") == d.seller
    ensures Get(Serialize(d), "shipTo") == d.shipTo && Get(Serialize(d), "billTo") == d.billTo
    ensures Get(Serialize(d), "totalAmount") == d.totalAmount
  {
  }

  /** The list and extension properties of the canonical JSON form read back as the document's. */
  lemma SerializeCollections(d: Document)
    ensures Get(Serialize(d), "lineItems") == RArr(d.lineItems)
    ensures Get(Serialize(d), "references") == RArr(d.references)
    ensures Get(Serialize(d), "extensions") == d.extensions
  {
  }

  lemma NormalizeTypeOfName(t: DocType)
    ensures NormalizeType(RStr(DocTypeName(t))) == t
  {
  }

  /** Normalising the canonical JSON form of a well-formed document gives the document back. */
  lemma SerializeRoundTrip(c: Coercion, d: Document, freshId: string)
    requires WellFormed(d)
    ensures NormalizeDocument(c, Serialize(d), freshId) == Ok(d)
  {
    SerializeHeader(d);
    SerializeParties(d);
    SerializeCollections(d);
    NormalizeTypeOfName(d.docType);
  }
}
