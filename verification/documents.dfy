/**
 * The canonical business document both inbound adapters produce. Fields the
 * canonical JSON adapter passes through untouched (parties, total, line
 * items, references, extensions) stay loosely typed.
 */
module Documents {
  import opened Base
  import opened Json

  datatype DocType = PurchaseOrder | Invoice | ShipmentNotice | UnknownType

  /** The canonical type name used on the wire. */
  function DocTypeName(t: DocType): string {
    match t
    case PurchaseOrder => "purchase_order"
    case Invoice => "invoice"
    case ShipmentNotice => "shipment_notice"
    case UnknownType => "unknown"
  }

  /** Where a document came from: the adapter and its native type and id. */
  datatype SourceTrace = SourceTrace(adapter: string, nativeType: Option<string>, rawReference: Option<string>)

  datatype Document = Document(
    id: string,
    docType: DocType,
    documentNumber: string,
    issueDate: Option<string>,
    partnerName: Option<string>,
    buyer: Raw,
    seller: Raw,
    shipTo: Raw,
    billTo: Raw,
    totalAmount: Raw,
    lineItems: seq<Raw>,
    references: seq<Raw>,
    sourceTrace: SourceTrace,
    extensions: Raw)
}
