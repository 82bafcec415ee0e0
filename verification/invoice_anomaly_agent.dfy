/**
 * The invoice-anomaly agent: checks a normalised invoice against an optional
 * purchase order and shipment notice and lists the findings in a fixed
 * order: wrong document type, total mismatch, line findings, PO reference,
 * unshipped SKUs.
 */
module InvoiceAnomaly {
  import opened Base
  import opened Json
  import opened Documents

  datatype FindingSeverity = Critical | Warning

  datatype FindingCode =
    | InvalidPrimaryDoc
    | InvoiceTotalMismatch
    | InvoiceLineNotInPo
    | InvoiceQtyMismatch
    | MissingPoReference
    | PoReferenceMismatch
    | InvoiceSkuNotShipped

  datatype Details =
    | NoDetails
    | TotalDetails(poTotal: real, invoiceTotal: real, totalTolerance: real)
    | QuantityDetails(poQuantity: real, invoiceQuantity: real, quantityTolerance: real)
    | ReferenceDetails(invoicePoReference: Raw, poDocumentNumber: string)

  datatype Finding = Finding(code: FindingCode, severity: FindingSeverity, message: string, details: Details)

  /** Caller-supplied tolerances; absent ones default to 2% on amounts and 1% on quantities. */
  datatype Tolerance = Tolerance(amountPercent: Option<real>, quantityPercent: Option<real>)

  datatype Resolved = Resolved(amountPercent: real, quantityPercent: real)

  datatype Status = StatusOk | ReviewRequired

  datatype Report = Report(status: Status, invoiceNumber: string, findingCount: nat, findings: seq<Finding>)

  /** The host's `toFixed(2)` rendering of a percentage. */
  type Fixed2 = real -> string

  function ResolveTolerance(t: Option<Tolerance>): (r: Resolved)
    ensures t.None? ==> r == Resolved(2.0, 1.0)
    ensures t.Some? && t.value.amountPercent.Some? ==> r.amountPercent == t.value.amountPercent.value
    ensures t.Some? && t.value.amountPercent.None? ==> r.amountPercent == 2.0
    ensures t.Some? && t.value.quantityPercent.Some? ==> r.quantityPercent == t.value.quantityPercent.value
    ensures t.Some? && t.value.quantityPercent.None? ==> r.quantityPercent == 1.0
  {
    match t
    case None => Resolved(2.0, 1.0)
    case Some(tol) => Resolved(tol.amountPercent.GetOr(2.0), tol.quantityPercent.GetOr(1.0))
  }

  function Abs(x: real): (r: real)
    ensures r >= 0.0 && (r == x || r == -x)
  {
    if x < 0.0 then -x else x
  }

  /** Relative difference in percent; from a zero base anything non-zero counts as 100%. */
  function SafePercentDifference(base: real, actual: real): (pct: real)
    ensures pct >= 0.0
    ensures pct == 0.0 <==> actual == base
    ensures base != 0.0 ==> pct * Abs(base) == 100.0 * Abs(actual - base)
    ensures base == 0.0 && actual != 0.0 ==> pct == 100.0
  {
    if base == 0.0 then (if actual == 0.0 then 0.0 else 100.0)
    else
      var pct := Abs((actual - base) / base * 100.0);
      PercentScale(base, actual, pct);
      pct
  }

  lemma PercentScale(base: real, actual: real, pct: real)
    requires base != 0.0 && pct == Abs((actual - base) / base * 100.0)
    ensures pct * Abs(base) == 100.0 * Abs(actual - base)
    ensures pct == 0.0 <==> actual == base
  {
    var q := (actual - base) / base;
    assert q * base == actual - base;
  }

  /** A number read off a loosely typed field; anything but a number is not comparable. */
  function AsNumber(r: Raw): Option<real> {
    if r.RNum? then Some(r.n) else None
  }

  /** The total check: both totals present and numeric, and off by more than the tolerance. */
  function CompareTotals(fixed: Fixed2, invoice: Document, po: Option<Document>, tol: Resolved): (fs: seq<Finding>)
    ensures |fs| <= 1
    ensures |fs| == 1 <==>
      po.Some? && Truthy(invoice.totalAmount) && Truthy(po.value.totalAmount) &&
      AsNumber(Get(invoice.totalAmount, "amount")).Some? && AsNumber(Get(po.value.totalAmount, "amount")).Some? &&
      SafePercentDifference(AsNumber(Get(po.value.totalAmount, "amount")).value,
                            AsNumber(Get(invoice.totalAmount, "amount")).value) > tol.amountPercent
    ensures |fs| == 1 ==> fs[0].code == InvoiceTotalMismatch && fs[0].severity == Critical
  {
    if po.None? || !Truthy(invoice.totalAmount) || !Truthy(po.value.totalAmount) then []
    else
      match (AsNumber(Get(po.value.totalAmount, "amount")), AsNumber(Get(invoice.totalAmount, "amount")))
      case (Some(poTotal), Some(invoiceTotal)) =>
        var pct := SafePercentDifference(poTotal, invoiceTotal);
        if pct > tol.amountPercent then
          [Finding(InvoiceTotalMismatch, Critical, "Invoice total differs from PO total by " + fixed(pct) + "%",
                   TotalDetails(poTotal, invoiceTotal, tol.amountPercent))]
        else []
      case _ => []
  }

  function Sku(line: Raw): Raw {
    Get(line, "sku")
  }

  function Quantity(line: Raw): Raw {
    Get(line, "quantity")
  }

  /** A line that takes part in quantity matching: a truthy SKU and a defined quantity. */
  predicate Matchable(line: Raw) {
    Truthy(Sku(line)) && Quantity(line) != RUndefined
  }

  /** The purchase-order line a SKU maps to: the last matchable line with that SKU. */
  function PoLineFor(poLines: seq<Raw>, sku: Raw): (r: Option<Raw>)
    ensures r.Some? ==> r.value in poLines && Matchable(r.value) && Sku(r.value) == sku
    ensures r.None? <==> forall i :: 0 <= i < |poLines| ==> !(Matchable(poLines[i]) && Sku(poLines[i]) == sku)
    ensures r.Some? ==> exists k :: (0 <= k < |poLines| && poLines[k] == r.value &&
      forall j :: k < j < |poLines| ==> !(Matchable(poLines[j]) && Sku(poLines[j]) == sku))
    decreases |poLines|
  {
    if |poLines| == 0 then None
    else
      var last := poLines[|poLines| - 1];
      if Matchable(last) && Sku(last) == sku then Some(last)
      else
        var r := PoLineFor(poLines[..|poLines| - 1], sku);
        assert forall i :: 0 <= i < |poLines| - 1 ==> poLines[..|poLines| - 1][i] == poLines[i];
        r
  }

  /** The findings for one invoice line against the purchase order. */
  function LineFinding(c: Coercion, invLine: Raw, poLines: seq<Raw>, tol: Resolved): (fs: seq<Finding>)
    ensures |fs| <= 1
    ensures !Matchable(invLine) ==> fs == []
    ensures Matchable(invLine) && PoLineFor(poLines, Sku(invLine)).None? ==>
      fs == [Finding(InvoiceLineNotInPo, Warning, "Invoice line SKU " + ToStr(c, Sku(invLine)) + " not found in PO", NoDetails)]
    ensures |fs| == 1 && fs[0].code == InvoiceQtyMismatch ==>
      Matchable(invLine) && PoLineFor(poLines, Sku(invLine)).Some? &&
      AsNumber(Quantity(PoLineFor(poLines, Sku(invLine)).value)).Some? && AsNumber(Quantity(invLine)).Some? &&
      SafePercentDifference(AsNumber(Quantity(PoLineFor(poLines, Sku(invLine)).value)).value,
                            AsNumber(Quantity(invLine)).value) > tol.quantityPercent
    ensures Matchable(invLine) && PoLineFor(poLines, Sku(invLine)).Some? ==>
      var poLine := PoLineFor(poLines, Sku(invLine)).value;
      AsNumber(Quantity(poLine)).Some? && AsNumber(Quantity(invLine)).Some? ==>
        var poQty := AsNumber(Quantity(poLine)).value;
        var invQty := AsNumber(Quantity(invLine)).value;
        fs == (if SafePercentDifference(poQty, invQty) > tol.quantityPercent
               then [Finding(InvoiceQtyMismatch, Critical, "Invoice quantity mismatch for SKU " + ToStr(c, Sku(invLine)),
                             QuantityDetails(poQty, invQty, tol.quantityPercent))]
               else [])
  {
    if !Matchable(invLine) then []
    else
      match PoLineFor(poLines, Sku(invLine))
      case None =>
        [Finding(InvoiceLineNotInPo, Warning, "Invoice line SKU " + ToStr(c, Sku(invLine)) + " not found in PO", NoDetails)]
      case Some(poLine) =>
        match (AsNumber(Quantity(poLine)), AsNumber(Quantity(invLine)))
        case (Some(poQty), Some(invQty)) =>
          if SafePercentDifference(poQty, invQty) > tol.quantityPercent then
            [Finding(InvoiceQtyMismatch, Critical, "Invoice quantity mismatch for SKU " + ToStr(c, Sku(invLine)),
                     QuantityDetails(poQty, invQty, tol.quantityPercent))]
          else []
        case _ => []
  }

  /** The line findings, invoice line by invoice line; nothing without a purchase order. */
  function CompareLineQuantities(c: Coercion, invLines: seq<Raw>, po: Option<Document>, tol: Resolved): (fs: seq<Finding>)
    ensures po.None? ==> fs == []
    ensures |fs| <= |invLines|
    ensures po.Some? ==> forall k, f :: 0 <= k < |invLines| && f in LineFinding(c, invLines[k], po.value.lineItems, tol) ==> f in fs
    ensures po.Some? ==> forall f :: f in fs ==>
      exists k :: 0 <= k < |invLines| && f in LineFinding(c, invLines[k], po.value.lineItems, tol)
    decreases |invLines|
  {
    if po.None? || |invLines| == 0 then []
    else
      var head := LineFinding(c, invLines[0], po.value.lineItems, tol);
      var rest := CompareLineQuantities(c, invLines[1..], po, tol);
      assert forall k :: 1 <= k < |invLines| ==> invLines[1..][k - 1] == invLines[k];
      head + rest
  }

  /** The `value` of the first reference whose `type` is "po_number". */
  function FirstPoReference(refs: seq<Raw>): (v: Raw)
    ensures (forall i :: 0 <= i < |refs| ==> Get(refs[i], "type") != RStr("po_number")) ==> v == RUndefined
    ensures forall k :: (0 <= k < |refs| && Get(refs[k], "type") == RStr("po_number") &&
      (forall i :: 0 <= i < k ==> Get(refs[i], "type") != RStr("po_number"))) ==> v == Get(refs[k], "value")
    decreases |refs|
  {
    if |refs| == 0 then RUndefined
    else if Get(refs[0], "type") == RStr("po_number") then Get(refs[0], "value")
    else
      var v := FirstPoReference(refs[1..]);
      assert forall k :: 1 <= k < |refs| ==> refs[1..][k - 1] == refs[k];
      v
  }

  const MissingReferenceMessage: string := "Invoice is missing PO reference"
  const ReferenceMismatchMessage: string := "Invoice PO reference does not match provided PO document number"

  /** With a purchase order: a missing reference warns, a different one is critical. */
  function ComparePoReference(invoice: Document, po: Option<Document>): (fs: seq<Finding>)
    ensures po.None? ==> fs == []
    ensures |fs| <= 1
    ensures po.Some? && !Truthy(FirstPoReference(invoice.references)) ==>
      fs == [Finding(MissingPoReference, Warning, MissingReferenceMessage, NoDetails)]
    ensures po.Some? && Truthy(FirstPoReference(invoice.references)) ==>
      (|fs| == 1 <==> FirstPoReference(invoice.references) != RStr(po.value.documentNumber))
    ensures |fs| == 1 && fs[0].code == PoReferenceMismatch ==> fs[0].severity == Critical
  {
    if po.None? then []
    else
      var ref := FirstPoReference(invoice.references);
      if !Truthy(ref) then [Finding(MissingPoReference, Warning, MissingReferenceMessage, NoDetails)]
      else if ref != RStr(po.value.documentNumber) then
        [Finding(PoReferenceMismatch, Critical, ReferenceMismatchMessage, ReferenceDetails(ref, po.value.documentNumber))]
      else []
  }

  /** The truthy SKUs on a set of lines. */
  function ShippedSkus(lines: seq<Raw>): (skus: set<Raw>)
    ensures forall i :: 0 <= i < |lines| && Truthy(Sku(lines[i])) ==> Sku(lines[i]) in skus
    ensures forall s :: s in skus ==> Truthy(s) && exists i :: 0 <= i < |lines| && Sku(lines[i]) == s
  {
    set i | 0 <= i < |lines| && Truthy(Sku(lines[i])) :: Sku(lines[i])
  }

  /** An invoice line with a truthy SKU the shipment notice does not carry. */
  predicate Unshipped(line: Raw, shipped: set<Raw>) {
    Truthy(Sku(line)) && Sku(line) !in shipped
  }

  /** One warning per invoice line whose truthy SKU is not on the shipment notice, in line order. */
  function UnshippedFindings(c: Coercion, invLines: seq<Raw>, shipped: set<Raw>): (fs: seq<Finding>)
    ensures |fs| <= |invLines|
    ensures fs == [] <==> forall i :: 0 <= i < |invLines| ==> !Unshipped(invLines[i], shipped)
    ensures forall j :: 0 <= j < |fs| ==> fs[j].code == InvoiceSkuNotShipped && fs[j].severity == Warning
    ensures |invLines| > 0 && Unshipped(invLines[0], shipped) ==>
      fs[0].message == "Invoice SKU " + ToStr(c, Sku(invLines[0])) + " not present on shipment notice"
    decreases |invLines|
  {
    if |invLines| == 0 then []
    else
      var sku := Sku(invLines[0]);
      var rest := UnshippedFindings(c, invLines[1..], shipped);
      assert forall i :: 1 <= i < |invLines| ==> invLines[1..][i - 1] == invLines[i];
      if Unshipped(invLines[0], shipped) then
        [Finding(InvoiceSkuNotShipped, Warning, "Invoice SKU " + ToStr(c, sku) + " not present on shipment notice", NoDetails)] + rest
      else rest
  }

  function CompareShipmentNotice(c: Coercion, invoice: Document, asn: Option<Document>): (fs: seq<Finding>)
    ensures asn.None? ==> fs == []
    ensures asn.Some? ==> fs == UnshippedFindings(c, invoice.lineItems, ShippedSkus(asn.value.lineItems))
  {
    if asn.None? then [] else UnshippedFindings(c, invoice.lineItems, ShippedSkus(asn.value.lineItems))
  }

  const InvalidPrimaryMessage: string := "Primary document must be an invoice"

  /** `runInvoiceAnomalyAgent`. */
  function Run(c: Coercion, fixed: Fixed2, invoice: Document, po: Option<Document>, asn: Option<Document>,
               tolerance: Option<Tolerance>): (r: Report)
    ensures r.findingCount == |r.findings|
    ensures r.status == ReviewRequired <==> |r.findings| > 0
    ensures r.invoiceNumber == invoice.documentNumber
    ensures var tol := ResolveTolerance(tolerance);
      r.findings ==
        (if invoice.docType != Invoice then [Finding(InvalidPrimaryDoc, Critical, InvalidPrimaryMessage, NoDetails)] else [])
        + (CompareTotals(fixed, invoice, po, tol)
           + CompareLineQuantities(c, invoice.lineItems, po, tol)
           + ComparePoReference(invoice, po)
           + CompareShipmentNotice(c, invoice, asn))
  {
    var tol := ResolveTolerance(tolerance);
    var primary := if invoice.docType != Invoice then [Finding(InvalidPrimaryDoc, Critical, InvalidPrimaryMessage, NoDetails)] else [];
    var findings := primary
      + (CompareTotals(fixed, invoice, po, tol)
         + CompareLineQuantities(c, invoice.lineItems, po, tol)
         + ComparePoReference(invoice, po)
         + CompareShipmentNotice(c, invoice, asn));
    Report(if |findings| > 0 then ReviewRequired else StatusOk, invoice.documentNumber, |findings|, findings)
  }

  /** The report starts with a wrong-type finding exactly when the primary document is not an invoice. */
  lemma InvalidPrimaryIff(c: Coercion, fixed: Fixed2, invoice: Document, po: Option<Document>, asn: Option<Document>,
                          tolerance: Option<Tolerance>)
    ensures var fs := Run(c, fixed, invoice, po, asn, tolerance).findings;
      (|fs| > 0 && fs[0].code == InvalidPrimaryDoc) <==> invoice.docType != Invoice
  {
    var tol := ResolveTolerance(tolerance);
    var rest := CompareTotals(fixed, invoice, po, tol)
      + CompareLineQuantities(c, invoice.lineItems, po, tol)
      + ComparePoReference(invoice, po)
      + CompareShipmentNotice(c, invoice, asn);
    NoInvalidPrimary(c, fixed, invoice, po, asn, tol, rest);
    var fs := Run(c, fixed, invoice, po, asn, tolerance).findings;
    assert invoice.docType == Invoice ==> fs == rest;
    assert invoice.docType != Invoice ==> fs[0].code == InvalidPrimaryDoc;
  }

  /** No finding in the list reports a wrong primary document. */
  predicate NoneInvalidPrimary(fs: seq<Finding>) {
    forall j :: 0 <= j < |fs| ==> fs[j].code != InvalidPrimaryDoc
  }

  lemma NoneInvalidPrimaryConcat(a: seq<Finding>, b: seq<Finding>)
    requires NoneInvalidPrimary(a) && NoneInvalidPrimary(b)
    ensures NoneInvalidPrimary(a + b)
  {
    forall j | 0 <= j < |a + b| ensures (a + b)[j].code != InvalidPrimaryDoc {
      if j >= |a| {
        assert (a + b)[j] == b[j - |a|];
      }
    }
  }

  /** Only the type check itself reports a wrong primary document. */
  lemma NoInvalidPrimary(c: Coercion, fixed: Fixed2, invoice: Document, po: Option<Document>, asn: Option<Document>,
                         tol: Resolved, rest: seq<Finding>)
    requires rest == CompareTotals(fixed, invoice, po, tol)
      + CompareLineQuantities(c, invoice.lineItems, po, tol)
      + ComparePoReference(invoice, po)
      + CompareShipmentNotice(c, invoice, asn)
    ensures forall j :: 0 <= j < |rest| ==> rest[j].code != InvalidPrimaryDoc
  {
    var t := CompareTotals(fixed, invoice, po, tol);
    var l := CompareLineQuantities(c, invoice.lineItems, po, tol);
    var r := ComparePoReference(invoice, po);
    var u := CompareShipmentNotice(c, invoice, asn);
    TotalsNeverInvalidPrimary(fixed, invoice, po, tol);
    LinesNeverInvalidPrimary(c, invoice.lineItems, po, tol);
    assert NoneInvalidPrimary(l);
    ReferenceNeverInvalidPrimary(invoice, po);
    ShipmentNeverInvalidPrimary(c, invoice, asn);
    NoneInvalidPrimaryConcat(t, l);
    NoneInvalidPrimaryConcat(t + l, r);
    NoneInvalidPrimaryConcat(t + l + r, u);
  }

  lemma TotalsNeverInvalidPrimary(fixed: Fixed2, invoice: Document, po: Option<Document>, tol: Resolved)
    ensures NoneInvalidPrimary(CompareTotals(fixed, invoice, po, tol))
  {
  }

  lemma ReferenceNeverInvalidPrimary(invoice: Document, po: Option<Document>)
    ensures NoneInvalidPrimary(ComparePoReference(invoice, po))
  {
  }

  lemma ShipmentNeverInvalidPrimary(c: Coercion, invoice: Document, asn: Option<Document>)
    ensures NoneInvalidPrimary(CompareShipmentNotice(c, invoice, asn))
  {
  }

  lemma {:induction false} LinesNeverInvalidPrimary(c: Coercion, invLines: seq<Raw>, po: Option<Document>, tol: Resolved)
    ensures forall j :: 0 <= j < |CompareLineQuantities(c, invLines, po, tol)| ==>
      CompareLineQuantities(c, invLines, po, tol)[j].code in {InvoiceLineNotInPo, InvoiceQtyMismatch}
    decreases |invLines|
  {
    if po.Some? && |invLines| > 0 {
      LinesNeverInvalidPrimary(c, invLines[1..], po, tol);
    }
  }

  /** An invoice on its own, with no purchase order or shipment notice, is only checked for its type. */
  lemma InvoiceAloneIsOk(c: Coercion, fixed: Fixed2, invoice: Document, tolerance: Option<Tolerance>)
    requires invoice.docType == Invoice
    ensures Run(c, fixed, invoice, None, None, tolerance).status == StatusOk
  {
  }

  /** Matching totals never raise a total mismatch, whatever the (non-negative) tolerance. */
  lemma EqualTotalsNoMismatch(fixed: Fixed2, invoice: Document, po: Document, tol: Resolved)
    requires tol.amountPercent >= 0.0
    requires Get(invoice.totalAmount, "amount") == Get(po.totalAmount, "amount")
    ensures CompareTotals(fixed, invoice, Some(po), tol) == []
  {
  }

  /** Raising the tolerances never adds a line finding. */
  lemma {:induction false} LooserToleranceFewerLineFindings(c: Coercion, invLines: seq<Raw>, po: Option<Document>, t1: Resolved, t2: Resolved)
    requires t1.quantityPercent <= t2.quantityPercent
    ensures |CompareLineQuantities(c, invLines, po, t2)| <= |CompareLineQuantities(c, invLines, po, t1)|
    decreases |invLines|
  {
    if po.Some? && |invLines| > 0 {
      LooserToleranceFewerLineFindings(c, invLines[1..], po, t1, t2);
    }
  }

  /** Raising the amount tolerance never adds a total finding. */
  lemma LooserToleranceNoNewTotalFinding(fixed: Fixed2, invoice: Document, po: Option<Document>, t1: Resolved, t2: Resolved)
    requires t1.amountPercent <= t2.amountPercent
    ensures |CompareTotals(fixed, invoice, po, t2)| <= |CompareTotals(fixed, invoice, po, t1)|
  {
  }

  /** The PO reference is accepted exactly when it is the PO's own document number. */
  lemma ReferenceMatchAccepted(invoice: Document, po: Document)
    requires FirstPoReference(invoice.references) == RStr(po.documentNumber) && po.documentNumber != ""
    ensures ComparePoReference(invoice, Some(po)) == []
  {
  }

  /** An invoice line whose SKU is shipped raises no shipment warning. */
  lemma EverySkuShippedNoWarning(c: Coercion, invoice: Document, asn: Document)
    requires forall i :: 0 <= i < |invoice.lineItems| ==>
      !Truthy(Sku(invoice.lineItems[i])) || exists k :: 0 <= k < |asn.lineItems| && Sku(asn.lineItems[k]) == Sku(invoice.lineItems[i])
    ensures CompareShipmentNotice(c, invoice, Some(asn)) == []
  {
    var shipped := ShippedSkus(asn.lineItems);
    var p := (l: Raw) => Truthy(Sku(l)) && Sku(l) !in shipped;
    forall i | 0 <= i < |invoice.lineItems|
      ensures !p(invoice.lineItems[i])
    {
      if Truthy(Sku(invoice.lineItems[i])) {
        var k :| 0 <= k < |asn.lineItems| && Sku(asn.lineItems[k]) == Sku(invoice.lineItems[i]);
        assert Sku(asn.lineItems[k]) in shipped;
      }
    }
  }
}
