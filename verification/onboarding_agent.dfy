/**
 * The onboarding agent: derives the capabilities a new trading partner needs
 * from its transport and document types, compares them with what exists and
 * scores readiness.
 */
module Onboarding {
  import opened Base
  import opened Documents

  datatype ConnectionType = AS2 | SFTP | API | VAN

  datatype Input = Input(
    partnerName: string,
    connectionType: Option<ConnectionType>,
    targetDocumentTypes: seq<DocType>,
    requiredCapabilities: seq<string>,
    existingCapabilities: seq<string>)

  datatype Output = Output(
    partnerName: string,
    readinessScore: nat,
    requiredSteps: seq<string>,
    missingCapabilities: seq<string>,
    recommendations: seq<string>)

  const DefaultDocTypes: seq<DocType> := [PurchaseOrder, Invoice]

  /** Transport capabilities per connection type; an unknown transport needs a profile. */
  function RequirementsForConnectionType(ct: Option<ConnectionType>): (caps: seq<string>)
    ensures |caps| >= 1 && Distinct(caps)
    ensures ct.None? <==> caps == ["transport_profile"]
    ensures forall i :: 0 <= i < |caps| ==> caps[i] != CoreRequirements[0] && caps[i] != CoreRequirements[1]
  {
    match ct
    case Some(AS2) => ["as2_endpoint", "certificate_management", "mdn_support"]
    case Some(SFTP) => ["sftp_credentials", "directory_convention", "polling_policy"]
    case Some(API) => ["auth_strategy", "rate_limit_policy", "webhook_endpoint"]
    case Some(VAN) => ["van_mailbox", "partner_identifier_mapping"]
    case None => ["transport_profile"]
  }

  /** The capability one document type adds, if any. */
  function DocTypeCapability(t: DocType): seq<string> {
    match t
    case PurchaseOrder => ["po_field_mapping"]
    case Invoice => ["invoice_total_validation"]
    case ShipmentNotice => ["shipment_tracking_mapping"]
    case UnknownType => []
  }

  function DocTypeCapabilities(types: seq<DocType>): seq<string>
    decreases |types|
  {
    if |types| == 0 then [] else DocTypeCapability(types[0]) + DocTypeCapabilities(types[1..])
  }

  const CoreRequirements: seq<string> := ["core_document_validation", "error_handling_workflow"]

  /** Validation and error handling always, plus one mapping capability per distinct known type. */
  function RequirementsForDocTypes(types: seq<DocType>): (caps: seq<string>)
    ensures Distinct(caps)
    ensures |caps| >= 2 && caps[..2] == CoreRequirements
    ensures PurchaseOrder in types ==> "po_field_mapping" in caps
    ensures Invoice in types ==> "invoice_total_validation" in caps
    ensures ShipmentNotice in types ==> "shipment_tracking_mapping" in caps
    ensures forall c :: c in caps ==> c in CoreRequirements || AddedByDocType(c, types)
  {
    var all := CoreRequirements + DocTypeCapabilities(types);
    DocTypeRequirementsFacts(types, all);
    DocTypeCapabilitiesOnly(types);
    Dedup(all)
  }

  /** A capability some requested document type adds. */
  predicate AddedByDocType(c: string, types: seq<DocType>) {
    (c == "po_field_mapping" && PurchaseOrder in types) ||
    (c == "invoice_total_validation" && Invoice in types) ||
    (c == "shipment_tracking_mapping" && ShipmentNotice in types)
  }

  /** The document types add nothing but their own capabilities. */
  lemma {:induction false} DocTypeCapabilitiesOnly(types: seq<DocType>)
    ensures forall c :: c in DocTypeCapabilities(types) ==> AddedByDocType(c, types)
    decreases |types|
  {
    if |types| > 0 {
      DocTypeCapabilitiesOnly(types[1..]);
      assert forall t :: t in types[1..] ==> t in types;
    }
  }

  lemma DocTypeRequirementsFacts(types: seq<DocType>, all: seq<string>)
    requires all == CoreRequirements + DocTypeCapabilities(types)
    ensures |Dedup(all)| >= 2 && Dedup(all)[..2] == CoreRequirements
    ensures PurchaseOrder in types ==> "po_field_mapping" in Dedup(all)
    ensures Invoice in types ==> "invoice_total_validation" in Dedup(all)
    ensures ShipmentNotice in types ==> "shipment_tracking_mapping" in Dedup(all)
  {
    DocTypeCapabilitiesMember(types);
    DedupPrefix(CoreRequirements, DocTypeCapabilities(types));
    DedupDistinct(CoreRequirements);
    DedupHas(all, DocTypeCapabilities(types), CoreRequirements);
  }

  /** Whatever occurs in the appended part of a list occurs in its set. */
  lemma DedupHas(all: seq<string>, tail: seq<string>, head: seq<string>)
    requires all == head + tail
    ensures forall c :: c in tail ==> c in Dedup(all)
  {
    forall c | c in tail
      ensures c in Dedup(all)
    {
      var k :| 0 <= k < |tail| && tail[k] == c;
      assert all[|head| + k] == c;
    }
  }

  lemma {:induction false} DocTypeCapabilitiesMember(types: seq<DocType>)
    ensures PurchaseOrder in types ==> "po_field_mapping" in DocTypeCapabilities(types)
    ensures Invoice in types ==> "invoice_total_validation" in DocTypeCapabilities(types)
    ensures ShipmentNotice in types ==> "shipment_tracking_mapping" in DocTypeCapabilities(types)
    decreases |types|
  {
    if |types| > 0 {
      DocTypeCapabilitiesMember(types[1..]);
      assert types == [types[0]] + types[1..];
    }
  }

  /** The target document types, or purchase order and invoice when none are given. */
  function TargetDocTypes(types: seq<DocType>): (r: seq<DocType>)
    ensures |r| > 0
    ensures |types| > 0 ==> r == types
  {
    if |types| > 0 then types else DefaultDocTypes
  }

  /** Every capability the partner needs, without repeats, transport first. */
  function RequiredCapabilities(input: Input): (caps: seq<string>)
    ensures Distinct(caps)
    ensures |caps| >= 3
    ensures forall c :: c in caps <==>
      c in RequirementsForConnectionType(input.connectionType) ||
      c in RequirementsForDocTypes(TargetDocTypes(input.targetDocumentTypes)) ||
      c in input.requiredCapabilities
    ensures caps[..|RequirementsForConnectionType(input.connectionType)|] == RequirementsForConnectionType(input.connectionType)
  {
    var conn := RequirementsForConnectionType(input.connectionType);
    var docs := RequirementsForDocTypes(TargetDocTypes(input.targetDocumentTypes));
    var all := conn + docs + input.requiredCapabilities;
    RequiredCapabilitiesFacts(conn, docs, input.requiredCapabilities, all);
    var caps := Dedup(all);
    caps
  }

  lemma RequiredCapabilitiesFacts(conn: seq<string>, docs: seq<string>, extra: seq<string>, all: seq<string>)
    requires all == conn + docs + extra
    requires |conn| >= 1 && Distinct(conn)
    requires |docs| >= 2 && docs[..2] == CoreRequirements
    requires forall i :: 0 <= i < |conn| ==> conn[i] != CoreRequirements[0] && conn[i] != CoreRequirements[1]
    ensures |Dedup(all)| >= 3
    ensures forall c :: c in Dedup(all) <==> c in conn || c in docs || c in extra
    ensures |Dedup(all)| >= |conn| && Dedup(all)[..|conn|] == conn
  {
    assert all == conn + (docs + extra);
    DedupPrefix(conn, docs + extra);
    DedupDistinct(conn);
    assert docs[0] == docs[..2][0] && docs[1] == docs[..2][1];
    assert all[|conn|] == docs[0] && all[|conn| + 1] == docs[1];
    DedupSameMembers(all);
    DedupAtLeast(all, conn, docs[0], docs[1]);
  }

  lemma DedupSameMembers(s: seq<string>)
    ensures forall c :: c in Dedup(s) <==> c in s
  {
    forall c | c in Dedup(s)
      ensures c in s
    {
      var k :| 0 <= k < |Dedup(s)| && Dedup(s)[k] == c;
    }
    forall c | c in s
      ensures c in Dedup(s)
    {
      var k :| 0 <= k < |s| && s[k] == c;
    }
  }

  /** Connection requirements plus the two core ones make at least three distinct entries. */
  lemma DedupAtLeast(all: seq<string>, conn: seq<string>, a: string, b: string)
    requires |conn| >= 1 && |all| >= |conn| && all[..|conn|] == conn
    requires |Dedup(all)| >= |conn| && Dedup(all)[..|conn|] == conn
    requires a in all && b in all && a != b
    requires a !in conn && b !in conn
    ensures |Dedup(all)| >= 3
  {
    var r := Dedup(all);
    assert a in r && b in r;
    var ia :| 0 <= ia < |r| && r[ia] == a;
    var ib :| 0 <= ib < |r| && r[ib] == b;
    assert forall k :: 0 <= k < |conn| ==> r[k] == r[..|conn|][k];
  }

  /** The existing capabilities, trimmed, blanks dropped. */
  function ExistingSet(existing: seq<string>): (s: set<string>)
    ensures forall i :: 0 <= i < |existing| && Trim(existing[i]) != "" ==> Trim(existing[i]) in s
    ensures forall c :: c in s ==> c != "" && exists i :: 0 <= i < |existing| && Trim(existing[i]) == c
  {
    set i | 0 <= i < |existing| && Trim(existing[i]) != "" :: Trim(existing[i])
  }

  /** The required capabilities not already present, in required order. */
  function MissingCapabilities(required: seq<string>, existing: set<string>): (missing: seq<string>)
    ensures |missing| <= |required|
    ensures Distinct(required) ==> Distinct(missing)
    ensures forall c :: c in missing <==> c in required && c !in existing
    ensures |missing| == 0 <==> forall i :: 0 <= i < |required| ==> required[i] in existing
  {
    var missing := Filter(required, (c: string) => c !in existing);
    assert |missing| == Count(required, (c: string) => c !in existing);
    FilterDistinct(required, (c: string) => c !in existing);
    missing
  }

  /** The missing capabilities are the absent required ones and nothing else, in required order. */
  lemma MissingCapabilitiesInOrder(required: seq<string>, existing: set<string>)
    ensures FilterMapped(required, (c: string) => c !in existing, Id, MissingCapabilities(required, existing))
  {
    FilterInOrder(required, (c: string) => c !in existing);
  }

  lemma {:induction false} FilterDistinct<T>(s: seq<T>, p: T -> bool)
    ensures Distinct(s) ==> Distinct(Filter(s, p))
    decreases |s|
  {
    if |s| > 0 {
      FilterDistinct(s[1..], p);
    }
  }

  /**
   * `Math.max(0, Math.min(100, Math.round((1 - missing / Math.max(required, 1)) * 100)))`
   * over exact rationals.
   */
  function ReadinessScore(missing: nat, required: nat): (score: nat)
    ensures score <= 100
    ensures missing == 0 ==> score == 100
    ensures missing >= required && required > 0 ==> score == 0
    ensures var whole := if required > 0 then required else 1;
      missing <= whole ==> 2 * score * whole <= 200 * (whole - missing) + whole < 2 * (score + 1) * whole
  {
    var whole := if required > 0 then required else 1;
    if missing <= whole then RoundPercent(whole - missing, whole) else 0
  }

  const RequiredSteps: seq<string> := [
    "Define transport and authentication profile",
    "Map source payload fields to thin canonical contract",
    "Run test documents for each targeted document type",
    "Configure anomaly and exception routing policies",
    "Enable audit/event export to customer systems"
  ]

  /** The first recommendation names the first missing capability, if any. */
  function Recommendations(missing: seq<string>): (recs: seq<string>)
    ensures |recs| == 3
    ensures |missing| > 0 ==> recs[0] == "Prioritize " + missing[0] + " before production cutover"
    ensures |missing| == 0 ==> recs[0] == "Baseline capabilities are in place"
  {
    [
      if |missing| > 0 then "Prioritize " + missing[0] + " before production cutover"
      else "Baseline capabilities are in place",
      "Start with propose-only mode for agent actions",
      "Add approval workflow for auto-remediation above configured thresholds"
    ]
  }

  /** `runOnboardingAgent`. */
  function Run(input: Input): (out: Output)
    ensures forall c :: c in out.missingCapabilities <==>
      c in RequiredCapabilities(input) && c !in ExistingSet(input.existingCapabilities)
    ensures Distinct(out.missingCapabilities)
    ensures out.readinessScore == ReadinessScore(|out.missingCapabilities|, |RequiredCapabilities(input)|)
    ensures out.recommendations == Recommendations(out.missingCapabilities)
    ensures out.partnerName == input.partnerName
  {
    var required := RequiredCapabilities(input);
    var missing := MissingCapabilities(required, ExistingSet(input.existingCapabilities));
    Output(input.partnerName, ReadinessScore(|missing|, |required|), RequiredSteps, missing, Recommendations(missing))
  }

  /** A partner that already has every required capability scores 100 and is told so. */
  lemma NothingMissingIsReady(input: Input)
    requires forall c :: c in RequiredCapabilities(input) ==> c in ExistingSet(input.existingCapabilities)
    ensures Run(input).missingCapabilities == []
    ensures Run(input).readinessScore == 100
    ensures Run(input).recommendations[0] == "Baseline capabilities are in place"
  {
    var required := RequiredCapabilities(input);
    assert forall i :: 0 <= i < |required| ==> required[i] in ExistingSet(input.existingCapabilities);
  }

  /** An existing capability written with surrounding white space still counts. */
  lemma PaddedCapabilityCounts(input: Input, k: nat, cap: string)
    requires k < |input.existingCapabilities| && Trim(input.existingCapabilities[k]) == cap && cap != ""
    ensures cap !in Run(input).missingCapabilities
  {
  }

  /**
   * A score of 100 only says at most one in two hundred required
   * capabilities is missing: rounding hides a single gap in a long list.
   */
  lemma FullScoreBound(missing: nat, required: nat)
    requires required > 0 && missing <= required
    requires ReadinessScore(missing, required) == 100
    ensures 200 * missing <= required
  {
  }

  /** One missing capability out of two hundred still scores 100. */
  lemma FullScoreWithGap()
    ensures ReadinessScore(1, 200) == 100
  {
  }

  /** The first recommendation points at the first missing capability in required order. */
  lemma PrioritizesFirstMissing(input: Input)
    requires exists c :: c in RequiredCapabilities(input) && c !in ExistingSet(input.existingCapabilities)
    ensures |Run(input).missingCapabilities| > 0
    ensures Run(input).recommendations[0] ==
      "Prioritize " + Run(input).missingCapabilities[0] + " before production cutover"
  {
    var c :| c in RequiredCapabilities(input) && c !in ExistingSet(input.existingCapabilities);
    assert c in Run(input).missingCapabilities;
  }
}
