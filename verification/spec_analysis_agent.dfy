/**
 * The spec-analysis agent: matches target schema fields to source fields by
 * case-insensitive name, proposes a transform for each match and reports
 * coverage, open questions and risks.
 */
module SpecAnalysis {
  import opened Base
  import opened ToolRegistry

  datatype Field = Field(name: string, fieldType: Option<string>, required: Option<bool>)

  datatype Schema = Schema(system: Option<string>, fields: seq<Field>)

  datatype Input = Input(
    projectId: string,
    partnerName: string,
    documentTypes: seq<string>,
    businessRules: seq<string>,
    sourceSchema: Schema,
    targetSchema: Schema)

  datatype Transform = DirectMap | ParseNumber | ParseDate | CustomTransform

  datatype CoverageStatus = Mapped | Unmapped

  datatype CoverageEntry = CoverageEntry(
    targetField: string,
    sourceField: Option<string>,
    status: CoverageStatus,
    confidence: real,
    transform: Option<Transform>,
    rationale: string)

  datatype RiskSeverity = High

  datatype Risk = Risk(severity: RiskSeverity, message: string)

  datatype Summary = Summary(sourceFieldCount: nat, targetFieldCount: nat, mappedTargetFields: nat, mappingCoveragePercent: nat)

  datatype Output = Output(
    projectId: string,
    partnerName: string,
    documentTypes: seq<string>,
    summary: Summary,
    fieldCoverage: seq<CoverageEntry>,
    openQuestions: seq<string>,
    risks: seq<Risk>,
    recommendedWorkflow: seq<string>,
    toolContracts: seq<ToolContract>)

  /**
   * The transform from a source type to a target type; two absent types
   * count as equal, as `undefined === undefined` does.
   */
  function InferTransform(sourceType: Option<string>, targetType: Option<string>): (t: Transform)
    ensures t == DirectMap <==> sourceType == targetType
    ensures t == ParseNumber <==> sourceType != targetType && sourceType == Some("string") && targetType == Some("number")
    ensures t == ParseDate <==> sourceType != targetType && sourceType == Some("string") && targetType == Some("date")
  {
    if sourceType == targetType then DirectMap
    else if targetType == Some("number") && sourceType == Some("string") then ParseNumber
    else if targetType == Some("date") && sourceType == Some("string") then ParseDate
    else CustomTransform
  }

  /** Names are matched after ASCII lower-casing. */
  predicate SameKey(a: string, b: string) {
    Lower(a) == Lower(b)
  }

  /** The position of the first source field whose name matches `name`. */
  function FindSource(sources: seq<Field>, name: string): (k: Option<nat>)
    ensures k.Some? ==> k.value < |sources| && SameKey(sources[k.value].name, name)
    ensures k.Some? ==> forall i :: 0 <= i < k.value ==> !SameKey(sources[i].name, name)
    ensures k.None? <==> forall i :: 0 <= i < |sources| ==> !SameKey(sources[i].name, name)
    decreases |sources|
  {
    if |sources| == 0 then None
    else if SameKey(sources[0].name, name) then Some(0)
    else
      match FindSource(sources[1..], name)
      case None => None
      case Some(k) => Some(k + 1)
  }

  const NoMatchRationale: string := "No matching source field by name"
  const NameMatchRationale: string := "Name-based match"

  /** The coverage entry for one target field. */
  function Cover(sources: seq<Field>, target: Field): (e: CoverageEntry)
    ensures e.targetField == target.name
    ensures e.status == Mapped <==> exists i :: 0 <= i < |sources| && SameKey(sources[i].name, target.name)
    ensures e.status == Unmapped ==> e.confidence == 0.0 && e.sourceField.None? && e.transform.None?
    ensures e.status == Mapped ==> e.confidence == 9.0 / 10.0
    ensures e.status == Mapped ==>
      exists i :: 0 <= i < |sources| && SameKey(sources[i].name, target.name) &&
        (forall j :: 0 <= j < i ==> !SameKey(sources[j].name, target.name)) &&
        e.sourceField == Some(sources[i].name) &&
        e.transform == Some(InferTransform(sources[i].fieldType, target.fieldType))
  {
    match FindSource(sources, target.name)
    case None => CoverageEntry(target.name, None, Unmapped, 0.0, None, NoMatchRationale)
    case Some(k) =>
      CoverageEntry(target.name, Some(sources[k].name), Mapped, 9.0 / 10.0,
                    Some(InferTransform(sources[k].fieldType, target.fieldType)), NameMatchRationale)
  }

  /** One coverage entry per target field, in target order. */
  function BuildCoverage(sources: seq<Field>, targets: seq<Field>): (cov: seq<CoverageEntry>)
    ensures |cov| == |targets|
    ensures forall i :: 0 <= i < |targets| ==> cov[i] == Cover(sources, targets[i])
  {
    MapSeq(targets, (t: Field) => Cover(sources, t))
  }

  predicate IsMapped(e: CoverageEntry) {
    e.status == Mapped
  }

  predicate IsUnmapped(e: CoverageEntry) {
    e.status == Unmapped
  }

  const UnmappedQuestion: string := "Which source system fields should populate unmapped required target fields?"
  const RulesQuestion: string := "What tolerance and exception handling rules should be applied per trading partner?"
  const AcceptanceQuestion: string := "What are the go-live validation acceptance criteria by document type?"

  /** Questions for unmapped fields and missing rules, always ending with acceptance criteria. */
  function BuildOpenQuestions(coverage: seq<CoverageEntry>, businessRules: seq<string>): (qs: seq<string>)
    ensures |qs| >= 1 && qs[|qs| - 1] == AcceptanceQuestion
    ensures UnmappedQuestion in qs <==> exists i :: 0 <= i < |coverage| && coverage[i].status == Unmapped
    ensures RulesQuestion in qs <==> |businessRules| == 0
    ensures |qs| == 1 + (if Any(coverage, IsUnmapped) then 1 else 0) + (if |businessRules| == 0 then 1 else 0)
  {
    (if Any(coverage, IsUnmapped) then [UnmappedQuestion] else [])
    + (if |businessRules| == 0 then [RulesQuestion] else [])
    + [AcceptanceQuestion]
  }

  const LowCoverageRisk: Risk := Risk(High, "Low mapping coverage detected; implementation risk is elevated")
  const InvoiceRulesRisk: Risk := Risk(High, "Invoice business rules are not defined")

  /** Low coverage (under 70%) and an invoice without rules are the two risks, in that order. */
  function BuildRisks(coveragePercent: nat, documentTypes: seq<string>, businessRules: seq<string>): (rs: seq<Risk>)
    ensures LowCoverageRisk in rs <==> coveragePercent < 70
    ensures InvoiceRulesRisk in rs <==> "invoice" in documentTypes && |businessRules| == 0
    ensures |rs| <= 2
  {
    (if coveragePercent < 70 then [LowCoverageRisk] else [])
    + (if "invoice" in documentTypes && |businessRules| == 0 then [InvoiceRulesRisk] else [])
  }

  const RecommendedWorkflow: seq<string> := [
    "Review unmapped required fields with partner and business stakeholders",
    "Approve transformation and validation rules",
    "Lock v1 spec baseline before mapping build"
  ]

  const ToolContracts: seq<ToolContract> := [
    ToolContract("cleo.mapping_draft.create", "Create initial CIC mapping project from approved field coverage",
                 ["partnerId", "documentType", "fieldCoverage"]),
    ToolContract("ticketing.issue.create", "Track unresolved mapping questions and source data dependencies",
                 ["projectId", "questions", "owner"]),
    ToolContract("docs.spec.publish", "Publish integration spec package for stakeholder sign-off",
                 ["projectId", "specVersion", "approvalGroup"])
  ]

  /** `runSpecAnalysisAgent`. */
  function Run(input: Input): (out: Output)
    ensures |out.fieldCoverage| == |input.targetSchema.fields|
    ensures out.summary.sourceFieldCount == |input.sourceSchema.fields|
    ensures out.summary.targetFieldCount == |input.targetSchema.fields|
    ensures out.summary.mappedTargetFields == Count(out.fieldCoverage, IsMapped)
    ensures out.summary.mappedTargetFields <= out.summary.targetFieldCount
    ensures out.summary.mappingCoveragePercent == Percent(out.summary.mappedTargetFields, out.summary.targetFieldCount)
    ensures out.openQuestions == BuildOpenQuestions(out.fieldCoverage, input.businessRules)
    ensures out.risks == BuildRisks(out.summary.mappingCoveragePercent, input.documentTypes, input.businessRules)
  {
    var sources := input.sourceSchema.fields;
    var targets := input.targetSchema.fields;
    var coverage := BuildCoverage(sources, targets);
    var mapped := Count(coverage, IsMapped);
    var pct := Percent(mapped, |targets|);
    Output(
      input.projectId, input.partnerName, input.documentTypes,
      Summary(|sources|, |targets|, mapped, pct),
      coverage,
      BuildOpenQuestions(coverage, input.businessRules),
      BuildRisks(pct, input.documentTypes, input.businessRules),
      RecommendedWorkflow,
      ToolContracts)
  }

  /** A target field is mapped exactly when some source field has its name up to letter case. */
  lemma MappedIffNameMatch(input: Input, k: nat)
    requires k < |input.targetSchema.fields|
    ensures Run(input).fieldCoverage[k].status == Mapped <==>
      exists i :: 0 <= i < |input.sourceSchema.fields| &&
        Lower(input.sourceSchema.fields[i].name) == Lower(input.targetSchema.fields[k].name)
  {
    var e := Run(input).fieldCoverage[k];
    assert e == Cover(input.sourceSchema.fields, input.targetSchema.fields[k]);
  }

  /** When every target field finds a source field, coverage is 100% and no field question is asked. */
  lemma FullCoverage(input: Input)
    requires |input.targetSchema.fields| > 0
    requires forall k :: 0 <= k < |input.targetSchema.fields| ==>
      exists i :: 0 <= i < |input.sourceSchema.fields| &&
        SameKey(input.sourceSchema.fields[i].name, input.targetSchema.fields[k].name)
    ensures Run(input).summary.mappingCoveragePercent == 100
    ensures UnmappedQuestion !in Run(input).openQuestions
    ensures LowCoverageRisk !in Run(input).risks
  {
    var cov := Run(input).fieldCoverage;
    forall k | 0 <= k < |cov|
      ensures IsMapped(cov[k])
    {
      assert cov[k] == Cover(input.sourceSchema.fields, input.targetSchema.fields[k]);
    }
  }

  /** Matching ignores letter case: renaming a target field's case changes nothing. */
  lemma CoverageCaseInsensitive(sources: seq<Field>, target: Field, renamed: string)
    requires Lower(renamed) == Lower(target.name)
    ensures Cover(sources, target).status == Cover(sources, target.(name := renamed)).status
  {
  }
}
