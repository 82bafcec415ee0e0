/**
 * The standards-and-architecture agent: scores a standards checklist, lists
 * the failed rules and recommends approval unless a mandatory rule failed.
 */
module StandardsArchitecture {
  import opened Base
  import opened ToolRegistry

  datatype RuleSeverity = Must | Should

  datatype ChecklistRule = ChecklistRule(
    ruleId: string,
    description: string,
    severity: RuleSeverity,
    passed: bool,
    notes: Option<string>)

  datatype DecisionStatus = Proposed | Approved | Deprecated

  datatype ArchitectureDecision = ArchitectureDecision(decision: string, status: DecisionStatus, rationale: Option<string>)

  datatype Input = Input(
    projectId: string,
    standardsChecklist: seq<ChecklistRule>,
    architectureDecisions: seq<ArchitectureDecision>)

  /** A failed rule as reported; `notes` is `null` (here `None`) when the rule had none. */
  datatype Violation = Violation(ruleId: string, severity: RuleSeverity, description: string, notes: Option<string>)

  datatype Recommendation = Approve | Revise

  datatype DecisionSummary = DecisionSummary(decision: string, status: DecisionStatus)

  datatype Output = Output(
    projectId: string,
    complianceScore: nat,
    approvalRecommendation: Recommendation,
    violations: seq<Violation>,
    standardizationOpportunities: seq<string>,
    referencePatterns: seq<string>,
    architectureDecisionSummary: seq<DecisionSummary>,
    toolContracts: seq<ToolContract>)

  predicate Passed(rule: ChecklistRule) {
    rule.passed
  }

  predicate Failed(rule: ChecklistRule) {
    !rule.passed
  }

  /** Percentage of passed rules, 0 for an empty checklist. */
  function ComplianceScore(checklist: seq<ChecklistRule>): (score: nat)
    ensures score <= 100
    ensures |checklist| == 0 ==> score == 0
    ensures |checklist| > 0 && (forall i :: 0 <= i < |checklist| ==> checklist[i].passed) ==> score == 100
    ensures (forall i :: 0 <= i < |checklist| ==> !checklist[i].passed) ==> score == 0
    ensures |checklist| > 0 ==>
      2 * score * |checklist| <= 200 * Count(checklist, Passed) + |checklist| < 2 * (score + 1) * |checklist|
  {
    Percent(Count(checklist, Passed), |checklist|)
  }

  function ToViolation(rule: ChecklistRule): Violation {
    Violation(rule.ruleId, rule.severity, rule.description, rule.notes)
  }

  /** The failed rules, in checklist order. */
  function Violations(checklist: seq<ChecklistRule>): (vs: seq<Violation>)
    ensures |vs| == Count(checklist, Failed)
    ensures forall i :: 0 <= i < |checklist| && !checklist[i].passed ==> ToViolation(checklist[i]) in vs
    ensures forall j :: 0 <= j < |vs| ==>
      exists i :: 0 <= i < |checklist| && !checklist[i].passed && vs[j] == ToViolation(checklist[i])
  {
    var vs := MapSeq(Filter(checklist, Failed), ToViolation);
    assert forall i :: 0 <= i < |checklist| && !checklist[i].passed ==> ToViolation(checklist[i]) in vs by {
      forall i | 0 <= i < |checklist| && !checklist[i].passed
        ensures ToViolation(checklist[i]) in vs
      {
        FilterMapHas(checklist, Failed, ToViolation, i);
      }
    }
    assert forall j :: 0 <= j < |vs| ==>
      exists i :: 0 <= i < |checklist| && !checklist[i].passed && vs[j] == ToViolation(checklist[i]) by {
      forall j | 0 <= j < |vs|
        ensures exists i :: 0 <= i < |checklist| && !checklist[i].passed && vs[j] == ToViolation(checklist[i])
      {
        FilterMapFrom(checklist, Failed, ToViolation, j);
      }
    }
    vs
  }

  /** The violations are the failed rules and nothing else, in checklist order. */
  lemma ViolationsInOrder(checklist: seq<ChecklistRule>)
    ensures FilterMapped(checklist, Failed, ToViolation, Violations(checklist))
  {
    FilterMapInOrder(checklist, Failed, ToViolation);
  }

  const StandardizationOpportunities: seq<string> := [
    "Increase reuse of approved mapping templates and shared transforms",
    "Normalize exception handling and escalation policies across partners",
    "Adopt a single deployment readiness checklist for all implementations"
  ]

  const ReferencePatterns: seq<string> := [
    "Thin canonical contract + adapter model",
    "Spec baseline -> mapping build -> certification -> release gate",
    "Policy-driven post-production escalation workflow"
  ]

  const ToolContracts: seq<ToolContract> := [
    ToolContract("architecture.review.record", "Record architecture decision and standards compliance evidence",
                 ["projectId", "violations", "architectureDecisions"]),
    ToolContract("template.catalog.enforce", "Enforce approved reusable integration patterns",
                 ["projectId", "reuseTargets"]),
    ToolContract("governance.report.publish", "Publish standards review report for leadership sign-off",
                 ["projectId", "complianceScore", "approvalRecommendation"])
  ]

  /** `runStandardsArchitectureAgent`. */
  function Run(input: Input): (out: Output)
    ensures out.complianceScore == ComplianceScore(input.standardsChecklist)
    ensures out.violations == Violations(input.standardsChecklist)
    ensures out.approvalRecommendation == Revise <==>
      exists i :: 0 <= i < |out.violations| && out.violations[i].severity == Must
    ensures |out.architectureDecisionSummary| == |input.architectureDecisions|
    ensures forall i :: 0 <= i < |input.architectureDecisions| ==>
      out.architectureDecisionSummary[i] ==
        DecisionSummary(input.architectureDecisions[i].decision, input.architectureDecisions[i].status)
  {
    var violations := Violations(input.standardsChecklist);
    var mustCount := Count(violations, (v: Violation) => v.severity == Must);
    var decisions := input.architectureDecisions;
    Output(
      input.projectId,
      ComplianceScore(input.standardsChecklist),
      if mustCount > 0 then Revise else Approve,
      violations,
      StandardizationOpportunities,
      ReferencePatterns,
      seq(|decisions|, i requires 0 <= i < |decisions| => DecisionSummary(decisions[i].decision, decisions[i].status)),
      ToolContracts)
  }

  /** The agent asks for revision exactly when some mandatory rule failed. */
  lemma ReviseIffMustRuleFailed(input: Input)
    ensures Run(input).approvalRecommendation == Revise <==>
      exists i :: 0 <= i < |input.standardsChecklist| &&
        input.standardsChecklist[i].severity == Must && !input.standardsChecklist[i].passed
  {
    var cl := input.standardsChecklist;
    var out := Run(input);
    var vs := Violations(cl);
    assert out.violations == vs;
    if exists i :: 0 <= i < |cl| && cl[i].severity == Must && !cl[i].passed {
      var i :| 0 <= i < |cl| && cl[i].severity == Must && !cl[i].passed;
      MustViolationListed(cl, i);
    }
    if out.approvalRecommendation == Revise {
      var j :| 0 <= j < |vs| && vs[j].severity == Must;
      MustViolationFrom(cl, j);
    }
  }

  lemma MustViolationFrom(cl: seq<ChecklistRule>, j: nat)
    requires j < |Violations(cl)| && Violations(cl)[j].severity == Must
    ensures exists i :: 0 <= i < |cl| && cl[i].severity == Must && !cl[i].passed
  {
    var vs := Violations(cl);
    var i :| 0 <= i < |cl| && !cl[i].passed && vs[j] == ToViolation(cl[i]);
    assert cl[i].severity == Must;
  }

  lemma MustViolationListed(cl: seq<ChecklistRule>, i: nat)
    requires i < |cl| && cl[i].severity == Must && !cl[i].passed
    ensures exists j :: 0 <= j < |Violations(cl)| && Violations(cl)[j].severity == Must
  {
    var vs := Violations(cl);
    assert ToViolation(cl[i]) in vs;
    var j :| 0 <= j < |vs| && vs[j] == ToViolation(cl[i]);
    assert vs[j].severity == Must;
  }

  /** A checklist where every rule passed has no violations and is approved. */
  lemma AllPassedApproves(input: Input)
    requires forall i :: 0 <= i < |input.standardsChecklist| ==> input.standardsChecklist[i].passed
    ensures Run(input).violations == []
    ensures Run(input).approvalRecommendation == Approve
  {
  }
}
