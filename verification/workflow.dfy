/**
 * The new-partner implementation workflow: runs seven agents (eight when
 * post-production escalation is enabled) on one project description and
 * recommends go-live only when no agent raised a blocking condition.
 */
module NewPartnerWorkflow {
  import opened Base
  import opened Documents
  import IntegrationProgram
  import Onboarding
  import SpecAnalysis
  import MappingEngineer
  import TestCertification
  import DeploymentReadiness
  import PostProductionEscalation
  import StandardsArchitecture

  datatype TestSection = TestSection(
    results: seq<TestCertification.TestResult>,
    certificationCriteria: seq<TestCertification.Criterion>,
    defectSummary: TestCertification.DefectSummary,
    partnerCertification: Option<TestCertification.PartnerCertification>)

  datatype DeploymentSection = DeploymentSection(
    environment: string,
    checklist: seq<DeploymentReadiness.ChecklistItem>,
    approvals: seq<DeploymentReadiness.Approval>)

  datatype StandardsSection = StandardsSection(
    checklist: seq<StandardsArchitecture.ChecklistRule>,
    architectureDecisions: seq<StandardsArchitecture.ArchitectureDecision>)

  datatype ProgramSection = ProgramSection(
    milestones: seq<IntegrationProgram.Milestone>,
    risks: seq<IntegrationProgram.Risk>,
    dependencies: seq<IntegrationProgram.Dependency>)

  datatype PostProductionSection = PostProductionSection(
    enabled: bool,
    incidentId: Option<string>,
    severity: Option<PostProductionEscalation.Severity>,
    affectedPartners: seq<string>,
    recentChanges: seq<string>,
    metrics: seq<PostProductionEscalation.Metric>)

  /** The workflow input after its schema defaults are applied. */
  datatype WorkflowInput = WorkflowInput(
    projectId: string,
    projectName: string,
    partnerName: string,
    partnerId: string,
    connectionType: Option<Onboarding.ConnectionType>,
    documentType: string,
    targetDocumentTypes: seq<DocType>,
    businessRules: seq<string>,
    sourceSchema: SpecAnalysis.Schema,
    targetSchema: SpecAnalysis.Schema,
    mappingIntent: seq<MappingEngineer.MappingIntent>,
    test: TestSection,
    deployment: DeploymentSection,
    standards: StandardsSection,
    program: ProgramSection,
    postProduction: PostProductionSection)

  datatype BlockingReason =
    | TestCertificationNotReady
    | DeploymentReadinessHold
    | StandardsReviewRequiresRevision
    | IntegrationProgramEscalationRequired

  function ReasonCode(r: BlockingReason): string {
    match r
    case TestCertificationNotReady => "test_certification_not_ready"
    case DeploymentReadinessHold => "deployment_readiness_hold"
    case StandardsReviewRequiresRevision => "standards_review_requires_revision"
    case IntegrationProgramEscalationRequired => "integration_program_escalation_required"
  }

  /** The position of each reason in the report. */
  function ReasonRank(r: BlockingReason): nat {
    match r
    case TestCertificationNotReady => 0
    case DeploymentReadinessHold => 1
    case StandardsReviewRequiresRevision => 2
    case IntegrationProgramEscalationRequired => 3
  }

  datatype GoLive = Proceed | Hold

  datatype Summary = Summary(goLiveRecommendation: GoLive, blockingReasons: seq<BlockingReason>)

  datatype Outputs = Outputs(
    integrationProgram: IntegrationProgram.Output,
    onboarding: Onboarding.Output,
    specAnalysis: SpecAnalysis.Output,
    mappingEngineer: MappingEngineer.Output,
    testCertification: TestCertification.Output,
    deploymentReadiness: DeploymentReadiness.Output,
    standardsArchitecture: StandardsArchitecture.Output,
    postProductionEscalation: Option<PostProductionEscalation.Output>)

  datatype WorkflowResult = WorkflowResult(
    workflow: string,
    projectId: string,
    partnerName: string,
    executedSteps: seq<string>,
    summary: Summary,
    outputs: Outputs)

  function ProgramInput(input: WorkflowInput): IntegrationProgram.Input {
    IntegrationProgram.Input(input.projectId, input.projectName, input.program.milestones,
                             input.program.risks, input.program.dependencies)
  }

  /** The onboarding agent sees only the partner, transport and document types. */
  function OnboardingInput(input: WorkflowInput): Onboarding.Input {
    Onboarding.Input(input.partnerName, input.connectionType, input.targetDocumentTypes, [], [])
  }

  function SpecInput(input: WorkflowInput): SpecAnalysis.Input {
    SpecAnalysis.Input(input.projectId, input.partnerName, MapSeq(input.targetDocumentTypes, DocTypeName),
                       input.businessRules, input.sourceSchema, input.targetSchema)
  }

  function MappingInput(input: WorkflowInput): MappingEngineer.Input {
    MappingEngineer.Input(input.projectId, input.partnerId, input.documentType, input.mappingIntent)
  }

  function TestInput(input: WorkflowInput): TestCertification.Input {
    TestCertification.Input(input.projectId, input.documentType, input.test.results, input.test.certificationCriteria,
                            input.test.defectSummary, input.test.partnerCertification)
  }

  function DeploymentInput(input: WorkflowInput): DeploymentReadiness.Input {
    DeploymentReadiness.Input(input.projectId, input.deployment.environment, input.deployment.checklist,
                              input.deployment.approvals)
  }

  function StandardsInput(input: WorkflowInput): StandardsArchitecture.Input {
    StandardsArchitecture.Input(input.projectId, input.standards.checklist, input.standards.architectureDecisions)
  }

  /** The incident, named after the project and rated P3 unless the input says otherwise. */
  function PostProductionInput(input: WorkflowInput): (p: PostProductionEscalation.Input)
    ensures input.postProduction.incidentId.None? ==> p.incidentId == input.projectId + "-post-go-live"
    ensures input.postProduction.incidentId.Some? ==> p.incidentId == input.postProduction.incidentId.value
    ensures p.severity == Some(input.postProduction.severity.GetOr(PostProductionEscalation.P3))
  {
    PostProductionEscalation.Input(
      input.postProduction.incidentId.GetOr(input.projectId + "-post-go-live"),
      Some(input.postProduction.severity.GetOr(PostProductionEscalation.P3)),
      input.postProduction.affectedPartners,
      input.postProduction.recentChanges,
      input.postProduction.metrics)
  }

  /** The four verdicts that decide go-live. */
  datatype Verdicts = Verdicts(
    certification: TestCertification.Decision,
    release: DeploymentReadiness.ReleaseDecision,
    recommendation: StandardsArchitecture.Recommendation,
    escalationNeeded: bool)

  function VerdictsOf(o: Outputs): Verdicts {
    Verdicts(o.testCertification.certificationDecision, o.deploymentReadiness.releaseDecision,
             o.standardsArchitecture.approvalRecommendation, o.integrationProgram.escalationNeeded)
  }

  /** No agent objects: certification is not refused, release is ready, standards approve, no escalation. */
  predicate NoObjection(v: Verdicts) {
    v.certification != TestCertification.NotReady && v.release == DeploymentReadiness.Ready &&
    v.recommendation == StandardsArchitecture.Approve && !v.escalationNeeded
  }

  /** The reasons a verdict raises, in the fixed order test, deployment, standards, program. */
  function RaisedReasons(v: Verdicts): seq<BlockingReason> {
    (if v.certification == TestCertification.NotReady then [TestCertificationNotReady] else [])
    + (if v.release == DeploymentReadiness.Hold then [DeploymentReadinessHold] else [])
    + (if v.recommendation == StandardsArchitecture.Revise then [StandardsReviewRequiresRevision] else [])
    + (if v.escalationNeeded then [IntegrationProgramEscalationRequired] else [])
  }

  lemma RaisedReasonsInReportOrder(v: Verdicts)
    ensures forall i :: 0 < i < |RaisedReasons(v)| ==>
      ReasonRank(RaisedReasons(v)[i - 1]) < ReasonRank(RaisedReasons(v)[i])
  {
  }

  /**
   * The reasons that block go-live: one per objecting agent, none otherwise,
   * each later in report order than the one before it.
   */
  function BlockingReasons(v: Verdicts): (reasons: seq<BlockingReason>)
    ensures TestCertificationNotReady in reasons <==> v.certification == TestCertification.NotReady
    ensures DeploymentReadinessHold in reasons <==> v.release == DeploymentReadiness.Hold
    ensures StandardsReviewRequiresRevision in reasons <==> v.recommendation == StandardsArchitecture.Revise
    ensures IntegrationProgramEscalationRequired in reasons <==> v.escalationNeeded
    ensures reasons == [] <==> NoObjection(v)
    ensures forall i :: 0 < i < |reasons| ==> ReasonRank(reasons[i - 1]) < ReasonRank(reasons[i])
  {
    RaisedReasonsInReportOrder(v);
    RaisedReasons(v)
  }

  const CoreSteps: seq<string> := [
    "integration_program", "onboarding", "spec_analysis", "mapping_engineer",
    "test_certification", "deployment_readiness", "standards_architecture"
  ]

  /** The steps run: the seven core agents, then post-production escalation when it ran. */
  function ExecutedSteps(postProductionRan: bool): (steps: seq<string>)
    ensures |steps| == (if postProductionRan then 8 else 7)
    ensures steps[..7] == CoreSteps
    ensures postProductionRan ==> steps[7] == "post_production_escalation"
  {
    var steps := CoreSteps + (if postProductionRan then ["post_production_escalation"] else []);
    assert steps[..7] == CoreSteps;
    steps
  }

  /**
   * Everything the workflow does after the agents ran: the summary and the
   * step list are read off the agents' outputs.
   */
  function Compose(input: WorkflowInput, o: Outputs): (r: WorkflowResult)
    ensures r.outputs == o
    ensures r.summary.goLiveRecommendation == Proceed <==> NoObjection(VerdictsOf(o))
    ensures r.summary.goLiveRecommendation == Hold <==> |r.summary.blockingReasons| > 0
    ensures r.summary.blockingReasons == BlockingReasons(VerdictsOf(o))
    ensures r.executedSteps == ExecutedSteps(o.postProductionEscalation.Some?)
    ensures r.workflow == "new_partner_implementation" && r.projectId == input.projectId
    ensures r.partnerName == input.partnerName
  {
    var reasons := BlockingReasons(VerdictsOf(o));
    WorkflowResult("new_partner_implementation", input.projectId, input.partnerName,
                   ExecutedSteps(o.postProductionEscalation.Some?),
                   Summary(if |reasons| > 0 then Hold else Proceed, reasons), o)
  }

  /** Post-production escalation runs only when the workflow enables it; otherwise its output is absent. */
  function PostProductionOutput(input: WorkflowInput): (r: Option<PostProductionEscalation.Output>)
    ensures r.Some? <==> input.postProduction.enabled
    ensures r.Some? ==> r.value == PostProductionEscalation.Run(PostProductionInput(input))
  {
    if input.postProduction.enabled then Some(PostProductionEscalation.Run(PostProductionInput(input))) else None
  }

  /** Every agent's output; post-production escalation only when enabled. */
  function RunAgents(input: WorkflowInput): Outputs {
    Outputs(
      IntegrationProgram.Run(ProgramInput(input)),
      Onboarding.Run(OnboardingInput(input)),
      SpecAnalysis.Run(SpecInput(input)),
      MappingEngineer.Run(MappingInput(input)),
      TestCertification.Run(TestInput(input)),
      DeploymentReadiness.Run(DeploymentInput(input)),
      StandardsArchitecture.Run(StandardsInput(input)),
      PostProductionOutput(input))
  }

  /** `runNewPartnerImplementationWorkflow`: the agents, then the composition. */
  function Run(input: WorkflowInput): WorkflowResult {
    Compose(input, RunAgents(input))
  }

  /*
   * The lemmas below are stated for any outputs whose relevant agents ran on
   * the workflow's input, as they do in RunAgents; each names only the agents
   * its conclusion depends on.
   */

  /** A required checklist item still open holds go-live. */
  lemma OpenRequiredChecklistItemHoldsGoLive(input: WorkflowInput, o: Outputs, k: nat)
    requires o.deploymentReadiness == DeploymentReadiness.Run(DeploymentInput(input))
    requires k < |input.deployment.checklist|
    requires input.deployment.checklist[k].status != DeploymentReadiness.ItemComplete
    requires input.deployment.checklist[k].required != Some(false)
    ensures Compose(input, o).summary.goLiveRecommendation == Hold
    ensures DeploymentReadinessHold in Compose(input, o).summary.blockingReasons
  {
    DeploymentReadiness.RequiredIncompleteItemHolds(DeploymentInput(input), k);
  }

  /** A failed mandatory standards rule holds go-live. */
  lemma FailedMustRuleHoldsGoLive(input: WorkflowInput, o: Outputs, k: nat)
    requires o.standardsArchitecture == StandardsArchitecture.Run(StandardsInput(input))
    requires k < |input.standards.checklist|
    requires input.standards.checklist[k].severity == StandardsArchitecture.Must && !input.standards.checklist[k].passed
    ensures Compose(input, o).summary.goLiveRecommendation == Hold
    ensures StandardsReviewRequiresRevision in Compose(input, o).summary.blockingReasons
  {
    StandardsArchitecture.ReviseIffMustRuleFailed(StandardsInput(input));
  }

  /** A blocked program dependency holds go-live. */
  lemma BlockedDependencyHoldsGoLive(input: WorkflowInput, o: Outputs, k: nat)
    requires o.integrationProgram == IntegrationProgram.Run(ProgramInput(input))
    requires k < |input.program.dependencies|
    requires input.program.dependencies[k].status == IntegrationProgram.DependencyBlocked
    ensures Compose(input, o).summary.goLiveRecommendation == Hold
    ensures IntegrationProgramEscalationRequired in Compose(input, o).summary.blockingReasons
  {
  }

  /** Go-live proceeds exactly when none of the four deciding agents objects on the workflow's input. */
  lemma ProceedIffNoObjection(input: WorkflowInput, o: Outputs)
    requires o.testCertification == TestCertification.Run(TestInput(input))
    requires o.deploymentReadiness == DeploymentReadiness.Run(DeploymentInput(input))
    requires o.standardsArchitecture == StandardsArchitecture.Run(StandardsInput(input))
    requires o.integrationProgram == IntegrationProgram.Run(ProgramInput(input))
    ensures Compose(input, o).summary.goLiveRecommendation == Proceed <==>
      TestCertification.Run(TestInput(input)).certificationDecision != TestCertification.NotReady &&
      DeploymentReadiness.Run(DeploymentInput(input)).releaseDecision == DeploymentReadiness.Ready &&
      StandardsArchitecture.Run(StandardsInput(input)).approvalRecommendation == StandardsArchitecture.Approve &&
      !IntegrationProgram.Run(ProgramInput(input)).escalationNeeded
  {
  }

  /** Certification refused while every other agent agrees: one reason, and go-live is held. */
  lemma NotReadyAloneHolds(input: WorkflowInput, o: Outputs)
    requires VerdictsOf(o) == Verdicts(TestCertification.NotReady, DeploymentReadiness.Ready, StandardsArchitecture.Approve, false)
    ensures Compose(input, o).summary.blockingReasons == [TestCertificationNotReady]
    ensures Compose(input, o).summary.goLiveRecommendation == Hold
  {
  }
}
