/**
 * The agent core's entry point: routes a request to one of the nine agents
 * by agent id. Any id that is not one of the eight named ones falls through
 * to the invoice-anomaly agent, whose documents are normalised by the
 * requested adapter first.
 */
module Engine {
  import opened Base
  import opened Json
  import opened Documents
  import DocumentAdapters
  import IntegrationProgram
  import Onboarding
  import SpecAnalysis
  import MappingEngineer
  import TestCertification
  import DeploymentReadiness
  import PostProductionEscalation
  import StandardsArchitecture
  import InvoiceAnomaly

  datatype AgentInfo = AgentInfo(id: string, description: string)

  const SupportedAgents: seq<AgentInfo> := [
    AgentInfo("integration_program", "Manages implementation portfolio, risks, and delivery plan health"),
    AgentInfo("onboarding", "Assesses partner readiness and produces onboarding actions"),
    AgentInfo("invoice_anomaly", "Detects mismatches between invoice, PO, and shipment notice"),
    AgentInfo("spec_analysis", "Builds integration specification coverage, risks, and open questions"),
    AgentInfo("mapping_engineer", "Generates mapping rules, test cases, and deployment sequence"),
    AgentInfo("test_certification", "Evaluates test evidence and determines certification readiness"),
    AgentInfo("deployment_readiness", "Scores release readiness and enforces production gates"),
    AgentInfo("post_production_escalation", "Triages production incidents and proposes containment actions"),
    AgentInfo("standards_architecture", "Enforces architecture standards and reuse patterns")
  ]

  datatype Capabilities = Capabilities(agents: seq<AgentInfo>, adapters: seq<DocumentAdapters.AdapterInfo>)

  /** The supported agents and the registered adapters. */
  function GetAgentCoreCapabilities(): (caps: Capabilities)
    ensures |caps.agents| == 9
    ensures forall i, j :: 0 <= i < j < |caps.agents| ==> caps.agents[i].id != caps.agents[j].id
    ensures caps.adapters == DocumentAdapters.ListAdapters()
  {
    Capabilities(SupportedAgents, DocumentAdapters.ListAdapters())
  }

  /**
   * The request's `input`: the source passes one untyped object whose shape
   * depends on the agent. Each agent's view of it is a field here; the
   * invoice-anomaly agent reads the raw documents and the tolerance.
   */
  datatype AgentInput = AgentInput(
    integrationProgram: IntegrationProgram.Input,
    onboarding: Onboarding.Input,
    specAnalysis: SpecAnalysis.Input,
    mappingEngineer: MappingEngineer.Input,
    testCertification: TestCertification.Input,
    deploymentReadiness: DeploymentReadiness.Input,
    postProduction: PostProductionEscalation.Input,
    standardsArchitecture: StandardsArchitecture.Input,
    invoice: Raw,
    purchaseOrder: Raw,
    shipmentNotice: Raw,
    tolerance: Option<InvoiceAnomaly.Tolerance>)

  datatype AgentRequest = AgentRequest(agent: string, adapter: string, input: AgentInput)

  datatype AgentOutput =
    | IntegrationProgramOutput(integrationProgram: IntegrationProgram.Output)
    | OnboardingOutput(onboarding: Onboarding.Output)
    | SpecAnalysisOutput(specAnalysis: SpecAnalysis.Output)
    | MappingEngineerOutput(mappingEngineer: MappingEngineer.Output)
    | TestCertificationOutput(testCertification: TestCertification.Output)
    | DeploymentReadinessOutput(deploymentReadiness: DeploymentReadiness.Output)
    | PostProductionOutput(postProduction: PostProductionEscalation.Output)
    | StandardsArchitectureOutput(standardsArchitecture: StandardsArchitecture.Output)
    | InvoiceAnomalyOutput(invoiceAnomaly: InvoiceAnomaly.Report)

  /** The eight agent ids routed by name; everything else goes to the invoice-anomaly agent. */
  const NamedAgents: set<string> := {
    "integration_program", "onboarding", "spec_analysis", "mapping_engineer",
    "test_certification", "deployment_readiness", "post_production_escalation", "standards_architecture"
  }

  /** A document that is present only when the request's value is truthy. */
  function NormalizeOptional(a: DocumentAdapters.Adapter, c: Coercion, raw: Raw, freshId: string): (r: Result<Option<Document>>)
    ensures !Truthy(raw) ==> r == Ok(None)
    ensures Truthy(raw) ==> (r.Ok? <==> IsObjectLike(raw))
    ensures r.Ok? && Truthy(raw) ==> r.value.Some? && Ok(r.value.value) == DocumentAdapters.Normalize(a, c, raw, freshId)
  {
    if !Truthy(raw) then Ok(None)
    else
      match DocumentAdapters.Normalize(a, c, raw, freshId)
      case Ok(d) => Ok(Some(d))
      case Err(m) => Err(m)
  }

  /** The fall-through path: resolve the adapter, normalise the documents, run the anomaly checks. */
  function RunInvoiceAnomaly(c: Coercion, fixed: InvoiceAnomaly.Fixed2, freshId: nat -> string,
                             adapterId: string, input: AgentInput): (r: Result<InvoiceAnomaly.Report>)
    ensures DocumentAdapters.GetAdapter(adapterId).Err? && adapterId !in ObjectPrototypeMembers ==>
      r == Err(DocumentAdapters.UnknownAdapterMessage(adapterId))
    ensures adapterId in ObjectPrototypeMembers ==> r == Err(DocumentAdapters.NormalizeNotAFunction)
    ensures r.Ok? <==>
      DocumentAdapters.GetAdapter(adapterId).Ok? &&
      Truthy(input.invoice) && IsObjectLike(input.invoice) &&
      (Truthy(input.purchaseOrder) ==> IsObjectLike(input.purchaseOrder)) &&
      (Truthy(input.shipmentNotice) ==> IsObjectLike(input.shipmentNotice))
  {
    match DocumentAdapters.GetAdapter(adapterId)
    case Err(m) => Err(m)
    case Ok(adapter) =>
      match DocumentAdapters.Normalize(adapter, c, input.invoice, freshId(0))
      case Err(m) => Err(m)
      case Ok(invoice) =>
        match NormalizeOptional(adapter, c, input.purchaseOrder, freshId(1))
        case Err(m) => Err(m)
        case Ok(po) =>
          match NormalizeOptional(adapter, c, input.shipmentNotice, freshId(2))
          case Err(m) => Err(m)
          case Ok(asn) => Ok(InvoiceAnomaly.Run(c, fixed, invoice, po, asn, input.tolerance))
  }

  /** The nine destinations of `runAgent`'s dispatch. */
  datatype Route =
    | ToIntegrationProgram | ToOnboarding | ToSpecAnalysis | ToMappingEngineer | ToTestCertification
    | ToDeploymentReadiness | ToPostProduction | ToStandardsArchitecture | ToInvoiceAnomaly

  /** The agent id a named route answers to. */
  function RouteId(route: Route): string
    requires route != ToInvoiceAnomaly
  {
    match route
    case ToIntegrationProgram => "integration_program"
    case ToOnboarding => "onboarding"
    case ToSpecAnalysis => "spec_analysis"
    case ToMappingEngineer => "mapping_engineer"
    case ToTestCertification => "test_certification"
    case ToDeploymentReadiness => "deployment_readiness"
    case ToPostProduction => "post_production_escalation"
    case ToStandardsArchitecture => "standards_architecture"
  }

  /** The route of an agent id: its own agent for the eight named ids, the invoice-anomaly agent otherwise. */
  function RouteOf(agent: string): (route: Route)
    ensures route == ToInvoiceAnomaly <==> agent !in NamedAgents
    ensures route != ToInvoiceAnomaly ==> RouteId(route) == agent
  {
    if agent == "integration_program" then ToIntegrationProgram
    else if agent == "onboarding" then ToOnboarding
    else if agent == "spec_analysis" then ToSpecAnalysis
    else if agent == "mapping_engineer" then ToMappingEngineer
    else if agent == "test_certification" then ToTestCertification
    else if agent == "deployment_readiness" then ToDeploymentReadiness
    else if agent == "post_production_escalation" then ToPostProduction
    else if agent == "standards_architecture" then ToStandardsArchitecture
    else ToInvoiceAnomaly
  }

  /**
   * `runAgent`. Thrown errors (an unknown adapter, a document that is not an
   * object) are `Err`; `freshId` supplies the random ids of documents
   * without their own.
   */
  function RunAgent(c: Coercion, fixed: InvoiceAnomaly.Fixed2, freshId: nat -> string, request: AgentRequest): (r: Result<AgentOutput>)
    ensures RouteOf(request.agent) != ToInvoiceAnomaly ==> r.Ok? && !r.value.InvoiceAnomalyOutput?
    ensures RouteOf(request.agent) == ToInvoiceAnomaly ==>
      (r.Ok? <==> RunInvoiceAnomaly(c, fixed, freshId, request.adapter, request.input).Ok?) &&
      (r.Ok? ==> r.value == InvoiceAnomalyOutput(RunInvoiceAnomaly(c, fixed, freshId, request.adapter, request.input).value))
    ensures request.agent == "integration_program" ==>
      r == Ok(IntegrationProgramOutput(IntegrationProgram.Run(request.input.integrationProgram)))
    ensures request.agent == "onboarding" ==> r == Ok(OnboardingOutput(Onboarding.Run(request.input.onboarding)))
    ensures request.agent == "spec_analysis" ==> r == Ok(SpecAnalysisOutput(SpecAnalysis.Run(request.input.specAnalysis)))
    ensures request.agent == "mapping_engineer" ==>
      r == Ok(MappingEngineerOutput(MappingEngineer.Run(request.input.mappingEngineer)))
    ensures request.agent == "test_certification" ==>
      r == Ok(TestCertificationOutput(TestCertification.Run(request.input.testCertification)))
    ensures request.agent == "deployment_readiness" ==>
      r == Ok(DeploymentReadinessOutput(DeploymentReadiness.Run(request.input.deploymentReadiness)))
    ensures request.agent == "post_production_escalation" ==>
      r == Ok(PostProductionOutput(PostProductionEscalation.Run(request.input.postProduction)))
    ensures request.agent == "standards_architecture" ==>
      r == Ok(StandardsArchitectureOutput(StandardsArchitecture.Run(request.input.standardsArchitecture)))
  {
    var input := request.input;
    match RouteOf(request.agent)
    case ToIntegrationProgram => Ok(IntegrationProgramOutput(IntegrationProgram.Run(input.integrationProgram)))
    case ToOnboarding => Ok(OnboardingOutput(Onboarding.Run(input.onboarding)))
    case ToSpecAnalysis => Ok(SpecAnalysisOutput(SpecAnalysis.Run(input.specAnalysis)))
    case ToMappingEngineer => Ok(MappingEngineerOutput(MappingEngineer.Run(input.mappingEngineer)))
    case ToTestCertification => Ok(TestCertificationOutput(TestCertification.Run(input.testCertification)))
    case ToDeploymentReadiness => Ok(DeploymentReadinessOutput(DeploymentReadiness.Run(input.deploymentReadiness)))
    case ToPostProduction => Ok(PostProductionOutput(PostProductionEscalation.Run(input.postProduction)))
    case ToStandardsArchitecture => Ok(StandardsArchitectureOutput(StandardsArchitecture.Run(input.standardsArchitecture)))
    case ToInvoiceAnomaly =>
      match RunInvoiceAnomaly(c, fixed, freshId, request.adapter, input)
      case Err(m) => Err(m)
      case Ok(report) => Ok(InvoiceAnomalyOutput(report))
  }

  /** The named agents never look at the adapter: any adapter id, known or not, gives the same answer. */
  lemma NamedAgentsIgnoreAdapter(c: Coercion, fixed: InvoiceAnomaly.Fixed2, freshId: nat -> string,
                                 request: AgentRequest, otherAdapter: string)
    requires request.agent in NamedAgents
    ensures RunAgent(c, fixed, freshId, request) == RunAgent(c, fixed, freshId, request.(adapter := otherAdapter))
  {
  }

  /** Every advertised agent id is served: the named ones directly, `invoice_anomaly` by falling through. */
  lemma AdvertisedAgentsServed(i: nat)
    requires i < |SupportedAgents|
    ensures SupportedAgents[i].id in NamedAgents <==> SupportedAgents[i].id != "invoice_anomaly"
  {
  }

  /** An invoice-anomaly request with a known adapter and an object invoice, and nothing else, succeeds. */
  lemma InvoiceOnlyRequestSucceeds(c: Coercion, fixed: InvoiceAnomaly.Fixed2, freshId: nat -> string, request: AgentRequest)
    requires request.agent == "invoice_anomaly"
    requires request.adapter in {"canonical", "acme_edi"}
    requires request.input.invoice.RObj? && !Truthy(request.input.purchaseOrder) && !Truthy(request.input.shipmentNotice)
    ensures RunAgent(c, fixed, freshId, request).Ok?
    ensures RunAgent(c, fixed, freshId, request).value.InvoiceAnomalyOutput?
  {
  }
}
