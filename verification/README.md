# EDIagent core in Dafny

This project models the deterministic core of EDIagent, an EDI partner-implementation
service. The model is written functionally: stores are values, and the clock, id
generator, hash, HMAC, network and JSON text are all parameters. It covers these parts:

- **The nine role agents.** Integration program, onboarding, spec analysis, mapping
  engineer, test certification, deployment readiness, standards architecture,
  post-production escalation and invoice anomaly. Each is a pure function from its
  input to a report.
- **The new-partner implementation workflow.** It runs seven or eight agents and
  derives a go-live recommendation and its blocking reasons from four of their
  verdicts.
- **The agent engine (`runAgent`).** It dispatches a request to an agent. For invoice
  anomaly it first normalises the documents through a document adapter.
- **The document adapters.** These are the canonical adapter and the Acme EDI adapter,
  plus the registry that looks them up by id.
- **Tool contracts.** Each contract a step declares is resolved to dry-run, skipped,
  unsupported or executed. Executed payloads are produced by four in-process handlers
  and passed through a per-partner tool adapter.
- **The policy engine.** It merges execution defaults and looks up approval rules and
  tool backends.
- **The Cleo CIC backend call.** It builds the request and maps the response to an
  outcome.
- **The stores.** The workflow-run/step store and the webhook store are modelled as
  tables in insertion order. The API-key store covers bootstrap, key creation and
  authentication.
- **The event bus.** Tenant-scoped SSE fan-out and signed webhook dispatch requests.
- **The request metrics.**
- **Four pieces of the HTTP server.** Header normalisation, JSON body reading with a
  size limit, the status chosen for a failed resume, and the pagination of webhook
  deliveries.

Shared vocabulary:

- `Base` holds the generic sequence, arithmetic and string helpers. `Math.round` on a
  percentage is `RoundPercent`. Case mapping is ASCII only.
- `Json` holds the loosely typed value `Raw`. It distinguishes `undefined` from `null`
  and models JavaScript truthiness and `??`.

Each source file is one module. For example, `src/persistence/workflow-store.js` is
`WorkflowStore` in `workflow_store.dfy`.

## Model

| member | source | states |
|---|---|---|
| IntegrationProgram.EvaluateScheduleHealth | src/agents/integration-program-agent.js:1-10 | health is red exactly when some milestone is blocked, and green exactly when none is blocked and the completion percentage is at least 60 |
| IntegrationProgram.CriticalPath | src/agents/integration-program-agent.js:18-23 | the critical path lists milestone items first and dependency items after them, and includes every incomplete milestone and every blocked dependency |
| IntegrationProgram.CriticalPathInOrder | src/agents/integration-program-agent.js:18-23 | the critical path is the incomplete milestones in milestone order, then the blocked dependencies in dependency order, and nothing else |
| IntegrationProgram.Run | src/agents/integration-program-agent.js:12-61 | escalation is needed exactly when an open high-severity risk or a blocked dependency exists; health and completion come from the schedule evaluation |
| IntegrationProgram.OnTrackMeansNoBlockedMilestone | src/agents/integration-program-agent.js:30 | an on-track program has milestones, none of them blocked, and at least 60% completion |
| IntegrationProgram.AllCompleteIsGreen | src/agents/integration-program-agent.js:1-23 | when every milestone is complete, health is green, completion is 100, and only blocked dependencies stay on the critical path |
| Onboarding.RequirementsForConnectionType | src/agents/onboarding-agent.js:3-16 | the connection requirements are non-empty and distinct, are exactly the transport profile when no type is given, and never repeat a core requirement |
| Onboarding.RequirementsForDocTypes | src/agents/onboarding-agent.js:18-28 | the document-type requirements start with the two core ones, are distinct, and include the capability of each requested type; every other entry is one of the two core ones or the capability of a requested type |
| Onboarding.TargetDocTypes | src/agents/onboarding-agent.js:1 | an empty target list falls back to the non-empty default |
| Onboarding.RequiredCapabilities | src/agents/onboarding-agent.js:31-35 | the required capabilities are the distinct union of the connection, document-type and partner-specific requirements |
| Onboarding.ExistingSet | src/agents/onboarding-agent.js:36 | existing capabilities are the trimmed, non-empty entries |
| Onboarding.MissingCapabilities | src/agents/onboarding-agent.js:37-38 | a capability is missing exactly when it is required and does not already exist; missing entries stay distinct |
| Onboarding.MissingCapabilitiesInOrder | src/agents/onboarding-agent.js:38 | the missing capabilities are the required ones not already present, in required order, and nothing else |
| Onboarding.ReadinessScore | src/agents/onboarding-agent.js:56-59 | the score is at most 100; it is 100 when nothing is missing and 0 when everything is missing |
| Onboarding.Recommendations | src/agents/onboarding-agent.js:48-54 | there are three recommendations, and the first names the first missing capability or reports the baseline in place |
| Onboarding.Run | src/agents/onboarding-agent.js:30-68 | the report's missing list and score agree with the required and existing capabilities |
| Onboarding.NothingMissingIsReady | src/agents/onboarding-agent.js:37-59 | when every required capability exists, nothing is missing, the score is 100, and the baseline message is given |
| Onboarding.PaddedCapabilityCounts | src/agents/onboarding-agent.js:36-38 | an existing capability written with surrounding whitespace still counts |
| Onboarding.FullScoreBound | src/agents/onboarding-agent.js:56-59 | a score of 100 with something missing needs at least 200 required capabilities per missing one |
| Onboarding.FullScoreWithGap | src/agents/onboarding-agent.js:56-59 | one missing capability out of 200 still rounds to a score of 100 |
| Onboarding.PrioritizesFirstMissing | src/agents/onboarding-agent.js:48-50 | when something is missing, the first recommendation prioritises the first missing capability |
| SpecAnalysis.InferTransform | src/agents/spec-analysis-agent.js:1-6 | equal types map directly; string to number parses a number; string to date parses a date; anything else is a custom transform |
| SpecAnalysis.FindSource | src/agents/spec-analysis-agent.js:10-13 | finds the first source field whose name equals the target's ignoring ASCII case, or reports that none does |
| SpecAnalysis.Cover | src/agents/spec-analysis-agent.js:9-35 | a target is mapped exactly when some source name matches it case-insensitively; a mapped entry takes the first matching source and the transform inferred from its type; an unmapped entry has zero confidence and no source |
| SpecAnalysis.BuildCoverage | src/agents/spec-analysis-agent.js:8-36 | one coverage entry per target field, in target order |
| SpecAnalysis.BuildOpenQuestions | src/agents/spec-analysis-agent.js:38-51 | asks about unmapped fields exactly when some field is unmapped, and about business rules exactly when none are given; always ends with the acceptance question |
| SpecAnalysis.BuildRisks | src/agents/spec-analysis-agent.js:62-74 | raises the low-coverage risk exactly below 70%, and the invoice-rules risk exactly for invoices without business rules |
| SpecAnalysis.Run | src/agents/spec-analysis-agent.js:53-114 | the summary counts agree with the schemas and the coverage; the percentage is the rounded share of mapped targets |
| SpecAnalysis.MappedIffNameMatch | src/agents/spec-analysis-agent.js:8-36 | a target field is mapped exactly when some source field has the same lower-cased name |
| SpecAnalysis.FullCoverage | src/agents/spec-analysis-agent.js:57-74 | when every target has a matching source, coverage is 100% and there are no unmapped-field question and no low-coverage risk |
| SpecAnalysis.CoverageCaseInsensitive | src/agents/spec-analysis-agent.js:12 | renaming a target field to a different letter case does not change whether it is mapped |
| MappingEngineer.BuildMappingRules | src/agents/mapping-engineer-agent.js:1-11 | one rule per intent, numbered from 1 in order, with the intent's source and target fields, `direct_map` when no transform is given, `required` false unless given as true, and the intent's default value and validation (absent ones are `null`) |
| MappingEngineer.RulesRoundTrip | src/agents/mapping-engineer-agent.js:1-11 | rebuilding rules from the intents that generated rules gives the same rules |
| MappingEngineer.RequiredTargetsText | src/agents/mapping-engineer-agent.js:22-24 | the missing-required test case names every required target, and says `none` when nothing is required |
| MappingEngineer.RequiredTargetsTextIsJoin | src/agents/mapping-engineer-agent.js:23 | the text is exactly the required rules' targets in rule order joined with ", ", or `none` when that join is empty |
| MappingEngineer.BuildTestCases | src/agents/mapping-engineer-agent.js:13-37 | a happy-path and a missing-required case are always generated, plus a variance case exactly for invoices |
| MappingEngineer.Warnings | src/agents/mapping-engineer-agent.js:43-50 | warns about empty intent, or counts the custom-transform rules, and is silent otherwise |
| MappingEngineer.Run | src/agents/mapping-engineer-agent.js:39-84 | the report's rules, test cases and warnings are those derived from the intent |
| MappingEngineer.NoWarningsForPlainIntent | src/agents/mapping-engineer-agent.js:43-50 | a non-empty intent without custom transforms produces no warnings |
| TestCertification.ComputeQualityScore | src/agents/test-certification-agent.js:1-11 | the score is at most the rounded pass rate and at most 100; it is 0 exactly when there are no results or the defect penalty reaches the pass rate |
| TestCertification.AllPassNoDefectsScoresFull | src/agents/test-certification-agent.js:1-11 | all tests passing with no defects scores 100 |
| TestCertification.CriteriaBlockers | src/agents/test-certification-agent.js:15-18 | one blocker per unmet criterion that is not marked optional |
| TestCertification.CriteriaBlockersInOrder | src/agents/test-certification-agent.js:15-18 | the criteria blockers name the unmet non-optional criteria in criteria order, and nothing else |
| TestCertification.TestBlockers | src/agents/test-certification-agent.js:19-22 | one blocker per test that did not pass, carrying its non-pass status |
| TestCertification.TestBlockersInOrder | src/agents/test-certification-agent.js:19-22 | the test blockers name the tests that did not pass in result order, and nothing else |
| TestCertification.Blockers | src/agents/test-certification-agent.js:15-29 | the blockers count unmet criteria and failing tests, plus one for open critical defects and one for incomplete partner certification |
| TestCertification.BlockersInOrder | src/agents/test-certification-agent.js:15-29 | the blockers come in four groups in source order: unmet criteria, then failed tests, then the critical-defect blocker, then the partner-certification blocker |
| TestCertification.NoBlockersIff | src/agents/test-certification-agent.js:15-29 | there are no blockers exactly when every non-optional criterion is met, every test passed, no critical defect is open and partner certification is complete |
| TestCertification.Run | src/agents/test-certification-agent.js:13-65 | certified exactly when there are no blockers; conditional exactly when there are blockers and the score is at least 80; not ready otherwise |
| TestCertification.CriticalDefectPreventsCertification | src/agents/test-certification-agent.js:23-31 | an open critical defect always prevents certification |
| DeploymentReadiness.ScoreChecklist | src/agents/deployment-readiness-agent.js:1-5 | the score is the share of complete items as a percentage rounded half up, and 0 for an empty list |
| DeploymentReadiness.GatherBlockers | src/agents/deployment-readiness-agent.js:7-15 | exactly the required incomplete checklist items become blockers, with the owner defaulting to `unassigned` |
| DeploymentReadiness.GatherBlockersInOrder | src/agents/deployment-readiness-agent.js:7-15 | the blockers are the blocking items in checklist order, and nothing else |
| DeploymentReadiness.RequiredApprovals | src/agents/deployment-readiness-agent.js:20-25 | every required approval is listed with its status, and every listed one is a required approval |
| DeploymentReadiness.RequiredApprovalsInOrder | src/agents/deployment-readiness-agent.js:20-25 | the listed approvals are the non-optional ones in input order, and nothing else |
| DeploymentReadiness.Run | src/agents/deployment-readiness-agent.js:17-68 | ready exactly when there are no blockers and every required approval is approved; the summary counts all checklist items and, as completed, exactly those with status `complete` |
| DeploymentReadiness.RequiredIncompleteItemHolds | src/agents/deployment-readiness-agent.js:7-28 | one required incomplete checklist item holds the release |
| DeploymentReadiness.UnapprovedRequiredApprovalHolds | src/agents/deployment-readiness-agent.js:20-28 | one required approval that is not approved holds the release |
| StandardsArchitecture.ComplianceScore | src/agents/standards-architecture-agent.js:1-5 | the score is the share of passed rules as a percentage rounded half up, and 0 for an empty list |
| StandardsArchitecture.Violations | src/agents/standards-architecture-agent.js:9-16 | exactly the failed rules become violations |
| StandardsArchitecture.ViolationsInOrder | src/agents/standards-architecture-agent.js:9-16 | the violations are the failed rules in checklist order, and nothing else |
| StandardsArchitecture.Run | src/agents/standards-architecture-agent.js:7-59 | revise exactly when some violation has must severity |
| StandardsArchitecture.ReviseIffMustRuleFailed | src/agents/standards-architecture-agent.js:9-20 | revise exactly when some must-severity checklist rule failed |
| StandardsArchitecture.AllPassedApproves | src/agents/standards-architecture-agent.js:9-20 | a fully passed checklist has no violations and is approved |
| PostProductionEscalation.EvaluateTriageLevel | src/agents/post-production-escalation-agent.js:1-5 | immediate exactly for P1, more than one breach or more than three partners; high exactly otherwise for P2 or more than one partner |
| PostProductionEscalation.TriageMonotone | src/agents/post-production-escalation-agent.js:1-5 | more impacted partners or more breaches never lower the triage level |
| PostProductionEscalation.ThresholdBreaches | src/agents/post-production-escalation-agent.js:8-12 | exactly the metrics past their threshold in their bad direction (above or below) are reported as breaches |
| PostProductionEscalation.ThresholdBreachesInOrder | src/agents/post-production-escalation-agent.js:8-12 | the breaches are the breached metrics in metric order, and nothing else |
| PostProductionEscalation.SuspectedCauses | src/agents/post-production-escalation-agent.js:26-32 | recent changes and breaches each add their cause; the configuration-drift cause always comes last |
| PostProductionEscalation.Run | src/agents/post-production-escalation-agent.js:7-71 | triage, causes and auto-remediation follow from the breaches, severity and affected partners |
| PostProductionEscalation.TwoBreachesEscalate | src/agents/post-production-escalation-agent.js:1-12 | two breached metrics force immediate triage and no auto-remediation |
| PostProductionEscalation.AtThresholdIsNoBreach | src/agents/post-production-escalation-agent.js:9 | a metric equal to its threshold is not a breach |
| InvoiceAnomaly.ResolveTolerance | src/agents/invoice-anomaly-agent.js:90-93 | each given tolerance is used as is; each missing one defaults, 2% on amounts and 1% on quantities |
| InvoiceAnomaly.SafePercentDifference | src/agents/invoice-anomaly-agent.js:1-4 | the difference is non-negative, zero exactly for equal values, the relative difference times 100 for a non-zero base, and 100 from a zero base |
| InvoiceAnomaly.CompareTotals | src/agents/invoice-anomaly-agent.js:10-27 | at most one finding, raised exactly when both totals are present, their amounts are numbers, and they differ by more than the tolerance |
| InvoiceAnomaly.PoLineFor | src/agents/invoice-anomaly-agent.js:32-36 | finds the last matchable purchase-order line with the invoice line's SKU, or reports that none exists |
| InvoiceAnomaly.LineFinding | src/agents/invoice-anomaly-agent.js:38-55 | an invoice line without a PO line is flagged as not on the order; with both quantities numeric, a mismatch is flagged exactly when the difference exceeds the tolerance |
| InvoiceAnomaly.CompareLineQuantities | src/agents/invoice-anomaly-agent.js:29-57 | no findings without a purchase order; with one, every finding of every invoice line is reported, each finding comes from some line, and there is at most one per line |
| InvoiceAnomaly.FirstPoReference | src/agents/invoice-anomaly-agent.js:61 | the value of the first reference of type `po_number`, or undefined when there is none |
| InvoiceAnomaly.ComparePoReference | src/agents/invoice-anomaly-agent.js:59-74 | warns about a missing PO reference or a mismatched PO number, at most once |
| InvoiceAnomaly.ShippedSkus | src/agents/invoice-anomaly-agent.js:79 | the shipped SKUs are exactly the truthy SKUs of the notice lines |
| InvoiceAnomaly.UnshippedFindings | src/agents/invoice-anomaly-agent.js:80-86 | no finding exactly when every invoice line with a SKU was shipped |
| InvoiceAnomaly.CompareShipmentNotice | src/agents/invoice-anomaly-agent.js:76-87 | no findings without a shipment notice; otherwise one per unshipped invoice line |
| InvoiceAnomaly.Run | src/agents/invoice-anomaly-agent.js:89-112 | review is required exactly when there are findings; the count equals the number of findings |
| InvoiceAnomaly.InvalidPrimaryIff | src/agents/invoice-anomaly-agent.js:97-99 | the first finding is an invalid-primary-document error exactly when the primary document is not an invoice |
| InvoiceAnomaly.InvoiceAloneIsOk | src/agents/invoice-anomaly-agent.js:89-112 | an invoice with no order and no notice is OK |
| InvoiceAnomaly.EqualTotalsNoMismatch | src/agents/invoice-anomaly-agent.js:10-27 | equal totals never produce a total mismatch |
| InvoiceAnomaly.LooserToleranceFewerLineFindings | src/agents/invoice-anomaly-agent.js:29-57 | raising the quantity tolerance never adds line findings |
| InvoiceAnomaly.LooserToleranceNoNewTotalFinding | src/agents/invoice-anomaly-agent.js:10-27 | raising the amount tolerance never adds a total finding |
| InvoiceAnomaly.ReferenceMatchAccepted | src/agents/invoice-anomaly-agent.js:59-74 | a PO reference equal to the order's number raises no warning |
| InvoiceAnomaly.EverySkuShippedNoWarning | src/agents/invoice-anomaly-agent.js:76-87 | when every invoiced SKU appears on the notice, nothing is flagged |
| NewPartnerWorkflow.PostProductionInput | src/workflows/new-partner-implementation-workflow.js:70-79 | the incident id defaults to the project id with `-post-go-live`, and severity defaults to P3 |
| NewPartnerWorkflow.PostProductionOutput | src/workflows/new-partner-implementation-workflow.js:69-80 | post-production escalation runs exactly when it is enabled |
| NewPartnerWorkflow.BlockingReasons | src/workflows/new-partner-implementation-workflow.js:82-95 | each of the four blocking reasons is present exactly when its verdict objects, in a fixed order |
| NewPartnerWorkflow.ExecutedSteps | src/workflows/new-partner-implementation-workflow.js:103-112 | the seven core steps always run, in order, and the post-production step is eighth exactly when it ran |
| NewPartnerWorkflow.Compose | src/workflows/new-partner-implementation-workflow.js:82-127 | proceed exactly when no verdict objects; hold exactly when there is a blocking reason |
| NewPartnerWorkflow.OpenRequiredChecklistItemHoldsGoLive | src/workflows/new-partner-implementation-workflow.js:54-97 | one required incomplete deployment checklist item holds go-live, with the deployment reason |
| NewPartnerWorkflow.FailedMustRuleHoldsGoLive | src/workflows/new-partner-implementation-workflow.js:61-97 | one failed must-severity standards rule holds go-live, with the standards reason |
| NewPartnerWorkflow.BlockedDependencyHoldsGoLive | src/workflows/new-partner-implementation-workflow.js:11-97 | one blocked program dependency holds go-live, with the escalation reason |
| NewPartnerWorkflow.ProceedIffNoObjection | src/workflows/new-partner-implementation-workflow.js:10-128 | with the agents run on the workflow's input, go-live proceeds exactly when the test, deployment, standards and program inputs raise no objection |
| NewPartnerWorkflow.NotReadyAloneHolds | src/workflows/new-partner-implementation-workflow.js:84-97 | a not-ready certification alone gives exactly one blocking reason and a hold |
| Engine.GetAgentCoreCapabilities | src/engine.js:12-29 | nine agents with distinct ids are advertised, with the registered document adapters |
| Engine.NormalizeOptional | src/engine.js:66-71 | a falsy optional document is absent; a truthy one must normalise |
| Engine.RunInvoiceAnomaly | src/engine.js:64-73 | succeeds exactly when the adapter is known, the invoice is an object, and any supplied order or notice is one too; an inherited member name fails with the TypeError |
| Engine.RouteOf | src/engine.js:31-74 | named agents are dispatched by name; any other name falls through to invoice anomaly |
| Engine.RunAgent | src/engine.js:31-74 | each of the eight named agent ids runs its own agent on the input; anything else is the invoice-anomaly path |
| Engine.NamedAgentsIgnoreAdapter | src/engine.js:31-74 | a named agent's result does not depend on the requested adapter |
| Engine.AdvertisedAgentsServed | src/engine.js:12-22 | every advertised agent other than invoice anomaly has its own route |
| Engine.InvoiceOnlyRequestSucceeds | src/engine.js:64-73 | an invoice with no order or notice, through a known adapter, gives an OK report |
| CanonicalAdapter.NormalizeType | src/adapters/canonical-adapter.js:1-6 | only the three canonical type names are recognised, and each maps back to its name |
| CanonicalAdapter.NormalizeDocument | src/adapters/canonical-adapter.js:11-37 | rejects anything that is not a truthy object; otherwise keeps line items and references as given and traces the canonical adapter |
| CanonicalAdapter.SerializeRoundTrip | src/adapters/canonical-adapter.js:11-37 | normalising the canonical serialisation of a well-formed document gives the document back |
| AcmeEdiAdapter.ToType | src/adapters/acme-edi-adapter.js:1-7 | PO, INV and ASN map to the three types regardless of case; anything else is unknown |
| AcmeEdiAdapter.ToTypeRoundTrip | src/adapters/acme-edi-adapter.js:1-7 | each native kind maps to its document type |
| AcmeEdiAdapter.ToTypeCaseInsensitive | src/adapters/acme-edi-adapter.js:1-7 | upper-casing the kind does not change the type |
| AcmeEdiAdapter.ToMoney | src/adapters/acme-edi-adapter.js:9-16 | money exists exactly when the total is a number; the currency defaults to USD |
| AcmeEdiAdapter.MapLine | src/adapters/acme-edi-adapter.js:18-36 | the line number defaults to the 1-based position, the SKU is present exactly when the item code is truthy, and the quantity is the coerced qty |
| AcmeEdiAdapter.MapLineItems | src/adapters/acme-edi-adapter.js:18-36 | a non-array gives no lines; otherwise one line per row, in order |
| AcmeEdiAdapter.References | src/adapters/acme-edi-adapter.js:49-57 | one reference per truthy PO, invoice and ASN number, in that order, and at most three |
| AcmeEdiAdapter.NormalizeDocument | src/adapters/acme-edi-adapter.js:41-79 | rejects anything that is not a truthy object; the number falls back to the id and then to `UNKNOWN` |
| DocumentAdapters.GetAdapter | src/adapters/registry.js:9-15 | only `canonical` and `acme_edi` resolve; a name inherited from `Object.prototype` gives the TypeError of the missing `normalizeDocument`; any other id gives the unknown-adapter error |
| DocumentAdapters.UnknownAdapterMessageListsIds | src/adapters/registry.js:10-14 | the unknown-adapter message names every registered adapter |
| DocumentAdapters.ListAdapters | src/adapters/registry.js:17-22 | lists every registered adapter once, with distinct ids |
| DocumentAdapters.ListedAdaptersResolve | src/adapters/registry.js:9-22 | every listed id resolves to its adapter |
| DocumentAdapters.Normalize | src/adapters/registry.js:4-7 | normalisation fails exactly for non-objects, and the trace names the adapter used |
| ToolRegistry.PickFields | src/tools/registry.js:3-9 | keeps exactly the required keys that are defined in the source, with their values |
| ToolRegistry.HandlerFor | src/tools/registry.js:11-58 | a handler is found exactly for the four registered tool names |
| ToolRegistry.RunHandler | src/tools/registry.js:11-58 | a handler sets its flag and a payload drawn only from its own candidate fields |
| ToolRegistry.Resolve | src/tools/registry.js:72-110 | dry run when execution is off; skipped when the tool is not enabled; unsupported without a handler; executed otherwise, with the adapter-transformed output; a throw exactly when an inherited member stands in for the adapter |
| ToolRegistry.ExecuteToolContracts | src/tools/registry.js:60-112 | one result per contract, in order, unless some contract throws, when the first throw is the outcome; all are dry runs when execution is off |
| ToolRegistry.OnlyHandledToolsExecute | src/tools/registry.js:100-107 | only the four registered tools are ever executed |
| ToolRegistry.WildcardNeverSkips | src/tools/registry.js:69-74 | a `*` entry means no contract is skipped |
| ToolAdapters.GetToolAdapter | src/tools/adapter-registry.js:34-41 | known ids find their adapter; a name inherited from `Object.prototype` finds that member; other ids fall back to the default adapter |
| ToolAdapters.Transform | src/tools/adapter-registry.js:1-32 | the default and canonical adapters pass payloads through; the Acme adapter adds `source: acme_edi` and keeps the rest; an inherited member has no `transform` and throws |
| ToolAdapters.AcmeTransformIdempotent | src/tools/adapter-registry.js:11-19 | applying the Acme transform twice is the same as applying it once |
| PolicyEngine.FirstOf | src/policy/engine.js:22-26 | the input wins, then the policy default, then the fallback |
| PolicyEngine.MergeExecutionDefaults | src/policy/engine.js:20-28 | the approval mode and execute flag come from the input, then the policy, then `propose_only` and false; tools and approvals come from the input |
| PolicyEngine.MergeFixpoint | src/policy/engine.js:20-28 | merging an already merged configuration under any policy changes nothing |
| PolicyEngine.ToolsAndApprovalsIgnorePolicy | src/policy/engine.js:26-27 | enabled tools and approvals do not depend on the policy |
| PolicyEngine.ExplicitFalseKept | src/policy/engine.js:24 | an explicit `executeTools: false` is never overridden by the policy |
| PolicyEngine.ResolveExecutionConfig | src/policy/engine.js:34-46 | the execution config is the merged input; approval rules are the workflow's entry, or empty |
| PolicyEngine.NoSettingsMeansDryRun | src/policy/engine.js:20-46 | with no execute setting anywhere, every tool contract resolves to a dry run |
| PolicyEngine.ToolBackendConfig | src/policy/engine.js:48-51 | a backend is returned exactly when the policy configures one for the tool |
| CleoCicBackend.MapOperationPath | src/tools/backends/cleo-cic-backend.js:1-5 | each known operation maps to its path; anything else goes to the generic execute path |
| CleoCicBackend.BuildRequest | src/tools/backends/cleo-cic-backend.js:19-35 | posts to the base URL without a trailing slash plus the operation path, with a bearer token, the tenant header exactly when configured, and the JSON payload |
| CleoCicBackend.CallCleoCicBackend | src/tools/backends/cleo-cic-backend.js:7-49 | skipped exactly when not configured, failed exactly when the response is not OK, and the response body defaults to null |
| CleoCicBackend.UnconfiguredNeverSends | src/tools/backends/cleo-cic-backend.js:12-17 | without a base URL or token, nothing is sent |
| CleoCicBackend.TrailingSlashIgnored | src/tools/backends/cleo-cic-backend.js:19 | a trailing slash on the base URL does not change the endpoint |
| CleoCicBackend.FailureReasonNamesStatus | src/tools/backends/cleo-cic-backend.js:37-48 | the failure reason ends with the HTTP status, which parses back to the status |
| WorkflowStore.CreateWorkflowRun | src/persistence/workflow-store.js:17-41 | appends one running row with the given input, leaving earlier rows unchanged |
| WorkflowStore.CompleteWorkflowRun | src/persistence/workflow-store.js:43-65 | completes exactly the row with the run's id; blocking reasons default to an empty list and output to null |
| WorkflowStore.CompletedReasonsReadBack | src/persistence/workflow-store.js:43-65 | the stored blocking reasons read back as written |
| WorkflowStore.UpdateWorkflowRunInput | src/persistence/workflow-store.js:67-78 | only a row matching both the run id and the tenant takes the new input |
| WorkflowStore.ForeignTenantCannotUpdate | src/persistence/workflow-store.js:67-78 | a tenant cannot change another tenant's run |
| WorkflowStore.PageSize | src/persistence/workflow-store.js:250 | the page size defaults to 50, is the limit itself within 1..200, 1 below that range and 200 above it |
| WorkflowStore.NewestSelected | src/persistence/workflow-store.js:202-249 | the selected runs are exactly the rows matching tenant and filters; over a chronological table, creation times never increase along them |
| WorkflowStore.NewestSelectedInOrder | src/persistence/workflow-store.js:202-249 | read back to front, the selected runs are the matching rows in table order, and nothing else |
| WorkflowStore.ListWorkflowRuns | src/persistence/workflow-store.js:202-265 | returns the first page of the selected rows, each matching the filters, newest first over a chronological table, with the blocking reasons parsed |
| WorkflowStore.ListingStaysInTenant | src/persistence/workflow-store.js:202-265 | every listed run belongs to the requesting tenant |
| WorkflowStore.MaxAttempt | src/persistence/workflow-store.js:80-88 | the highest attempt among a step's rows, zero when there are none |
| WorkflowStore.NextStepAttempt | src/persistence/workflow-store.js:80-88 | the next attempt is above every existing attempt, and 1 for a new step |
| WorkflowStore.CreateWorkflowStep | src/persistence/workflow-store.js:90-111 | appends a running row with the next attempt number |
| WorkflowStore.CreateKeepsNumbered | src/persistence/workflow-store.js:80-111 | creating steps keeps every step's attempts numbered 1, 2, 3, … in order |
| WorkflowStore.AttemptsContiguous | src/persistence/workflow-store.js:80-88 | in a numbered store, the highest attempt equals the number of rows for the step |
| WorkflowStore.NextAttemptCountsRows | src/persistence/workflow-store.js:80-88 | the next attempt is one more than the rows already recorded for the step |
| WorkflowStore.NumberedOrdersAttempts | src/persistence/workflow-store.js:80-111 | in a numbered store, a later row of the same step has a higher attempt |
| WorkflowStore.CompleteWorkflowStep | src/persistence/workflow-store.js:113-130 | completes exactly the row with the step's id, storing the stringified output (`null` when none is given), the status, the error and the completion time, and keeping its identity and attempt; other rows are unchanged |
| WorkflowStore.CompleteKeepsNumbered | src/persistence/workflow-store.js:113-130 | completing a step preserves the attempt numbering |
| WorkflowStore.LatestStepStates | src/persistence/workflow-store.js:267-281 | each step name of the run maps to one of its own rows, and every name of the run is present |
| WorkflowStore.LatestIsHighestAttempt | src/persistence/workflow-store.js:267-281 | in a numbered store, the state kept for a name is its highest attempt |
| WebhookStore.ListWebhooks | src/persistence/webhook-store.js:17-35 | lists exactly the tenant's webhooks, newest first |
| WebhookStore.CreateWebhook | src/persistence/webhook-store.js:37-55 | appends one active webhook and returns its id |
| WebhookStore.CreateKeepsChronological | src/persistence/webhook-store.js:37-55 | creating a webhook at a later time keeps the table in creation order |
| WebhookStore.CreatedWebhookListedFirst | src/persistence/webhook-store.js:17-55 | a newly created webhook is first in its tenant's list |
| WebhookStore.ActiveWebhooksForEvent | src/persistence/webhook-store.js:57-63 | exactly the tenant's active webhooks subscribed to the event, or to every event, newest first |
| WebhookStore.InactiveNeverReceives | src/persistence/webhook-store.js:57-63 | an inactive webhook never receives events |
| WebhookStore.EmptyEventListReceivesAll | src/persistence/webhook-store.js:60-62 | an active webhook with an empty event list receives every event |
| WebhookStore.OtherTenantNeverReceives | src/persistence/webhook-store.js:57-63 | a webhook never receives another tenant's events |
| EventBus.Subscribe | src/events/bus.js:7-13 | adds one subscriber with a fresh id |
| EventBus.Unsubscribe | src/events/bus.js:10-12 | removes exactly the subscriber with that id |
| EventBus.SubscribeThenUnsubscribe | src/events/bus.js:7-13 | subscribing and then closing leaves the subscriber set as it was |
| EventBus.FrameRoundTrip | src/events/bus.js:15-18 | an SSE frame parses back to its event type and data |
| EventBus.SseWrites | src/events/bus.js:44-48 | exactly the tenant's subscribers receive one frame each, carrying the event |
| EventBus.DispatchRequest | src/events/bus.js:20-42 | posts the JSON body with event and delivery headers, and a signature exactly when the webhook has a secret |
| EventBus.Publish | src/events/bus.js:44-54 | publishes the SSE frames and one dispatch request per active webhook for the event |
| EventBus.OtherTenantsGetNoFrame | src/events/bus.js:44-48 | a stream subscribed only for other tenants receives no frame |
| AuthKeys.KeyPrefix | src/auth/keys.js:12-14 | the prefix is the key's first 12 characters, or the whole key when shorter |
| AuthKeys.SharedPrefix | src/auth/keys.js:12-14 | keys that agree on their first 12 characters have the same prefix |
| AuthKeys.EnsureTenant | src/auth/keys.js:20-27 | the tenant exists afterwards; an existing tenant is left unchanged |
| AuthKeys.Bootstrap | src/auth/keys.js:29-61 | without a key nothing changes; with one, the tenant and a key with that prefix exist; when the tenant had no key with that prefix, exactly one row is appended holding the key's hash and prefix, scopes `["*"]`, active, and the key name (default `bootstrap`), otherwise the keys are unchanged |
| AuthKeys.BootstrapIdempotent | src/auth/keys.js:29-61 | bootstrapping twice adds nothing the second time |
| AuthKeys.CreateTenantApiKey | src/auth/keys.js:63-80 | appends one active key record with the hash and prefix, and scopes defaulting to `*` |
| AuthKeys.PresentedKey | src/auth/keys.js:91-93 | `x-api-key` wins; otherwise the bearer token; otherwise empty |
| AuthKeys.FindKey | src/auth/keys.js:95-102 | finds the first key of the tenant with that prefix, or reports that none exists |
| AuthKeys.Authenticate | src/auth/keys.js:82-115 | with authentication off, everyone is the header's tenant; otherwise there is no principal without a key and tenant, and with both there is a principal exactly when the tenant's first key row with the key's prefix is active and holds the key's hash, the principal then carrying that row's scopes and name |
| AuthKeys.InactiveKeyRefused | src/auth/keys.js:104 | an inactive key never authenticates |
| AuthKeys.CreatedKeyAuthenticates | src/auth/keys.js:63-115 | a newly created key authenticates as its tenant, with its scopes |
| Metrics.BucketPath | src/observability/metrics.js:7-11 | run paths share one bucket, webhook paths another; other paths are their own bucket |
| Metrics.BucketPathIdempotent | src/observability/metrics.js:7-11 | bucketing a bucket changes nothing |
| Metrics.RunPathsShareBucket | src/observability/metrics.js:7-11 | any two run paths land in the same bucket |
| Metrics.Increment | src/observability/metrics.js:13-15 | the key's count goes up by one, from zero when absent; other counts are unchanged |
| Metrics.RecordRequest | src/observability/metrics.js:17-24 | counts the request, counts an error exactly for status 400 and above, and adds the latency |
| Metrics.RecordKeepsValid | src/observability/metrics.js:17-24 | recording keeps the counters consistent and the latency total never drops |
| Metrics.StatusKeysDistinct | src/observability/metrics.js:20 | recording one status never changes another status's count |
| Metrics.AverageLatencyMs | src/observability/metrics.js:26-27 | the average is zero with no requests and non-negative; it is a whole number of hundredths within half a hundredth of the exact mean, as `Number(mean.toFixed(2))` rounds |
| Server.NormalizeHeadersLastWins | src/server.js:89-99 | each usable header appears under its lower-cased name with its last value |
| Server.NormalizedNamesLowerCase | src/server.js:89-99 | every normalised header name is already lower case |
| Server.ReadJsonBody | src/server.js:56-87 | too large exactly when the bytes exceed the limit; an empty body is `{}`; otherwise the parse result or the invalid-JSON error |
| Server.TooLargeIsNotInvalid | src/server.js:61-83 | an oversize body is reported as too large, never as invalid JSON |
| Server.ResumeStatus | src/server.js:296-304 | 400 exactly for validation errors, 404 exactly for "not found" errors, and 500 otherwise |
| Server.MissingRunIsNotFound | src/server.js:296-304 | a missing-run error maps to 404 |
| Server.PageLimit | src/server.js:331-335 | the limit defaults to 25 (also when not finite), is the request itself within 1..500, 1 below that range and 500 above it |
| Server.PageNumber | src/server.js:331-335 | the page defaults to 1 (also when not finite), is the request itself from 1 up, and 1 below that |
| Server.Paginate | src/server.js:331-357 | the offset skips the earlier pages, and the page count is the ceiling of total over limit, at least 1 |
| Server.EveryDeliveryOnSomePage | src/server.js:354-357 | every delivery position lies on a page between 1 and the page count |
| Json.ParseJson | src/persistence/workflow-store.js:8-15 | missing, empty or invalid text gives the fallback; otherwise the parsed value |
| Json.ParseJsonRoundTrip | src/persistence/workflow-store.js:8-15 | a stored value reads back as itself |

## Left out

- `src/workflows/engine.js` is not part of this model. This covers the durable workflow
  engine, its retries, circuit breaker, approvals and resume, the workflow events, run
  lookup by id, and the tool dead-letter queue (`createToolDeadLetter`,
  `createWorkflowEvent`, `getWorkflowRunById`).
- Request validation (the zod schemas), `db.js`, the logger, the generic HTTP-JSON tool
  backend, and the server routes other than the four pieces listed above are left out.
  They are plumbing around the modelled core.
- The clock, UUIDs, SHA-256 and HMAC, `fetch`, and JSON text are parameters. A hash
  or signature is whatever the caller's function returns. JSON round-trips are
  assumed only where a lemma's `requires` says so.
- Timestamps are natural numbers from a clock that never goes backwards. SQL
  `ORDER BY created_at DESC` is modelled as reverse insertion order. SQLite leaves
  the order of rows with equal `created_at` unspecified; the model puts the one
  inserted last first.
- Numbers are reals. `toFixed(2)` in the invoice-anomaly messages is a parameter
  (`Fixed2`). NaN is `None`.
- Case mapping (`toLowerCase`, `toUpperCase`) covers ASCII letters only. `trim`
  removes the full JavaScript white-space and line-terminator set.
- Strings are sequences of code points. JavaScript indexes strings by UTF-16 code
  unit, so `slice(0, 12)` in the key prefix and `slice(7)` in the bearer token cut
  a string with characters outside the Basic Multilingual Plane at a different
  place than the model does.
- InvoiceAnomaly.CompareTotals: an amount that is not a JSON number raises no finding.
  The source's arithmetic coerces it instead: `null` and `false` become 0, `true`
  becomes 1, and a numeric string becomes its value. Because `base === 0` is a strict
  test, a base coerced to 0 is divided by, which gives Infinity (a finding) or NaN
  (none). So `{ amount: null }` on the purchase order against an invoice total of 100
  is a critical INVOICE_TOTAL_MISMATCH in the source and no finding in the model.
  JavaScript's infinities are not modelled.
- InvoiceAnomaly.LineFinding: a quantity that is not a JSON number raises no finding,
  for the same reason as in `CompareTotals`. A purchase-order quantity `null` against
  an invoice quantity 5 is a critical INVOICE_QTY_MISMATCH in the source (5 / 0 is
  Infinity). An invoice quantity `"5"` against a purchase-order quantity 10 is a 50%
  difference and a finding there. The model raises neither.
- InvoiceAnomaly.PoLineFor: SKUs are compared as JSON values, where the source's
  `Map` compares keys with SameValueZero. They differ only for object-valued SKUs,
  which the source compares by identity.
- InvoiceAnomaly.FirstPoReference: a `null` entry in an invoice's `references` that
  comes before any `po_number` entry makes the source throw a TypeError when it reads
  `ref.type`. The canonical adapter passes the array through unchanged, so such
  documents reach the agent. The model reads the entry as having no type and moves
  on. `InvoiceAnomaly.ComparePoReference` then reports a missing reference, or
  matches a later entry, where the source fails the whole run.
- InvoiceAnomaly.ShippedSkus: membership of the shipped SKUs is JSON equality, where
  the source's `Set.has` uses SameValueZero, so an object-valued SKU is matched by
  identity there. `UnshippedFindings` inherits this difference.
- WorkflowStore.PageSize: the limit is an integer or absent. The run-listing route
  passes `Number(limit)` without a finiteness check, so a NaN or fractional limit
  reaches the clamp in the source; the model cannot express such a limit.
- InvoiceAnomaly.CompareLineQuantities: a `null` entry in the `lineItems` of a
  document normalised by the canonical adapter makes the source throw a TypeError
  when it reads `line.sku`. The model treats such an entry like a line without a SKU
  and skips it. The same holds for `InvoiceAnomaly.CompareShipmentNotice`. The Acme
  adapter replaces `null` rows with empty ones, so its documents are not affected.
- ToolRegistry.HandlerFor: a tool name inherited from `Object.prototype` (such as
  `toString`) finds an inherited function in the source, which is then called as a
  handler. The model reports such a tool as unsupported.
- Fields the agents only copy into their reports are not modelled: artifacts, reuse
  targets, priority, budget, stakeholders, symptoms and runbook steps.
- NewPartnerWorkflow.Run: it composes the eight agent calls and has no contract of its
  own. The properties are stated on `Compose` and on the lemmas that take the agents'
  outputs as given.
- Server.NormalizeHeaders: its contract is carried by `NormalizeHeadersLastWins` and
  `NormalizedNamesLowerCase`. A header whose value is an empty array is dropped. The
  source stores `undefined` under the name, which reads the same as an absent header.
- Server.ReadJsonBody: chunk sizes are counted in characters. The source counts bytes.
- Onboarding.NothingMissingIsReady: the converse does not hold. A score of 100 does
  not mean nothing is missing, because `Math.round` rounds one missing capability
  out of 200 or more up to 100. `FullScoreBound` and `FullScoreWithGap` state this.
- CleoCicBackend.CallCleoCicBackend: a response body that fails to parse is given to
  the model as already read (`None` becomes `null`). The network call itself is the
  `send` parameter.
