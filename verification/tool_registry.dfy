/**
 * Tool-contract resolution: every contract a step declares is reported as
 * dry-run, skipped, unsupported or executed (through one of four in-process
 * payload handlers), in the order the contracts were declared.
 */
module ToolRegistry {
  import opened Base
  import opened Json
  import opened ToolAdapters

  /** A step's declaration that a side-effecting call should be made. */
  datatype ToolContract = ToolContract(tool: string, purpose: string, requiredInputs: seq<string>)

  /** The workflow input and the latest step output a handler may draw values from. */
  datatype ToolContext = ToolContext(workflowInput: Raw, latestStepOutput: Raw)

  /** Restricts `source` to the required keys whose value is defined, values unchanged. */
  function PickFields(source: map<string, Raw>, requiredInputs: seq<string>): (p: map<string, Raw>)
    ensures forall k :: k in p <==> k in requiredInputs && k in source && source[k] != RUndefined
    ensures forall k :: k in p ==> p[k] == source[k]
    decreases |requiredInputs|
  {
    if |requiredInputs| == 0 then map[]
    else
      var key := requiredInputs[|requiredInputs| - 1];
      var rest := PickFields(source, requiredInputs[..|requiredInputs| - 1]);
      assert forall k :: k in requiredInputs <==> k in requiredInputs[..|requiredInputs| - 1] || k == key;
      if key in source && source[key] != RUndefined then rest[key := source[key]] else rest
  }

  /** The four registered payload handlers. */
  datatype Handler = ProjectPlanSync | TestExecutionRun | CertificationReportPublish | StakeholderStatusPublish

  function HandlerTool(h: Handler): string {
    match h
    case ProjectPlanSync => "project.plan.sync"
    case TestExecutionRun => "test.execution.run"
    case CertificationReportPublish => "certification.report.publish"
    case StakeholderStatusPublish => "stakeholder.status.publish"
  }

  /** `toolHandlers[tool]`: the handler registered for a tool name, if any. */
  function HandlerFor(tool: string): (h: Option<Handler>)
    ensures h.Some? ==> HandlerTool(h.value) == tool
    ensures h.None? ==> forall g: Handler :: HandlerTool(g) != tool
  {
    if tool == "project.plan.sync" then Some(ProjectPlanSync)
    else if tool == "test.execution.run" then Some(TestExecutionRun)
    else if tool == "certification.report.publish" then Some(CertificationReportPublish)
    else if tool == "stakeholder.status.publish" then Some(StakeholderStatusPublish)
    else None
  }

  /** The candidate values a handler offers before they are narrowed to the contract's inputs. */
  function HandlerSource(h: Handler, ctx: ToolContext): map<string, Raw> {
    var wi := ctx.workflowInput;
    var latest := ctx.latestStepOutput;
    match h
    case ProjectPlanSync =>
      map["projectId" := Get(wi, "projectId"),
          "milestones" := Coalesce(Get(Get(wi, "program"), "milestones"), RArr([])),
          "dependencies" := Coalesce(Get(Get(wi, "program"), "dependencies"), RArr([]))]
    case TestExecutionRun =>
      map["projectId" := Get(wi, "projectId"),
          "documentType" := Get(wi, "documentType"),
          "suiteId" := Coalesce(Get(Get(wi, "test"), "suiteId"), RStr("default-regression"))]
    case CertificationReportPublish =>
      map["projectId" := Get(wi, "projectId"),
          "qualityScore" := Get(latest, "qualityScore"),
          "certificationDecision" := Get(latest, "certificationDecision"),
          "blockers" := Coalesce(Get(latest, "blockers"), RArr([]))]
    case StakeholderStatusPublish =>
      map["projectId" := Get(wi, "projectId"),
          "health" := Get(latest, "health"),
          "criticalPathItems" := Coalesce(Get(latest, "criticalPathItems"), RArr([])),
          "next30DayPlan" := Coalesce(Get(latest, "next30DayPlan"), RArr([]))]
  }

  /** The flag each handler sets in its output (`synced`, `queued`, `published`). */
  function HandlerFlag(h: Handler): string {
    match h
    case ProjectPlanSync => "synced"
    case TestExecutionRun => "queued"
    case _ => "published"
  }

  /** A handler's output: its flag set to true and the narrowed payload. */
  function RunHandler(h: Handler, ctx: ToolContext, contract: ToolContract): (out: map<string, Raw>)
    ensures out.Keys == {HandlerFlag(h), "payload"}
    ensures out[HandlerFlag(h)] == RBool(true)
    ensures out["payload"].RObj? && out["payload"].fields.Keys <= HandlerSource(h, ctx).Keys
  {
    map[HandlerFlag(h) := RBool(true), "payload" := RObj(PickFields(HandlerSource(h, ctx), contract.requiredInputs))]
  }

  datatype ToolStatus = DryRun | Skipped | Unsupported | Executed

  datatype ToolResult = ToolResult(tool: string, status: ToolStatus, reason: Option<string>, output: Option<ToolOutput>)

  /** A `'*'` entry enables every tool; otherwise only the listed ones. */
  predicate Enabled(tool: string, enabledTools: seq<string>) {
    "*" in enabledTools || tool in enabledTools
  }

  /**
   * The resolution of one contract, by the precedence dry-run, skipped,
   * unsupported, executed. Executing through an inherited member in place
   * of an adapter throws the TypeError of its missing `transform`.
   */
  function Resolve(adapter: ToolAdapter, contract: ToolContract, ctx: ToolContext,
                   executeTools: bool, enabledTools: seq<string>): (r: Result<ToolResult>)
    ensures r.Err? <==>
      executeTools && Enabled(contract.tool, enabledTools) && HandlerFor(contract.tool).Some? && adapter == InheritedMember
    ensures r.Err? ==> r.message == TransformNotAFunction
    ensures r.Ok? ==> r.value.tool == contract.tool
    ensures r.Ok? ==> (r.value.status == DryRun <==> !executeTools)
    ensures r.Ok? ==> (r.value.status == Skipped <==> executeTools && !Enabled(contract.tool, enabledTools))
    ensures r.Ok? ==> (r.value.status == Unsupported <==>
      executeTools && Enabled(contract.tool, enabledTools) && HandlerFor(contract.tool).None?)
    ensures r.Ok? ==> (r.value.status == Executed <==>
      executeTools && Enabled(contract.tool, enabledTools) && HandlerFor(contract.tool).Some?)
    ensures r.Ok? ==> (r.value.output.Some? <==> r.value.status == Executed)
    ensures r.Ok? && r.value.status == Executed ==>
      Transform(adapter, contract.tool, RunHandler(HandlerFor(contract.tool).value, ctx, contract)) == Ok(r.value.output.value)
  {
    if !executeTools then Ok(ToolResult(contract.tool, DryRun, Some("Tool execution disabled"), None))
    else if !Enabled(contract.tool, enabledTools) then Ok(ToolResult(contract.tool, Skipped, Some("Tool not enabled for this run"), None))
    else match HandlerFor(contract.tool)
      case None => Ok(ToolResult(contract.tool, Unsupported, Some("No registered tool handler"), None))
      case Some(h) =>
        match Transform(adapter, contract.tool, RunHandler(h, ctx, contract))
        case Err(m) => Err(m)
        case Ok(output) => Ok(ToolResult(contract.tool, Executed, None, Some(output)))
  }

  /**
   * `executeToolContracts`: one result per contract, in order, each resolved
   * with the adapter named by `adapterId`; the first contract that throws
   * ends the call with its error.
   */
  method ExecuteToolContracts(adapterId: string, contracts: seq<ToolContract>, ctx: ToolContext,
                              executeTools: bool, enabledTools: seq<string>)
    returns (r: Result<seq<ToolResult>>)
    ensures r.Ok? <==> forall i :: 0 <= i < |contracts| ==>
      Resolve(GetToolAdapter(adapterId), contracts[i], ctx, executeTools, enabledTools).Ok?
    ensures r.Ok? ==> |r.value| == |contracts| && forall i :: 0 <= i < |contracts| ==>
      r.value[i] == Resolve(GetToolAdapter(adapterId), contracts[i], ctx, executeTools, enabledTools).value
    ensures r.Err? ==> exists k :: (0 <= k < |contracts| &&
      Resolve(GetToolAdapter(adapterId), contracts[k], ctx, executeTools, enabledTools) == Err(r.message) &&
      forall j :: 0 <= j < k ==> Resolve(GetToolAdapter(adapterId), contracts[j], ctx, executeTools, enabledTools).Ok?)
    ensures !executeTools ==> r.Ok? && forall i :: 0 <= i < |r.value| ==> r.value[i].status == DryRun
  {
    var adapter := GetToolAdapter(adapterId);
    var results := [];
    var i := 0;
    while i < |contracts|
      invariant 0 <= i <= |contracts|
      invariant |results| == i
      invariant forall j :: 0 <= j < i ==> Resolve(adapter, contracts[j], ctx, executeTools, enabledTools).Ok?
      invariant forall j :: 0 <= j < i ==> results[j] == Resolve(adapter, contracts[j], ctx, executeTools, enabledTools).value
    {
      var res := Resolve(adapter, contracts[i], ctx, executeTools, enabledTools);
      if res.Err? {
        return Err(res.message);
      }
      results := results + [res.value];
      i := i + 1;
    }
    return Ok(results);
  }

  /** Only the four tools with a registered handler can ever be reported as executed. */
  lemma OnlyHandledToolsExecute(adapter: ToolAdapter, contract: ToolContract, ctx: ToolContext,
                                executeTools: bool, enabledTools: seq<string>)
    requires Resolve(adapter, contract, ctx, executeTools, enabledTools).Ok?
    requires Resolve(adapter, contract, ctx, executeTools, enabledTools).value.status == Executed
    ensures contract.tool in {"project.plan.sync", "test.execution.run",
                              "certification.report.publish", "stakeholder.status.publish"}
  {
  }

  /** With a wildcard entry, no executing contract is ever skipped. */
  lemma WildcardNeverSkips(adapter: ToolAdapter, contract: ToolContract, ctx: ToolContext, enabledTools: seq<string>)
    requires "*" in enabledTools
    ensures Resolve(adapter, contract, ctx, true, enabledTools).Ok? ==>
      Resolve(adapter, contract, ctx, true, enabledTools).value.status != Skipped
  {
  }
}
