/**
 * Execution policy of `src/policy/engine.js`: how a workflow run's own
 * execution settings are merged with the policy's defaults, which approval
 * rules and retry policy apply, and where a tool's backend is configured.
 * The policy is passed in as a value; reading and caching the policy file
 * is not modelled.
 */
module PolicyEngine {
  import opened Base
  import opened Json
  import ToolRegistry
  import ToolAdapters

  datatype ExecutionDefaults = ExecutionDefaults(approvalMode: Option<string>, executeTools: Option<bool>)

  datatype RetryPolicy = RetryPolicy(maxAttempts: int, backoffMs: int)

  datatype ToolExecution = ToolExecution(backends: Option<map<string, Raw>>)

  /** The parsed policy document; absent properties are `None`. */
  datatype Policy = Policy(
    executionDefaults: Option<ExecutionDefaults>,
    approvalRules: Option<map<string, Raw>>,
    retryPolicy: Option<RetryPolicy>,
    toolExecution: Option<ToolExecution>)

  /** A workflow input's own `execution` settings; absent properties are `None`. */
  datatype ExecutionInput = ExecutionInput(
    approvalMode: Option<string>,
    executeTools: Option<bool>,
    enabledTools: Option<seq<string>>,
    approvals: Option<seq<Raw>>)

  const NoExecutionInput: ExecutionInput := ExecutionInput(None, None, None, None)

  /** The settings a run executes with. */
  datatype ExecutionConfig = ExecutionConfig(
    approvalMode: string,
    executeTools: bool,
    enabledTools: seq<string>,
    approvals: seq<Raw>)

  /** The fields of a workflow input the policy engine reads. */
  datatype WorkflowInput = WorkflowInput(execution: Option<ExecutionInput>, retryPolicy: Option<RetryPolicy>)

  /** `a ?? b ?? fallback` over optional values. */
  function FirstOf<T>(a: Option<T>, b: Option<T>, fallback: T): (r: T)
    ensures a.Some? ==> r == a.value
    ensures a.None? && b.Some? ==> r == b.value
    ensures a.None? && b.None? ==> r == fallback
  {
    if a.Some? then a.value else b.GetOr(fallback)
  }

  /**
   * `mergeExecutionDefaults`: approval mode and tool execution come from the
   * input, else the policy's defaults, else `propose_only` and `false`; the
   * enabled tools and approvals come from the input only.
   */
  function MergeExecutionDefaults(input: ExecutionInput, policy: Policy): (c: ExecutionConfig)
    ensures c.approvalMode == FirstOf(input.approvalMode,
      if policy.executionDefaults.Some? then policy.executionDefaults.value.approvalMode else None, "propose_only")
    ensures c.executeTools == FirstOf(input.executeTools,
      if policy.executionDefaults.Some? then policy.executionDefaults.value.executeTools else None, false)
    ensures c.enabledTools == input.enabledTools.GetOr([])
    ensures c.approvals == input.approvals.GetOr([])
  {
    var defaults := policy.executionDefaults.GetOr(ExecutionDefaults(None, None));
    ExecutionConfig(
      FirstOf(input.approvalMode, defaults.approvalMode, "propose_only"),
      FirstOf(input.executeTools, defaults.executeTools, false),
      input.enabledTools.GetOr([]),
      input.approvals.GetOr([]))
  }

  /** A config written back as input settings. */
  function AsInput(c: ExecutionConfig): ExecutionInput {
    ExecutionInput(Some(c.approvalMode), Some(c.executeTools), Some(c.enabledTools), Some(c.approvals))
  }

  /** A merged config fed back in is kept as it is, whatever the policy says. */
  lemma MergeFixpoint(input: ExecutionInput, policy: Policy, other: Policy)
    ensures MergeExecutionDefaults(AsInput(MergeExecutionDefaults(input, policy)), other)
      == MergeExecutionDefaults(input, policy)
  {
  }

  /** The enabled tools and approvals never depend on the policy. */
  lemma ToolsAndApprovalsIgnorePolicy(input: ExecutionInput, p: Policy, q: Policy)
    ensures MergeExecutionDefaults(input, p).enabledTools == MergeExecutionDefaults(input, q).enabledTools
    ensures MergeExecutionDefaults(input, p).approvals == MergeExecutionDefaults(input, q).approvals
  {
  }

  /** An explicit `executeTools: false` is kept even when the policy would execute. */
  lemma ExplicitFalseKept(input: ExecutionInput, policy: Policy)
    requires input.executeTools == Some(false)
    ensures !MergeExecutionDefaults(input, policy).executeTools
  {
  }

  const DefaultRetryPolicy: RetryPolicy := RetryPolicy(3, 250)

  datatype Resolved = Resolved(execution: ExecutionConfig, workflowRules: Raw, retryPolicy: RetryPolicy, policy: Policy)

  /** `resolveExecutionConfig`. */
  function ResolveExecutionConfig(workflowName: string, input: WorkflowInput, policy: Policy): (r: Resolved)
    ensures r.execution == MergeExecutionDefaults(input.execution.GetOr(NoExecutionInput), policy)
    ensures policy.approvalRules.Some? && workflowName in policy.approvalRules.value
            && !Nullish(policy.approvalRules.value[workflowName]) ==>
      r.workflowRules == policy.approvalRules.value[workflowName]
    ensures policy.approvalRules.None? || workflowName !in policy.approvalRules.value
            || Nullish(policy.approvalRules.value[workflowName]) ==>
      r.workflowRules == EmptyObject
    ensures r.retryPolicy == FirstOf(input.retryPolicy, policy.retryPolicy, DefaultRetryPolicy)
    ensures r.policy == policy
  {
    var rules := if policy.approvalRules.Some? && workflowName in policy.approvalRules.value
      then policy.approvalRules.value[workflowName] else RUndefined;
    Resolved(
      MergeExecutionDefaults(input.execution.GetOr(NoExecutionInput), policy),
      Coalesce(rules, EmptyObject),
      FirstOf(input.retryPolicy, policy.retryPolicy, DefaultRetryPolicy),
      policy)
  }

  /** With no execution settings anywhere, a run only proposes: every tool contract is a dry run. */
  lemma NoSettingsMeansDryRun(workflowName: string, input: WorkflowInput, policy: Policy,
                              adapter: ToolAdapters.ToolAdapter, contract: ToolRegistry.ToolContract,
                              ctx: ToolRegistry.ToolContext)
    requires input.execution.None? || input.execution.value.executeTools.None?
    requires policy.executionDefaults.None? || policy.executionDefaults.value.executeTools.None?
    ensures var c := ResolveExecutionConfig(workflowName, input, policy).execution;
      c.approvalMode == FirstOf(if input.execution.Some? then input.execution.value.approvalMode else None,
        if policy.executionDefaults.Some? then policy.executionDefaults.value.approvalMode else None, "propose_only") &&
      ToolRegistry.Resolve(adapter, contract, ctx, c.executeTools, c.enabledTools) ==
        Ok(ToolRegistry.ToolResult(contract.tool, ToolRegistry.DryRun, Some("Tool execution disabled"), None))
  {
  }

  /** `getToolBackendConfig`: the tool's configured backend, or `None` (`null`) when there is none. */
  function ToolBackendConfig(toolName: string, policy: Policy): (r: Option<Raw>)
    ensures r.Some? <==> (policy.toolExecution.Some? && policy.toolExecution.value.backends.Some? &&
      toolName in policy.toolExecution.value.backends.value &&
      !Nullish(policy.toolExecution.value.backends.value[toolName]))
    ensures r.Some? ==> r.value == policy.toolExecution.value.backends.value[toolName]
  {
    if policy.toolExecution.Some? && policy.toolExecution.value.backends.Some?
       && toolName in policy.toolExecution.value.backends.value
       && !Nullish(policy.toolExecution.value.backends.value[toolName])
    then Some(policy.toolExecution.value.backends.value[toolName])
    else None
  }
}
