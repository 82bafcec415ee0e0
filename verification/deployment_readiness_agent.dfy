/**
 * The deployment-readiness agent: scores the release checklist, lists the
 * blocking items and required approvals and decides whether to release.
 */
module DeploymentReadiness {
  import opened Base
  import opened ToolRegistry

  datatype ItemStatus = ItemComplete | ItemInProgress | ItemNotStarted

  datatype ChecklistItem = ChecklistItem(name: string, status: ItemStatus, owner: Option<string>, required: Option<bool>)

  datatype ApprovalStatus = Approved | Pending | Rejected

  datatype Approval = Approval(group: string, status: ApprovalStatus, required: Option<bool>)

  datatype Input = Input(projectId: string, environment: string, checklist: seq<ChecklistItem>, approvals: seq<Approval>)

  datatype Blocker = Blocker(item: string, owner: string, status: ItemStatus)

  datatype RequiredApproval = RequiredApproval(group: string, status: ApprovalStatus)

  datatype ReleaseDecision = Ready | Hold

  datatype ChecklistSummary = ChecklistSummary(totalItems: nat, completedItems: nat)

  datatype Output = Output(
    projectId: string,
    environment: string,
    readinessScore: nat,
    releaseDecision: ReleaseDecision,
    blockers: seq<Blocker>,
    requiredApprovals: seq<RequiredApproval>,
    deploymentChecklistSummary: ChecklistSummary,
    nextActions: seq<string>,
    toolContracts: seq<ToolContract>)

  predicate IsComplete(item: ChecklistItem) {
    item.status == ItemComplete
  }

  /** An item blocks release when it is incomplete and not explicitly optional. */
  predicate IsBlocking(item: ChecklistItem) {
    item.status != ItemComplete && item.required != Some(false)
  }

  /** Percentage of complete checklist items, 0 for an empty checklist. */
  function ScoreChecklist(checklist: seq<ChecklistItem>): (score: nat)
    ensures score <= 100
    ensures |checklist| == 0 ==> score == 0
    ensures |checklist| > 0 && (forall i :: 0 <= i < |checklist| ==> IsComplete(checklist[i])) ==> score == 100
    ensures (forall i :: 0 <= i < |checklist| ==> !IsComplete(checklist[i])) ==> score == 0
    ensures |checklist| > 0 ==>
      2 * score * |checklist| <= 200 * Count(checklist, IsComplete) + |checklist| < 2 * (score + 1) * |checklist|
  {
    Percent(Count(checklist, IsComplete), |checklist|)
  }

  function ToBlocker(item: ChecklistItem): Blocker {
    Blocker(item.name, item.owner.GetOr("unassigned"), item.status)
  }

  /** The blocking items, in checklist order, with the owner defaulting to "unassigned". */
  function GatherBlockers(checklist: seq<ChecklistItem>): (bs: seq<Blocker>)
    ensures |bs| == Count(checklist, IsBlocking)
    ensures forall i :: 0 <= i < |checklist| && IsBlocking(checklist[i]) ==> ToBlocker(checklist[i]) in bs
    ensures forall b :: b in bs ==> exists i :: 0 <= i < |checklist| && IsBlocking(checklist[i]) && b == ToBlocker(checklist[i])
    ensures forall b :: b in bs ==> b.status != ItemComplete
  {
    var bs := MapSeq(Filter(checklist, IsBlocking), ToBlocker);
    assert forall i :: 0 <= i < |checklist| && IsBlocking(checklist[i]) ==> ToBlocker(checklist[i]) in bs by {
      forall i | 0 <= i < |checklist| && IsBlocking(checklist[i])
        ensures ToBlocker(checklist[i]) in bs
      {
        FilterMapHas(checklist, IsBlocking, ToBlocker, i);
      }
    }
    assert forall b :: b in bs ==> exists i :: 0 <= i < |checklist| && IsBlocking(checklist[i]) && b == ToBlocker(checklist[i]) by {
      forall b | b in bs
        ensures exists i :: 0 <= i < |checklist| && IsBlocking(checklist[i]) && b == ToBlocker(checklist[i])
      {
        var j :| 0 <= j < |bs| && bs[j] == b;
        FilterMapFrom(checklist, IsBlocking, ToBlocker, j);
      }
    }
    bs
  }

  /** The blockers are the blocking items and nothing else, in checklist order. */
  lemma GatherBlockersInOrder(checklist: seq<ChecklistItem>)
    ensures FilterMapped(checklist, IsBlocking, ToBlocker, GatherBlockers(checklist))
  {
    FilterMapInOrder(checklist, IsBlocking, ToBlocker);
  }

  predicate IsRequiredApproval(a: Approval) {
    a.required != Some(false)
  }

  function ToRequiredApproval(a: Approval): RequiredApproval {
    RequiredApproval(a.group, a.status)
  }

  /** The approvals not explicitly optional, in order, as `{group, status}`. */
  function RequiredApprovals(approvals: seq<Approval>): (ras: seq<RequiredApproval>)
    ensures |ras| == Count(approvals, IsRequiredApproval)
    ensures forall i :: 0 <= i < |approvals| && IsRequiredApproval(approvals[i]) ==>
      RequiredApproval(approvals[i].group, approvals[i].status) in ras
    ensures forall ra :: ra in ras ==>
      exists i :: 0 <= i < |approvals| && IsRequiredApproval(approvals[i]) && ra == ToRequiredApproval(approvals[i])
  {
    var req := Filter(approvals, IsRequiredApproval);
    var ras := MapSeq(req, ToRequiredApproval);
    assert forall i :: 0 <= i < |approvals| && IsRequiredApproval(approvals[i]) ==>
      RequiredApproval(approvals[i].group, approvals[i].status) in ras by {
      forall i | 0 <= i < |approvals| && IsRequiredApproval(approvals[i])
        ensures RequiredApproval(approvals[i].group, approvals[i].status) in ras
      {
        var j :| 0 <= j < |req| && req[j] == approvals[i];
        assert ras[j] == RequiredApproval(approvals[i].group, approvals[i].status);
      }
    }
    assert forall ra :: ra in ras ==>
      exists i :: 0 <= i < |approvals| && IsRequiredApproval(approvals[i]) && ra == ToRequiredApproval(approvals[i]) by {
      forall ra | ra in ras
        ensures exists i :: 0 <= i < |approvals| && IsRequiredApproval(approvals[i]) && ra == ToRequiredApproval(approvals[i])
      {
        var j :| 0 <= j < |ras| && ras[j] == ra;
        assert req[j] in approvals;
        var i :| 0 <= i < |approvals| && approvals[i] == req[j];
      }
    }
    ras
  }

  /** The required approvals are the non-optional approvals and nothing else, in input order. */
  lemma RequiredApprovalsInOrder(approvals: seq<Approval>)
    ensures FilterMapped(approvals, IsRequiredApproval, ToRequiredApproval, RequiredApprovals(approvals))
  {
    FilterMapInOrder(approvals, IsRequiredApproval, ToRequiredApproval);
  }

  const ReadyActions: seq<string> := ["Proceed with deployment management runbook execution"]
  const HoldActions: seq<string> := [
    "Resolve all required checklist blockers",
    "Obtain outstanding required approvals",
    "Re-run deployment readiness assessment"
  ]

  const ToolContracts: seq<ToolContract> := [
    ToolContract("change.ticket.validate", "Validate that change-management requirements are met for production release",
                 ["changeTicketId", "riskLevel", "rollbackPlan"]),
    ToolContract("deploy.window.reserve", "Reserve approved deployment window and notify stakeholders",
                 ["projectId", "windowStart", "windowEnd", "stakeholders"]),
    ToolContract("monitoring.guard.enable", "Enable post-deploy monitoring and rollback guardrails",
                 ["projectId", "metricThresholds", "onCallGroup"])
  ]

  /** `runDeploymentReadinessAgent`. */
  function Run(input: Input): (out: Output)
    ensures out.readinessScore == ScoreChecklist(input.checklist)
    ensures out.blockers == GatherBlockers(input.checklist)
    ensures out.requiredApprovals == RequiredApprovals(input.approvals)
    ensures out.releaseDecision == Ready <==>
      |out.blockers| == 0 && forall i :: 0 <= i < |out.requiredApprovals| ==> out.requiredApprovals[i].status == Approved
    ensures out.deploymentChecklistSummary.totalItems == |input.checklist|
    ensures out.deploymentChecklistSummary.completedItems <= out.deploymentChecklistSummary.totalItems
    ensures out.deploymentChecklistSummary.completedItems == Count(input.checklist, IsComplete)
    ensures out.nextActions == (if out.releaseDecision == Ready then ReadyActions else HoldActions)
  {
    var blockers := GatherBlockers(input.checklist);
    var required := RequiredApprovals(input.approvals);
    var unapproved := Count(required, (a: RequiredApproval) => a.status != Approved);
    var decision := if |blockers| > 0 || unapproved > 0 then Hold else Ready;
    Output(input.projectId, input.environment, ScoreChecklist(input.checklist), decision, blockers, required,
           ChecklistSummary(|input.checklist|, Count(input.checklist, IsComplete)),
           if decision == Ready then ReadyActions else HoldActions,
           ToolContracts)
  }

  /** A required checklist item that is not complete forces a hold. */
  lemma RequiredIncompleteItemHolds(input: Input, k: nat)
    requires k < |input.checklist|
    requires input.checklist[k].status != ItemComplete && input.checklist[k].required != Some(false)
    ensures Run(input).releaseDecision == Hold
  {
    assert ToBlocker(input.checklist[k]) in Run(input).blockers;
  }

  /** A required approval that is not granted forces a hold. */
  lemma UnapprovedRequiredApprovalHolds(input: Input, k: nat)
    requires k < |input.approvals|
    requires input.approvals[k].required != Some(false) && input.approvals[k].status != Approved
    ensures Run(input).releaseDecision == Hold
  {
    var ra := RequiredApproval(input.approvals[k].group, input.approvals[k].status);
    var ras := Run(input).requiredApprovals;
    assert ra in ras;
    var j :| 0 <= j < |ras| && ras[j] == ra;
  }
}
