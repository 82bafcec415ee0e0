/**
 * The integration-program agent: rates schedule health from the milestones,
 * decides whether to escalate and lists the critical-path items.
 */
module IntegrationProgram {
  import opened Base
  import opened ToolRegistry

  datatype MilestoneStatus = MilestoneNotStarted | MilestoneInProgress | MilestoneComplete | MilestoneBlocked

  datatype Milestone = Milestone(name: string, dueDate: Option<string>, owner: Option<string>, status: MilestoneStatus)

  datatype RiskSeverity = RiskLow | RiskMedium | RiskHigh

  datatype RiskStatus = RiskOpen | RiskMitigating | RiskClosed

  datatype Risk = Risk(title: string, severity: RiskSeverity, status: RiskStatus)

  datatype DependencyStatus = DependencyReady | DependencyInProgress | DependencyBlocked

  datatype Dependency = Dependency(name: string, owner: Option<string>, status: DependencyStatus)

  datatype Input = Input(
    projectId: string,
    projectName: string,
    milestones: seq<Milestone>,
    risks: seq<Risk>,
    dependencies: seq<Dependency>)

  datatype Health = Red | Yellow | Green

  datatype Schedule = Schedule(health: Health, completionPct: nat)

  datatype PathItemKind = MilestoneItem | DependencyItem

  datatype CriticalPathItem = CriticalPathItem(kind: PathItemKind, name: string, owner: string)

  datatype Output = Output(
    projectId: string,
    projectName: string,
    health: Health,
    completionPercent: nat,
    onTrack: bool,
    escalationNeeded: bool,
    criticalPathItems: seq<CriticalPathItem>,
    next30DayPlan: seq<string>,
    toolContracts: seq<ToolContract>)

  predicate IsComplete(m: Milestone) {
    m.status == MilestoneComplete
  }

  predicate IsBlocked(m: Milestone) {
    m.status == MilestoneBlocked
  }

  predicate IsIncomplete(m: Milestone) {
    m.status != MilestoneComplete
  }

  /** Red when any milestone is blocked, otherwise yellow below 60% complete, otherwise green. */
  function EvaluateScheduleHealth(milestones: seq<Milestone>): (s: Schedule)
    ensures s.completionPct == Percent(Count(milestones, IsComplete), |milestones|)
    ensures s.health == Red <==> exists i :: 0 <= i < |milestones| && milestones[i].status == MilestoneBlocked
    ensures s.health == Green <==> s.health != Red && s.completionPct >= 60
    ensures |milestones| == 0 ==> s.health == Yellow
  {
    var pct := Percent(Count(milestones, IsComplete), |milestones|);
    if Count(milestones, IsBlocked) > 0 then Schedule(Red, pct)
    else if pct < 60 then Schedule(Yellow, pct)
    else Schedule(Green, pct)
  }

  predicate IsActive(r: Risk) {
    r.status != RiskClosed
  }

  predicate IsHigh(r: Risk) {
    r.severity == RiskHigh
  }

  predicate IsBlockedDependency(d: Dependency) {
    d.status == DependencyBlocked
  }

  function MilestonePathItem(m: Milestone): CriticalPathItem {
    CriticalPathItem(MilestoneItem, m.name, m.owner.GetOr("unassigned"))
  }

  function DependencyPathItem(d: Dependency): CriticalPathItem {
    CriticalPathItem(DependencyItem, d.name, d.owner.GetOr("unassigned"))
  }

  /** The incomplete milestones followed by the blocked dependencies. */
  function CriticalPath(milestones: seq<Milestone>, dependencies: seq<Dependency>): (items: seq<CriticalPathItem>)
    ensures |items| == Count(milestones, IsIncomplete) + Count(dependencies, IsBlockedDependency)
    ensures forall i :: 0 <= i < Count(milestones, IsIncomplete) ==> items[i].kind == MilestoneItem
    ensures forall i :: Count(milestones, IsIncomplete) <= i < |items| ==> items[i].kind == DependencyItem
    ensures forall i :: 0 <= i < |milestones| && milestones[i].status != MilestoneComplete ==>
      MilestonePathItem(milestones[i]) in items
    ensures forall i :: 0 <= i < |dependencies| && dependencies[i].status == DependencyBlocked ==>
      DependencyPathItem(dependencies[i]) in items
  {
    var ms := MapSeq(Filter(milestones, IsIncomplete), MilestonePathItem);
    var ds := MapSeq(Filter(dependencies, IsBlockedDependency), DependencyPathItem);
    var items := ms + ds;
    assert forall i :: 0 <= i < |milestones| && milestones[i].status != MilestoneComplete ==>
      MilestonePathItem(milestones[i]) in items by {
      forall i | 0 <= i < |milestones| && milestones[i].status != MilestoneComplete
        ensures MilestonePathItem(milestones[i]) in items
      {
        FilterMapHas(milestones, IsIncomplete, MilestonePathItem, i);
      }
    }
    assert forall i :: 0 <= i < |dependencies| && dependencies[i].status == DependencyBlocked ==>
      DependencyPathItem(dependencies[i]) in items by {
      forall i | 0 <= i < |dependencies| && dependencies[i].status == DependencyBlocked
        ensures DependencyPathItem(dependencies[i]) in items
      {
        FilterMapHas(dependencies, IsBlockedDependency, DependencyPathItem, i);
      }
    }
    items
  }

  /**
   * The critical path is the incomplete milestones in milestone order, then
   * the blocked dependencies in dependency order, and nothing else.
   */
  lemma CriticalPathInOrder(milestones: seq<Milestone>, dependencies: seq<Dependency>)
    ensures var items := CriticalPath(milestones, dependencies);
            var a := |MapSeq(Filter(milestones, IsIncomplete), MilestonePathItem)|;
            && FilterMapped(milestones, IsIncomplete, MilestonePathItem, items[..a])
            && FilterMapped(dependencies, IsBlockedDependency, DependencyPathItem, items[a..])
  {
    MilestonesInOrder(milestones, dependencies);
    DependenciesInOrder(milestones, dependencies);
  }

  lemma MilestonesInOrder(milestones: seq<Milestone>, dependencies: seq<Dependency>)
    ensures FilterMapped(milestones, IsIncomplete, MilestonePathItem,
      CriticalPath(milestones, dependencies)[..|MapSeq(Filter(milestones, IsIncomplete), MilestonePathItem)|])
  {
    var ms := MapSeq(Filter(milestones, IsIncomplete), MilestonePathItem);
    var ds := MapSeq(Filter(dependencies, IsBlockedDependency), DependencyPathItem);
    assert CriticalPath(milestones, dependencies) == ms + ds;
    assert (ms + ds)[..|ms|] == ms;
    FilterMapInOrder(milestones, IsIncomplete, MilestonePathItem);
  }

  lemma DependenciesInOrder(milestones: seq<Milestone>, dependencies: seq<Dependency>)
    ensures FilterMapped(dependencies, IsBlockedDependency, DependencyPathItem,
      CriticalPath(milestones, dependencies)[|MapSeq(Filter(milestones, IsIncomplete), MilestonePathItem)|..])
  {
    var ms := MapSeq(Filter(milestones, IsIncomplete), MilestonePathItem);
    var ds := MapSeq(Filter(dependencies, IsBlockedDependency), DependencyPathItem);
    assert CriticalPath(milestones, dependencies) == ms + ds;
    assert (ms + ds)[|ms|..] == ds;
    FilterMapInOrder(dependencies, IsBlockedDependency, DependencyPathItem);
  }

  const Next30DayPlan: seq<string> := [
    "Close blocked dependencies and unresolved high-severity risks",
    "Lock integration specs and mapping baseline for active document types",
    "Complete partner certification and production readiness gate"
  ]

  const ToolContracts: seq<ToolContract> := [
    ToolContract("project.plan.sync", "Sync milestones and owners with project management system",
                 ["projectId", "milestones", "dependencies"]),
    ToolContract("risk.register.update", "Track and escalate active implementation risks",
                 ["projectId", "risks", "severity"]),
    ToolContract("stakeholder.status.publish", "Publish weekly integration status package",
                 ["projectId", "health", "criticalPathItems", "next30DayPlan"])
  ]

  /** `runIntegrationProgramAgent`. */
  function Run(input: Input): (out: Output)
    ensures out.health == EvaluateScheduleHealth(input.milestones).health
    ensures out.completionPercent == EvaluateScheduleHealth(input.milestones).completionPct
    ensures out.escalationNeeded <==>
      (exists i :: 0 <= i < |input.risks| && IsActive(input.risks[i]) && IsHigh(input.risks[i])) ||
      (exists i :: 0 <= i < |input.dependencies| && IsBlockedDependency(input.dependencies[i]))
    ensures out.onTrack <==> out.health == Green && Count(input.risks, IsActive) < 3
    ensures out.criticalPathItems == CriticalPath(input.milestones, input.dependencies)
  {
    var schedule := EvaluateScheduleHealth(input.milestones);
    var active := Filter(input.risks, IsActive);
    var highActive := Count(active, IsHigh) > 0;
    var blockedDeps := Count(input.dependencies, IsBlockedDependency);
    CountFilterPositive(input.risks, IsActive, IsHigh);
    Output(
      input.projectId,
      input.projectName,
      schedule.health,
      schedule.completionPct,
      schedule.health == Green && |active| < 3,
      highActive || blockedDeps > 0,
      CriticalPath(input.milestones, input.dependencies),
      Next30DayPlan,
      ToolContracts)
  }

  /** A program on track has milestones, none of them blocked, and is at least 60% complete. */
  lemma OnTrackMeansNoBlockedMilestone(input: Input)
    requires Run(input).onTrack
    ensures forall i :: 0 <= i < |input.milestones| ==> input.milestones[i].status != MilestoneBlocked
    ensures Run(input).completionPercent >= 60
    ensures |input.milestones| > 0
  {
  }

  /** Every milestone complete and nothing blocked: green, 100% and nothing on the critical path from milestones. */
  lemma AllCompleteIsGreen(input: Input)
    requires |input.milestones| > 0
    requires forall i :: 0 <= i < |input.milestones| ==> input.milestones[i].status == MilestoneComplete
    ensures Run(input).health == Green
    ensures Run(input).completionPercent == 100
    ensures |Run(input).criticalPathItems| == Count(input.dependencies, IsBlockedDependency)
  {
  }
}
