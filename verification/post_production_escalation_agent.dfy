/**
 * The post-production escalation agent: triages an incident from its
 * severity, the number of affected partners and the breached metric
 * thresholds, and picks the escalation path and update cadence.
 */
module PostProductionEscalation {
  import opened Base
  import opened ToolRegistry

  datatype Severity = P1 | P2 | P3 | P4

  datatype Direction = AboveIsBad | BelowIsBad

  datatype Metric = Metric(name: string, value: real, threshold: real, direction: Option<Direction>)

  datatype Input = Input(
    incidentId: string,
    severity: Option<Severity>,
    affectedPartners: seq<string>,
    recentChanges: seq<string>,
    metrics: seq<Metric>)

  datatype TriageLevel = Immediate | HighTriage | Normal

  datatype Breach = Breach(name: string, value: real, threshold: real)

  datatype Communications = Communications(internalUpdateCadenceMinutes: nat, externalUpdateCadenceMinutes: nat)

  datatype Output = Output(
    incidentId: string,
    triageLevel: TriageLevel,
    affectedPartners: seq<string>,
    thresholdBreaches: seq<Breach>,
    suspectedCauses: seq<string>,
    containmentActions: seq<string>,
    escalationPath: seq<string>,
    communications: Communications,
    autoRemediationRecommended: bool,
    toolContracts: seq<ToolContract>)

  /** A metric is breached strictly past its threshold in its bad direction; no direction, no breach. */
  predicate IsBreached(m: Metric) {
    match m.direction
    case Some(AboveIsBad) => m.value > m.threshold
    case Some(BelowIsBad) => m.value < m.threshold
    case None => false
  }

  /** Immediate for P1, several breaches or many partners; high for P2 or a few partners. */
  function EvaluateTriageLevel(severity: Option<Severity>, impactedPartners: nat, breaches: nat): (t: TriageLevel)
    ensures t == Immediate <==> severity == Some(P1) || breaches > 1 || impactedPartners > 3
    ensures t == HighTriage <==> t != Immediate && (severity == Some(P2) || impactedPartners > 1)
  {
    if severity == Some(P1) || breaches > 1 || impactedPartners > 3 then Immediate
    else if severity == Some(P2) || impactedPartners > 1 then HighTriage
    else Normal
  }

  /** Triage never goes down when more partners are affected or more thresholds breached. */
  lemma TriageMonotone(severity: Option<Severity>, p1: nat, p2: nat, b1: nat, b2: nat)
    requires p1 <= p2 && b1 <= b2
    ensures Rank(EvaluateTriageLevel(severity, p1, b1)) <= Rank(EvaluateTriageLevel(severity, p2, b2))
  {
  }

  /** Urgency order of the triage levels. */
  function Rank(t: TriageLevel): nat {
    match t
    case Normal => 0
    case HighTriage => 1
    case Immediate => 2
  }

  function ToBreach(m: Metric): Breach {
    Breach(m.name, m.value, m.threshold)
  }

  /** The breached metrics, in order. */
  function ThresholdBreaches(metrics: seq<Metric>): (bs: seq<Breach>)
    ensures |bs| == Count(metrics, IsBreached)
    ensures forall i :: 0 <= i < |metrics| && IsBreached(metrics[i]) ==> ToBreach(metrics[i]) in bs
    ensures forall j :: 0 <= j < |bs| ==> exists i :: 0 <= i < |metrics| && IsBreached(metrics[i]) && bs[j] == ToBreach(metrics[i])
  {
    var bs := MapSeq(Filter(metrics, IsBreached), ToBreach);
    assert forall i :: 0 <= i < |metrics| && IsBreached(metrics[i]) ==> ToBreach(metrics[i]) in bs by {
      forall i | 0 <= i < |metrics| && IsBreached(metrics[i])
        ensures ToBreach(metrics[i]) in bs
      {
        FilterMapHas(metrics, IsBreached, ToBreach, i);
      }
    }
    assert forall j :: 0 <= j < |bs| ==> exists i :: 0 <= i < |metrics| && IsBreached(metrics[i]) && bs[j] == ToBreach(metrics[i]) by {
      forall j | 0 <= j < |bs|
        ensures exists i :: 0 <= i < |metrics| && IsBreached(metrics[i]) && bs[j] == ToBreach(metrics[i])
      {
        FilterMapFrom(metrics, IsBreached, ToBreach, j);
      }
    }
    bs
  }

  /** The breaches are the breached metrics and nothing else, in metric order. */
  lemma ThresholdBreachesInOrder(metrics: seq<Metric>)
    ensures FilterMapped(metrics, IsBreached, ToBreach, ThresholdBreaches(metrics))
  {
    FilterMapInOrder(metrics, IsBreached, ToBreach);
  }

  const RecentChangeCause: string := "Recent deployment or configuration change"
  const BreachCause: string := "Operational metric threshold breach"
  const DriftCause: string := "Partner payload drift or schema mismatch"

  /** Recent changes, then breaches, then payload drift, which is always suspected. */
  function SuspectedCauses(recentChanges: seq<string>, breaches: nat): (causes: seq<string>)
    ensures |causes| >= 1 && causes[|causes| - 1] == DriftCause
    ensures RecentChangeCause in causes <==> |recentChanges| > 0
    ensures BreachCause in causes <==> breaches > 0
    ensures |causes| == 1 + (if |recentChanges| > 0 then 1 else 0) + (if breaches > 0 then 1 else 0)
  {
    (if |recentChanges| > 0 then [RecentChangeCause] else [])
    + (if breaches > 0 then [BreachCause] else [])
    + [DriftCause]
  }

  const ContainmentActions: seq<string> := [
    "Isolate impacted partner routes and pause risky automations",
    "Enable safe fallback or manual processing path",
    "Capture run evidence and rollback recent high-risk changes if needed"
  ]

  const ImmediatePath: seq<string> := ["Notify on-call leadership", "Engage integration SME bridge", "Open executive incident channel"]
  const StandardPath: seq<string> := ["Notify operations owner", "Assign remediation lead", "Track corrective action"]

  const ToolContracts: seq<ToolContract> := [
    ToolContract("incident.bridge.open", "Open incident bridge and assign on-call responders",
                 ["incidentId", "severity", "affectedPartners"]),
    ToolContract("runbook.execute", "Execute approved escalation runbook actions",
                 ["incidentId", "runbookId", "steps"]),
    ToolContract("stakeholder.alert.send", "Send internal and external incident updates",
                 ["incidentId", "triageLevel", "nextUpdateAt"])
  ]

  /** `runPostProductionEscalationAgent`. */
  function Run(input: Input): (out: Output)
    ensures out.thresholdBreaches == ThresholdBreaches(input.metrics)
    ensures out.triageLevel == EvaluateTriageLevel(input.severity, |input.affectedPartners|, |out.thresholdBreaches|)
    ensures out.suspectedCauses == SuspectedCauses(input.recentChanges, |out.thresholdBreaches|)
    ensures out.autoRemediationRecommended <==> out.triageLevel != Immediate
    ensures out.triageLevel == Immediate ==>
      out.escalationPath == ImmediatePath && out.communications == Communications(15, 30)
    ensures out.triageLevel != Immediate ==>
      out.escalationPath == StandardPath && out.communications == Communications(60, 120)
    ensures out.affectedPartners == input.affectedPartners
  {
    var breaches := ThresholdBreaches(input.metrics);
    var level := EvaluateTriageLevel(input.severity, |input.affectedPartners|, |breaches|);
    var immediate := level == Immediate;
    Output(
      input.incidentId, level, input.affectedPartners, breaches,
      SuspectedCauses(input.recentChanges, |breaches|),
      ContainmentActions,
      if immediate then ImmediatePath else StandardPath,
      if immediate then Communications(15, 30) else Communications(60, 120),
      !immediate,
      ToolContracts)
  }

  /** Two breached metrics escalate immediately, whatever the severity. */
  lemma TwoBreachesEscalate(input: Input, i: nat, j: nat)
    requires i < j < |input.metrics|
    requires IsBreached(input.metrics[i]) && IsBreached(input.metrics[j])
    ensures Run(input).triageLevel == Immediate
    ensures !Run(input).autoRemediationRecommended
  {
    TwoSatisfyCountTwo(input.metrics, IsBreached, i, j);
  }

  /** Two distinct positions satisfying `p` make the count at least two. */
  lemma {:induction false} TwoSatisfyCountTwo<T>(s: seq<T>, p: T -> bool, i: nat, j: nat)
    requires i < j < |s| && p(s[i]) && p(s[j])
    ensures Count(s, p) >= 2
    decreases |s|
  {
    if i == 0 {
      assert s[1..][j - 1] == s[j];
      assert Count(s[1..], p) >= 1;
    } else {
      TwoSatisfyCountTwo(s[1..], p, i - 1, j - 1);
    }
  }

  /** A metric exactly at its threshold is not a breach. */
  lemma AtThresholdIsNoBreach(m: Metric)
    requires m.value == m.threshold
    ensures !IsBreached(m)
  {
  }
}
