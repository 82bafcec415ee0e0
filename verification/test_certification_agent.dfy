/**
 * The test-certification agent: scores test evidence, collects blockers and
 * decides whether a partner implementation is certified.
 */
module TestCertification {
  import opened Base
  import opened ToolRegistry

  datatype TestStatus = TestPass | TestFail | TestBlocked

  datatype TestResult = TestResult(caseId: string, status: TestStatus)

  datatype Criterion = Criterion(name: string, required: Option<bool>, met: bool)

  /** Open defect counts; an absent count reads as zero. */
  datatype DefectSummary = DefectSummary(openCritical: Option<nat>, openHigh: Option<nat>, openMedium: Option<nat>)

  datatype CertStatus = CertPending | CertApproved | CertRejected

  datatype PartnerCertification = PartnerCertification(required: Option<bool>, status: CertStatus)

  datatype Input = Input(
    projectId: string,
    documentType: string,
    testResults: seq<TestResult>,
    certificationCriteria: seq<Criterion>,
    defectSummary: DefectSummary,
    partnerCertification: Option<PartnerCertification>)

  datatype Blocker =
    | CriteriaBlocker(name: string)
    | TestBlocker(name: string, status: TestStatus)
    | DefectBlocker
    | PartnerCertificationBlocker

  datatype Decision = Certified | Conditional | NotReady

  datatype Output = Output(
    projectId: string,
    documentType: string,
    qualityScore: nat,
    certificationDecision: Decision,
    blockers: seq<Blocker>,
    recommendedActions: seq<string>,
    toolContracts: seq<ToolContract>)

  predicate IsPass(r: TestResult) {
    r.status == TestPass
  }

  predicate NotPass(r: TestResult) {
    r.status != TestPass
  }

  /** The points deducted for open defects: 15 per critical, 8 per high, 3 per medium. */
  function Penalty(defects: DefectSummary): nat {
    15 * defects.openCritical.GetOr(0) + 8 * defects.openHigh.GetOr(0) + 3 * defects.openMedium.GetOr(0)
  }

  /** Pass rate in percent, less 15 per open critical, 8 per high and 3 per medium defect, within [0, 100]. */
  function ComputeQualityScore(results: seq<TestResult>, defects: DefectSummary): (score: nat)
    ensures score <= 100
    ensures |results| == 0 ==> score == 0
    ensures |results| > 0 ==> score <= RoundPercent(Count(results, IsPass), |results|)
    ensures score == 0 <==> |results| == 0 || RoundPercent(Count(results, IsPass), |results|) <= Penalty(defects)
    ensures score > 0 ==> score == RoundPercent(Count(results, IsPass), |results|) - Penalty(defects)
  {
    if |results| == 0 then 0
    else
      var rate := RoundPercent(Count(results, IsPass), |results|);
      Clamp(rate - Penalty(defects), 0, 100)
  }

  /** With every test passing and no open defects, the score is 100. */
  lemma AllPassNoDefectsScoresFull(results: seq<TestResult>)
    requires |results| > 0
    requires forall i :: 0 <= i < |results| ==> results[i].status == TestPass
    ensures ComputeQualityScore(results, DefectSummary(None, None, None)) == 100
  {
  }

  /** A criterion is unmet when it is not met and not explicitly optional. */
  predicate Unmet(c: Criterion) {
    !c.met && c.required != Some(false)
  }

  function ToCriteriaBlocker(c: Criterion): Blocker {
    CriteriaBlocker(c.name)
  }

  function ToTestBlocker(r: TestResult): Blocker {
    TestBlocker(r.caseId, r.status)
  }

  /** One blocker per unmet criterion, in criteria order. */
  function CriteriaBlockers(criteria: seq<Criterion>): (bs: seq<Blocker>)
    ensures |bs| == Count(criteria, Unmet)
    ensures forall i :: 0 <= i < |bs| ==> bs[i].CriteriaBlocker?
  {
    MapSeq(Filter(criteria, Unmet), ToCriteriaBlocker)
  }

  /** One blocker per test that did not pass, in result order, carrying its status. */
  function TestBlockers(results: seq<TestResult>): (bs: seq<Blocker>)
    ensures |bs| == Count(results, NotPass)
    ensures forall i :: 0 <= i < |bs| ==> bs[i].TestBlocker? && bs[i].status != TestPass
  {
    var bs := MapSeq(Filter(results, NotPass), ToTestBlocker);
    assert forall i :: 0 <= i < |bs| ==> bs[i].status != TestPass by {
      forall i | 0 <= i < |bs|
        ensures bs[i].status != TestPass
      {
        assert NotPass(Filter(results, NotPass)[i]);
      }
    }
    bs
  }

  /** The criteria blockers name the unmet criteria and nothing else, in criteria order. */
  lemma CriteriaBlockersInOrder(criteria: seq<Criterion>)
    ensures FilterMapped(criteria, Unmet, ToCriteriaBlocker, CriteriaBlockers(criteria))
  {
    FilterMapInOrder(criteria, Unmet, ToCriteriaBlocker);
  }

  /** The test blockers name the tests that did not pass and nothing else, in result order. */
  lemma TestBlockersInOrder(results: seq<TestResult>)
    ensures FilterMapped(results, NotPass, ToTestBlocker, TestBlockers(results))
  {
    FilterMapInOrder(results, NotPass, ToTestBlocker);
  }

  predicate PartnerCertificationIncomplete(p: Option<PartnerCertification>) {
    p.Some? && p.value.required == Some(true) && p.value.status != CertApproved
  }

  /** Blockers in order: unmet criteria, non-passing tests, critical defects, partner certification. */
  function Blockers(input: Input): (bs: seq<Blocker>)
    ensures |bs| == Count(input.certificationCriteria, Unmet) + Count(input.testResults, NotPass)
                    + (if input.defectSummary.openCritical.GetOr(0) > 0 then 1 else 0)
                    + (if PartnerCertificationIncomplete(input.partnerCertification) then 1 else 0)
    ensures |CriteriaBlockers(input.certificationCriteria)| + |TestBlockers(input.testResults)| <= |bs|
    ensures DefectBlocker in bs <==> input.defectSummary.openCritical.GetOr(0) > 0
    ensures PartnerCertificationBlocker in bs <==> PartnerCertificationIncomplete(input.partnerCertification)
  {
    var cb := CriteriaBlockers(input.certificationCriteria);
    var tb := TestBlockers(input.testResults);
    var db := if input.defectSummary.openCritical.GetOr(0) > 0 then [DefectBlocker] else [];
    var pb := if PartnerCertificationIncomplete(input.partnerCertification) then [PartnerCertificationBlocker] else [];
    assert DefectBlocker !in cb + tb;
    assert PartnerCertificationBlocker !in cb + tb + db;
    cb + tb + db + pb
  }

  /**
   * The blockers come in four groups, in this order: the unmet criteria in
   * criteria order, the tests that did not pass in result order, then the
   * critical-defect blocker and the partner-certification blocker when due.
   */
  lemma BlockersInOrder(input: Input)
    ensures var bs := Blockers(input);
            var a := |CriteriaBlockers(input.certificationCriteria)|;
            var b := a + |TestBlockers(input.testResults)|;
            && FilterMapped(input.certificationCriteria, Unmet, ToCriteriaBlocker, bs[..a])
            && FilterMapped(input.testResults, NotPass, ToTestBlocker, bs[a..b])
            && bs[b..] == (if input.defectSummary.openCritical.GetOr(0) > 0 then [DefectBlocker] else [])
                          + (if PartnerCertificationIncomplete(input.partnerCertification) then [PartnerCertificationBlocker] else [])
  {
    CriteriaGroupInOrder(input);
    TestGroupInOrder(input);
    BlockersTail(input);
  }

  lemma BlockersTail(input: Input)
    ensures Blockers(input)[|CriteriaBlockers(input.certificationCriteria)| + |TestBlockers(input.testResults)|..] ==
      (if input.defectSummary.openCritical.GetOr(0) > 0 then [DefectBlocker] else [])
      + (if PartnerCertificationIncomplete(input.partnerCertification) then [PartnerCertificationBlocker] else [])
  {
    var cb := CriteriaBlockers(input.certificationCriteria);
    var tb := TestBlockers(input.testResults);
    var db := if input.defectSummary.openCritical.GetOr(0) > 0 then [DefectBlocker] else [];
    var pb := if PartnerCertificationIncomplete(input.partnerCertification) then [PartnerCertificationBlocker] else [];
    assert Blockers(input) == cb + tb + (db + pb);
  }

  lemma CriteriaGroupInOrder(input: Input)
    ensures FilterMapped(input.certificationCriteria, Unmet, ToCriteriaBlocker,
                         Blockers(input)[..|CriteriaBlockers(input.certificationCriteria)|])
  {
    BlockersLayout(input);
    CriteriaBlockersInOrder(input.certificationCriteria);
  }

  lemma TestGroupInOrder(input: Input)
    ensures var a := |CriteriaBlockers(input.certificationCriteria)|;
            FilterMapped(input.testResults, NotPass, ToTestBlocker,
                         Blockers(input)[a..a + |TestBlockers(input.testResults)|])
  {
    BlockersLayout(input);
    TestBlockersInOrder(input.testResults);
  }

  lemma BlockersLayout(input: Input)
    ensures var bs := Blockers(input);
            var a := |CriteriaBlockers(input.certificationCriteria)|;
            var b := a + |TestBlockers(input.testResults)|;
            && bs[..a] == CriteriaBlockers(input.certificationCriteria)
            && bs[a..b] == TestBlockers(input.testResults)
  {
    var cb := CriteriaBlockers(input.certificationCriteria);
    var tb := TestBlockers(input.testResults);
    var rest := Blockers(input)[|cb| + |tb|..];
    assert Blockers(input) == cb + tb + rest;
    assert (cb + tb + rest)[..|cb|] == cb;
    assert (cb + tb + rest)[|cb|..|cb| + |tb|] == tb;
  }

  /** Nothing blocks certification exactly when all required criteria are met, all tests pass,
      there is no open critical defect and partner certification is not outstanding. */
  lemma NoBlockersIff(input: Input)
    ensures |Blockers(input)| == 0 <==>
      && (forall i :: 0 <= i < |input.certificationCriteria| ==> !Unmet(input.certificationCriteria[i]))
      && (forall i :: 0 <= i < |input.testResults| ==> input.testResults[i].status == TestPass)
      && input.defectSummary.openCritical.GetOr(0) == 0
      && !PartnerCertificationIncomplete(input.partnerCertification)
  {
  }

  const ResolveBlockersAction: string := "Resolve blockers and re-run certification workflow"
  const ProceedAction: string := "Proceed to deployment readiness gate"

  const ToolContracts: seq<ToolContract> := [
    ToolContract("test.execution.run", "Execute E2E test suite for certification", ["projectId", "documentType", "suiteId"]),
    ToolContract("defect.tracker.sync", "Sync open defect status into certification report", ["projectId", "defectSummary"]),
    ToolContract("certification.report.publish", "Publish certification decision and evidence",
                 ["projectId", "qualityScore", "certificationDecision", "blockers"])
  ]

  /** `runTestCertificationAgent`. */
  function Run(input: Input): (out: Output)
    ensures out.qualityScore == ComputeQualityScore(input.testResults, input.defectSummary)
    ensures out.blockers == Blockers(input)
    ensures out.certificationDecision == Certified <==> |out.blockers| == 0
    ensures out.certificationDecision == Conditional <==> |out.blockers| > 0 && out.qualityScore >= 80
    ensures out.certificationDecision == NotReady <==> |out.blockers| > 0 && out.qualityScore < 80
    ensures out.recommendedActions == (if |out.blockers| > 0 then [ResolveBlockersAction] else [ProceedAction])
  {
    var score := ComputeQualityScore(input.testResults, input.defectSummary);
    var blockers := Blockers(input);
    var decision := if |blockers| > 0 then (if score >= 80 then Conditional else NotReady) else Certified;
    Output(input.projectId, input.documentType, score, decision, blockers,
           if |blockers| > 0 then [ResolveBlockersAction] else [ProceedAction],
           ToolContracts)
  }

  /** An open critical defect always withholds certification. */
  lemma CriticalDefectPreventsCertification(input: Input)
    requires input.defectSummary.openCritical.GetOr(0) > 0
    ensures Run(input).certificationDecision != Certified
  {
  }
}
