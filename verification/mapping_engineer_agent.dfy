/**
 * The mapping-engineer agent: turns mapping intent into numbered mapping
 * rules, generates regression test cases and warns about empty intent and
 * custom transforms.
 */
module MappingEngineer {
  import opened Base
  import opened ToolRegistry

  datatype MappingIntent = MappingIntent(
    sourceField: string,
    targetField: string,
    transform: Option<string>,
    required: Option<bool>,
    defaultValue: Option<string>,
    validation: Option<string>)

  datatype Input = Input(projectId: string, partnerId: string, documentType: string, mappingIntent: seq<MappingIntent>)

  /** A rule; absent default values and validations are `null` (here `None`). */
  datatype MappingRule = MappingRule(
    sequence: nat,
    targetField: string,
    sourceField: string,
    transform: string,
    required: bool,
    defaultValue: Option<string>,
    validation: Option<string>)

  datatype Expectation = ExpectPass | ExpectFail

  datatype TestCase = TestCase(id: string, description: string, expected: Expectation)

  datatype Output = Output(
    projectId: string,
    partnerId: string,
    documentType: string,
    mappingRules: seq<MappingRule>,
    generatedTestCases: seq<TestCase>,
    deploymentPlan: seq<string>,
    warnings: seq<string>,
    toolContracts: seq<ToolContract>)

  function BuildRule(item: MappingIntent, index: nat): MappingRule {
    MappingRule(index + 1, item.targetField, item.sourceField, item.transform.GetOr("direct_map"),
                item.required.GetOr(false), item.defaultValue, item.validation)
  }

  /** One rule per intent, numbered from 1, transform defaulting to a direct map. */
  function BuildMappingRules(intent: seq<MappingIntent>): (rules: seq<MappingRule>)
    ensures |rules| == |intent|
    ensures forall i :: 0 <= i < |rules| ==>
      rules[i].sequence == i + 1 &&
      rules[i].targetField == intent[i].targetField &&
      rules[i].sourceField == intent[i].sourceField &&
      (intent[i].transform.None? ==> rules[i].transform == "direct_map") &&
      (intent[i].transform.Some? ==> rules[i].transform == intent[i].transform.value) &&
      (rules[i].required <==> intent[i].required == Some(true)) &&
      rules[i].defaultValue == intent[i].defaultValue &&
      rules[i].validation == intent[i].validation
  {
    seq(|intent|, i requires 0 <= i < |intent| => BuildRule(intent[i], i))
  }

  /** Reading a rule back as intent gives the original intent, defaults made explicit. */
  function RuleToIntent(rule: MappingRule): MappingIntent {
    MappingIntent(rule.sourceField, rule.targetField, Some(rule.transform), Some(rule.required),
                  rule.defaultValue, rule.validation)
  }

  /** Building the rules of the rules' own intent numbers and fills them identically. */
  lemma RulesRoundTrip(intent: seq<MappingIntent>)
    ensures BuildMappingRules(MapSeq(BuildMappingRules(intent), RuleToIntent)) == BuildMappingRules(intent)
  {
  }

  predicate IsRequiredRule(r: MappingRule) {
    r.required
  }

  function RuleTarget(r: MappingRule): string {
    r.targetField
  }

  /** The target fields of the required rules joined with ", ", or "none" when that is empty. */
  function RequiredTargetsText(rules: seq<MappingRule>): (text: string)
    ensures forall i :: 0 <= i < |rules| && rules[i].required ==> Contains(text, rules[i].targetField)
    ensures (forall i :: 0 <= i < |rules| ==> !rules[i].required) ==> text == "none"
  {
    var targets := MapSeq(Filter(rules, IsRequiredRule), RuleTarget);
    var joined := Join(targets, ", ");
    var text := if joined == "" then "none" else joined;
    assert forall i :: 0 <= i < |rules| && rules[i].required ==> Contains(text, rules[i].targetField) by {
      forall i | 0 <= i < |rules| && rules[i].required
        ensures Contains(text, rules[i].targetField)
      {
        FilterMapHas(rules, IsRequiredRule, RuleTarget, i);
        var k :| 0 <= k < |targets| && targets[k] == rules[i].targetField;
        JoinContainsParts(targets, ", ", k);
        if joined == "" {
          EmptyContainsOnlyEmpty(rules[i].targetField);
          ContainsInside("", "", "none");
          assert "" + "" + "none" == "none";
        }
      }
    }
    text
  }

  /**
   * The text is exactly the required rules' target fields, in rule order,
   * joined with ", ", with "none" standing in for an empty join.
   */
  lemma RequiredTargetsTextIsJoin(rules: seq<MappingRule>)
    ensures exists targets ::
      && FilterMapped(rules, IsRequiredRule, RuleTarget, targets)
      && RequiredTargetsText(rules) == (if Join(targets, ", ") == "" then "none" else Join(targets, ", "))
  {
    var targets := MapSeq(Filter(rules, IsRequiredRule), RuleTarget);
    FilterMapInOrder(rules, IsRequiredRule, RuleTarget);
    assert FilterMapped(rules, IsRequiredRule, RuleTarget, targets);
  }

  /** Only the empty string occurs in the empty string. */
  lemma EmptyContainsOnlyEmpty(sub: string)
    requires Contains("", sub)
    ensures sub == ""
  {
  }

  /** Happy path and missing-required cases, plus a total-variance case for invoices. */
  function BuildTestCases(documentType: string, rules: seq<MappingRule>): (cases: seq<TestCase>)
    ensures |cases| == (if documentType == "invoice" then 3 else 2)
    ensures cases[0] == TestCase(documentType + "-happy-path", "Valid payload maps successfully", ExpectPass)
    ensures cases[1] == TestCase(documentType + "-missing-required",
                                 "Missing required target fields: " + RequiredTargetsText(rules), ExpectFail)
    ensures documentType == "invoice" ==> cases[2].id == "invoice-total-variance" && cases[2].expected == ExpectFail
  {
    var base := [
      TestCase(documentType + "-happy-path", "Valid payload maps successfully", ExpectPass),
      TestCase(documentType + "-missing-required", "Missing required target fields: " + RequiredTargetsText(rules), ExpectFail)
    ];
    if documentType == "invoice" then
      base + [TestCase("invoice-total-variance", "Invoice total outside tolerance should raise exception", ExpectFail)]
    else base
  }

  predicate IsCustom(r: MappingRule) {
    r.transform == "custom_transform"
  }

  const EmptyIntentWarning: string := "No mapping intent provided; generated rule set is empty"

  function CustomWarning(count: nat): string {
    NatToString(count) + " fields require custom transforms and code review"
  }

  /**
   * A warning for an empty rule set, otherwise one counting the custom
   * transforms when there are any.
   */
  function Warnings(rules: seq<MappingRule>): (ws: seq<string>)
    ensures |rules| == 0 ==> ws == [EmptyIntentWarning]
    ensures |rules| > 0 && (forall i :: 0 <= i < |rules| ==> !IsCustom(rules[i])) ==> ws == []
    ensures (exists i :: 0 <= i < |rules| && IsCustom(rules[i])) ==> ws == [CustomWarning(Count(rules, IsCustom))]
  {
    var custom := Count(rules, IsCustom);
    (if |rules| == 0 then [EmptyIntentWarning] else [])
    + (if custom > 0 then [CustomWarning(custom)] else [])
  }

  const DeploymentPlan: seq<string> := [
    "Apply mapping rules in lower environment",
    "Run regression suite and partner certification tests",
    "Promote mapping package with change ticket linkage"
  ]

  const ToolContracts: seq<ToolContract> := [
    ToolContract("cleo.mapping.apply", "Apply generated mapping rules to CIC tenant project",
                 ["tenantId", "projectId", "mappingRules"]),
    ToolContract("transform.function.deploy", "Deploy custom transformation helpers required by the mapping",
                 ["projectId", "functionSpecs", "version"]),
    ToolContract("test.suite.execute", "Execute generated mapping regression suite",
                 ["projectId", "testCases", "environment"])
  ]

  /** `runMappingEngineerAgent`. */
  function Run(input: Input): (out: Output)
    ensures out.mappingRules == BuildMappingRules(input.mappingIntent)
    ensures out.generatedTestCases == BuildTestCases(input.documentType, out.mappingRules)
    ensures out.warnings == Warnings(out.mappingRules)
  {
    var rules := BuildMappingRules(input.mappingIntent);
    Output(input.projectId, input.partnerId, input.documentType, rules,
           BuildTestCases(input.documentType, rules), DeploymentPlan, Warnings(rules), ToolContracts)
  }

  /** Intent with no custom transform and at least one entry produces no warning. */
  lemma NoWarningsForPlainIntent(input: Input)
    requires |input.mappingIntent| > 0
    requires forall i :: 0 <= i < |input.mappingIntent| ==> input.mappingIntent[i].transform != Some("custom_transform")
    ensures Run(input).warnings == []
  {
    var rules := Run(input).mappingRules;
    assert forall i :: 0 <= i < |rules| ==> !IsCustom(rules[i]);
  }
}
