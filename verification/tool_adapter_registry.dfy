/**
 * Per-adapter payload transforms applied to a tool handler's output before
 * it is reported as an executed tool result.
 */
module ToolAdapters {
  import opened Base
  import opened Json

  /**
   * The three adapters, and what an id naming an `Object.prototype` member
   * finds: that inherited member, which has no `transform`.
   */
  datatype ToolAdapter = DefaultAdapter | Passthrough | AcmeTool | InheritedMember

  function Id(a: ToolAdapter): string
    requires a != InheritedMember
  {
    match a
    case DefaultAdapter => "default"
    case Passthrough => "canonical"
    case AcmeTool => "acme_edi"
  }

  /** `adapters[adapterId] ?? defaultAdapter`. */
  function GetToolAdapter(adapterId: string): (a: ToolAdapter)
    ensures a == Passthrough || a == AcmeTool ==> Id(a) == adapterId
    ensures a == InheritedMember <==> adapterId in ObjectPrototypeMembers
    ensures a == DefaultAdapter <==>
      adapterId != "canonical" && adapterId != "acme_edi" && adapterId !in ObjectPrototypeMembers
  {
    if adapterId == "canonical" then Passthrough
    else if adapterId == "acme_edi" then AcmeTool
    else if adapterId in ObjectPrototypeMembers then InheritedMember
    else DefaultAdapter
  }

  /** The TypeError raised by calling `transform` on an inherited member. */
  const TransformNotAFunction: string := "adapter.transform is not a function"

  datatype ToolOutput = ToolOutput(toolName: string, payload: map<string, Raw>)

  /**
   * The adapter's transform: default and canonical pass the payload through;
   * Acme adds (or overwrites) `source: 'acme_edi'` and keeps every other key.
   */
  function Transform(a: ToolAdapter, toolName: string, payload: map<string, Raw>): (o: Result<ToolOutput>)
    ensures o.Err? <==> a == InheritedMember
    ensures o.Err? ==> o.message == TransformNotAFunction
    ensures o.Ok? ==> o.value.toolName == toolName
    ensures a == DefaultAdapter || a == Passthrough ==> o.value.payload == payload
    ensures a == AcmeTool ==> o.value.payload.Keys == payload.Keys + {"source"}
    ensures a == AcmeTool ==> o.value.payload["source"] == RStr("acme_edi")
    ensures a == AcmeTool ==> forall k :: k in payload && k != "source" ==> o.value.payload[k] == payload[k]
  {
    match a
    case AcmeTool => Ok(ToolOutput(toolName, payload["source" := RStr("acme_edi")]))
    case InheritedMember => Err(TransformNotAFunction)
    case _ => Ok(ToolOutput(toolName, payload))
  }

  /** Applying the Acme transform twice is the same as applying it once. */
  lemma AcmeTransformIdempotent(toolName: string, payload: map<string, Raw>)
    ensures Transform(AcmeTool, toolName, Transform(AcmeTool, toolName, payload).value.payload)
         == Transform(AcmeTool, toolName, payload)
  {
    var once := payload["source" := RStr("acme_edi")];
    assert once["source" := RStr("acme_edi")] == once;
  }
}
