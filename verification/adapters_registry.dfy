/**
 * The registry of inbound document adapters, keyed by adapter id.
 */
module DocumentAdapters {
  import opened Base
  import opened Json
  import opened Documents
  import AcmeEdiAdapter
  import CanonicalAdapter

  datatype Adapter = Canonical | AcmeEdi

  function Id(a: Adapter): string {
    match a
    case Canonical => "canonical"
    case AcmeEdi => "acme_edi"
  }

  function Name(a: Adapter): string {
    match a
    case Canonical => "Canonical JSON Adapter"
    case AcmeEdi => "Acme EDI Product Adapter"
  }

  /** The registered adapters in registration order. */
  const Registered: seq<Adapter> := [Canonical, AcmeEdi]

  function UnknownAdapterMessage(adapterId: string): string {
    "Unknown adapter \"" + adapterId + "\". Available: " + Join(seq(|Registered|, i requires 0 <= i < |Registered| => Id(Registered[i])), ", ")
  }

  /** The TypeError raised when an inherited member is used as an adapter. */
  const NormalizeNotAFunction: string := "adapter.normalizeDocument is not a function"

  /**
   * Looks an adapter up by id; unknown ids raise an error naming the
   * available ones. An id naming an `Object.prototype` member finds that
   * truthy member instead, and the engine's first `normalizeDocument` call
   * on it throws a TypeError; the engine is the only caller, so that error
   * is raised here.
   */
  function GetAdapter(adapterId: string): (r: Result<Adapter>)
    ensures r.Ok? <==> adapterId == "canonical" || adapterId == "acme_edi"
    ensures r.Ok? ==> Id(r.value) == adapterId && r.value in Registered
    ensures adapterId in ObjectPrototypeMembers ==> r == Err(NormalizeNotAFunction)
    ensures r.Err? && adapterId !in ObjectPrototypeMembers ==> r.message == UnknownAdapterMessage(adapterId)
  {
    if adapterId == "canonical" then Ok(Canonical)
    else if adapterId == "acme_edi" then Ok(AcmeEdi)
    else if adapterId in ObjectPrototypeMembers then Err(NormalizeNotAFunction)
    else Err(UnknownAdapterMessage(adapterId))
  }

  /** The error for an unknown id mentions every registered adapter id. */
  lemma UnknownAdapterMessageListsIds(adapterId: string, a: Adapter)
    ensures Contains(UnknownAdapterMessage(adapterId), Id(a))
  {
    var ids := seq(|Registered|, i requires 0 <= i < |Registered| => Id(Registered[i]));
    var k := if a == Canonical then 0 else 1;
    assert ids[k] == Id(a);
    JoinContainsParts(ids, ", ", k);
    ContainsSuffix("Unknown adapter \"" + adapterId + "\". Available: ", Join(ids, ", "), Id(a));
  }

  datatype AdapterInfo = AdapterInfo(id: string, name: string)

  /** One `{id, name}` entry per registered adapter, in registration order. */
  function ListAdapters(): (infos: seq<AdapterInfo>)
    ensures |infos| == |Registered|
    ensures forall i :: 0 <= i < |infos| ==> infos[i] == AdapterInfo(Id(Registered[i]), Name(Registered[i]))
    ensures forall i, j :: 0 <= i < j < |infos| ==> infos[i].id != infos[j].id
  {
    seq(|Registered|, i requires 0 <= i < |Registered| => AdapterInfo(Id(Registered[i]), Name(Registered[i])))
  }

  /** Every listed id resolves to the adapter it was listed for. */
  lemma ListedAdaptersResolve(i: nat)
    requires i < |ListAdapters()|
    ensures GetAdapter(ListAdapters()[i].id) == Ok(Registered[i])
  {
  }

  /** `adapter.normalizeDocument(document)`. */
  function Normalize(a: Adapter, c: Coercion, document: Raw, freshId: string): (r: Result<Document>)
    ensures r.Err? <==> !Truthy(document) || !IsObjectLike(document)
    ensures r.Ok? ==> r.value.sourceTrace.adapter == Id(a)
  {
    match a
    case Canonical => CanonicalAdapter.NormalizeDocument(c, document, freshId)
    case AcmeEdi => AcmeEdiAdapter.NormalizeDocument(c, document, freshId)
  }
}
