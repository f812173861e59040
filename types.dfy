/** The node graph and the settings of the workbench (src/logic/model.ts, lines 10-101). */
module Types {
  import opened Wrappers

  /** React Flow's node `type`, which always agrees with `data.type`. */
  datatype NodeType = ProvidedImageType | GeneratedImageType | InpaintingType

  /** Life cycle of a generated image: `'prompt' | 'processing' | 'completed'`. */
  datatype Status = Prompt | Processing | Completed

  /**
   * The payload of a node, one variant per node type. A generated image
   * has no image (and no size) until a generation has succeeded.
   */
  datatype NodeData =
    | ProvidedImageData(name: string, imageB64: string, width: int, height: int)
    | GeneratedImageData(prompt: string, name: string, generatedB64: Option<string>, status: Status,
                         costDollars: Option<real>, generatedWidth: Option<int>, generatedHeight: Option<int>)
    | InpaintingData(name: string, imageB64: string, width: int, height: int)
  {
    function Type(): NodeType {
      match this
      case ProvidedImageData(_, _, _, _) => ProvidedImageType
      case GeneratedImageData(_, _, _, _, _, _, _) => GeneratedImageType
      case InpaintingData(_, _, _, _) => InpaintingType
    }

    /** `data.imageB64` */
    function ImageB64(): Option<string> {
      if GeneratedImageData? then generatedB64 else Some(imageB64)
    }

    /** True for the node types whose image is a generation input (provided or generated). */
    predicate IsImageBearing() {
      ProvidedImageData? || GeneratedImageData?
    }
  }

  datatype Node = Node(id: string, data: NodeData)

  /** A directed edge: `source` feeds `target`. */
  datatype Edge = Edge(id: string, source: string, target: string)

  /** `modelSettings.provider`; `OtherProvider` stands for any value outside the declared three. */
  datatype Provider = OpenAI | Gemini | Replicate | OtherProvider(name: string)

  function ProviderName(p: Provider): string {
    match p
    case OpenAI => "openai"
    case Gemini => "gemini"
    case Replicate => "replicate"
    case OtherProvider(name) => name
  }

  /** `{ openai?: string; gemini?: string; replicate?: string }` */
  datatype ApiKeys = ApiKeys(openai: Option<string>, gemini: Option<string>, replicate: Option<string>)

  const NoApiKeys := ApiKeys(None, None, None)

  /** `Object.keys(keys).length` */
  function KeyCount(keys: ApiKeys): (n: nat)
    ensures n <= 3
    ensures n == 0 <==> keys == NoApiKeys
  {
    (if keys.openai.Some? then 1 else 0)
    + (if keys.gemini.Some? then 1 else 0)
    + (if keys.replicate.Some? then 1 else 0)
  }

  datatype ModelSettings = ModelSettings(
    provider: Provider,
    quality: string,
    size: string,
    background: string,
    replicateEditingModel: string,
    replicateGenerationModel: string,
    apiKeys: Option<ApiKeys>)

  /** The settings the application starts with. */
  const DefaultModelSettings :=
    ModelSettings(OpenAI, "medium", "1024x1024", "auto", "flux-kontext-pro", "flux-schnell", Some(NoApiKeys))

  /** The index `nodes.find(n => n.id === id)` stops at. */
  function FirstIndex(nodes: seq<Node>, id: string): (r: Option<nat>)
    ensures r.Some? ==> r.value < |nodes| && nodes[r.value].id == id
    ensures r.Some? ==> forall j :: 0 <= j < r.value ==> nodes[j].id != id
    ensures r.None? ==> forall j :: 0 <= j < |nodes| ==> nodes[j].id != id
  {
    if nodes == [] then None
    else if nodes[0].id == id then Some(0)
    else match FirstIndex(nodes[1..], id)
      case None => None
      case Some(k) => Some(k + 1)
  }

  /** `nodes.find(n => n.id === id)`: the first node with that id, if any. */
  function FindNode(nodes: seq<Node>, id: string): (r: Option<Node>)
    ensures r.Some? ==> r.value in nodes && r.value.id == id
    ensures r.None? <==> forall j :: 0 <= j < |nodes| ==> nodes[j].id != id
    ensures r.Some? ==> FirstIndex(nodes, id).Some? && r.value == nodes[FirstIndex(nodes, id).value]
  {
    match FirstIndex(nodes, id)
    case None => None
    case Some(k) => Some(nodes[k])
  }

  /** `nodes.filter(n => n.type === 'generated-image').find(n => n.id === id)`, as an index. */
  function FirstGeneratedIndex(nodes: seq<Node>, id: string): (r: Option<nat>)
    ensures r.Some? ==> r.value < |nodes| && nodes[r.value].id == id && nodes[r.value].data.GeneratedImageData?
    ensures r.Some? ==> forall j :: 0 <= j < r.value ==> !(nodes[j].id == id && nodes[j].data.GeneratedImageData?)
    ensures r.None? ==> forall j :: 0 <= j < |nodes| ==> !(nodes[j].id == id && nodes[j].data.GeneratedImageData?)
  {
    if nodes == [] then None
    else if nodes[0].id == id && nodes[0].data.GeneratedImageData? then Some(0)
    else match FirstGeneratedIndex(nodes[1..], id)
      case None => None
      case Some(k) => Some(k + 1)
  }

  /** When the first node carrying an id is a generated image, the filtered search finds that same node. */
  lemma FirstGeneratedAgrees(nodes: seq<Node>, id: string)
    requires FirstIndex(nodes, id).Some? && nodes[FirstIndex(nodes, id).value].data.GeneratedImageData?
    ensures FirstGeneratedIndex(nodes, id) == FirstIndex(nodes, id)
  {
    var k := FirstIndex(nodes, id).value;
    var g := FirstGeneratedIndex(nodes, id);
    assert g.Some?;
    assert !(g.value < k) && !(k < g.value);
  }
}
