/**
 * The application state and the node operations of src/logic/model.ts.
 *
 * `AppState` is the valtio proxy: a class whose fields the operations
 * update in place. The browser's key storage is two fields (the key
 * record and the legacy single-key slot), and the toasts the operations
 * raise through the toast bridge are appended to `notices`. Fresh uuids
 * (`v4()`), the image-size probe and the provider adapters are parameters.
 */
module Model {
  import opened Wrappers
  import opened Text
  import opened Types
  import Generate

  /** `appState.inpainter` */
  datatype InpainterState = InpainterState(visible: bool, blockId: Option<string>, imageB64: Option<string>)

  /** How an operation ended: normally, or by throwing an `Error` with a message. */
  datatype Completion = Normal | Thrown(message: string)

  /** A toast raised through `showToast(message, duration)`. */
  datatype Notice = Notice(message: string, duration: int)

  const DefaultInpainter := InpainterState(false, None, None)
  const KeysSavedMessage := "API keys saved!"
  const KeysClearedMessage := "All API keys cleared!"
  const ErrorToastDuration := 5000
  const InfoToastDuration := 3000

  /** The string a node type is written as. */
  function TypeName(t: NodeType): string {
    match t
    case ProvidedImageType => "provided-image"
    case GeneratedImageType => "generated-image"
    case InpaintingType => "inpainting"
  }

  function NotFoundMessage(id: string): string { "Node with id " + id + " not found" }
  function WrongTypeMessage(id: string, t: NodeType): string { "Node with id " + id + " is not of type " + TypeName(t) }
  function NoImageMessage(id: string): string { "Node with id " + id + " does not have an image" }
  function NotInpaintingMessage(id: string): string { "Node with id " + id + " is not an inpainting node" }
  function NotGeneratedMessage(id: string): string { "Node with id " + id + " is not a generated image node" }

  /** `c.toUpperCase()` on the ASCII letters; every other character is kept. */
  function UpperAscii(c: char): char {
    if 'a' <= c <= 'z' then (c as int - 32) as char else c
  }

  /** `s.charAt(0).toUpperCase() + s.slice(1)` */
  function Capitalised(s: string): (r: string)
    ensures |r| == |s|
    ensures s != [] ==> r[0] == UpperAscii(s[0]) && r[1..] == s[1..]
  {
    if s == [] then [] else [UpperAscii(s[0])] + s[1..]
  }

  /** The prefix of every error toast the store raises. */
  const ErrorToastPrefix := "Error: "
  const MissingKeySuffix := " API key is required for image generation. Please configure your API keys in the toolbar."

  function MissingKeyMessage(p: Provider): string {
    ErrorToastPrefix + Capitalised(ProviderName(p)) + MissingKeySuffix
  }

  /** The key slot of `apiKeys` that belongs to the provider; none for an unknown provider. */
  function KeyFor(keys: Option<ApiKeys>, p: Provider): (key: Option<string>)
    ensures p.OtherProvider? || keys.None? ==> key == None
    ensures keys.Some? && p.OpenAI? ==> key == keys.value.openai
    ensures keys.Some? && p.Gemini? ==> key == keys.value.gemini
    ensures keys.Some? && p.Replicate? ==> key == keys.value.replicate
  {
    if keys.None? then None
    else match p
      case OpenAI => keys.value.openai
      case Gemini => keys.value.gemini
      case Replicate => keys.value.replicate
      case OtherProvider(_) => None
  }

  /** `hasApiKey` in `generateImage`: the selected provider's key slot is set and not empty. */
  predicate HasApiKey(settings: ModelSettings) {
    Truthy(KeyFor(settings.apiKeys, settings.provider))
  }

  /** A generated node that has an image also has its size; the other node kinds always do. */
  predicate HasDimensions(d: NodeData) {
    d.GeneratedImageData? && d.generatedB64.Some? ==> d.generatedWidth.Some? && d.generatedHeight.Some?
  }

  /** `data.width!` and `data.height!` of a node whose image is set. */
  function Dimensions(d: NodeData): (int, int)
    requires HasDimensions(d) && d.ImageB64().Some?
  {
    if d.GeneratedImageData? then (d.generatedWidth.value, d.generatedHeight.value) else (d.width, d.height)
  }

  /** A generated node's data with only its status changed. */
  function WithStatus(d: NodeData, status: Status): (r: NodeData)
    requires d.GeneratedImageData?
    ensures r.GeneratedImageData? && r.status == status
    ensures r.prompt == d.prompt && r.name == d.name && r.generatedB64 == d.generatedB64
    ensures r.costDollars == d.costDollars
    ensures r.generatedWidth == d.generatedWidth && r.generatedHeight == d.generatedHeight
  {
    GeneratedImageData(d.prompt, d.name, d.generatedB64, status, d.costDollars, d.generatedWidth, d.generatedHeight)
  }

  /**
   * The data of a generated node once the generation outcome is known:
   * still processing when it threw, back to prompt on an error value,
   * completed with the image, its cost and its size on success.
   */
  function Settle(d: NodeData, outcome: Run<Generate.GenerateImageResult>, imageSize: string -> (int, int)): (r: NodeData)
    requires d.GeneratedImageData?
    ensures r.GeneratedImageData? && r.prompt == d.prompt && r.name == d.name
    ensures outcome.Threw? ==> r == WithStatus(d, Processing)
    ensures outcome.Returned? && outcome.value.Error? ==> r == WithStatus(d, Prompt)
    ensures outcome.Returned? && outcome.value.Success? ==>
              r.status == Completed && r.generatedB64 == Some(outcome.value.imageB64)
              && r.costDollars == outcome.value.costDollars
              && r.generatedWidth == Some(imageSize(outcome.value.imageB64).0)
              && r.generatedHeight == Some(imageSize(outcome.value.imageB64).1)
    ensures HasDimensions(d) ==> HasDimensions(r)
  {
    if outcome.Threw? then WithStatus(d, Processing)
    else if outcome.value.Error? then WithStatus(d, Prompt)
    else
      var image := outcome.value.imageB64;
      var (w, h) := imageSize(image);
      GeneratedImageData(d.prompt, d.name, Some(image), Completed, outcome.value.costDollars, Some(w), Some(h))
  }

  /** A JavaScript `\w` character or a hyphen: the characters a file name keeps. */
  predicate IsNameChar(c: char) {
    'A' <= c <= 'Z' || 'a' <= c <= 'z' || '0' <= c <= '9' || c == '_' || c == '-'
  }

  /** `name.replace(/[^\w\-]/g, '_')` */
  function SanitizeName(name: string): (r: string)
    ensures |r| == |name|
    ensures forall i :: 0 <= i < |r| ==> IsNameChar(r[i])
    ensures forall i :: 0 <= i < |r| ==> (r[i] == name[i] <==> IsNameChar(name[i]))
    ensures forall i :: 0 <= i < |r| ==> !IsNameChar(name[i]) ==> r[i] == '_'
  {
    seq(|name|, i requires 0 <= i < |name| => if IsNameChar(name[i]) then name[i] else '_')
  }

  /** Sanitising is idempotent: a sanitised name is its own sanitised form. */
  lemma SanitizeIdempotent(name: string)
    ensures SanitizeName(SanitizeName(name)) == SanitizeName(name)
  {
    var s := SanitizeName(name);
    assert forall i :: 0 <= i < |s| ==> SanitizeName(s)[i] == s[i];
  }

  /** An inpainting node's data with its image replaced by the mask; name and size are kept. */
  function MaskReplaced(d: NodeData, maskB64: string): (r: NodeData)
    requires d.InpaintingData?
    ensures r.InpaintingData? && r.imageB64 == maskB64
    ensures r.name == d.name && r.width == d.width && r.height == d.height
  {
    InpaintingData(d.name, maskB64, d.width, d.height)
  }

  /** One PNG file `persistState` writes: its file name and its base64 content. */
  datatype PngFile = PngFile(fileName: string, contentB64: string)

  /** `nodes.filter(node => node.data.imageB64 !== undefined)` */
  function NodesWithImage(nodes: seq<Node>): (r: seq<Node>)
    ensures |r| <= |nodes|
    ensures forall n :: n in r <==> n in nodes && n.data.ImageB64().Some?
  {
    if nodes == [] then []
    else
      var rest := NodesWithImage(nodes[1..]);
      assert forall n :: n in nodes <==> n == nodes[0] || n in nodes[1..];
      if nodes[0].data.ImageB64().Some? then [nodes[0]] + rest else rest
  }

  /** The PNG files `persistState` writes: one per node with an image, named after its sanitised name. */
  function PersistedFiles(nodes: seq<Node>): (files: seq<PngFile>)
    ensures |files| <= |nodes|
    ensures |files| == |NodesWithImage(nodes)|
    ensures forall n :: n in nodes && n.data.ImageB64().Some? ==>
              PngFile(SanitizeName(n.data.name) + ".png", n.data.ImageB64().value) in files
    ensures forall f :: f in files ==>
              exists n :: n in nodes && n.data.ImageB64().Some?
                          && f == PngFile(SanitizeName(n.data.name) + ".png", n.data.ImageB64().value)
    ensures forall k :: 0 <= k < |files| ==>
              |files[k].fileName| >= 4 && files[k].fileName[|files[k].fileName| - 4..] == ".png"
  {
    var withImage := NodesWithImage(nodes);
    var files := seq(|withImage|, k requires 0 <= k < |withImage| =>
                       PngFile(SanitizeName(withImage[k].data.name) + ".png", withImage[k].data.ImageB64().value));
    forall n | n in nodes && n.data.ImageB64().Some?
      ensures PngFile(SanitizeName(n.data.name) + ".png", n.data.ImageB64().value) in files
    {
      var k :| 0 <= k < |withImage| && withImage[k] == n;
      assert files[k] == PngFile(SanitizeName(n.data.name) + ".png", n.data.ImageB64().value);
    }
    forall f | f in files
      ensures exists n :: n in nodes && n.data.ImageB64().Some?
                          && f == PngFile(SanitizeName(n.data.name) + ".png", n.data.ImageB64().value)
    {
      var k :| 0 <= k < |files| && files[k] == f;
      assert withImage[k] in withImage;
    }
    files
  }

  /** `appState`, with the key storage and the raised toasts beside it. */
  class AppState {
    var nodes: seq<Node>
    var edges: seq<Edge>
    var inpainter: InpainterState
    var modelSettings: ModelSettings
    /** Whether `reactFlowInstance` is set. */
    var hasFlowInstance: bool
    /** The stored key record (`getApiKeys` / `saveApiKeys` / `clearApiKeys`). */
    var storedApiKeys: ApiKeys
    /** The legacy single OpenAI key slot (`getApiKey` / `clearApiKey`). */
    var legacyApiKey: Option<string>
    /** Toasts raised so far, oldest first. */
    var notices: seq<Notice>

    /** Every node carries the size `deriveInpainting` copies when it has an image. */
    predicate Valid()
      reads this
    {
      forall i :: 0 <= i < |nodes| ==> HasDimensions(nodes[i].data)
    }

    /** The initial `appState` (lines 81-101), over the given key storage. */
    constructor(stored: ApiKeys, legacy: Option<string>)
      ensures Valid()
      ensures nodes == [] && edges == [] && inpainter == DefaultInpainter
      ensures modelSettings == DefaultModelSettings && !hasFlowInstance
      ensures storedApiKeys == stored && legacyApiKey == legacy && notices == []
    {
      nodes := [];
      edges := [];
      inpainter := DefaultInpainter;
      modelSettings := DefaultModelSettings;
      hasFlowInstance := false;
      storedApiKeys := stored;
      legacyApiKey := legacy;
      notices := [];
    }

    /**
     * `getUpdatableData(id, type)`: the data of the first node with that id,
     * provided its type is the one asked for.
     */
    function GetUpdatableData(id: string, t: NodeType): (r: Run<NodeData>)
      reads this
      ensures FindNode(nodes, id).None? ==> r == Threw(NotFoundMessage(id))
      ensures FindNode(nodes, id).Some? && FindNode(nodes, id).value.data.Type() != t ==> r == Threw(WrongTypeMessage(id, t))
      ensures r.Returned? <==> exists k :: 0 <= k < |nodes| && nodes[k].id == id && nodes[k].data.Type() == t
                                          && forall j :: 0 <= j < k ==> nodes[j].id != id
      ensures r.Returned? ==> r.value.Type() == t && Node(id, r.value) in nodes
      ensures r.Returned? ==> FindNode(nodes, id).Some? && r.value == FindNode(nodes, id).value.data
    {
      match FirstIndex(nodes, id)
      case None => Threw(NotFoundMessage(id))
      case Some(k) =>
        if nodes[k].data.Type() != t then Threw(WrongTypeMessage(id, t))
        else
          assert nodes[k] == Node(id, nodes[k].data);
          Returned(nodes[k].data)
    }

    /** `createProvidedImageNode(name, imageB64)`, with the probed size and the fresh id as parameters. */
    method CreateProvidedImageNode(name: string, imageB64: string, size: (int, int), id: string)
      requires Valid()
      modifies this
      ensures Valid()
      ensures old(hasFlowInstance) ==> nodes == old(nodes) + [Node(id, ProvidedImageData(name, imageB64, size.0, size.1))]
      ensures !old(hasFlowInstance) ==> nodes == old(nodes)
      ensures edges == old(edges) && inpainter == old(inpainter) && modelSettings == old(modelSettings)
      ensures hasFlowInstance == old(hasFlowInstance) && storedApiKeys == old(storedApiKeys)
      ensures legacyApiKey == old(legacyApiKey) && notices == old(notices)
    {
      if !hasFlowInstance {
        return;
      }
      nodes := nodes + [Node(id, ProvidedImageData(name, imageB64, size.0, size.1))];
    }

    /** `createGeneratedImageNode()`: a new node waiting for its prompt, with no image and a zero cost. */
    method CreateGeneratedImageNode(id: string, name: string)
      requires Valid()
      modifies this
      ensures Valid()
      ensures old(hasFlowInstance) ==>
                nodes == old(nodes) + [Node(id, GeneratedImageData("", name, None, Prompt, Some(0.0), None, None))]
      ensures !old(hasFlowInstance) ==> nodes == old(nodes)
      ensures edges == old(edges) && inpainter == old(inpainter) && modelSettings == old(modelSettings)
      ensures hasFlowInstance == old(hasFlowInstance) && storedApiKeys == old(storedApiKeys)
      ensures legacyApiKey == old(legacyApiKey) && notices == old(notices)
    {
      if !hasFlowInstance {
        return;
      }
      nodes := nodes + [Node(id, GeneratedImageData("", name, None, Prompt, Some(0.0), None, None))];
    }

    /**
     * `deriveInpainting(blockId)`: a new inpainting node holding a copy of
     * the source's image and size, fed by a new edge from the source.
     */
    method DeriveInpainting(blockId: string, newId: string, newName: string, edgeId: string) returns (c: Completion)
      requires Valid()
      modifies this
      ensures Valid()
      ensures var block := FindNode(old(nodes), blockId);
              block.None? || !Truthy(block.value.data.ImageB64()) ==>
                c == Thrown(NoImageMessage(blockId)) && nodes == old(nodes) && edges == old(edges)
      ensures var block := FindNode(old(nodes), blockId);
              block.Some? && Truthy(block.value.data.ImageB64()) ==>
                && c == Normal
                && HasDimensions(block.value.data)
                && nodes == old(nodes) + [Node(newId, InpaintingData(newName, block.value.data.ImageB64().value,
                                                                     Dimensions(block.value.data).0,
                                                                     Dimensions(block.value.data).1))]
                && edges == old(edges) + [Edge(edgeId, blockId, newId)]
      ensures inpainter == old(inpainter) && modelSettings == old(modelSettings)
      ensures hasFlowInstance == old(hasFlowInstance) && storedApiKeys == old(storedApiKeys)
      ensures legacyApiKey == old(legacyApiKey) && notices == old(notices)
    {
      var block := FindNode(nodes, blockId);
      if block.None? || !Truthy(block.value.data.ImageB64()) {
        return Thrown(NoImageMessage(blockId));
      }
      var k := FirstIndex(nodes, blockId).value;
      assert HasDimensions(nodes[k].data);
      var data := block.value.data;
      var (w, h) := Dimensions(data);
      nodes := nodes + [Node(newId, InpaintingData(newName, data.ImageB64().value, w, h))];
      edges := edges + [Edge(edgeId, blockId, newId)];
      c := Normal;
    }

    /** `updateInpaintingMask(blockId, maskB64)`: replaces the image of an inpainting node and nothing else. */
    method UpdateInpaintingMask(blockId: string, maskB64: string) returns (c: Completion)
      requires Valid()
      modifies this
      ensures Valid()
      ensures var k := FirstIndex(old(nodes), blockId);
              k.None? || !old(nodes)[k.value].data.InpaintingData? ==>
                c == Thrown(NotInpaintingMessage(blockId)) && nodes == old(nodes)
      ensures var k := FirstIndex(old(nodes), blockId);
              k.Some? && old(nodes)[k.value].data.InpaintingData? ==>
                c == Normal
                && nodes == old(nodes)[k.value := Node(blockId, MaskReplaced(old(nodes)[k.value].data, maskB64))]
      ensures edges == old(edges) && inpainter == old(inpainter) && modelSettings == old(modelSettings)
      ensures hasFlowInstance == old(hasFlowInstance) && storedApiKeys == old(storedApiKeys)
      ensures legacyApiKey == old(legacyApiKey) && notices == old(notices)
    {
      var k := FirstIndex(nodes, blockId);
      if k.None? || !nodes[k.value].data.InpaintingData? {
        return Thrown(NotInpaintingMessage(blockId));
      }
      nodes := nodes[k.value := Node(blockId, MaskReplaced(nodes[k.value].data, maskB64))];
      c := Normal;
    }

    /**
     * The second half of `generateImage(blockId)`, for the generated node
     * at index `k` whose provider has a key: marks it as processing, runs
     * the generation and settles it with the outcome. An error value
     * becomes a toast; a thrown error leaves the node processing.
     */
    method RunGeneration(k: nat, blockId: string, adapters: Generate.Adapters, imageSize: string -> (int, int))
      returns (c: Completion, sent: Option<Generate.AdapterCall>)
      requires Valid() && k < |nodes| && nodes[k].data.GeneratedImageData?
      modifies this
      ensures Valid()
      ensures var block := old(nodes)[k];
              var processing := old(nodes)[k := Node(block.id, WithStatus(block.data, Processing))];
              var run := Generate.ExecuteImageGeneration(blockId, processing, old(edges), modelSettings, adapters);
              && sent == run.sent
              && nodes == old(nodes)[k := Node(block.id, Settle(block.data, run.result, imageSize))]
              && c == (if run.result.Threw? then Thrown(run.result.message) else Normal)
              && notices == old(notices) + (if run.result.Returned? && run.result.value.Error?
                                            then [Notice(ErrorToastPrefix + run.result.value.message, ErrorToastDuration)]
                                            else [])
      ensures edges == old(edges) && inpainter == old(inpainter) && modelSettings == old(modelSettings)
      ensures hasFlowInstance == old(hasFlowInstance) && storedApiKeys == old(storedApiKeys)
      ensures legacyApiKey == old(legacyApiKey)
    {
      var block := nodes[k];
      nodes := nodes[k := Node(block.id, WithStatus(block.data, Processing))];
      var run := Generate.ExecuteImageGeneration(blockId, nodes, edges, modelSettings, adapters);
      sent := run.sent;
      nodes := nodes[k := Node(block.id, Settle(block.data, run.result, imageSize))];
      if run.result.Threw? {
        c := Thrown(run.result.message);
      } else {
        c := Normal;
        if run.result.value.Error? {
          notices := notices + [Notice(ErrorToastPrefix + run.result.value.message, ErrorToastDuration)];
        }
      }
    }

    /**
     * `generateImage(blockId)`: checks the node and the provider's key,
     * then runs the generation on that node as `RunGeneration` describes.
     */
    method GenerateImage(blockId: string, adapters: Generate.Adapters, imageSize: string -> (int, int))
      returns (c: Completion, sent: Option<Generate.AdapterCall>)
      requires Valid()
      modifies this
      ensures Valid()
      ensures var k := FirstIndex(old(nodes), blockId);
              k.None? || !old(nodes)[k.value].data.GeneratedImageData? ==>
                c == Thrown(NotGeneratedMessage(blockId)) && sent == None
                && nodes == old(nodes) && notices == old(notices)
      ensures var k := FirstIndex(old(nodes), blockId);
              k.Some? && old(nodes)[k.value].data.GeneratedImageData? && !HasApiKey(modelSettings) ==>
                c == Normal && sent == None && nodes == old(nodes)
                && notices == old(notices) + [Notice(MissingKeyMessage(modelSettings.provider), ErrorToastDuration)]
      ensures var k := FirstIndex(old(nodes), blockId);
              k.Some? && old(nodes)[k.value].data.GeneratedImageData? && HasApiKey(modelSettings) ==>
                var block := old(nodes)[k.value];
                var processing := old(nodes)[k.value := Node(block.id, WithStatus(block.data, Processing))];
                var run := Generate.ExecuteImageGeneration(blockId, processing, old(edges), modelSettings, adapters);
                && sent == run.sent
                && nodes == old(nodes)[k.value := Node(block.id, Settle(block.data, run.result, imageSize))]
                && c == (if run.result.Threw? then Thrown(run.result.message) else Normal)
                && notices == old(notices) + (if run.result.Returned? && run.result.value.Error?
                                              then [Notice(ErrorToastPrefix + run.result.value.message, ErrorToastDuration)]
                                              else [])
      ensures edges == old(edges) && inpainter == old(inpainter) && modelSettings == old(modelSettings)
      ensures hasFlowInstance == old(hasFlowInstance) && storedApiKeys == old(storedApiKeys)
      ensures legacyApiKey == old(legacyApiKey)
    {
      var found := FirstIndex(nodes, blockId);
      if found.None? || !nodes[found.value].data.GeneratedImageData? {
        return Thrown(NotGeneratedMessage(blockId)), None;
      }
      if !HasApiKey(modelSettings) {
        notices := notices + [Notice(MissingKeyMessage(modelSettings.provider), ErrorToastDuration)];
        return Normal, None;
      }
      c, sent := RunGeneration(found.value, blockId, adapters, imageSize);
    }

    /** `setApiKeys(apiKeys)`: the settings and the storage both hold the new keys. */
    method SetApiKeys(keys: ApiKeys)
      modifies this
      ensures modelSettings == old(modelSettings).(apiKeys := Some(keys)) && storedApiKeys == keys
      ensures notices == old(notices) + [Notice(KeysSavedMessage, InfoToastDuration)]
      ensures nodes == old(nodes) && edges == old(edges) && inpainter == old(inpainter)
      ensures hasFlowInstance == old(hasFlowInstance) && legacyApiKey == old(legacyApiKey)
    {
      modelSettings := modelSettings.(apiKeys := Some(keys));
      storedApiKeys := keys;
      notices := notices + [Notice(KeysSavedMessage, InfoToastDuration)];
    }

    /** `clearAllApiKeys()`: no key is left in the settings or in the key storage. */
    method ClearAllApiKeys()
      modifies this
      ensures modelSettings == old(modelSettings).(apiKeys := Some(NoApiKeys)) && storedApiKeys == NoApiKeys
      ensures !HasApiKey(modelSettings)
      ensures notices == old(notices) + [Notice(KeysClearedMessage, InfoToastDuration)]
      ensures nodes == old(nodes) && edges == old(edges) && inpainter == old(inpainter)
      ensures hasFlowInstance == old(hasFlowInstance) && legacyApiKey == old(legacyApiKey)
    {
      modelSettings := modelSettings.(apiKeys := Some(NoApiKeys));
      storedApiKeys := NoApiKeys;
      notices := notices + [Notice(KeysClearedMessage, InfoToastDuration)];
    }

    /**
     * `loadApiKeysFromStorage()`: stored keys win; failing those a legacy
     * key is migrated to the OpenAI slot of the key record and its slot
     * is cleared; with neither, nothing changes.
     */
    method LoadApiKeysFromStorage()
      modifies this
      ensures KeyCount(old(storedApiKeys)) > 0 ==>
                modelSettings == old(modelSettings).(apiKeys := Some(old(storedApiKeys)))
                && storedApiKeys == old(storedApiKeys) && legacyApiKey == old(legacyApiKey)
      ensures KeyCount(old(storedApiKeys)) == 0 && Truthy(old(legacyApiKey)) ==>
                modelSettings == old(modelSettings).(apiKeys := Some(ApiKeys(old(legacyApiKey), None, None)))
                && storedApiKeys == ApiKeys(old(legacyApiKey), None, None) && legacyApiKey == None
      ensures KeyCount(old(storedApiKeys)) == 0 && !Truthy(old(legacyApiKey)) ==>
                modelSettings == old(modelSettings) && storedApiKeys == old(storedApiKeys)
                && legacyApiKey == old(legacyApiKey)
      ensures KeyCount(old(storedApiKeys)) > 0 || Truthy(old(legacyApiKey)) ==>
                modelSettings.apiKeys == Some(storedApiKeys) && KeyCount(storedApiKeys) > 0
      ensures nodes == old(nodes) && edges == old(edges) && inpainter == old(inpainter)
      ensures hasFlowInstance == old(hasFlowInstance) && notices == old(notices)
    {
      if KeyCount(storedApiKeys) > 0 {
        modelSettings := modelSettings.(apiKeys := Some(storedApiKeys));
      } else if Truthy(legacyApiKey) {
        var migrated := ApiKeys(legacyApiKey, None, None);
        modelSettings := modelSettings.(apiKeys := Some(migrated));
        storedApiKeys := migrated;
        legacyApiKey := None;
      }
    }
  }

  /** A legacy key survives the migration as the OpenAI key, and the migration is not repeated on the next load. */
  lemma MigrationIsStable(legacy: string)
    requires legacy != ""
    ensures KeyCount(ApiKeys(Some(legacy), None, None)) > 0
    ensures KeyFor(Some(ApiKeys(Some(legacy), None, None)), OpenAI) == Some(legacy)
  {
  }
}
