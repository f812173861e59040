/**
 * Generation-input resolution and provider routing
 * (`executeImageGeneration`, src/logic/generate.ts).
 *
 * The resolver is written as the source's chain of `filter`, `map` and
 * `find` over the edge list. Beside it stand edge-by-edge reference
 * definitions of what the resolver is meant to compute (how many
 * inpainting nodes feed the target, which images the direct predecessors
 * carry, which inpainting node supplies the mask); `ResolveInputsSpec`
 * proves that the chain computes exactly those.
 */
module Generate {
  import opened Wrappers
  import opened Text
  import opened Types
  import OpenAIProvider
  import GeminiProvider
  import ReplicateProvider

  /** `GenerateImageResult` */
  datatype GenerateImageResult = Error(message: string) | Success(imageB64: string, costDollars: Option<real>)

  const TooManyInpaintingMessage := "Only one inpainting node is allowed"
  const GeminiInpaintingMessage :=
    "Gemini does not support inpainting. Please disconnect any inpainting nodes or switch to OpenAI provider."
  const ReplicateInpaintingMessage :=
    "Replicate does not support inpainting. Please disconnect any inpainting nodes or switch to OpenAI provider."
  const ReplicateSingleImageMessage :=
    "Replicate editing models accept only one input image. Please connect only one image node for editing."
  const UnknownProviderMessage := "Unknown provider selected"

  function NotFoundMessage(nodeId: string): string {
    "Node with id " + nodeId + " not found"
  }

  // ---------------------------------------------------------------------
  // The resolver, as the source writes it
  // ---------------------------------------------------------------------

  /** `edges.filter(e => e.target === id)` */
  function EdgesInto(edges: seq<Edge>, id: string): (r: seq<Edge>)
    ensures |r| <= |edges|
    ensures forall e :: e in r ==> e in edges && e.target == id
  {
    if edges == [] then []
    else (if edges[0].target == id then [edges[0]] else []) + EdgesInto(edges[1..], id)
  }

  /** `.map(e => nodes.find(n => n.id === e.source))`: `None` for an edge whose source is missing. */
  function SourcesOf(nodes: seq<Node>, es: seq<Edge>): (r: seq<Option<Node>>)
    ensures |r| == |es|
  {
    seq(|es|, k requires 0 <= k < |es| => FindNode(nodes, es[k].source))
  }

  /** `.filter(n => n?.type === 'inpainting').filter(n => n !== undefined)` */
  function InpaintingNodes(connected: seq<Option<Node>>): (r: seq<Node>)
    ensures |r| <= |connected|
    ensures forall n :: n in r ==> n.data.InpaintingData? && Some(n) in connected
  {
    if connected == [] then []
    else
      var rest := InpaintingNodes(connected[1..]);
      if connected[0].Some? && connected[0].value.data.InpaintingData? then [connected[0].value] + rest else rest
  }

  /** What one possibly-missing node contributes to the image list: the image of a provided or generated node, when it has one. */
  function BearerImage(n: Option<Node>): (image: Option<string>)
    ensures image.Some? ==> n.Some? && n.value.data.IsImageBearing() && n.value.data.ImageB64() == image
  {
    if n.Some? && n.value.data.IsImageBearing() then n.value.data.ImageB64() else None
  }

  /** `.filter(n => n?.type is provided or generated).map(n => n?.data.imageB64).filter(i => i !== undefined)` */
  function BearerImages(connected: seq<Option<Node>>): (r: seq<string>)
    ensures |r| <= |connected|
  {
    if connected == [] then []
    else
      var rest := BearerImages(connected[1..]);
      match BearerImage(connected[0])
      case Some(image) => [image] + rest
      case None => rest
  }

  /** `edges.find(e => e.target === id)` */
  function FirstEdgeInto(edges: seq<Edge>, id: string): (r: Option<Edge>)
    ensures r.Some? ==> exists k :: 0 <= k < |edges| && edges[k] == r.value && r.value.target == id
                                    && forall j :: 0 <= j < k ==> edges[j].target != id
    ensures r.None? ==> forall j :: 0 <= j < |edges| ==> edges[j].target != id
  {
    if edges == [] then None
    else if edges[0].target == id then Some(edges[0])
    else
      var r := FirstEdgeInto(edges[1..], id);
      assert forall j :: 0 <= j < |edges| - 1 ==> edges[1..][j] == edges[j + 1];
      r
  }

  /** The node one hop behind `p`: the source of the first edge into it, when that source exists. */
  function HopSource(nodes: seq<Node>, edges: seq<Edge>, p: Node): (r: Option<Node>)
    ensures r.Some? ==> r.value in nodes && FirstEdgeInto(edges, p.id).Some?
                        && r.value.id == FirstEdgeInto(edges, p.id).value.source
    ensures (forall j :: 0 <= j < |edges| ==> edges[j].target != p.id) ==> r.None?
  {
    match FirstEdgeInto(edges, p.id)
    case None => None
    case Some(e) => FindNode(nodes, e.source)
  }

  /** `inpaintingNodes.map(n => edges.find(...)).map(e => nodes.find(...))` */
  function HopSources(nodes: seq<Node>, edges: seq<Edge>, inpaintings: seq<Node>): (r: seq<Option<Node>>)
    ensures |r| == |inpaintings|
    ensures forall k :: 0 <= k < |r| ==> r[k] == HopSource(nodes, edges, inpaintings[k])
  {
    seq(|inpaintings|, k requires 0 <= k < |inpaintings| => HopSource(nodes, edges, inpaintings[k]))
  }

  /** What the resolver hands to the router, or the fan-in error. */
  datatype Resolution = TooManyInpainting | Resolved(prompt: string, images: seq<string>, mask: Option<string>)

  /** Lines 32-65 of `executeImageGeneration`, for the target node it found. */
  function ResolveInputs(nodes: seq<Node>, edges: seq<Edge>, target: Node): (r: Resolution)
    requires target.data.GeneratedImageData?
    ensures r.Resolved? ==> r.prompt == target.data.prompt
  {
    var connected := SourcesOf(nodes, EdgesInto(edges, target.id));
    var inpaintings := InpaintingNodes(connected);
    if |inpaintings| > 1 then TooManyInpainting
    else
      var direct := BearerImages(connected);
      var fromInpainting := seq(|inpaintings|, k requires 0 <= k < |inpaintings| => inpaintings[k].data.imageB64);
      var fromInpaintingSource := BearerImages(HopSources(nodes, edges, inpaintings));
      Resolved(target.data.prompt, fromInpaintingSource + direct,
               if |fromInpainting| > 0 then Some(fromInpainting[0]) else None)
  }

  // ---------------------------------------------------------------------
  // What the resolver is meant to compute, edge by edge
  // ---------------------------------------------------------------------

  /** True when edge `e` brings an existing inpainting node into `id`. */
  predicate BringsInpainting(nodes: seq<Node>, e: Edge, id: string) {
    e.target == id && FindNode(nodes, e.source).Some? && FindNode(nodes, e.source).value.data.InpaintingData?
  }

  /** How many inpainting predecessors `id` has, counted per edge. */
  function InpaintingEdgeCount(nodes: seq<Node>, edges: seq<Edge>, id: string): nat {
    if edges == [] then 0
    else (if BringsInpainting(nodes, edges[0], id) then 1 else 0) + InpaintingEdgeCount(nodes, edges[1..], id)
  }

  /** The inpainting predecessor reached through the earliest edge, if any. */
  function InpaintingPredecessor(nodes: seq<Node>, edges: seq<Edge>, id: string): (p: Option<Node>)
    ensures p.Some? <==> InpaintingEdgeCount(nodes, edges, id) > 0
    ensures p.Some? ==> p.value.data.InpaintingData?
  {
    if edges == [] then None
    else if BringsInpainting(nodes, edges[0], id) then FindNode(nodes, edges[0].source)
    else InpaintingPredecessor(nodes, edges[1..], id)
  }

  /** The images of the direct predecessors of `id`, one edge at a time, in edge order. */
  function DirectImages(nodes: seq<Node>, edges: seq<Edge>, id: string): seq<string> {
    if edges == [] then []
    else
      var rest := DirectImages(nodes, edges[1..], id);
      if edges[0].target == id && BearerImage(FindNode(nodes, edges[0].source)).Some?
      then [BearerImage(FindNode(nodes, edges[0].source)).value] + rest
      else rest
  }

  function OptionSeq(o: Option<string>): (s: seq<string>)
    ensures |s| <= 1
  {
    if o.Some? then [o.value] else []
  }

  // ---------------------------------------------------------------------
  // The chain computes the edge-by-edge definitions
  // ---------------------------------------------------------------------

  lemma {:induction false} SourcesOfSplit(nodes: seq<Node>, edges: seq<Edge>, id: string)
    requires edges != []
    ensures SourcesOf(nodes, EdgesInto(edges, id))
            == (if edges[0].target == id then [FindNode(nodes, edges[0].source)] else [])
               + SourcesOf(nodes, EdgesInto(edges[1..], id))
  {
  }

  /** The chain counts inpainting predecessors as the edge-by-edge definition does. */
  lemma {:induction false} InpaintingCountAgrees(nodes: seq<Node>, edges: seq<Edge>, id: string)
    ensures |InpaintingNodes(SourcesOf(nodes, EdgesInto(edges, id)))| == InpaintingEdgeCount(nodes, edges, id)
    ensures InpaintingEdgeCount(nodes, edges, id) > 0 ==>
              InpaintingNodes(SourcesOf(nodes, EdgesInto(edges, id)))[0] == InpaintingPredecessor(nodes, edges, id).value
  {
    if edges != [] {
      SourcesOfSplit(nodes, edges, id);
      InpaintingCountAgrees(nodes, edges[1..], id);
      var c := SourcesOf(nodes, EdgesInto(edges, id));
      var tail := SourcesOf(nodes, EdgesInto(edges[1..], id));
      if edges[0].target == id {
        var x := FindNode(nodes, edges[0].source);
        assert c == [x] + tail;
        assert c[0] == x && c[1..] == tail;
        assert InpaintingNodes(c)
               == (if x.Some? && x.value.data.InpaintingData? then [x.value] else []) + InpaintingNodes(tail);
      } else {
        assert c == tail;
      }
    }
  }

  /** The chain collects direct images as the edge-by-edge definition does. */
  lemma {:induction false} DirectImagesAgree(nodes: seq<Node>, edges: seq<Edge>, id: string)
    ensures BearerImages(SourcesOf(nodes, EdgesInto(edges, id))) == DirectImages(nodes, edges, id)
  {
    if edges != [] {
      SourcesOfSplit(nodes, edges, id);
      DirectImagesAgree(nodes, edges[1..], id);
      var c := SourcesOf(nodes, EdgesInto(edges, id));
      var tail := SourcesOf(nodes, EdgesInto(edges[1..], id));
      if edges[0].target == id {
        var x := FindNode(nodes, edges[0].source);
        assert c == [x] + tail;
        assert c[0] == x && c[1..] == tail;
        assert BearerImages(c) == OptionSeq(BearerImage(x)) + BearerImages(tail);
      } else {
        assert c == tail;
      }
    }
  }

  /** `ResolveInputs` in terms of the predecessor list the chain builds. */
  lemma ResolveInputsShape(nodes: seq<Node>, edges: seq<Edge>, target: Node)
    requires target.data.GeneratedImageData?
    ensures var inpaintings := InpaintingNodes(SourcesOf(nodes, EdgesInto(edges, target.id)));
            var direct := BearerImages(SourcesOf(nodes, EdgesInto(edges, target.id)));
            && (|inpaintings| > 1 ==> ResolveInputs(nodes, edges, target).TooManyInpainting?)
            && (|inpaintings| == 0 ==> ResolveInputs(nodes, edges, target) == Resolved(target.data.prompt, direct, None))
            && (|inpaintings| == 1 ==>
                  ResolveInputs(nodes, edges, target)
                  == Resolved(target.data.prompt,
                              OptionSeq(BearerImage(HopSource(nodes, edges, inpaintings[0]))) + direct,
                              Some(inpaintings[0].data.imageB64)))
  {
    var inpaintings := InpaintingNodes(SourcesOf(nodes, EdgesInto(edges, target.id)));
    if |inpaintings| == 1 {
      ResolveInputsOneInpainting(nodes, edges, target);
    } else if |inpaintings| == 0 {
      assert HopSources(nodes, edges, inpaintings) == [];
    }
  }

  lemma ResolveInputsOneInpainting(nodes: seq<Node>, edges: seq<Edge>, target: Node)
    requires target.data.GeneratedImageData?
    requires |InpaintingNodes(SourcesOf(nodes, EdgesInto(edges, target.id)))| == 1
    ensures var inpaintings := InpaintingNodes(SourcesOf(nodes, EdgesInto(edges, target.id)));
            ResolveInputs(nodes, edges, target)
            == Resolved(target.data.prompt,
                        OptionSeq(BearerImage(HopSource(nodes, edges, inpaintings[0])))
                        + BearerImages(SourcesOf(nodes, EdgesInto(edges, target.id))),
                        Some(inpaintings[0].data.imageB64))
  {
    var inpaintings := InpaintingNodes(SourcesOf(nodes, EdgesInto(edges, target.id)));
    var hops := HopSources(nodes, edges, inpaintings);
    assert hops == [HopSource(nodes, edges, inpaintings[0])];
    assert hops[1..] == [];
    assert BearerImages(hops) == OptionSeq(BearerImage(HopSource(nodes, edges, inpaintings[0])));
  }

  /**
   * What the resolver returns, stated through the edge-by-edge
   * definitions: the fan-in error exactly when two or more inpainting
   * nodes feed the target; without one, no mask and the direct images;
   * with one, its image as the mask and the image one hop behind it first.
   */
  lemma ResolveInputsSpec(nodes: seq<Node>, edges: seq<Edge>, target: Node)
    requires target.data.GeneratedImageData?
    ensures ResolveInputs(nodes, edges, target).TooManyInpainting? <==> InpaintingEdgeCount(nodes, edges, target.id) > 1
    ensures InpaintingEdgeCount(nodes, edges, target.id) == 0 ==>
              ResolveInputs(nodes, edges, target) == Resolved(target.data.prompt, DirectImages(nodes, edges, target.id), None)
    ensures InpaintingEdgeCount(nodes, edges, target.id) == 1 ==>
              var p := InpaintingPredecessor(nodes, edges, target.id).value;
              ResolveInputs(nodes, edges, target)
              == Resolved(target.data.prompt,
                          OptionSeq(BearerImage(HopSource(nodes, edges, p))) + DirectImages(nodes, edges, target.id),
                          Some(p.data.imageB64))
  {
    InpaintingCountAgrees(nodes, edges, target.id);
    DirectImagesAgree(nodes, edges, target.id);
    ResolveInputsShape(nodes, edges, target);
  }

  /** The mask, when there is one, is the image of an inpainting node that exists in the graph. */
  lemma MaskFromExistingInpaintingNode(nodes: seq<Node>, edges: seq<Edge>, target: Node)
    requires target.data.GeneratedImageData?
    requires ResolveInputs(nodes, edges, target).Resolved? && ResolveInputs(nodes, edges, target).mask.Some?
    ensures exists n :: n in nodes && n.data.InpaintingData?
                        && n.data.imageB64 == ResolveInputs(nodes, edges, target).mask.value
  {
    var es := EdgesInto(edges, target.id);
    var connected := SourcesOf(nodes, es);
    var n := InpaintingNodes(connected)[0];
    assert Some(n) in connected;
    var k :| 0 <= k < |connected| && connected[k] == Some(n);
    assert FindNode(nodes, es[k].source) == Some(n);
  }

  // ---------------------------------------------------------------------
  // Properties of the image list
  // ---------------------------------------------------------------------

  /** Images of later edges follow those of earlier ones: the direct images of a split edge list concatenate. */
  lemma {:induction false} DirectImagesAppend(nodes: seq<Node>, a: seq<Edge>, b: seq<Edge>, id: string)
    ensures DirectImages(nodes, a + b, id) == DirectImages(nodes, a, id) + DirectImages(nodes, b, id)
  {
    if a != [] {
      assert (a + b)[1..] == a[1..] + b;
      DirectImagesAppend(nodes, a[1..], b, id);
    } else {
      assert a + b == b;
    }
  }

  /** An edge whose source node is missing contributes nothing: dropping it leaves the direct images as they were. */
  lemma DanglingEdgeIgnored(nodes: seq<Node>, a: seq<Edge>, e: Edge, b: seq<Edge>, id: string)
    requires FindNode(nodes, e.source).None?
    ensures DirectImages(nodes, a + [e] + b, id) == DirectImages(nodes, a + b, id)
  {
    DirectImagesAppend(nodes, a + [e], b, id);
    DirectImagesAppend(nodes, a, [e], id);
    DirectImagesAppend(nodes, a, b, id);
    assert DirectImages(nodes, [e], id) == [];
  }

  /**
   * An inpainting node never contributes to the image list: among the
   * predecessors, those counted as inpainting nodes and those that add an
   * image are disjoint.
   */
  lemma {:induction false} InpaintingContributesNoImage(connected: seq<Option<Node>>)
    ensures |InpaintingNodes(connected)| + |BearerImages(connected)| <= |connected|
    ensures forall k :: 0 <= k < |connected| && connected[k].Some? && connected[k].value.data.InpaintingData? ==>
              BearerImage(connected[k]).None?
  {
    if connected != [] {
      InpaintingContributesNoImage(connected[1..]);
    }
  }

  /** Every direct image is the image of some edge's existing, image-bearing source. */
  lemma {:induction false} DirectImageOrigin(nodes: seq<Node>, edges: seq<Edge>, id: string, k: nat)
    requires k < |DirectImages(nodes, edges, id)|
    ensures exists j :: 0 <= j < |edges| && edges[j].target == id
                        && BearerImage(FindNode(nodes, edges[j].source)) == Some(DirectImages(nodes, edges, id)[k])
  {
    var rest := DirectImages(nodes, edges[1..], id);
    if edges[0].target == id && BearerImage(FindNode(nodes, edges[0].source)).Some? {
      if k > 0 {
        DirectImageOrigin(nodes, edges[1..], id, k - 1);
        var j :| 0 <= j < |edges[1..]| && edges[1..][j].target == id
                 && BearerImage(FindNode(nodes, edges[1..][j].source)) == Some(rest[k - 1]);
        assert edges[j + 1] == edges[1..][j];
      }
    } else {
      DirectImageOrigin(nodes, edges[1..], id, k);
      var j :| 0 <= j < |edges[1..]| && edges[1..][j].target == id
               && BearerImage(FindNode(nodes, edges[1..][j].source)) == Some(rest[k]);
      assert edges[j + 1] == edges[1..][j];
    }
  }

  // ---------------------------------------------------------------------
  // Routing to a provider
  // ---------------------------------------------------------------------

  /** The adapter call the router makes. */
  datatype AdapterCall =
    | OpenAICall(openaiRequest: OpenAIProvider.Request)
    | GeminiCall(geminiRequest: GeminiProvider.ImageRequest)
    | ReplicateCall(replicateRequest: ReplicateProvider.Request)

  /** The three adapters, opaque; each may reject its promise (modelled as throwing). */
  datatype Adapters = Adapters(
    openai: OpenAIProvider.Request -> Run<OpenAIProvider.Response>,
    gemini: GeminiProvider.ImageRequest -> Run<GeminiProvider.ImageResponse>,
    replicate: ReplicateProvider.Request -> Run<ReplicateProvider.Response>)

  datatype Plan = Reject(message: string) | Call(call: AdapterCall)

  /** The `switch` on the provider: capability checks, then the provider-specific request. */
  function Route(prompt: string, images: seq<string>, mask: Option<string>, settings: ModelSettings): (plan: Plan)
    ensures settings.provider == OpenAI ==>
              plan == Call(OpenAICall(OpenAIProvider.Request(prompt, images, mask, settings.quality, settings.size, settings.background)))
    ensures settings.provider == Gemini ==>
              plan == if Truthy(mask) then Reject(GeminiInpaintingMessage)
                      else Call(GeminiCall(GeminiProvider.ImageRequest(prompt, images)))
    ensures settings.provider == Replicate ==> (plan.Reject? <==> Truthy(mask) || |images| > 1)
    ensures settings.provider == Replicate && Truthy(mask) ==> plan == Reject(ReplicateInpaintingMessage)
    ensures settings.provider == Replicate && !Truthy(mask) && |images| > 1 ==> plan == Reject(ReplicateSingleImageMessage)
    ensures settings.provider == Replicate && plan.Call? ==>
              plan.call == ReplicateCall(ReplicateProvider.Request(prompt, images, settings.replicateEditingModel,
                                                                   settings.replicateGenerationModel))
    ensures settings.provider.OtherProvider? ==> plan == Reject(UnknownProviderMessage)
  {
    match settings.provider
    case OpenAI =>
      Call(OpenAICall(OpenAIProvider.Request(prompt, images, mask, settings.quality, settings.size, settings.background)))
    case Gemini =>
      if Truthy(mask) then Reject(GeminiInpaintingMessage)
      else Call(GeminiCall(GeminiProvider.ImageRequest(prompt, images)))
    case Replicate =>
      if Truthy(mask) then Reject(ReplicateInpaintingMessage)
      else if |images| > 1 then Reject(ReplicateSingleImageMessage)
      else Call(ReplicateCall(ReplicateProvider.Request(prompt, images, settings.replicateEditingModel,
                                                        settings.replicateGenerationModel)))
    case OtherProvider(_) => Reject(UnknownProviderMessage)
  }

  /** The adapter's reply as the shared result type: a throw and an error pass through, and a success keeps its image. */
  function FromOpenAI(out: Run<OpenAIProvider.Response>): (r: Run<GenerateImageResult>)
    ensures out.Threw? ==> r == Threw(out.message)
    ensures out.Returned? && out.value.Error? ==> r == Returned(Error(out.value.message))
    ensures out.Returned? && out.value.Success? ==> r == Returned(Success(out.value.imageB64, out.value.costDollars))
  {
    if out.Threw? then Threw(out.message)
    else if out.value.Error? then Returned(Error(out.value.message))
    else Returned(Success(out.value.imageB64, out.value.costDollars))
  }

  /** As `FromOpenAI`; a Gemini success carries no cost. */
  function FromGemini(out: Run<GeminiProvider.ImageResponse>): (r: Run<GenerateImageResult>)
    ensures out.Threw? ==> r == Threw(out.message)
    ensures out.Returned? && out.value.Error? ==> r == Returned(Error(out.value.message))
    ensures out.Returned? && out.value.Success? ==> r == Returned(Success(out.value.imageB64, None))
  {
    if out.Threw? then Threw(out.message)
    else if out.value.Error? then Returned(Error(out.value.message))
    else Returned(Success(out.value.imageB64, None))
  }

  /** As `FromOpenAI`; a Replicate success carries no cost. */
  function FromReplicate(out: Run<ReplicateProvider.Response>): (r: Run<GenerateImageResult>)
    ensures out.Threw? ==> r == Threw(out.message)
    ensures out.Returned? && out.value.Error? ==> r == Returned(Error(out.value.message))
    ensures out.Returned? && out.value.Success? ==> r == Returned(Success(out.value.imageB64, None))
  {
    if out.Threw? then Threw(out.message)
    else if out.value.Error? then Returned(Error(out.value.message))
    else Returned(Success(out.value.imageB64, None))
  }

  /** Awaits the adapter the call names and folds its reply into one result. */
  function Invoke(call: AdapterCall, adapters: Adapters): (r: Run<GenerateImageResult>)
    ensures call.OpenAICall? ==> r == FromOpenAI(adapters.openai(call.openaiRequest))
    ensures call.GeminiCall? ==> r == FromGemini(adapters.gemini(call.geminiRequest))
    ensures call.ReplicateCall? ==> r == FromReplicate(adapters.replicate(call.replicateRequest))
  {
    match call
    case OpenAICall(request) => FromOpenAI(adapters.openai(request))
    case GeminiCall(request) => FromGemini(adapters.gemini(request))
    case ReplicateCall(request) => FromReplicate(adapters.replicate(request))
  }

  /** Only the OpenAI adapter reports a cost, and a success passes its image and cost through unchanged. */
  lemma InvokeCost(call: AdapterCall, adapters: Adapters)
    ensures var r := Invoke(call, adapters);
            r.Returned? && r.value.Success? ==>
              (!call.OpenAICall? ==> r.value.costDollars == None)
              && (call.OpenAICall? ==>
                    adapters.openai(call.openaiRequest)
                    == Returned(OpenAIProvider.Success(r.value.imageB64, r.value.costDollars)))
  {
  }

  /**
   * `executeImageGeneration`: find the target, resolve its inputs, route
   * them. The result is thrown when the target is missing or the adapter
   * rejects; `sent` records the adapter call, if one was made.
   */
  function ExecuteImageGeneration(nodeId: string, nodes: seq<Node>, edges: seq<Edge>, settings: ModelSettings,
                                  adapters: Adapters): (r: Exchange<AdapterCall, Run<GenerateImageResult>>)
    ensures FirstGeneratedIndex(nodes, nodeId).None? ==> r == Exchange(Threw(NotFoundMessage(nodeId)), None)
    ensures r.sent.None? && FirstGeneratedIndex(nodes, nodeId).Some? ==> r.result.Returned? && r.result.value.Error?
    ensures r.sent.Some? ==> r.result == Invoke(r.sent.value, adapters)
    ensures r.sent.Some? ==> (r.sent.value.OpenAICall? <==> settings.provider == OpenAI)
                             && (r.sent.value.GeminiCall? <==> settings.provider == Gemini)
                             && (r.sent.value.ReplicateCall? <==> settings.provider == Replicate)
  {
    match FirstGeneratedIndex(nodes, nodeId)
    case None => Exchange(Threw(NotFoundMessage(nodeId)), None)
    case Some(k) =>
      match ResolveInputs(nodes, edges, nodes[k])
      case TooManyInpainting => Exchange(Returned(Error(TooManyInpaintingMessage)), None)
      case Resolved(prompt, images, mask) =>
        match Route(prompt, images, mask, settings)
        case Reject(message) => Exchange(Returned(Error(message)), None)
        case Call(call) => Exchange(Invoke(call, adapters), Some(call))
  }

  // ---------------------------------------------------------------------
  // End-to-end properties
  // ---------------------------------------------------------------------

  /** Two or more inpainting predecessors: the fan-in error, whatever the provider, and no adapter is called. */
  lemma TooManyInpaintingRejected(nodeId: string, nodes: seq<Node>, edges: seq<Edge>, settings: ModelSettings,
                                  adapters: Adapters)
    requires FirstGeneratedIndex(nodes, nodeId).Some?
    requires InpaintingEdgeCount(nodes, edges, nodeId) > 1
    ensures ExecuteImageGeneration(nodeId, nodes, edges, settings, adapters)
            == Exchange(Returned(Error(TooManyInpaintingMessage)), None)
  {
    ResolveInputsSpec(nodes, edges, nodes[FirstGeneratedIndex(nodes, nodeId).value]);
  }

  /** Gemini and Replicate refuse a (non-empty) mask without calling their adapter; Replicate checks the mask first. */
  lemma MaskRejectedByGeminiAndReplicate(nodeId: string, nodes: seq<Node>, edges: seq<Edge>, settings: ModelSettings,
                                         adapters: Adapters)
    requires FirstGeneratedIndex(nodes, nodeId).Some?
    requires InpaintingEdgeCount(nodes, edges, nodeId) == 1
    requires InpaintingPredecessor(nodes, edges, nodeId).value.data.imageB64 != ""
    requires settings.provider == Gemini || settings.provider == Replicate
    ensures ExecuteImageGeneration(nodeId, nodes, edges, settings, adapters)
            == Exchange(Returned(Error(if settings.provider == Gemini then GeminiInpaintingMessage
                                       else ReplicateInpaintingMessage)), None)
  {
    ResolveInputsSpec(nodes, edges, nodes[FirstGeneratedIndex(nodes, nodeId).value]);
  }

  /** Replicate with more than one direct image and no inpainting node: the single-image error, and no adapter call. */
  lemma ReplicateRejectsSeveralImages(nodeId: string, nodes: seq<Node>, edges: seq<Edge>, settings: ModelSettings,
                                      adapters: Adapters)
    requires FirstGeneratedIndex(nodes, nodeId).Some?
    requires InpaintingEdgeCount(nodes, edges, nodeId) == 0
    requires |DirectImages(nodes, edges, nodeId)| > 1
    requires settings.provider == Replicate
    ensures ExecuteImageGeneration(nodeId, nodes, edges, settings, adapters)
            == Exchange(Returned(Error(ReplicateSingleImageMessage)), None)
  {
    ResolveInputsSpec(nodes, edges, nodes[FirstGeneratedIndex(nodes, nodeId).value]);
  }

  /** OpenAI is always called once the fan-in rule holds, with all resolved images and the mask. */
  lemma OpenAIAlwaysCalled(nodeId: string, nodes: seq<Node>, edges: seq<Edge>, settings: ModelSettings,
                           adapters: Adapters)
    requires FirstGeneratedIndex(nodes, nodeId).Some?
    requires InpaintingEdgeCount(nodes, edges, nodeId) <= 1
    requires settings.provider == OpenAI
    ensures var r := ExecuteImageGeneration(nodeId, nodes, edges, settings, adapters);
            var res := ResolveInputs(nodes, edges, nodes[FirstGeneratedIndex(nodes, nodeId).value]);
            res.Resolved?
            && r.sent == Some(OpenAICall(OpenAIProvider.Request(res.prompt, res.images, res.mask,
                                                                settings.quality, settings.size, settings.background)))
  {
    ResolveInputsSpec(nodes, edges, nodes[FirstGeneratedIndex(nodes, nodeId).value]);
  }

  /** A success carries a cost only through OpenAI, and then exactly the adapter's cost. */
  lemma CostOnlyFromOpenAI(nodeId: string, nodes: seq<Node>, edges: seq<Edge>, settings: ModelSettings,
                           adapters: Adapters)
    ensures var r := ExecuteImageGeneration(nodeId, nodes, edges, settings, adapters);
            r.result.Returned? && r.result.value.Success? ==>
              r.sent.Some?
              && (settings.provider != OpenAI ==> r.result.value.costDollars == None)
              && (settings.provider == OpenAI ==>
                    r.sent.value.OpenAICall?
                    && adapters.openai(r.sent.value.openaiRequest)
                       == Returned(OpenAIProvider.Success(r.result.value.imageB64, r.result.value.costDollars)))
  {
    var r := ExecuteImageGeneration(nodeId, nodes, edges, settings, adapters);
    if r.sent.Some? {
      InvokeCost(r.sent.value, adapters);
    }
  }

  // ---------------------------------------------------------------------
  // Scenarios
  // ---------------------------------------------------------------------

  /** T <- I(inpainting, mask M) <- B(image), and T <- C(image): images are [B, C] and the mask is M. */
  lemma ScenarioInpaintingChain(prompt: string, b: string, c: string, m: string)
    ensures var target := Node("T", GeneratedImageData(prompt, "t", None, Prompt, None, None, None));
            var nodes := [target,
                          Node("I", InpaintingData("i", m, 1, 1)),
                          Node("B", ProvidedImageData("b", b, 1, 1)),
                          Node("C", ProvidedImageData("c", c, 1, 1))];
            var edges := [Edge("e1", "B", "I"), Edge("e2", "I", "T"), Edge("e3", "C", "T")];
            ResolveInputs(nodes, edges, target) == Resolved(prompt, [b, c], Some(m))
  {
    var target := Node("T", GeneratedImageData(prompt, "t", None, Prompt, None, None, None));
    var nodes := [target,
                  Node("I", InpaintingData("i", m, 1, 1)),
                  Node("B", ProvidedImageData("b", b, 1, 1)),
                  Node("C", ProvidedImageData("c", c, 1, 1))];
    var edges := [Edge("e1", "B", "I"), Edge("e2", "I", "T"), Edge("e3", "C", "T")];
    assert FindNode(nodes, "I") == Some(nodes[1]);
    assert FindNode(nodes, "C") == Some(nodes[3]);
    assert FindNode(nodes, "B") == Some(nodes[2]);
    assert InpaintingEdgeCount(nodes, edges[2..], "T") == 0;
    assert InpaintingEdgeCount(nodes, edges[1..], "T") == 1;
    assert InpaintingEdgeCount(nodes, edges, "T") == 1;
    assert InpaintingPredecessor(nodes, edges[1..], "T") == Some(nodes[1]);
    assert InpaintingPredecessor(nodes, edges, "T") == Some(nodes[1]);
    assert DirectImages(nodes, edges[2..], "T") == [c];
    assert DirectImages(nodes, edges[1..], "T") == [c];
    assert DirectImages(nodes, edges, "T") == [c];
    assert FirstEdgeInto(edges, "I") == Some(edges[0]);
    assert HopSource(nodes, edges, nodes[1]) == Some(nodes[2]);
    ResolveInputsSpec(nodes, edges, target);
  }

  /** Replicate with two images: the single-image error, and no adapter call. */
  lemma ScenarioReplicateTwoImages(prompt: string, b: string, c: string, settings: ModelSettings, adapters: Adapters)
    requires settings.provider == Replicate
    ensures var nodes := [Node("T", GeneratedImageData(prompt, "t", None, Prompt, None, None, None)),
                          Node("B", ProvidedImageData("b", b, 1, 1)),
                          Node("C", ProvidedImageData("c", c, 1, 1))];
            var edges := [Edge("e1", "B", "T"), Edge("e2", "C", "T")];
            ExecuteImageGeneration("T", nodes, edges, settings, adapters)
            == Exchange(Returned(Error(ReplicateSingleImageMessage)), None)
  {
    var nodes := [Node("T", GeneratedImageData(prompt, "t", None, Prompt, None, None, None)),
                  Node("B", ProvidedImageData("b", b, 1, 1)),
                  Node("C", ProvidedImageData("c", c, 1, 1))];
    var edges := [Edge("e1", "B", "T"), Edge("e2", "C", "T")];
    assert FirstGeneratedIndex(nodes, "T") == Some(0);
    assert FindNode(nodes, "B") == Some(nodes[1]);
    assert FindNode(nodes, "C") == Some(nodes[2]);
    assert InpaintingEdgeCount(nodes, edges[1..], "T") == 0;
    assert InpaintingEdgeCount(nodes, edges, "T") == 0;
    assert DirectImages(nodes, edges[1..], "T") == [c];
    assert DirectImages(nodes, edges, "T") == [b, c];
    ReplicateRejectsSeveralImages("T", nodes, edges, settings, adapters);
  }

  /** T <- B(image), no inpainting node: images are [B] and there is no mask. */
  lemma ScenarioDirectImage(prompt: string, b: string)
    ensures var target := Node("T", GeneratedImageData(prompt, "t", None, Prompt, None, None, None));
            var nodes := [target, Node("B", ProvidedImageData("b", b, 1, 1))];
            ResolveInputs(nodes, [Edge("e1", "B", "T")], target) == Resolved(prompt, [b], None)
  {
    var target := Node("T", GeneratedImageData(prompt, "t", None, Prompt, None, None, None));
    var nodes := [target, Node("B", ProvidedImageData("b", b, 1, 1))];
    var edges := [Edge("e1", "B", "T")];
    assert FindNode(nodes, "B") == Some(nodes[1]);
    assert InpaintingEdgeCount(nodes, edges, "T") == 0;
    assert DirectImages(nodes, edges, "T") == [b];
    ResolveInputsSpec(nodes, edges, target);
  }

  /** OpenAI with one image and a mask: no validation error, the adapter receives both. */
  lemma ScenarioOpenAIWithMask(prompt: string, b: string, m: string, settings: ModelSettings, adapters: Adapters)
    requires settings.provider == OpenAI
    ensures var nodes := [Node("T", GeneratedImageData(prompt, "t", None, Prompt, None, None, None)),
                          Node("I", InpaintingData("i", m, 1, 1)),
                          Node("B", ProvidedImageData("b", b, 1, 1))];
            var edges := [Edge("e1", "B", "I"), Edge("e2", "I", "T")];
            ExecuteImageGeneration("T", nodes, edges, settings, adapters).sent
            == Some(OpenAICall(OpenAIProvider.Request(prompt, [b], Some(m), settings.quality, settings.size,
                                                      settings.background)))
  {
    var target := Node("T", GeneratedImageData(prompt, "t", None, Prompt, None, None, None));
    var nodes := [target, Node("I", InpaintingData("i", m, 1, 1)), Node("B", ProvidedImageData("b", b, 1, 1))];
    var edges := [Edge("e1", "B", "I"), Edge("e2", "I", "T")];
    assert FirstGeneratedIndex(nodes, "T") == Some(0);
    assert FindNode(nodes, "I") == Some(nodes[1]);
    assert FindNode(nodes, "B") == Some(nodes[2]);
    assert InpaintingEdgeCount(nodes, edges[1..], "T") == 1;
    assert InpaintingEdgeCount(nodes, edges, "T") == 1;
    assert InpaintingPredecessor(nodes, edges, "T") == Some(nodes[1]);
    assert DirectImages(nodes, edges[1..], "T") == [];
    assert DirectImages(nodes, edges, "T") == [];
    assert FirstEdgeInto(edges, "I") == Some(edges[0]);
    assert HopSource(nodes, edges, nodes[1]) == Some(nodes[2]);
    ResolveInputsSpec(nodes, edges, target);
    assert OptionSeq(BearerImage(Some(nodes[2]))) == [b];
    assert ResolveInputs(nodes, edges, nodes[0]) == Resolved(prompt, [b], Some(m));
    OpenAIAlwaysCalled("T", nodes, edges, settings, adapters);
  }
}
