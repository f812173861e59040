/**
 * The Replicate adapter (src/providers/replicate.ts): credential check,
 * the single-image rule, the mapping from the chosen models to Replicate
 * model ids, the handling of the prediction's output and the
 * classification of errors.
 */
module ReplicateProvider {
  import opened Wrappers
  import opened Text
  import opened DataUrl
  import opened Binary

  datatype Request = Request(prompt: string, imagesB64: seq<string>, editingModel: string, generationModel: string)
  datatype Response = Error(message: string) | Success(imageB64: string)

  /** The prediction's `input`; `image` is absent in generation mode. */
  datatype Input = Input(prompt: string, outputFormat: string, image: Option<string>)

  /** The arguments of `replicate.run(modelId, { input })`. */
  datatype Prediction = Prediction(modelId: string, input: Input)

  /** What `replicate.run` resolves to: an array of image URLs, or anything else. */
  datatype RunOutput = UrlArray(urls: seq<string>) | NotAnArray

  /** What `fetch(imageUrl)` resolves to. */
  datatype FetchResponse = FetchResponse(ok: bool, statusText: string, body: seq<byte>)

  /** The external collaborators: `replicate.run`, `fetch` (both may throw) and `btoa`. */
  datatype Client = Client(run: Prediction -> Run<RunOutput>, fetch: string -> Run<FetchResponse>, btoa: string -> string)

  const KeyMissingMessage := "Replicate API key not configured. Click the API key button in the toolbar to set it."
  const TooManyImagesMessage := "Replicate editing models accept only one input image. Please connect only one image."
  const NoImageMessage := "No image generated from Replicate API"
  const InvalidKeyMessage := "Invalid Replicate API key. Please check your API key configuration."
  const QuotaMessage := "Replicate API quota exceeded or billing issue. Please check your account."
  const ErrorPrefix := "Replicate API error: "
  const UnknownErrorMessage := "Unknown error occurred"
  const FetchFailedPrefix := "Failed to fetch image: "

  /** The model used in editing mode: `flux-kontext-max` when asked for, `flux-kontext-pro` otherwise. */
  function EditingModelId(editingModel: string): (id: string)
    ensures id == "black-forest-labs/flux-kontext-max" <==> editingModel == "flux-kontext-max"
    ensures id == "black-forest-labs/flux-kontext-max" || id == "black-forest-labs/flux-kontext-pro"
  {
    if editingModel == "flux-kontext-max" then "black-forest-labs/flux-kontext-max"
    else "black-forest-labs/flux-kontext-pro"
  }

  /** The three known generation models keep their names under the vendor prefix; anything else falls back to `flux-schnell`. */
  predicate IsKnownGenerationModel(m: string) {
    m == "flux-schnell" || m == "flux-1.1-pro" || m == "flux-1.1-pro-ultra"
  }

  function GenerationModelId(generationModel: string): (id: string)
    ensures IsKnownGenerationModel(generationModel) ==> id == "black-forest-labs/" + generationModel
    ensures !IsKnownGenerationModel(generationModel) ==> id == "black-forest-labs/flux-schnell"
  {
    match generationModel
    case "flux-schnell" => "black-forest-labs/flux-schnell"
    case "flux-1.1-pro" => "black-forest-labs/flux-1.1-pro"
    case "flux-1.1-pro-ultra" => "black-forest-labs/flux-1.1-pro-ultra"
    case _ => "black-forest-labs/flux-schnell"
  }

  /** Different known generation models are sent to different Replicate models. */
  lemma GenerationModelIdInjective(a: string, b: string)
    requires IsKnownGenerationModel(a) && IsKnownGenerationModel(b) && a != b
    ensures GenerationModelId(a) != GenerationModelId(b)
  {
    var p := "black-forest-labs/";
    assert (p + a)[|p|..] == a && (p + b)[|p|..] == b;
  }

  /**
   * The local `modelId` and `input`, set through the if/switch of the
   * adapter; `None` when more than one image was supplied.
   */
  method PlanPrediction(request: Request) returns (plan: Option<Prediction>)
    ensures plan.None? <==> |request.imagesB64| > 1
    ensures plan.Some? ==> plan.value.input.prompt == request.prompt && plan.value.input.outputFormat == "png"
    ensures |request.imagesB64| == 1 ==>
              plan == Some(Prediction(EditingModelId(request.editingModel),
                                      Input(request.prompt, "png", Some(PngDataUrl(request.imagesB64[0])))))
    ensures |request.imagesB64| == 0 ==>
              plan == Some(Prediction(GenerationModelId(request.generationModel), Input(request.prompt, "png", None)))
  {
    var modelId: string;
    var input: Input;
    if |request.imagesB64| > 0 {
      if |request.imagesB64| > 1 {
        return None;
      }
      modelId := EditingModelId(request.editingModel);
      input := Input(request.prompt, "png", Some(PngDataUrl(request.imagesB64[0])));
    } else {
      modelId := GenerationModelId(request.generationModel);
      input := Input(request.prompt, "png", None);
    }
    plan := Some(Prediction(modelId, input));
  }

  /** The message of an error caught by the adapter, in the order it tests them. */
  function ClassifyError(message: string): (r: string)
    ensures Contains(message, "authentication") ==> r == InvalidKeyMessage
    ensures (!Contains(message, "authentication") && (Contains(message, "quota") || Contains(message, "billing")))
              ==> r == QuotaMessage
    ensures (!Contains(message, "authentication") && !Contains(message, "quota") && !Contains(message, "billing"))
              ==> r == ErrorPrefix + (if message == "" then UnknownErrorMessage else message)
  {
    if Contains(message, "authentication") then InvalidKeyMessage
    else if Contains(message, "quota") || Contains(message, "billing") then QuotaMessage
    else ErrorPrefix + (if message == "" then UnknownErrorMessage else message)
  }

  /** What happens after a prediction was sent: output check, download, encoding, and the catch block. */
  function AfterRun(client: Client, prediction: Prediction): (r: Response)
    ensures client.run(prediction).Returned? && client.run(prediction).value.NotAnArray? ==> r == Error(NoImageMessage)
    ensures client.run(prediction).Returned? && client.run(prediction).value == UrlArray([]) ==> r == Error(NoImageMessage)
    ensures client.run(prediction).Threw? ==> r == Error(ClassifyError(client.run(prediction).message))
    ensures client.run(prediction).Returned? && client.run(prediction).value.UrlArray?
            && |client.run(prediction).value.urls| > 0 ==>
              var fetched := client.fetch(client.run(prediction).value.urls[0]);
              && (fetched.Threw? ==> r == Error(ClassifyError(fetched.message)))
              && (fetched.Returned? && !fetched.value.ok ==>
                    r == Error(ClassifyError(FetchFailedPrefix + fetched.value.statusText)))
              && (fetched.Returned? && fetched.value.ok ==> r == Success(client.btoa(BinaryString(fetched.value.body))))
    ensures r.Success? ==>
              && client.run(prediction).Returned? && client.run(prediction).value.UrlArray?
              && |client.run(prediction).value.urls| > 0
              && client.fetch(client.run(prediction).value.urls[0]).Returned?
              && client.fetch(client.run(prediction).value.urls[0]).value.ok
  {
    match client.run(prediction)
    case Threw(m) => Error(ClassifyError(m))
    case Returned(output) =>
      if output.UrlArray? && |output.urls| > 0 then
        match client.fetch(output.urls[0])
        case Threw(m) => Error(ClassifyError(m))
        case Returned(response) =>
          if !response.ok then Error(ClassifyError(FetchFailedPrefix + response.statusText))
          else Success(client.btoa(BinaryString(response.body)))
      else Error(NoImageMessage)
  }

  /** The `for` loop building `binaryString` one `String.fromCharCode` at a time. */
  method BuildBinaryString(bytes: seq<byte>) returns (s: string)
    ensures s == BinaryString(bytes)
  {
    s := "";
    for i := 0 to |bytes|
      invariant |s| == i
      invariant forall k :: 0 <= k < i ==> s[k] as int == bytes[k] as int
    {
      s := s + [(bytes[i] as int) as char];
    }
  }

  /** `replicateGenerateImage` */
  method ReplicateGenerateImage(request: Request, apiKey: Option<string>, client: Client)
    returns (r: Response, sent: Option<Prediction>)
    ensures !Truthy(apiKey) ==> r == Error(KeyMissingMessage) && sent == None
    ensures Truthy(apiKey) && |request.imagesB64| > 1 ==> r == Error(TooManyImagesMessage) && sent == None
    ensures Truthy(apiKey) && |request.imagesB64| == 1 ==>
              sent == Some(Prediction(EditingModelId(request.editingModel),
                                      Input(request.prompt, "png", Some(PngDataUrl(request.imagesB64[0])))))
    ensures Truthy(apiKey) && |request.imagesB64| == 0 ==>
              sent == Some(Prediction(GenerationModelId(request.generationModel), Input(request.prompt, "png", None)))
    ensures sent.Some? ==> r == AfterRun(client, sent.value)
  {
    if !Truthy(apiKey) {
      return Error(KeyMissingMessage), None;
    }
    var plan := PlanPrediction(request);
    if plan.None? {
      return Error(TooManyImagesMessage), None;
    }
    var prediction := plan.value;
    sent := Some(prediction);
    var output := client.run(prediction);
    if output.Threw? {
      return Error(ClassifyError(output.message)), sent;
    }
    if !(output.value.UrlArray? && |output.value.urls| > 0) {
      return Error(NoImageMessage), sent;
    }
    var fetched := client.fetch(output.value.urls[0]);
    if fetched.Threw? {
      return Error(ClassifyError(fetched.message)), sent;
    }
    if !fetched.value.ok {
      return Error(ClassifyError(FetchFailedPrefix + fetched.value.statusText)), sent;
    }
    var binary := BuildBinaryString(fetched.value.body);
    r := Success(client.btoa(binary));
  }
}
