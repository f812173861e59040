/**
 * The OpenAI adapter (src/providers/openai.ts): credential check, choice
 * between the edit and the generate endpoint, upload conversion, mapping
 * of exceptions to error values and the dollar cost of a call.
 */
module OpenAIProvider {
  import opened Wrappers
  import opened Text
  import opened DataUrl
  import opened Binary

  datatype Request = Request(
    prompt: string,
    imagesB64: seq<string>,
    inpaintingMaskB64: Option<string>,
    quality: string,
    size: string,
    background: string)

  datatype Response = Error(message: string) | Success(imageB64: string, costDollars: Option<real>)

  /** The `File` handed to the SDK (its `lastModified` time stamp is left out). */
  datatype Uploadable = PngFile(bytes: seq<byte>, fileName: string, mimeType: string)

  /** The one request the adapter makes through the SDK. */
  datatype ImagesCall =
    | EditCall(model: string, prompt: string, quality: string, images: seq<Uploadable>, mask: Option<Uploadable>)
    | GenerateCall(model: string, prompt: string, quality: string, outputFormat: string,
                   responseFormat: string, size: string, background: string)

  /** `usage.input_tokens_details.text_tokens`, `...image_tokens` and `usage.output_tokens`. */
  datatype Usage = Usage(textTokens: nat, imageTokens: nat, outputTokens: nat)

  /**
   * What the SDK returns: the optional usage and `data`, each of whose
   * entries is given by its `b64_json`.
   */
  datatype ImagesResponse = ImagesResponse(usage: Option<Usage>, data: Option<seq<string>>)

  /** The external collaborators: the SDK's images endpoint and `atob`, both of which may throw. */
  datatype Client = Client(images: ImagesCall -> Run<ImagesResponse>, atob: string -> Run<string>)

  const ImageModel := "gpt-image-1"
  const KeyMissingMessage := "OpenAI API key not configured. Click the API key button in the toolbar to set it."
  const FailureFallbackMessage := "Failed to generate image"
  /** What the engine throws for `response.data![0]` when `data` is absent. */
  const DataMissingMessage := "Cannot read properties of undefined (reading '0')"
  /** What the engine throws for `response.data![0].b64_json` when `data` is empty. */
  const FirstImageMissingMessage := "Cannot read properties of undefined (reading 'b64_json')"

  /** `appState.modelSettings.apiKey || getApiKey()`: the settings slot first, then the legacy stored key. */
  function ApiKey(settingsApiKey: Option<string>, legacyApiKey: Option<string>): (key: Option<string>)
    ensures Truthy(key) <==> Truthy(settingsApiKey) || Truthy(legacyApiKey)
    ensures Truthy(settingsApiKey) ==> key == settingsApiKey
    ensures !Truthy(settingsApiKey) ==> key == legacyApiKey
  {
    if Truthy(settingsApiKey) then settingsApiKey else legacyApiKey
  }

  /** Dollar cost of one call: 5, 10 and 40 dollars per million text-input, image-input and output tokens. */
  function Cost(u: Usage): (dollars: real)
    ensures dollars * 1000000.0 == (5 * u.textTokens + 10 * u.imageTokens + 40 * u.outputTokens) as real
    ensures dollars >= 0.0
  {
    (u.textTokens as real) * 0.000005 + (u.imageTokens as real) * 0.00001 + (u.outputTokens as real) * 0.00004
  }

  /** More tokens of any kind never cost less. */
  lemma CostMonotone(u: Usage, v: Usage)
    requires u.textTokens <= v.textTokens && u.imageTokens <= v.imageTokens && u.outputTokens <= v.outputTokens
    ensures Cost(u) <= Cost(v)
  {
  }

  /**
   * What `base64toUploadable(b64)` builds: the bytes of `atob` of the
   * payload without its data-URL prefix; `atob`'s throw passes through.
   */
  function UploadableOf(b64: string, atob: string -> Run<string>): (file: Run<Uploadable>)
    ensures file.Threw? <==> atob(StripPngPrefix(b64)).Threw?
    ensures file.Threw? ==> file.message == atob(StripPngPrefix(b64)).message
    ensures file.Returned? ==> |file.value.bytes| == |atob(StripPngPrefix(b64)).value|
    ensures file.Returned? ==> file.value.fileName == "image.png" && file.value.mimeType == "image/png"
  {
    match atob(StripPngPrefix(b64))
    case Threw(m) => Threw(m)
    case Returned(binary) => Returned(PngFile(CharCodeBytes(binary), "image.png", "image/png"))
  }

  /** When `atob` decodes the payload to the binary string of some bytes, the upload carries exactly those bytes. */
  lemma UploadCarriesDecodedBytes(b64: string, atob: string -> Run<string>, bytes: seq<byte>)
    requires atob(StripPngPrefix(b64)) == Returned(BinaryString(bytes))
    ensures UploadableOf(b64, atob) == Returned(PngFile(bytes, "image.png", "image/png"))
  {
    CharCodesOfBinaryString(bytes);
  }

  /** `base64toUploadable`: strip the prefix, decode, copy each character code into a fresh byte array. */
  method Base64ToUploadable(b64: string, atob: string -> Run<string>) returns (file: Run<Uploadable>)
    ensures file == UploadableOf(b64, atob)
  {
    var clean := StripPngPrefix(b64);
    var decoded := atob(clean);
    if decoded.Threw? {
      return Threw(decoded.message);
    }
    var binary := decoded.value;
    var len := |binary|;
    var bytes := new byte[len];
    for i := 0 to len
      invariant forall k :: 0 <= k < i ==> bytes[k] == CodeUnitByte(binary[k])
    {
      bytes[i] := CodeUnitByte(binary[i]);
    }
    assert bytes[..] == CharCodeBytes(binary);
    file := Returned(PngFile(bytes[..], "image.png", "image/png"));
  }

  /** `prefix` in front of the uploads of `rest`, unless `rest` threw. */
  function Prepend(prefix: seq<Uploadable>, rest: Run<seq<Uploadable>>): Run<seq<Uploadable>> {
    match rest
    case Threw(m) => Threw(m)
    case Returned(files) => Returned(prefix + files)
  }

  /** `imagesB64.map(base64toUploadable)`: every upload in order, or the throw of the first image that fails. */
  function Uploads(images: seq<string>, atob: string -> Run<string>): (r: Run<seq<Uploadable>>)
    ensures r.Returned? ==> |r.value| == |images|
                            && forall k :: 0 <= k < |images| ==> UploadableOf(images[k], atob) == Returned(r.value[k])
    ensures r.Threw? ==> exists k :: 0 <= k < |images| && UploadableOf(images[k], atob) == Threw(r.message)
                                     && forall j :: 0 <= j < k ==> UploadableOf(images[j], atob).Returned?
  {
    if images == [] then Returned([])
    else
      var rest := Uploads(images[1..], atob);
      assert forall k :: 0 <= k < |images| - 1 ==> images[1..][k] == images[k + 1];
      match UploadableOf(images[0], atob)
      case Threw(m) => Threw(m)
      case Returned(file) => Prepend([file], rest)
  }

  /** Prepending twice is prepending the concatenation. */
  lemma PrependTwice(a: seq<Uploadable>, b: seq<Uploadable>, rest: Run<seq<Uploadable>>)
    ensures Prepend(a, Prepend(b, rest)) == Prepend(a + b, rest)
  {
    if rest.Returned? {
      assert a + (b + rest.value) == (a + b) + rest.value;
    }
  }

  /** The uploads from position `i` on: the upload at `i`, then those after it. */
  lemma UploadsFrom(images: seq<string>, i: nat, atob: string -> Run<string>)
    requires i < |images|
    ensures Uploads(images[i..], atob)
            == match UploadableOf(images[i], atob)
               case Threw(m) => Threw(m)
               case Returned(file) => Prepend([file], Uploads(images[i + 1..], atob))
  {
    assert images[i..][0] == images[i] && images[i..][1..] == images[i + 1..];
  }

  /** `images.map(base64toUploadable)` as the engine runs it: one conversion at a time, stopping at the first throw. */
  method UploadAll(images: seq<string>, atob: string -> Run<string>) returns (r: Run<seq<Uploadable>>)
    ensures r == Uploads(images, atob)
  {
    var uploads: seq<Uploadable> := [];
    var i := 0;
    assert images[0..] == images;
    ghost var all := Uploads(images, atob);
    assert all.Returned? ==> [] + all.value == all.value;
    while i < |images|
      invariant 0 <= i <= |images|
      invariant Uploads(images, atob) == Prepend(uploads, Uploads(images[i..], atob))
    {
      var file := Base64ToUploadable(images[i], atob);
      UploadsFrom(images, i, atob);
      if file.Threw? {
        return Threw(file.message);
      }
      PrependTwice(uploads, [file.value], Uploads(images[i + 1..], atob));
      uploads := uploads + [file.value];
      i := i + 1;
    }
    assert images[i..] == [];
    assert uploads + [] == uploads;
    r := Returned(uploads);
  }

  /**
   * The SDK call the adapter makes for a request, once a key is present,
   * or what the uploads threw (the images are converted before the mask).
   */
  function CallFor(request: Request, atob: string -> Run<string>): (call: Run<ImagesCall>)
    ensures call.Threw? <==> |request.imagesB64| > 0 && (Uploads(request.imagesB64, atob).Threw?
                               || (Truthy(request.inpaintingMaskB64) && UploadableOf(request.inpaintingMaskB64.value, atob).Threw?))
    ensures call.Threw? && Uploads(request.imagesB64, atob).Threw? ==> call.message == Uploads(request.imagesB64, atob).message
    ensures call.Threw? && Uploads(request.imagesB64, atob).Returned? ==>
              UploadableOf(request.inpaintingMaskB64.value, atob) == Threw(call.message)
    ensures call.Returned? ==> (|request.imagesB64| > 0 <==> call.value.EditCall?)
    ensures call.Returned? && call.value.EditCall? ==>
              |call.value.images| == |request.imagesB64|
              && (forall k :: 0 <= k < |call.value.images| ==>
                    UploadableOf(request.imagesB64[k], atob) == Returned(call.value.images[k]))
              && (call.value.mask.Some? <==> Truthy(request.inpaintingMaskB64))
              && (call.value.mask.Some? ==> UploadableOf(request.inpaintingMaskB64.value, atob) == Returned(call.value.mask.value))
    ensures call.Returned? && call.value.GenerateCall? ==>
              call.value.size == request.size && call.value.background == request.background
    ensures call.Returned? ==>
              call.value.model == ImageModel && call.value.prompt == request.prompt && call.value.quality == request.quality
  {
    if |request.imagesB64| > 0 then
      match Uploads(request.imagesB64, atob)
      case Threw(m) => Threw(m)
      case Returned(files) =>
        if Truthy(request.inpaintingMaskB64) then
          match UploadableOf(request.inpaintingMaskB64.value, atob)
          case Threw(m) => Threw(m)
          case Returned(mask) => Returned(EditCall(ImageModel, request.prompt, request.quality, files, Some(mask)))
        else Returned(EditCall(ImageModel, request.prompt, request.quality, files, None))
    else
      Returned(GenerateCall(ImageModel, request.prompt, request.quality, "png", "b64_json", request.size, request.background))
  }

  /**
   * The adapter's reply to what the `try` block did: a thrown error becomes
   * an error value and usage becomes a cost; reading `data[0]` after the
   * `try` throws when `data` is absent or empty.
   */
  function Interpret(outcome: Run<ImagesResponse>): (r: Run<Response>)
    ensures outcome.Threw? ==>
              r == Returned(Error(if outcome.message != "" then outcome.message else FailureFallbackMessage))
    ensures outcome.Returned? && outcome.value.data.None? ==> r == Threw(DataMissingMessage)
    ensures outcome.Returned? && outcome.value.data == Some([]) ==> r == Threw(FirstImageMissingMessage)
    ensures outcome.Returned? && outcome.value.data.Some? && |outcome.value.data.value| > 0 ==>
              r.Returned? && r.value.Success? && r.value.imageB64 == outcome.value.data.value[0]
              && (r.value.costDollars.Some? <==> outcome.value.usage.Some?)
              && (outcome.value.usage.Some? ==> r.value.costDollars == Some(Cost(outcome.value.usage.value)))
  {
    match outcome
    case Threw(m) => Returned(Error(if m != "" then m else FailureFallbackMessage))
    case Returned(resp) =>
      match resp.data
      case None => Threw(DataMissingMessage)
      case Some(images) =>
        if |images| == 0 then Threw(FirstImageMissingMessage)
        else Returned(Success(images[0], match resp.usage case None => None case Some(u) => Some(Cost(u))))
  }

  /**
   * `aiGenerateImage`: check the key, convert the uploads and make one SDK
   * call inside the `try`, then fold the outcome into a response.
   */
  method AiGenerateImage(request: Request, settingsApiKey: Option<string>, legacyApiKey: Option<string>, client: Client)
    returns (r: Run<Response>, sent: Option<ImagesCall>)
    ensures !Truthy(ApiKey(settingsApiKey, legacyApiKey)) ==> r == Returned(Error(KeyMissingMessage)) && sent == None
    ensures Truthy(ApiKey(settingsApiKey, legacyApiKey)) && CallFor(request, client.atob).Threw? ==>
              sent == None && r == Interpret(Threw(CallFor(request, client.atob).message))
    ensures Truthy(ApiKey(settingsApiKey, legacyApiKey)) && CallFor(request, client.atob).Returned? ==>
              sent == Some(CallFor(request, client.atob).value) && r == Interpret(client.images(sent.value))
  {
    var apiKey := ApiKey(settingsApiKey, legacyApiKey);
    if !Truthy(apiKey) {
      return Returned(Error(KeyMissingMessage)), None;
    }
    var call: ImagesCall;
    var images := request.imagesB64;
    if |images| > 0 {
      var uploads := UploadAll(images, client.atob);
      if uploads.Threw? {
        return Interpret(Threw(uploads.message)), None;
      }
      var mask: Option<Uploadable> := None;
      if Truthy(request.inpaintingMaskB64) {
        var file := Base64ToUploadable(request.inpaintingMaskB64.value, client.atob);
        if file.Threw? {
          return Interpret(Threw(file.message)), None;
        }
        mask := Some(file.value);
      }
      call := EditCall(ImageModel, request.prompt, request.quality, uploads.value, mask);
    } else {
      call := GenerateCall(ImageModel, request.prompt, request.quality, "png", "b64_json", request.size, request.background);
    }
    assert CallFor(request, client.atob) == Returned(call);
    sent := Some(call);
    r := Interpret(client.images(call));
  }
}
