/**
 * The Gemini adapter (src/providers/gemini.ts): credential checks, the
 * `contents` of an image request, and how an image or a text is picked
 * out of the reply.
 */
module GeminiProvider {
  import opened Wrappers
  import opened Text

  datatype ImageRequest = ImageRequest(prompt: string, imagesB64: seq<string>)
  datatype ImageResponse = Error(message: string) | Success(imageB64: string)

  datatype TextRequest = TextRequest(prompt: string)
  datatype TextResponse = TextError(message: string) | TextSuccess(text: string)

  /** `{ data, mimeType }` of an inline part (request or reply). */
  datatype Blob = Blob(data: Option<string>, mimeType: Option<string>)

  /** One element of `contents` or of a reply's `parts`. */
  datatype Part = Part(text: Option<string>, inlineData: Option<Blob>)

  datatype Content = Content(parts: Option<seq<Part>>)
  datatype Candidate = Candidate(content: Option<Content>)

  /** The fields of `generateContent`'s reply that the adapter reads. */
  datatype ContentResponse = ContentResponse(candidates: Option<seq<Candidate>>)

  datatype Modality = TextModality | ImageModality

  /** The argument of `ai.models.generateContent`. */
  datatype ContentRequest = ContentRequest(model: string, contents: seq<Part>, responseModalities: seq<Modality>)

  /** `ai.models.generateContent`, which may throw. */
  type GenerateContent = ContentRequest -> Run<ContentResponse>

  const ImageModel := "gemini-2.0-flash-preview-image-generation"
  const TextModel := "gemini-2.0-flash"
  const KeyMissingMessage := "Gemini API key not configured. Click the API key button in the toolbar to set it."
  const NoImageMessage := "No image data found in Gemini response."
  const NoTextMessage := "No text response found in Gemini response."
  const ErrorPrefix := "Gemini API error: "
  /** What the engine throws for `candidates[0].content` when `candidates` is an empty array. */
  const EmptyCandidatesMessage := "Cannot read properties of undefined (reading 'content')"

  /** A prompt part. */
  function TextPart(text: string): Part {
    Part(Some(text), None)
  }

  /** A PNG inline-data part. */
  function PngPart(b64: string): Part {
    Part(None, Some(Blob(Some(b64), Some("image/png"))))
  }

  /** `contents` of an image request: the prompt, then one PNG part per input image, in order. */
  function ImageContents(request: ImageRequest): (contents: seq<Part>)
    ensures |contents| == 1 + |request.imagesB64|
    ensures contents[0] == TextPart(request.prompt)
    ensures forall k :: 0 <= k < |request.imagesB64| ==> contents[k + 1] == PngPart(request.imagesB64[k])
  {
    [TextPart(request.prompt)] + seq(|request.imagesB64|, k requires 0 <= k < |request.imagesB64| => PngPart(request.imagesB64[k]))
  }

  /** `parts.find(p => p.inlineData)?.inlineData`: the inline data of the first part that has one. */
  function FirstInlineData(parts: seq<Part>): (r: Option<Blob>)
    ensures r.Some? <==> exists k :: 0 <= k < |parts| && parts[k].inlineData.Some?
    ensures r.Some? ==> exists k :: 0 <= k < |parts| && parts[k].inlineData == r
                                    && forall j :: 0 <= j < k ==> parts[j].inlineData.None?
  {
    if parts == [] then None
    else if parts[0].inlineData.Some? then parts[0].inlineData
    else
      var r := FirstInlineData(parts[1..]);
      assert forall k :: 0 <= k < |parts| - 1 ==> parts[1..][k] == parts[k + 1];
      r
  }

  /** `candidates?.[0]?.content?.parts`, fully guarded: the parts of the first candidate, when all are present. */
  function FirstParts(response: ContentResponse): Option<seq<Part>> {
    match response.candidates
    case None => None
    case Some(cs) =>
      if |cs| == 0 then None
      else match cs[0].content
        case None => None
        case Some(content) => content.parts
  }

  /**
   * `response.candidates?.[0].content?.parts?.find(p => p.inlineData)?.inlineData?.data`.
   * The chain guards `candidates` but not `candidates[0]`: an empty
   * candidate list throws.
   */
  function ImageData(response: ContentResponse): (r: Run<Option<string>>)
    ensures r.Threw? <==> response.candidates == Some([])
    ensures r.Returned? && FirstParts(response).None? ==> r.value == None
    ensures FirstParts(response).Some? ==>
              r == Returned(match FirstInlineData(FirstParts(response).value)
                            case None => None
                            case Some(blob) => blob.data)
  {
    match response.candidates
    case None => Returned(None)
    case Some(cs) =>
      if |cs| == 0 then Threw(EmptyCandidatesMessage)
      else match cs[0].content
        case None => Returned(None)
        case Some(content) =>
          match content.parts
          case None => Returned(None)
          case Some(parts) =>
            match FirstInlineData(parts)
            case None => Returned(None)
            case Some(blob) => Returned(blob.data)
  }

  /** `geminiGenerateImage`: check the key, send the prompt and images, return the first inline image. */
  function GeminiGenerateImage(request: ImageRequest, apiKey: Option<string>, generate: GenerateContent)
    : (r: Exchange<ContentRequest, Run<ImageResponse>>)
    ensures !Truthy(apiKey) <==> r.sent.None?
    ensures !Truthy(apiKey) ==> r.result == Returned(Error(KeyMissingMessage))
    ensures r.sent.Some? ==> r.sent.value.model == ImageModel && r.sent.value.contents == ImageContents(request)
    ensures r.sent.Some? && generate(r.sent.value).Threw? ==> r.result == Threw(generate(r.sent.value).message)
    ensures r.sent.Some? && generate(r.sent.value).Returned? ==>
              var data := ImageData(generate(r.sent.value).value);
              r.result == (if data.Threw? then Threw(data.message)
                           else if Truthy(data.value) then Returned(Success(data.value.value))
                           else Returned(Error(NoImageMessage)))
    ensures r.result.Returned? && r.result.value.Success? ==> r.result.value.imageB64 != ""
  {
    if !Truthy(apiKey) then Exchange(Returned(Error(KeyMissingMessage)), None)
    else
      var call := ContentRequest(ImageModel, ImageContents(request), [TextModality, ImageModality]);
      var reply :=
        match generate(call)
        case Threw(m) => Threw(m)
        case Returned(response) =>
          match ImageData(response)
          case Threw(m) => Threw(m)
          case Returned(data) =>
            if Truthy(data) then Returned(Success(data.value)) else Returned(Error(NoImageMessage));
      Exchange(reply, Some(call))
  }

  /**
   * A reply whose first candidate holds parts with inline image data yields
   * the first such image, whatever candidates follow.
   */
  lemma FirstInlineImageWins(request: ImageRequest, apiKey: Option<string>, generate: GenerateContent,
                             parts: seq<Part>, rest: seq<Candidate>, k: nat)
    requires Truthy(apiKey)
    requires k < |parts| && parts[k].inlineData.Some? && Truthy(parts[k].inlineData.value.data)
    requires forall j :: 0 <= j < k ==> parts[j].inlineData.None?
    requires generate(ContentRequest(ImageModel, ImageContents(request), [TextModality, ImageModality]))
             == Returned(ContentResponse(Some([Candidate(Some(Content(Some(parts))))] + rest)))
    ensures GeminiGenerateImage(request, apiKey, generate).result == Returned(Success(parts[k].inlineData.value.data.value))
  {
    var r := FirstInlineData(parts);
    assert r.Some?;
    var i :| 0 <= i < |parts| && parts[i].inlineData == r && forall j :: 0 <= j < i ==> parts[j].inlineData.None?;
    assert !(i < k) && !(k < i);
  }

  /** A reply whose first candidate's parts carry no inline data is the "No image data" error. */
  lemma NoInlineImageIsError(request: ImageRequest, apiKey: Option<string>, generate: GenerateContent,
                             parts: seq<Part>, rest: seq<Candidate>)
    requires Truthy(apiKey)
    requires forall j :: 0 <= j < |parts| ==> parts[j].inlineData.None?
    requires generate(ContentRequest(ImageModel, ImageContents(request), [TextModality, ImageModality]))
             == Returned(ContentResponse(Some([Candidate(Some(Content(Some(parts))))] + rest)))
    ensures GeminiGenerateImage(request, apiKey, generate).result == Returned(Error(NoImageMessage))
  {
    assert FirstInlineData(parts).None?;
  }

  /** `response.candidates?.[0]?.content?.parts?.[0]?.text`: fully guarded, it never throws. */
  function FirstText(response: ContentResponse): (r: Option<string>)
    ensures r.Some? ==> FirstParts(response).Some? && |FirstParts(response).value| > 0
    ensures FirstParts(response).Some? && |FirstParts(response).value| > 0 ==> r == FirstParts(response).value[0].text
  {
    match response.candidates
    case None => None
    case Some(cs) =>
      if |cs| == 0 then None
      else match cs[0].content
        case None => None
        case Some(content) =>
          match content.parts
          case None => None
          case Some(parts) => if |parts| == 0 then None else parts[0].text
  }

  /** `geminiGenerateText`: check the key, send the prompt, return the first part's text. */
  function GeminiGenerateText(request: TextRequest, apiKey: Option<string>, generate: GenerateContent)
    : (r: Exchange<ContentRequest, TextResponse>)
    ensures !Truthy(apiKey) <==> r.sent.None?
    ensures !Truthy(apiKey) ==> r.result == TextError(KeyMissingMessage)
    ensures r.sent.Some? ==> r.sent.value.model == TextModel && r.sent.value.contents == [TextPart(request.prompt)]
    ensures r.sent.Some? && generate(r.sent.value).Threw? ==>
              r.result == TextError(ErrorPrefix + generate(r.sent.value).message)
    ensures r.result.TextSuccess? ==> r.result.text != "" && r.sent.Some?
    ensures r.sent.Some? && generate(r.sent.value).Returned? ==>
              var text := FirstText(generate(r.sent.value).value);
              r.result == (if Truthy(text) then TextSuccess(text.value) else TextError(NoTextMessage))
  {
    if !Truthy(apiKey) then Exchange(TextError(KeyMissingMessage), None)
    else
      var call := ContentRequest(TextModel, [TextPart(request.prompt)], []);
      var reply :=
        match generate(call)
        case Threw(m) => TextError(ErrorPrefix + m)
        case Returned(response) =>
          var text := FirstText(response);
          if Truthy(text) then TextSuccess(text.value) else TextError(NoTextMessage);
      Exchange(reply, Some(call))
  }
}
