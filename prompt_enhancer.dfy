/**
 * `enhancePrompt` (src/logic/prompt-enhancer.ts): asks Gemini's text
 * model to rewrite a prompt. A blank prompt is refused before any request;
 * otherwise the prompt is embedded verbatim in a fixed instruction text
 * and the trimmed reply is the enhanced prompt.
 */
module PromptEnhancer {
  import opened Wrappers
  import opened Text
  import GeminiProvider

  datatype EnhanceResult = EnhanceError(message: string) | EnhanceSuccess(enhancedPrompt: string)

  const BlankPromptMessage := "Please provide a prompt to enhance."

  /** The instruction text up to the opening quote of the original prompt. */
  const Instructions :=
    "You are an expert prompt engineer for image generation. Your task is to rewrite and improve the following prompt for better image generation results.\n"
    + "\n"
    + "Requirements:\n"
    + "- Rewrite the prompt in clear, detailed English\n"
    + "- Focus on visual details, style, composition, and artistic elements\n"
    + "- Keep the core concept but enhance the description\n"
    + "- Your response must contain ONLY the improved prompt text\n"
    + "- Do not include any explanations, prefixes, quotes, or additional text\n"
    + "- Do not say \"Enhanced prompt:\" or similar - just provide the improved prompt directly\n"
    + "\n"
    + "Original prompt: \""

  /** The text sent to Gemini: the instructions, then the original prompt in quotes. */
  function EnhancementPrompt(original: string): (text: string)
    ensures |text| == |Instructions| + |original| + 1
    ensures text[..|Instructions|] == Instructions
    ensures text[|Instructions|..|Instructions| + |original|] == original
    ensures text[|text| - 1] == '"'
  {
    var text := Instructions + original + "\"";
    assert text[|Instructions|..|Instructions| + |original|] == original;
    text
  }

  /** The original prompt appears verbatim inside the request text. */
  lemma OriginalEmbedded(original: string)
    ensures Contains(EnhancementPrompt(original), original)
  {
    ContainsInfix(Instructions, original, "\"");
  }

  /** The blank-prompt refusal cannot be mistaken for Gemini's missing-key error. */
  lemma BlankMessageIsDistinct()
    ensures BlankPromptMessage != GeminiProvider.KeyMissingMessage
  {
    assert |BlankPromptMessage| < |GeminiProvider.KeyMissingMessage|;
  }

  /**
   * `enhancePrompt(originalPrompt)`, with Gemini's key and its
   * `generateContent` call as parameters; `sent` is the request Gemini
   * received, if any.
   */
  function EnhancePrompt(original: string, apiKey: Option<string>, generate: GeminiProvider.GenerateContent)
    : (r: Exchange<GeminiProvider.ContentRequest, EnhanceResult>)
    ensures IsBlank(original) <==> r.result == EnhanceError(BlankPromptMessage) && r.sent.None?
    ensures !IsBlank(original) ==>
              var reply := GeminiProvider.GeminiGenerateText(GeminiProvider.TextRequest(EnhancementPrompt(original)),
                                                             apiKey, generate);
              && r.sent == reply.sent
              && (reply.result.TextError? ==> r.result == EnhanceError(reply.result.message))
              && (reply.result.TextSuccess? ==> r.result == EnhanceSuccess(Trim(reply.result.text)))
    ensures r.result.EnhanceSuccess? ==>
              r.sent.Some? && r.sent.value.contents == [GeminiProvider.TextPart(EnhancementPrompt(original))]
    ensures r.result.EnhanceSuccess? ==> Trim(r.result.enhancedPrompt) == r.result.enhancedPrompt
  {
    TrimEmptyIffBlank(original);
    BlankMessageIsDistinct();
    if Trim(original) == [] then Exchange(EnhanceError(BlankPromptMessage), None)
    else
      var reply := GeminiProvider.GeminiGenerateText(GeminiProvider.TextRequest(EnhancementPrompt(original)),
                                                     apiKey, generate);
      match reply.result
      case TextError(message) => Exchange(EnhanceError(message), reply.sent)
      case TextSuccess(text) =>
        TrimIdempotent(text);
        Exchange(EnhanceSuccess(Trim(text)), reply.sent)
  }
}
