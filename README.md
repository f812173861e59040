# Image Workbench core, modelled in Dafny

Image Workbench is a browser application. The user builds a graph of
image nodes and asks an image provider to produce new images from it.
There are three node kinds:

- a **provided image** is an imported PNG;
- a **generated image** holds a prompt, a status and, once generated, an image and its cost;
- an **inpainting** node holds a mask painted over another node's image.

Edges say which node feeds which. To generate, the workbench resolves the
inputs of the target node from the graph:

- at most one inpainting predecessor is allowed; its image is the mask;
- the image one hop behind that predecessor comes first;
- the images of the direct predecessors follow, in edge order.

The resolved inputs are routed to OpenAI, Gemini or Replicate. Each
provider first checks what it supports: Gemini and Replicate take no mask,
and Replicate takes at most one image.

This project models:

- the resolver and the router;
- the decision logic of the three provider adapters (credential checks,
  request assembly, model-id mapping, error classification, the OpenAI
  cost formula);
- the node-state operations of the application state;
- the alpha-mask compositor of the inpainting editor;
- the prompt enhancer;
- the toast queue.

It then proves what these promise.

Modules, one file each:

| file | module | models |
|---|---|---|
| wrappers.dfy | `Wrappers` | `Option`, `Run` (a value or a thrown error), `Exchange` (a result plus the request sent, if any) |
| text.dfy | `Text` | `startsWith`, `includes`, JavaScript truthiness, `trim` |
| data_url.dfy | `DataUrl` | the `data:image/png;base64,` prefix |
| binary.dfy | `Binary` | bytes and one-character-per-byte strings |
| types.dfy | `Types` | nodes, edges, settings, API keys, `find` |
| generate.dfy | `Generate` | `executeImageGeneration` |
| openai.dfy, gemini.dfy, replicate.dfy | `OpenAIProvider`, `GeminiProvider`, `ReplicateProvider` | the adapters |
| model.dfy | `Model` | class `AppState` and its operations |
| inpainter_canvas.dfy | `InpainterCanvas` | `applyMask`, `saveMask` |
| prompt_enhancer.dfy | `PromptEnhancer` | `enhancePrompt` |
| toast.dfy | `Toast` | class `ToastQueue` |

The model's conventions:

- **Thrown errors** are `Run.Threw(message)`. **Error values** are the
  `Error` variants of the result types.
- **Calls into code that is not shown become parameters.** These are the
  provider SDKs, `fetch`, `atob` and `btoa`, the image-size probe, fresh
  uuids and the PNG encoder. An adapter also returns the request it sent,
  so "no call was made" can be stated.
- **Storage and toasts.** The browser's key storage is two fields of
  `AppState`. The toasts an operation raises are appended to its
  `notices`.

The resolver is written the way the source writes it, as a chain of
`filter`, `map` and `find`. Beside it are edge-by-edge reference definitions:

- `InpaintingEdgeCount`: how many inpainting predecessors the target has;
- `InpaintingPredecessor`: which inpainting node comes first;
- `DirectImages`: which images the direct predecessors carry.

`Generate.ResolveInputsSpec` proves that the chain computes exactly these.

## Model

| member | source | states |
|---|---|---|
| Types.KeyCount | src/logic/model.ts:313 | the number of key slots set, at most 3, and 0 exactly when no slot is set |
| Types.FirstIndex | src/logic/model.ts:181 | the index `find` stops at: it carries the id and no earlier node does; none when no node carries it |
| Types.FindNode | src/logic/model.ts:181 | the node found is the first node carrying the id (at `FirstIndex`); none exactly when no node carries the id |
| Types.FirstGeneratedIndex | src/logic/generate.ts:26-28 | the first generated-image node with the id; none when no generated-image node carries it |
| Types.FirstGeneratedAgrees | src/logic/generate.ts:26-30 | when the first node with an id is a generated image, the generated-only search finds that same node, so `generateImage` and `executeImageGeneration` work on one node |
| Text.Trim | src/logic/prompt-enhancer.ts:34 | never longer than its input; a non-empty result starts at the input's first non-whitespace character |
| Text.ContainsInfix | src/logic/prompt-enhancer.ts:21 | a string is found inside any string that has it between a prefix and a suffix |
| Text.SkipBlanks | src/logic/prompt-enhancer.ts:34 | the first non-whitespace position at or after the start point, with only whitespace skipped on the way |
| Text.BackBlanks | src/logic/prompt-enhancer.ts:34 | the position just past the last non-whitespace character before the end point, with only whitespace skipped on the way |
| Text.TrimCuts | src/logic/prompt-enhancer.ts:34 | `trim` returns a slice of its input, and what it cuts off at either end is whitespace |
| Text.TrimEnds | src/logic/prompt-enhancer.ts:34 | the result of `trim` neither starts nor ends with whitespace |
| Text.TrimEmptyIffBlank | src/logic/prompt-enhancer.ts:4 | `s.trim()` is empty exactly when every character of `s` is whitespace |
| Text.TrimIdempotent | src/logic/prompt-enhancer.ts:34 | trimming a trimmed string changes nothing |
| DataUrl.StripPngPrefix | src/ui/inpainter-canvas.tsx:79-80 | the prefix is removed exactly when present (prefix plus result gives the input back); otherwise the string is unchanged |
| DataUrl.PngDataUrl | src/providers/replicate.ts:53 | the data URL starts with the PNG prefix and is the prefix plus the payload |
| DataUrl.StripUndoesDataUrl | src/providers/replicate.ts:53 | stripping the prefix from a PNG data URL gives back its payload |
| DataUrl.DataUrlUndoesStrip | src/providers/openai.ts:91-92 | a string with the prefix is rebuilt by adding the prefix to what stripping leaves |
| Binary.BinaryString | src/providers/replicate.ts:93-96 | one character per byte, each with the byte's code |
| Binary.CodeUnitByte | src/providers/openai.ts:97 | a character below 256 is stored as its own code |
| Binary.CharCodeBytes | src/providers/openai.ts:94-98 | the byte array is as long as the decoded string |
| Binary.CharCodesOfBinaryString | src/providers/openai.ts:93-98 | reading the character codes of a binary string gives back its bytes |
| OpenAIProvider.ApiKey | src/providers/openai.ts:29 | a key is present when either slot holds one; the settings slot wins |
| OpenAIProvider.Cost | src/providers/openai.ts:74-81 | the cost in dollars times one million is 5 per text token plus 10 per input image token plus 40 per output token; never negative |
| OpenAIProvider.CostMonotone | src/providers/openai.ts:76-81 | more tokens of any kind never cost less |
| OpenAIProvider.UploadableOf | src/providers/openai.ts:90-99 | throws exactly when `atob` throws on the payload, with its message; otherwise the upload is named `image.png` with type `image/png`, and its byte count is the length of the decoded payload |
| OpenAIProvider.UploadCarriesDecodedBytes | src/providers/openai.ts:93-98 | when the payload decodes to the binary string of some bytes, the upload carries exactly those bytes |
| OpenAIProvider.Base64ToUploadable | src/providers/openai.ts:90-100 | the loop fills the byte array with the decoded character codes, so the file equals `UploadableOf`; a decoding throw passes through |
| OpenAIProvider.Uploads | src/providers/openai.ts:52 | every image's upload, in order; or the throw of the first image whose decoding fails, all earlier ones having succeeded |
| OpenAIProvider.UploadAll | src/providers/openai.ts:52 | the conversion loop, stopping at the first throw, computes exactly `Uploads` |
| OpenAIProvider.CallFor | src/providers/openai.ts:47-66 | throws exactly when there are images and an image or the non-empty mask fails to decode, the images' throw first. Otherwise edit exactly when there are images: every image is uploaded in order, and the mask is sent exactly when it is non-empty. Otherwise generate with size and background. Always `gpt-image-1` with the prompt and quality |
| OpenAIProvider.Interpret | src/providers/openai.ts:67-86 | a throw inside the `try` becomes an error with its message or `Failed to generate image`. A reply becomes a success with `data[0]`, with a cost exactly when usage was reported; a reply with no or empty `data` throws |
| OpenAIProvider.AiGenerateImage | src/providers/openai.ts:25-87 | without a key: the key error and no SDK call. With one: an upload that fails to decode gives the caught error and no SDK call; otherwise exactly `CallFor` is sent and its outcome is interpreted |
| GeminiProvider.ImageContents | src/providers/gemini.ts:34-42 | the prompt text first, then one PNG inline part per input image, in order |
| GeminiProvider.FirstInlineData | src/providers/gemini.ts:56-57 | the inline data of the first part that has some; none exactly when no part has any |
| GeminiProvider.ImageData | src/providers/gemini.ts:55-58 | the optional chain throws exactly when the candidate list is empty. When the first candidate has parts, the data of the first part with inline data, or none; otherwise none |
| GeminiProvider.GeminiGenerateImage | src/providers/gemini.ts:16-68 | no request exactly when the key is missing, and then the key error. The request carries the image model and `ImageContents`. A throw of the call or of the chain passes through. Non-empty data is the success image; otherwise `No image data found in Gemini response.` |
| GeminiProvider.FirstInlineImageWins | src/providers/gemini.ts:55-67 | when the first candidate's parts hold inline image data, the image of the first such part is returned, whatever candidates follow |
| GeminiProvider.NoInlineImageIsError | src/providers/gemini.ts:55-65 | when the first candidate's parts hold no inline data, the result is `No image data found in Gemini response.` |
| GeminiProvider.FirstText | src/providers/gemini.ts:102 | the text of the first part of the first candidate when those exist; none otherwise, and never a throw |
| GeminiProvider.GeminiGenerateText | src/providers/gemini.ts:81-118 | no request exactly when the key is missing. The request is the prompt alone. A throw becomes `Gemini API error: ` plus its message. A non-empty first text is the success text; otherwise `No text response found in Gemini response.` |
| ReplicateProvider.EditingModelId | src/providers/replicate.ts:46-48 | `flux-kontext-max` exactly when asked for, `flux-kontext-pro` otherwise |
| ReplicateProvider.GenerationModelId | src/providers/replicate.ts:58-70 | a known generation model maps to its own id under the vendor prefix; anything else maps to `flux-schnell` |
| ReplicateProvider.GenerationModelIdInjective | src/providers/replicate.ts:58-70 | different known generation models are sent to different model ids |
| ReplicateProvider.PlanPrediction | src/providers/replicate.ts:33-76 | no prediction exactly when there is more than one image. With one image: the editing model, with the image as a PNG data URL. With none: the generation model and no image field |
| ReplicateProvider.ClassifyError | src/providers/replicate.ts:113-131 | `authentication` first, then `quota` or `billing`; otherwise `Replicate API error: ` plus the message, or `Unknown error occurred` |
| ReplicateProvider.AfterRun | src/providers/replicate.ts:78-108 | an output that is not a non-empty array is `No image generated from Replicate API`. Only the first URL is fetched. A throw of `run` or `fetch` goes through `ClassifyError`, and so does `Failed to fetch image: ` plus the status text of a response that is not ok. An ok response gives `btoa` of its bytes' binary string, and a success only arises that way |
| ReplicateProvider.BuildBinaryString | src/providers/replicate.ts:93-96 | the loop builds exactly `BinaryString` of the fetched bytes |
| ReplicateProvider.ReplicateGenerateImage | src/providers/replicate.ts:15-133 | a missing key, or more than one image, returns an error before any call. Otherwise the prediction of `PlanPrediction` is sent and its outcome handled by `AfterRun` |
| Generate.EdgesInto | src/logic/generate.ts:32-33 | only edges of the list, only those into the target |
| Generate.SourcesOf | src/logic/generate.ts:34 | one entry per edge |
| Generate.InpaintingNodes | src/logic/generate.ts:36-38 | only inpainting nodes that were among the predecessors |
| Generate.BearerImage | src/logic/generate.ts:44-47 | an image comes only from an existing provided or generated node, and it is that node's image |
| Generate.BearerImages | src/logic/generate.ts:44-47 | at most one image per predecessor |
| Generate.HopSource | src/logic/generate.ts:53-58 | the node one hop behind: an existing node that is the source of the first edge into the given node; none when no edge enters it |
| Generate.HopSources | src/logic/generate.ts:53-58 | one hop source per inpainting node, in order |
| Generate.ResolveInputs | src/logic/generate.ts:32-65 | a resolution keeps the target's prompt; what it holds is stated by `ResolveInputsSpec` |
| Generate.MaskFromExistingInpaintingNode | src/logic/generate.ts:36-65 | a mask is always the image of an inpainting node that exists in the graph |
| Generate.FirstEdgeInto | src/logic/generate.ts:54 | the first edge into the node, or none when no edge enters it |
| Generate.InpaintingPredecessor | src/logic/generate.ts:36-42 | there is one exactly when the target has an inpainting predecessor, and it is an inpainting node |
| Generate.InpaintingCountAgrees | src/logic/generate.ts:36-42 | the chain counts inpainting predecessors edge by edge, and its first one is `InpaintingPredecessor` |
| Generate.DirectImagesAgree | src/logic/generate.ts:32-47 | the chain's image list is the images of the direct predecessors, edge by edge |
| Generate.ResolveInputsShape | src/logic/generate.ts:49-65 | the resolution in terms of the chain's lists: the error for two or more inpainting nodes; with one, the hop image first and its mask |
| Generate.ResolveInputsSpec | src/logic/generate.ts:32-65 | the fan-in error exactly when two or more inpainting nodes feed the target. With none: no mask and the direct images in edge order. With one (P): mask P's image, images [image behind P's first incoming edge] + direct images |
| Generate.DirectImagesAppend | src/logic/generate.ts:44-47 | images of earlier edges come before those of later edges |
| Generate.DanglingEdgeIgnored | src/logic/generate.ts:34 | an edge whose source node is missing contributes nothing |
| Generate.InpaintingContributesNoImage | src/logic/generate.ts:44-45 | a predecessor that is an inpainting node adds no image; so inpainting nodes and images together never outnumber the predecessors |
| Generate.DirectImageOrigin | src/logic/generate.ts:44-47 | every direct image is the image of some edge's existing provided or generated source |
| Generate.Route | src/logic/generate.ts:73-163 | openai is always called with images and mask. Gemini refuses exactly a non-empty mask. Replicate refuses a non-empty mask, and then more than one image. An unknown provider gives `Unknown provider selected` |
| Generate.FromOpenAI | src/logic/generate.ts:85-93 | throws and errors pass through; a success keeps image and cost |
| Generate.FromGemini | src/logic/generate.ts:112-120 | throws and errors pass through; a success keeps its image and has no cost |
| Generate.FromReplicate | src/logic/generate.ts:150-158 | throws and errors pass through; a success keeps its image and has no cost |
| Generate.Invoke | src/logic/generate.ts:85-158 | the adapter the call names, and only it, is awaited, and its reply goes through that adapter's fold |
| Generate.InvokeCost | src/logic/generate.ts:85-158 | only the OpenAI adapter's success carries a cost; any success keeps the adapter's image and cost |
| Generate.ExecuteImageGeneration | src/logic/generate.ts:24-165 | a missing generated target throws `Node with id … not found` and calls nothing. Without an adapter call the result is an error value. With one, the adapter called is the selected provider's, and the result is its folded reply |
| Generate.TooManyInpaintingRejected | src/logic/generate.ts:36-42 | two or more inpainting predecessors: `Only one inpainting node is allowed`, whatever the provider, and no adapter call |
| Generate.MaskRejectedByGeminiAndReplicate | src/logic/generate.ts:96-131 | with a non-empty mask, Gemini and Replicate return their inpainting error without an adapter call |
| Generate.ReplicateRejectsSeveralImages | src/logic/generate.ts:133-140 | Replicate with more than one image and no mask: the single-image error, and no adapter call |
| Generate.OpenAIAlwaysCalled | src/logic/generate.ts:74-83 | once the fan-in rule holds, openai receives the resolved prompt, images and mask with the quality, size and background settings |
| Generate.CostOnlyFromOpenAI | src/logic/generate.ts:88-157 | a success from Gemini or Replicate has no cost; an OpenAI success has exactly the adapter's cost |
| Generate.ScenarioInpaintingChain | src/logic/generate.ts:49-65 | T ← I(mask M) ← B, and T ← C: images [B, C], mask M |
| Generate.ScenarioReplicateTwoImages | src/logic/generate.ts:133-140 | Replicate with two direct images: the single-image error, and no call |
| Generate.ScenarioDirectImage | src/logic/generate.ts:44-65 | T ← B: images [B], no mask |
| Generate.ScenarioOpenAIWithMask | src/logic/generate.ts:74-83 | OpenAI with one image behind an inpainting node: the adapter receives [B] and mask M |
| Model.Capitalised | src/logic/model.ts:251 | same length, first character upper-cased, rest unchanged |
| Model.KeyFor | src/logic/model.ts:235-248 | OpenAI, Gemini and Replicate each read their own slot; no key for an unknown provider or when no keys are set |
| Model.WithStatus | src/logic/model.ts:255 | only the status of the generated node's data changes |
| Model.Settle | src/logic/model.ts:255-270 | after a throw the node stays processing; after an error it is back to prompt. After a success it is completed, with image, cost and size. The size invariant is kept |
| Model.SanitizeName | src/logic/model.ts:128 | same length; every character is a word character or hyphen; a character is kept exactly when it already was one, and otherwise it becomes `_` |
| Model.SanitizeIdempotent | src/logic/model.ts:128 | sanitising a sanitised name changes nothing |
| Model.MaskReplaced | src/logic/model.ts:225 | only the image of the inpainting data changes |
| Model.NodesWithImage | src/logic/model.ts:125 | a node is kept exactly when it has an image |
| Model.PersistedFiles | src/logic/model.ts:124-129 | every node with an image gets a file named after its sanitised name, holding its image, and every file is such a file of some node with an image; one file per such node; every name ends in `.png` |
| Model.AppState.constructor | src/logic/model.ts:81-101 | empty graph, closed inpainter, default settings |
| Model.AppState.GetUpdatableData | src/logic/model.ts:180-189 | throws `not found` for an absent id and `is not of type` for the wrong type. Otherwise it returns the data of the first node with the id (`FindNode`), which has the asked-for type |
| Model.AppState.CreateProvidedImageNode | src/logic/model.ts:140-154 | appends one provided node with the image and size; a no-op without a flow instance |
| Model.AppState.CreateGeneratedImageNode | src/logic/model.ts:156-178 | appends one node with status prompt, an empty prompt, no image and cost 0; a no-op without a flow instance |
| Model.AppState.DeriveInpainting | src/logic/model.ts:191-218 | throws when the source is missing or has no (non-empty) image. Otherwise appends one inpainting node with the source's image and size, and one edge from the source to it |
| Model.AppState.UpdateInpaintingMask | src/logic/model.ts:220-226 | throws unless the node is an inpainting node; otherwise only that node's image changes |
| Model.AppState.RunGeneration | src/logic/model.ts:255-270 | the generation sees the node as processing; afterwards the node is settled by the outcome, only that node changes, and an error value gives one `Error: ` toast |
| Model.AppState.GenerateImage | src/logic/model.ts:228-271 | throws for a non-generated node. A missing key gives a toast and no status change. Otherwise the node is processing during the run and is then settled by the outcome; an error value gives a toast |
| Model.AppState.SetApiKeys | src/logic/model.ts:299-303 | settings and storage hold the new keys; toast `API keys saved!` |
| Model.AppState.ClearAllApiKeys | src/logic/model.ts:305-309 | no key remains in the settings or in storage; no provider has a key; toast `All API keys cleared!` |
| Model.AppState.LoadApiKeysFromStorage | src/logic/model.ts:311-327 | stored keys win. Failing those, a legacy key becomes the OpenAI key in settings and storage, and its slot is cleared. Otherwise nothing changes. Settings and storage agree afterwards |
| Model.MigrationIsStable | src/logic/model.ts:318-325 | a migrated key counts as stored, so the next load keeps it, and it is the OpenAI key |
| InpainterCanvas.Scaled | src/ui/inpainter-canvas.tsx:118-119 | the exact product `a*(255-m)`: between 0 and `255*a`, `255*a` for `m = 0` and 0 for `m = 255` |
| InpainterCanvas.Blend | src/ui/inpainter-canvas.tsx:118-119 | the stored alpha is never above the original `a`; it is `a` for `m = 0` and 0 for `m = 255` |
| InpainterCanvas.BlendRoundsToNearest | src/ui/inpainter-canvas.tsx:118-119 | the stored alpha is the integer nearest to `a*(1-m/255)`: 255 times it is within 127 of `a*(255-m)` |
| InpainterCanvas.Composite | src/ui/inpainter-canvas.tsx:113-120 | RGB bytes unchanged; every alpha byte blended with the mask's alpha |
| InpainterCanvas.CompositeNeverAddsOpacity | src/ui/inpainter-canvas.tsx:114-119 | no alpha grows; a transparent pixel stays transparent |
| InpainterCanvas.EmptyMaskKeepsImage | src/ui/inpainter-canvas.tsx:118-119 | with no stroke anywhere the image comes back unchanged |
| InpainterCanvas.OpaqueStrokeClearsPixel | src/ui/inpainter-canvas.tsx:118-119 | under a fully opaque stroke the pixel becomes transparent |
| InpainterCanvas.FullStrokesClearAlpha | src/ui/inpainter-canvas.tsx:113-120 | fully opaque strokes everywhere make every alpha byte 0 |
| InpainterCanvas.ApplyMask | src/ui/inpainter-canvas.tsx:110-122 | in place, the whole buffer becomes `Composite` of its old contents; the mask is only read |
| InpainterCanvas.SaveMask | src/ui/inpainter-canvas.tsx:62-83 | throws without an editor. Otherwise the composited, prefix-stripped PNG becomes the mask of the edited inpainting node, and the editor closes only when that succeeded. Edges, settings, key storage and toasts are untouched |
| PromptEnhancer.EnhancementPrompt | src/logic/prompt-enhancer.ts:11-21 | the fixed instructions, then the original prompt verbatim, then a closing quote |
| PromptEnhancer.OriginalEmbedded | src/logic/prompt-enhancer.ts:11-21 | the original prompt occurs in the request text |
| PromptEnhancer.EnhancePrompt | src/logic/prompt-enhancer.ts:3-40 | a blank prompt, and only a blank prompt, gives `Please provide a prompt to enhance.` with no request. A Gemini error passes through unchanged. A success is the trimmed reply |
| Toast.WithoutId | src/ui/toast.tsx:20 | a toast is kept exactly when it was there and has another id |
| Toast.WithoutIdKeepsOrder | src/ui/toast.tsx:20 | removal keeps ids increasing |
| Toast.WithoutIdRemovesOne | src/ui/toast.tsx:20 | an id that is present loses exactly one toast; an absent id changes nothing |
| Toast.WithoutListener | src/ui/toast.tsx:56 | a listener is kept exactly when it was there and is not the one removed |
| Toast.WithoutListenerAppend | src/ui/toast.tsx:56 | removal distributes over concatenation, so the remaining listeners keep their registration order |
| Toast.Broadcast | src/ui/toast.tsx:18 | one delivery of the list to each listener, in order |
| Toast.ToastQueue.constructor | src/ui/toast.tsx:11-13 | no toasts, no listeners, next id 1 |
| Toast.ToastQueue.Notify | src/ui/toast.tsx:18 | the loop delivers the current list to every listener in order |
| Toast.ToastQueue.ShowToast | src/ui/toast.tsx:15-23 | the new id is above every earlier id. Exactly one toast is appended, with duration 3000 by default. Every listener is told, and one expiry is scheduled |
| Toast.ToastQueue.FireTimer | src/ui/toast.tsx:19-22 | the expiring toast, and only it, leaves the list; the ids stay increasing; every listener is told |
| Toast.ToastQueue.Subscribe | src/ui/toast.tsx:53-54 | the listener is added and at once receives the current list |
| Toast.ToastQueue.Unsubscribe | src/ui/toast.tsx:55-57 | only that listener is removed |

## Notes on the code

- **Empty-string images.** The image filter tests `!== undefined`
  (src/logic/generate.ts:47), so an empty-string image is kept.
  `Generate.BearerImages` keeps it too.
- **Falsy masks.** The mask checks for Gemini and Replicate use truthiness
  (src/logic/generate.ts:98, 125). An empty mask passes them. OpenAI's
  adapter then sends no mask for it (src/providers/openai.ts:53).
- **Adapter throws.** The Gemini image adapter has no `try`
  (src/providers/gemini.ts:45), so a failed call throws through
  `executeImageGeneration` and `generateImage`, and the node stays
  `processing`. An empty candidate list also throws
  (`candidates?.[0].content`, src/providers/gemini.ts:55). The OpenAI
  adapter reads `response.data![0]` after its `try`
  (src/providers/openai.ts:85), so a reply without images throws as well.
- **Two single-image messages.** The router and the Replicate adapter word
  the single-image error differently (src/logic/generate.ts:137,
  src/providers/replicate.ts:41). Each is modelled as written.

## Left out

- I/O is left out: the File System Access API, `localStorage`, and reading
  and writing the project file. `resetState`, `loadState`, `importImageNode`
  and the writes of `persistState` are I/O. Only `persistState`'s choice of
  files and names is modelled (`Model.PersistedFiles`).
- Rendering is left out: all JSX, React Flow node geometry (`block.width`,
  `centerInViewport`) and the painting editor. The two RGBA buffers and
  the PNG encoder are parameters of `InpainterCanvas.SaveMask`.
- The SDKs, `fetch`, `atob`, `btoa` and `getImageSize` are opaque function
  parameters. The OpenAI client's timeout and the upload's `lastModified`
  time stamp are not modelled.
- Concurrency is left out: the `await` boundaries, re-entrant generation
  on one node, and the un-awaited `forEach(async …)` of `persistState`.
  Each operation is one atomic step.
- Toast timing is left out. A `setTimeout` is recorded and fires only
  through `Toast.ToastQueue.FireTimer`; the time in between is not modelled.
- The valtio proxy and snapshot are left out. Settings are read directly
  from `AppState`.
- Two cross-file references do not line up, and the adapters are kept
  abstract behind them:
  - `generate.ts` imports `openaiGenerateImage`, but `openai.ts` exports
    `aiGenerateImage`;
  - `openai.ts` reads `modelSettings.apiKey`, a field `ModelSettings` does
    not declare.
- OpenAIProvider.AiGenerateImage: takes both key slots as parameters; it
  does not read them from the application state. A `data[0]` without
  `b64_json` (a success whose image is `undefined`) is not modelled: each
  entry of `data` is its `b64_json` string.
- Storage functions whose source is not shown are modelled by the effect
  their names describe: `saveApiKeys` and `getApiKeys` read and write the
  key record; `clearApiKeys` empties it. `src/logic/local-storage.ts` shows
  only the legacy slot.
- Model.AppState.DeriveInpainting: relies on the invariant `Valid()`. A
  generated node with an image also has its size, which
  `deriveInpainting`'s `width!` assumes. A project file that breaks this
  is not modelled.
- Model.AppState.GenerateImage: does not model the React Flow node size
  (`block.width`, `block.height`); only the data's size is set.
- InpainterCanvas.Blend: uses exact round-to-nearest. The floating-point
  product is never within rounding error of a half, because 255 is odd.
- OpenAIProvider.Cost: is exact over reals, not IEEE doubles.
- Model.Capitalised: upper-cases ASCII letters only. Provider names are
  ASCII.
- Model.SanitizeName: works per Unicode character. A character outside
  the Basic Multilingual Plane is two UTF-16 code units, which JavaScript
  replaces with two `_`; the model replaces it with one.
- `console.log` and `console.error` calls are left out.
