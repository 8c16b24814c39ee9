# inmobiliar — a Dafny model of the page logic

The application is a single page for property owners. The user uploads a photo
of a room. The page asks a generative-AI service for a repair estimate and,
for each decoration style, for a restyled photo. It also shows a directory of
tradespeople that can be searched. This project models the logic around
those calls and proves properties of it:

- `App` (app.dfy) models the `AppState` record and its handlers: upload,
  analysis, style change, demonstration data and reset. `AfterUpload`,
  `AfterStyleChange`, `AfterDemo` and `AfterReset` are pure transitions.
  `Step` and `Run` replay a sequence of user actions, each with the reply its
  remote call received. The class `AppComponent` has one method per
  `setState` updater. Its handler methods run those steps in the source's
  order and are proved to perform the pure transitions.
- `GeminiService` (gemini_service.dfy) covers what the gateway sends and how
  it reads a reply:
  - it strips the `data:image/(png|jpeg|jpg|webp);base64,` prefix, a narrow
    subset of the `dataurl` production of RFC 2397, section 3;
  - it maps each style to its prompt;
  - it picks the first inline image of an editing reply and re-encodes it as
    a data URL;
  - it has the two failure paths.
- `ProviderList` (provider_list.dfy) models the category drop-down (the
  professions with duplicates removed) and the case-insensitive search
  filter over the fixed directory.
- `CostEstimator` (cost_estimator.dfy) models the keyword classifier that
  picks a category's icon, the urgency badge styling and the choice among
  the loading, empty and breakdown views.
- `Text` (text.dfy) models `toLowerCase` and `includes`. `Types`
  (types.dfy) holds the records of types.ts.

Each remote call is a parameter carrying the reply it received. The
analysis reply is either "the call threw" or a text together with the value
its JSON parse gave. The editing reply is either "the call threw" or the
list of parts of the first candidate. Each handler runs to completion before
the next one starts.

Three details of the handlers worth stating:
- Choosing the `Original` style also sets `selectedStyle` (App.tsx:103),
  not only clears the generated image.
- Choosing any style while no image is present does nothing
  (App.tsx:101).
- The urgency levels are the strings 'Alta', 'Media' and 'Baja'. Any
  other string falls to the default badge.

## Model

| member | source | states |
|---|---|---|
| `Text.Lower` | components/ProviderList.tsx:32-33 | lower-casing keeps the length and lower-cases each character of the modelled alphabet |
| `Text.LowerIdempotent` | components/CostEstimator.tsx:12 | lower-casing a lower-cased string changes nothing |
| `Text.Includes` | components/ProviderList.tsx:32-33 | `s.includes(key)` holds when some index of s starts a copy of key; it needs the key no longer than the string and holds whenever the key starts the string |
| `Text.IncludesEmpty` | components/ProviderList.tsx:32-33 | every string includes the empty search term |
| `Text.NotIncludesMissingChar` | components/CostEstimator.tsx:13-19 | a keyword with a character the string lacks is not included |
| `GeminiService.StripDataPrefix` | services/geminiService.ts:16 | the result equals the input exactly when no supported prefix starts it; otherwise the input is one supported prefix followed by the result |
| `GeminiService.StripRoundTrip` | services/geminiService.ts:16 | stripping `data:image/<m>;base64,` + d, for m in png, jpeg, jpg, webp, gives exactly d |
| `GeminiService.StripRemovesOnePrefix` | services/geminiService.ts:88 | a doubled prefix loses only its first copy (anchored, not global) |
| `GeminiService.StripIsAnchored` | services/geminiService.ts:16 | a supported prefix that occurs after a first character other than 'd' is left in place, together with everything else |
| `GeminiService.StripKeepsGif` | services/geminiService.ts:16 | a GIF data URL is sent unchanged |
| `GeminiService.EncodeDataUrl` | services/geminiService.ts:132 | the rebuilt reference is `data:` + the reply's MIME type + `;base64,` + the data, with `image/jpeg` when the type is missing |
| `GeminiService.EncodeThenStrip` | services/geminiService.ts:132 | re-encoding with a supported type, or with no type (JPEG), then stripping gives back the data |
| `GeminiService.AnalysisRequest` | services/geminiService.ts:16-40 | the analysis sends the payload declared as image/jpeg, changed exactly when it carries a supported prefix |
| `GeminiService.AnalysisRequestSendsPayload` | services/geminiService.ts:16 | a data URL of a supported type sends exactly its payload |
| `GeminiService.AnalyzeImageCosts` | services/geminiService.ts:70-77 | success exactly when the call answered with a non-empty text that parsed, and the result is the parsed record; otherwise the analysis failure |
| `GeminiService.StylePrompt` | services/geminiService.ts:92-110 | no prompt exactly for `Original`; every other style's prompt is non-empty |
| `GeminiService.StylePromptInjective` | services/geminiService.ts:92-107 | the five prompts are pairwise distinct |
| `GeminiService.PreviewRequest` | services/geminiService.ts:88-124 | no request for `Original`; otherwise the stripped image as image/jpeg with the style's prompt |
| `GeminiService.FirstInlinePart` | services/geminiService.ts:129 | the index of the first part with inline data, or none when no part has any |
| `GeminiService.ReadPreview` | services/geminiService.ts:129-135 | success exactly when the first inline part has non-empty data, and the result is that part re-encoded; otherwise the transformation failure |
| `GeminiService.GenerateRenovationPreview` | services/geminiService.ts:84-140 | `Original` returns the input unchanged without reading a reply; a failed call fails; a reply is read by `ReadPreview`; every other success is a data URL |
| `GeminiService.PreviewStripsToReplyData` | services/geminiService.ts:129-135 | a preview of a supported or missing type strips back to the data the service returned |
| `ProviderList.Professions` | components/ProviderList.tsx:25 | the professions of the providers, position by position |
| `ProviderList.Dedup` | components/ProviderList.tsx:26 | every element exactly once, with no other element, in the order of first occurrence |
| `ProviderList.FirstIndexOfExtension` | components/ProviderList.tsx:26 | adding an element moves no first occurrence, and a new element first occurs at the end |
| `ProviderList.DedupOfDistinct` | components/ProviderList.tsx:26 | a list without repetitions is unchanged by de-duplication |
| `ProviderList.Categories` | components/ProviderList.tsx:24-27 | 'Todos' first, then each profession exactly once, in first-occurrence order, and nothing else |
| `ProviderList.MockCategories` | components/ProviderList.tsx:9-27 | the directory's drop-down is 'Todos' followed by its seven professions in list order |
| `ProviderList.Filter` | components/ProviderList.tsx:31-37 | a provider is kept exactly when the lower-cased term occurs in its lower-cased name or location and the category is 'Todos' or its profession; the result is an order-preserving subsequence |
| `ProviderList.FilteredProviders` | components/ProviderList.tsx:30-38 | the shown list is a subsequence of the directory, and with a category every entry has that profession |
| `ProviderList.FilterIgnoresItems` | components/ProviderList.tsx:19-38 | the list does not depend on the renovation items passed in |
| `ProviderList.EmptySearchKeepsAll` | components/ProviderList.tsx:32-34 | an empty search with 'Todos' keeps the whole list |
| `ProviderList.SearchIgnoresCase` | components/ProviderList.tsx:32-33 | a term and its lower-case form select the same providers |
| `ProviderList.CategoryNarrowsAll` | components/ProviderList.tsx:34-36 | for the same term, a category's result is a subsequence of the result for 'Todos' |
| `CostEstimator.FirstMatchingRule` | components/CostEstimator.tsx:13-19 | the first keyword group that matches, with no earlier group matching, or none when no group matches |
| `CostEstimator.CategoryIcon` | components/CostEstimator.tsx:11-21 | the icon of the first keyword group the lower-cased category includes, in table order, or the tools icon when none |
| `CostEstimator.CategoryIconIgnoresCase` | components/CostEstimator.tsx:12 | a category and its lower-case form get the same icon |
| `CostEstimator.CategoryIconFallback` | components/CostEstimator.tsx:20 | the tools icon is given exactly when no keyword of any group occurs |
| `CostEstimator.PaintWins` | components/CostEstimator.tsx:13-14 | a category including "pintura" gets the paint icon, even when it also includes "piso" |
| `CostEstimator.DemoWallIcon` | components/CostEstimator.tsx:17 | "Albañilería y Paredes" gets the brick icon |
| `CostEstimator.DemoFloorIcon` | components/CostEstimator.tsx:14 | "Pisos y Revestimientos" gets the wood icon |
| `CostEstimator.DemoPaintIcon` | components/CostEstimator.tsx:13 | "Pintura General" gets the paint icon |
| `CostEstimator.DemoLightIcon` | components/CostEstimator.tsx:15 | "Electricidad" gets the light-bulb icon |
| `CostEstimator.UrgencyStyles` | components/CostEstimator.tsx:23-30 | the slate default exactly for strings other than 'Alta', 'Media', 'Baja' |
| `CostEstimator.UrgencyStylesDistinct` | components/CostEstimator.tsx:25-27 | the three levels get pairwise distinct styles |
| `CostEstimator.SelectView` | components/CostEstimator.tsx:35-84 | loading view exactly when loading; empty view exactly when not loading and no analysis, with the demo button exactly when a handler is given; otherwise the breakdown of that analysis |
| `CostEstimator.DemoButtonOnlyWhenEmpty` | components/CostEstimator.tsx:66 | the demo button shows only when not loading, with no analysis and with a handler |
| `App.MockAnalysisTotalsMatchItems` | App.tsx:56-90 | the demo items sum to 1800000 ARS and 1800 USD, the stated totals |
| `App.DisplayedImage` | App.tsx:195 | the generated image when present, else the upload; never empty while an upload is present |
| `App.LoadingLabel` | App.tsx:192-214 | an overlay exactly while an upload is present (the picture panel exists) and a call is pending; it names the redesign exactly while one is pending, and the analysis otherwise |
| `App.WithAnalysis` | App.tsx:46-49 | clears `isAnalyzing`; success stores the result, failure keeps the previous analysis; nothing else changes |
| `App.WithPreview` | App.tsx:113-116 | clears `isGenerating`; success stores the image, failure keeps the previous one; nothing else changes |
| `App.AfterUpload` | App.tsx:21-52 | no file: no change; else the new image, no generated image, style `Original`, analysis = outcome of its analysis, `isAnalyzing` clear, `isGenerating` untouched |
| `App.AfterStyleChange` | App.tsx:100-119 | no upload: no change; `Original`: style set and generated image cleared, nothing else; other styles: style set, `isGenerating` clear, generated image = preview of the upload or the previous one on failure; upload and analysis untouched |
| `App.AfterDemo` | App.tsx:92-97 | the demo analysis; the placeholder image only when no image is present; nothing else changes |
| `App.AfterReset` | App.tsx:221 | both images and the analysis null; style and busy flags untouched |
| `App.Calls` | App.tsx:36-112 | an upload with a file makes exactly one call, the analysis of that file, and none without a file; a style change makes exactly one call, the transformation of the upload in the chosen style, when an upload is present and the style is not `Original`, and none otherwise; demo and reset make none |
| `App.InitialStateIsConsistent` | App.tsx:10-17 | the initial state has no images, no analysis, both flags clear and is consistent |
| `App.StepPreservesInvariant` | App.tsx:21-119 | every handler keeps "no generated image under `Original`", "no generated image without an upload" and "no busy flag between handlers" |
| `App.RunPreservesInvariant` | App.tsx:21-221 | the same holds after any sequence of actions and replies |
| `App.OriginalStyleShowsUpload` | App.tsx:195 | under `Original` a consistent page shows the upload |
| `App.ReachableStatesShowUpload` | App.tsx:195-213 | in every reachable state, `Original` shows the upload and no loading overlay remains |
| `App.SuccessfulPreviewIsShown` | App.tsx:113 | after a successful redesign the page shows the generated image |
| `App.UploadAfterReset` | App.tsx:27-33 | an upload right after a reset gives the same state as the upload alone |
| `App.OriginalStyleClearsPreview` | App.tsx:101-107 | on a consistent page, choosing `Original` leaves no generated image and makes no call |
| `App.OriginalStyleIdempotent` | App.tsx:103-107 | choosing `Original` twice equals choosing it once |
| `App.TransformIgnoresGeneratedImage` | App.tsx:112 | the transform call does not depend on the previously generated image |
| `App.AppComponent.constructor` | App.tsx:10-17 | the initial record |
| `App.AppComponent.StoreUpload` | App.tsx:27-33 | sets the upload, clears generated image and analysis, resets the style, and leaves both flags untouched |
| `App.AppComponent.BeginAnalysis` | App.tsx:43 | sets `isAnalyzing` only |
| `App.AppComponent.EndAnalysis` | App.tsx:46-49 | applies `WithAnalysis` |
| `App.AppComponent.SelectStyle` | App.tsx:103 | sets the style only |
| `App.AppComponent.ClearGenerated` | App.tsx:106 | clears the generated image only |
| `App.AppComponent.BeginGenerating` | App.tsx:110 | sets `isGenerating` only |
| `App.AppComponent.EndGenerating` | App.tsx:113-116 | applies `WithPreview` |
| `App.AppComponent.PerformAnalysis` | App.tsx:42-52 | one analysis call with the given image, then the state with the outcome folded in |
| `App.AppComponent.HandleImageUpload` | App.tsx:21-40 | performs `AfterUpload` with the calls of `Calls`, keeping the invariant |
| `App.AppComponent.HandleStyleChange` | App.tsx:100-119 | performs `AfterStyleChange` with the calls of `Calls`, keeping the invariant |
| `App.AppComponent.HandleSimulate` | App.tsx:55-98 | performs `AfterDemo`, keeping the invariant |
| `App.AppComponent.HandleReset` | App.tsx:221 | performs `AfterReset`, keeping the invariant |

## Left out

- The service client, the model names, the analysis prompt and the response
  schema (services/geminiService.ts:7, 14-68, 86, 113-126) are network I/O
  through a foreign library. Each call is an abstract reply.
- `JSON.parse` of the analysis text (services/geminiService.ts:71) is an
  unchecked cast of external text. The reply carries the parsed value, or
  none when the parse throws.
- `FileReader`, `alert`, `console.error` and `window.location.reload` are
  browser side effects. An upload is the data URL the reader produced, or
  no file.
- Concurrency is not modelled. Each handler runs to completion before the
  next starts, so these are out of the model:
  - overlapping calls, where the last response to arrive wins;
  - the `state.originalImage` value captured when `handleStyleChange` is
    called (App.tsx:112);
  - a hung call leaving a busy flag set.
- Buttons are disabled while a redesign is pending (App.tsx:250). This is a
  rendering guard, not part of a handler. The sequential model never has a
  redesign pending between handlers.
- Money amounts are exact integers, not JavaScript floating-point numbers.
  The 0.45/0.55 split and `toLocaleString` formatting
  (components/CostEstimator.tsx:166-184), `Math.random` (line 92) and
  `new Date()` (line 33) are left out.
- The breakdown rows of the cost panel and all other JSX layout and CSS
  class strings are left out. Only the urgency badge styles are kept.
- components/SponsorTicker.tsx, components/AdBanner.tsx and
  components/TransformationShowcase.tsx are static markup and are not part
  of this model.
- Text.Lower: lower-cases only the ASCII capitals and the Latin-1 capitals
  U+00C0..U+00DE except U+00D7. JavaScript's full Unicode case mapping,
  including characters that lower-case to two characters, is not modelled.
  This covers every string the application itself contains.
- The optional `isPromoted` flag of a provider is `false` where the
  directory omits it (components/ProviderList.tsx:12-16). The filter never
  reads it.
- GeminiService.InlineData: a missing `mimeType` or `data` field is the empty
  string, since the code treats missing and empty alike.
