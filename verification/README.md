# Comedy lab front end — a Dafny model of its view logic

The application is a browser front end for comedians. It forwards jokes, prompts and topics to a
generative-AI API and renders what comes back. It has no algorithm of its own. Its logic is:

- the state of each view;
- the assembly of requests;
- the normalisation of responses;
- one persisted list, the gallery of saved images and videos.

This project models four parts of that logic as immutable records and pure transition functions,
and proves what each transition promises:

- **Visual studio** (`VisualStudio`): the saved-asset gallery, kept newest first and written to
  browser storage after every save or removal, and rehydrated from storage on mount. It also
  holds the generate handler, which sends one image or video request per non-empty prompt.
- **Joke workshop** (`Workshop`): the analysis handler, which sends a critique request and a
  tag request together. It also holds set-like tag selection, the example and clear-all resets,
  and the copy-feedback guard. The mentor style is `Types.Mentor`.
- **AI gateway** (`Gateway`): the fixed models, prompt prefixes and configurations of the five
  request kinds. It also turns responses into what the views use: tag-JSON parsing with an
  empty-list fallback, the first inline image part, and the first candidate's grounding chunks.
- **Trends search** (`TrendsSearch`): the blank-topic guard, replace-on-success and
  keep-on-failure, and the rule that decides which grounding chunks become links and with what
  caption.

Shared pieces:

- `Effects`: `Option`, the `Settled` outcome of an awaited promise, and JavaScript string
  truthiness.
- `Seqs`: order-preserving filtering. Filtering is characterised independently as the unique
  subsequence that keeps exactly the selected elements.
- `Text`: JavaScript `trim` whitespace and decimal rendering.

How the model treats the async handlers and the outside world:

- Each async handler is two transitions. `Start…` applies the guard, turns the spinner on and
  lists the outbound requests. `Settle…` takes the outcome the awaited call settled with.
  `Handle…` composes the two into one atomic step.
- The model API, `JSON.stringify`/`JSON.parse`, `crypto.randomUUID`, `Date.now` and the
  clipboard are inputs.
- Browser storage is the `stored` field of the studio state. It holds the text under the key
  `comedia_lab_assets`, or is absent.

Behaviour of the code worth knowing, which the model keeps:

- `generateJokeVideo` types its aspect ratio as `"16:9" | "9:16"`
  (services/geminiService.ts:74). The studio view still forwards whichever of 1:1, 16:9, 9:16
  and 4:3 is selected, through `aspect as any` (components/VisualStudio.tsx:43).
  `VisualStudio.GenerationRequest` does the same.
- Nothing checks the aspect ratio or the image size before a request is sent. Both are forwarded
  unchanged.
- A grounding chunk's `web.uri` is optional. Chunks without one are not rendered
  (components/TrendsSearch.tsx:78), which is what `TrendsSearch.HasUri` decides.
- The mount effect skips an empty stored string as well as a missing one, because `""` is falsy
  (components/VisualStudio.tsx:25). `VisualStudio.Rehydrate` models this.
- `generateJokeImage` reads `candidates?.[0]?.content.parts`. If a first candidate exists
  without `content`, that expression throws. `Gateway.FirstCandidateParts` models the throw as
  a rejection, which the studio shows as a failed generation.

## Model

| member | source | states |
|---|---|---|
| Effects.Both | components/Workshop.tsx:36-39 | `Promise.all` of the two analysis calls settles with both values exactly when both calls succeed; either rejection rejects the whole |
| Effects.OrElse | components/Workshop.tsx:41 | `text \|\| fallback`: a present non-empty text is kept, otherwise the fallback is used, so a non-empty fallback gives a non-empty result |
| Types.Mentor.Name | types.ts:3-4 | each mentor style's enum value, the name interpolated into its system instruction, is a non-empty string |
| Types.NameInjective | types.ts:2-5 | the two mentor styles have different enum strings, so the name in a system instruction identifies the style |
| Seqs.Filter | components/VisualStudio.tsx:71 | `filter` keeps exactly the elements satisfying the predicate, each as often as in the input, as a subsequence of the input (order kept) |
| Seqs.FilterUnique | components/VisualStudio.tsx:71 | that characterisation is complete: any subsequence with those multiplicities is the filtered list |
| Text.TrimStart | components/TrendsSearch.tsx:11 | removes exactly the leading run of JavaScript whitespace: the result is a suffix, the dropped prefix is blank, and the result does not start with whitespace |
| Text.TrimEnd | components/TrendsSearch.tsx:11 | removes exactly the trailing run of JavaScript whitespace |
| Text.Trim | components/TrendsSearch.tsx:11 | `topic.trim()` neither starts nor ends with whitespace and is no longer than the topic |
| Text.TrimDecomposes | components/TrendsSearch.tsx:11 | trimming only drops whitespace from the ends: the topic is a blank prefix, the trimmed text and a blank suffix |
| Text.TrimEmptyIffBlank | components/TrendsSearch.tsx:11 | `topic.trim()` is empty if and only if every character of the topic is whitespace |
| Text.Decimal | components/TrendsSearch.tsx:76 | the rendering of a number in a template literal is a non-empty digit string without a leading zero |
| Text.DecimalRoundTrip | components/TrendsSearch.tsx:76 | reading that rendering back gives the number, so different positions get different digits |
| Gateway.SystemInstruction | services/geminiService.ts:10-16 | the system instruction starts with the fixed text about the mentor technique, continues with the mentor's name, and ends with the fixed guidance text |
| Gateway.AnalysisRequest | services/geminiService.ts:8-25 | the critique uses the pro model with a thinking budget of 32768, the joke after "Analise esta piada: ", and a system instruction naming the mentor |
| Gateway.TagsRequest | services/geminiService.ts:29-43 | the tag request uses the flash model with a JSON response type and a schema asking for an array of strings, and puts setup and punchline on labelled lines after the fixed instructions |
| Gateway.ImageRequest | services/geminiService.ts:51-64 | the image request uses the image model and the prompt after "A comedic visual for a stand-up routine: "; an omitted aspect defaults to 1:1 and an omitted size to 1K; given ones are forwarded unchanged |
| Gateway.VideoRequest | services/geminiService.ts:74-84 | the video request always asks for one video at 720p, with the prompt after "Funny animated comedy sketch: " and the aspect defaulting to 16:9 |
| Gateway.SearchRequest | services/geminiService.ts:111-119 | the search uses the flash model with the web-search tool and the topic inside the fixed question |
| Gateway.ImagePromptDetermined | services/geminiService.ts:56 | the image request's text determines the user's prompt, whatever aspect and size accompany it, so nothing typed is lost |
| Gateway.VideoPromptDetermined | services/geminiService.ts:78 | the video request's prompt determines the user's prompt |
| Gateway.SearchTopicDetermined | services/geminiService.ts:111-119 | equal search requests come from equal topics |
| Gateway.AnalysisDetermined | services/geminiService.ts:8-25 | equal analysis requests come from the same joke and the same mentor name |
| Gateway.FirstCandidateParts | services/geminiService.ts:66 | when a first candidate has content, the result is its parts, or none when they are absent; with no candidate list or an empty one, there are no parts; the access throws exactly when the first candidate has no content |
| Gateway.FirstInline | services/geminiService.ts:66-70 | finds the first part in order that carries inline data, or reports that no part has any |
| Gateway.DataUrl | services/geminiService.ts:68 | an image URL is the PNG base64 data-URL prefix followed by the part's data, with absent data rendered as "undefined" |
| Gateway.ImageFromResponse | services/geminiService.ts:66-71 | the image result is the data URL of the first part with inline data; it is null exactly when no part has inline data; it is never empty; it rejects exactly when the parts access throws |
| Gateway.ImageCall | services/geminiService.ts:51-72 | a failed SDK call rejects; otherwise the image result is the scan of the response |
| Gateway.VideoCall | services/geminiService.ts:91-94 | a finished video yields its object URL, never null; a failure rejects |
| Gateway.AnalysisCall | services/geminiService.ts:18-26 | the critique is the response text (possibly undefined) and fails exactly when the SDK call fails |
| Gateway.TagsFromText | services/geminiService.ts:44-48 | an empty or undefined text gives `[]` (via "[]"); an unparseable text gives `[]` instead of throwing; a parseable text gives the parsed list |
| Gateway.TagsCall | services/geminiService.ts:29-49 | the tag call fails only when the SDK call fails, because parsing never throws |
| Gateway.SearchFromResponse | services/geminiService.ts:121-125 | the search text is the response text unchanged; when the first candidate carries grounding chunks, exactly those chunks are the sources; when any link of that chain is missing, the sources are `[]` |
| Gateway.SearchCall | services/geminiService.ts:111-126 | a search fails exactly when the SDK call fails, and otherwise carries the normalised result |
| Workshop.Initial | components/Workshop.tsx:18-25 | the workshop starts with empty fields, feedback and tag lists, Greg Dean selected, and no spinner or copy mark |
| Workshop.ExampleFor | components/Workshop.tsx:6-15 | each mentor style has a sample joke whose setup and punchline are both non-empty |
| Workshop.Joke | components/Workshop.tsx:37 | the joke sent for critique is the setup, then exactly " ... ", then the punchline, and nothing else |
| Workshop.StartAnalyze | components/Workshop.tsx:27-39 | an empty setup or punchline issues no call and changes nothing; otherwise the handler clears feedback, suggestions and the copy mark, shows the spinner, and issues the critique and tag requests |
| Workshop.SettleAnalyze | components/Workshop.tsx:40-48 | on success, feedback is the critique or "Sem feedback disponível." and suggestions are the returned tags; on failure, feedback is "Erro ao analisar piada."; the spinner stops and the selection is untouched |
| Workshop.HandleAnalyze | components/Workshop.tsx:27-49 | the whole analysis: no call on an empty field; otherwise two calls, and the success or failure outcome with the spinner off; the selection, fields and mentor are never changed |
| Workshop.Toggle | components/Workshop.tsx:53 | a present tag is removed everywhere and the others keep their order and multiplicity; an absent tag is appended at the end |
| Workshop.ToggleTag | components/Workshop.tsx:51-55 | toggling flips the tag's membership, leaves every other tag's membership as it was, and changes nothing but the selection |
| Workshop.ToggleKeepsDistinct | components/Workshop.tsx:53 | a duplicate-free selection stays duplicate-free |
| Workshop.ToggleTwiceAbsent | components/Workshop.tsx:53 | toggling an absent tag twice restores the exact list |
| Workshop.ToggleTwicePresent | components/Workshop.tsx:53 | toggling a present tag twice restores the membership set, and on a duplicate-free selection the same multiset |
| Workshop.FillExample | components/Workshop.tsx:57-64 | the current mentor's sample setup and punchline are loaded; suggestions, selection and feedback are cleared; the mentor is kept |
| Workshop.ExampleIsAnalysable | components/Workshop.tsx:27-64 | after "fill example", the analysis guard always passes and both requests are issued for the example joke |
| Workshop.ClearAll | components/Workshop.tsx:168 | "Limpar Tudo" empties both fields, the feedback and both tag lists, and keeps the mentor |
| Workshop.Copy | components/Workshop.tsx:66-71 | with empty feedback nothing happens; otherwise the feedback is written to the clipboard and the copy mark is set |
| Workshop.CopyTimerFired | components/Workshop.tsx:70 | the copy timer only clears the copy mark |
| Workshop.SessionInvariant | components/Workshop.tsx:27-71 | over any sequence of edits and handlers, the selection never holds a tag twice and the spinner is off after each step |
| VisualStudio.Rehydrate | components/VisualStudio.tsx:23-32 | a missing key, an empty text or unparseable text leaves the gallery empty; a parseable text gives the parsed list |
| VisualStudio.Mount | components/VisualStudio.tsx:14-32 | the view starts with the default form, no result and the rehydrated gallery; mounting never writes storage |
| VisualStudio.ImageSize.Label | components/VisualStudio.tsx:136-138 | the size sent for each quality option is a digit followed by "K" |
| VisualStudio.LabelInjective | components/VisualStudio.tsx:136-138 | different quality options send different size values |
| VisualStudio.GenerationRequest | components/VisualStudio.tsx:39-45 | an image request carries the chosen prompt, aspect and size; a video request carries the prompt and the chosen aspect as is |
| VisualStudio.StartGenerate | components/VisualStudio.tsx:34-37 | an empty prompt changes nothing and issues nothing; otherwise the result is cleared, the spinner shows and one request of the current kind is issued |
| VisualStudio.SettleGenerate | components/VisualStudio.tsx:38-51 | a success sets the result to the returned URL (or null); a failure keeps the result; the spinner stops; nothing else changes: form settings, gallery and storage are untouched |
| VisualStudio.HandleGenerate | components/VisualStudio.tsx:34-52 | the whole generation: no change on an empty prompt; otherwise exactly one request, of the selected kind and carrying the typed prompt and the chosen settings (one 720p video for video); the result stays null on failure, the spinner is off at the end, and the prompt, kind, aspect, size, gallery and storage are unchanged |
| VisualStudio.Save | components/VisualStudio.tsx:54-68 | without a result URL (null or empty) nothing changes; otherwise the gallery is the new asset with the current URL, kind and prompt in front of the old entries in order, and storage holds that list |
| VisualStudio.WithoutId | components/VisualStudio.tsx:71 | the filtered gallery holds exactly the entries with another id, with their multiplicities, in their original order |
| VisualStudio.Remove | components/VisualStudio.tsx:70-74 | afterwards no entry has the id, every other entry is kept in order and as often as before, storage holds the new list, and nothing else changes |
| VisualStudio.RemoveLength | components/VisualStudio.tsx:71 | the gallery shrinks by the number of entries with the id, so removing an absent id leaves it unchanged |
| VisualStudio.RemoveCharacterised | components/VisualStudio.tsx:71 | the subsequence and multiplicity clauses of `Remove`'s contract determine the new gallery uniquely: it is the filtered list |
| VisualStudio.SaveKeepsWellFormed | components/VisualStudio.tsx:55-65 | a save with a fresh id keeps ids pairwise distinct and no URL empty |
| VisualStudio.RemoveKeepsWellFormed | components/VisualStudio.tsx:71 | a removal keeps ids pairwise distinct and no URL empty |
| VisualStudio.ReloadAfterMutation | components/VisualStudio.tsx:65-73 | after a save or removal, a reload reads back exactly the in-memory gallery, provided JSON round-trips that list |
| VisualStudio.ApplyKeepsWellFormed | components/VisualStudio.tsx:54-74 | any single event keeps the gallery well formed, keeps later save ids fresh, and keeps storage in step with memory |
| VisualStudio.SessionInvariant | components/VisualStudio.tsx:54-74 | over any session whose saves draw distinct fresh ids, ids stay unique, URLs stay non-empty, and storage matches memory once it has |
| TrendsSearch.Initial | components/TrendsSearch.tsx:6-8 | the view starts with an empty topic, no spinner and no results |
| TrendsSearch.StartSearch | components/TrendsSearch.tsx:10-14 | a topic of whitespace only issues no request and changes nothing; otherwise the spinner shows and one search for the untrimmed topic is issued |
| TrendsSearch.SettleSearch | components/TrendsSearch.tsx:15-21 | a result replaces the previous results, a failure keeps them, and the spinner stops either way |
| TrendsSearch.HandleSearch | components/TrendsSearch.tsx:10-22 | the whole search: no change for a blank topic; otherwise one request, replace on success, keep on failure, spinner off |
| TrendsSearch.Title | components/TrendsSearch.tsx:76 | a link's caption is the web title when non-empty, otherwise "Fonte " and the one-based position in the unfiltered list; it is never empty |
| TrendsSearch.FallbackTitlesDistinct | components/TrendsSearch.tsx:76 | fallback captions of different positions differ |
| TrendsSearch.LinksFrom | components/TrendsSearch.tsx:75-78 | only chunks with a URI are rendered, in their original order, each with its own position as key and caption index |
| TrendsSearch.LinksFromComplete | components/TrendsSearch.tsx:75-78 | every chunk with a URI is rendered |
| TrendsSearch.RenderSources | components/TrendsSearch.tsx:74-93 | the "Nenhuma fonte direta encontrada." notice appears exactly when there are no sources; a non-empty list with no URI renders no links at all |

## Left out

- components/VoiceRehearsal.tsx is left out. It is microphone capture, audio-context plumbing
  (float-to-16-bit scaling, base64) and a callback-driven live streaming session: I/O and async
  callbacks, not view logic.
- Gateway.VideoCall: the video poll loop (a 10-second timer repeated until the operation
  reports done) and the download are left out, because they are timer, fetch and Blob I/O. The
  model takes the settled outcome of the whole chain as input.
- `transcribeAudio` is a pure pass-through to the SDK and is not modelled.
- `createAI` and the API key are not modelled. Nothing in the views depends on them.
- components/Layout.tsx and App.tsx are not part of this model. They only handle tab navigation
  and rendering.
- JSX markup, styling, `alert` notices and console logging are not modelled.
- The buttons are disabled while a spinner is showing (components/Workshop.tsx:151,
  components/VisualStudio.tsx:146, components/TrendsSearch.tsx:46). That half of each
  `disabled` condition sits only in markup. No handler checks it, so no transition does either.
  The other half, an empty field, is checked by each handler itself, and the `Start…`
  transitions model that check.
- Concurrency is left out. In-flight requests are not cancelled, stale responses can arrive
  late, and the two analysis calls run in parallel. Each handler is one atomic transition, and
  `Promise.all` is the combination of two settled outcomes.
- Gateway.TagsFromText: `JSON.parse` is an input function that yields a list of strings or
  fails. JSON that parses to something other than a list is not modelled.
- VisualStudio.Rehydrate: the same holds for the stored gallery. The parser yields a list of
  saved assets or fails.
- The SDK's `response.text` getter, which joins the text parts of the first candidate, is an
  abstract field of `Gateway.Response`.
- A `localStorage.setItem` that throws (for example, over quota) is not modelled. The source
  does not handle it.
- Workshop.CopyTimerFired: the 2000 ms delay is not modelled, only the timer firing. A timer
  left over from an earlier copy is a separate event.
- The `.trim()` whitespace set follows ECMAScript's WhiteSpace and LineTerminator lists as code
  points. Unicode versions other than the current Zs list are not considered.
