/**
 The AI gateway: the one seam through which the views reach the generative
 model API. It builds each outbound request (model identifier, prompt text,
 fixed configuration) and normalises each response into the shape a view
 expects. The API itself is abstract: a response is a value of the datatypes
 below, and whether a call throws is a `Settled` outcome supplied from outside.
 */
module Gateway {
  import opened Effects

  // ---------------------------------------------------------------------------
  // Response shapes (the fields of the SDK's response the code reads)
  // ---------------------------------------------------------------------------

  datatype InlineData = InlineData(data: Option<string>, mimeType: Option<string>)

  datatype Part = Part(text: Option<string>, inlineData: Option<InlineData>)

  datatype Content = Content(parts: Option<seq<Part>>)

  datatype Web = Web(uri: Option<string>, title: Option<string>)

  datatype GroundingChunk = GroundingChunk(web: Option<Web>)

  datatype GroundingMetadata = GroundingMetadata(groundingChunks: Option<seq<GroundingChunk>>)

  datatype Candidate = Candidate(content: Option<Content>, groundingMetadata: Option<GroundingMetadata>)

  /** A content-generation response: its aggregated text and its candidates. */
  datatype Response = Response(text: Option<string>, candidates: Option<seq<Candidate>>)

  /** What a grounded search hands back to the trends view. */
  datatype SearchResult = SearchResult(text: Option<string>, sources: seq<GroundingChunk>)

  // ---------------------------------------------------------------------------
  // Outbound requests
  // ---------------------------------------------------------------------------

  /** The shape of a structured response the model is asked to produce. */
  datatype Schema = StringType | ArrayType(items: Schema)

  /** One outbound call, with the parameters the code fixes or forwards. */
  datatype Request =
    | Analysis(model: string, contents: string, systemInstruction: string, thinkingBudget: nat)
    | Tags(model: string, contents: string, responseMimeType: string, responseSchema: Schema)
    | Image(model: string, text: string, aspectRatio: string, imageSize: string)
    | Video(model: string, prompt: string, numberOfVideos: nat, resolution: string, aspectRatio: string)
    | Search(model: string, contents: string, googleSearch: bool)

  const AnalysisModel: string := "gemini-3-pro-preview"
  const FlashModel: string := "gemini-3-flash-preview"
  const ImageModel: string := "gemini-3-pro-image-preview"
  const VideoModel: string := "veo-3.1-fast-generate-preview"

  const ThinkingBudget: nat := 32768

  const AnalysisPrefix: string := "Analise esta piada: "

  const InstructionHead: string := "Você é um mentor de stand-up comedy especializado na técnica de "

  const InstructionTail: string :=
    ". \n" +
    "    Se for Greg Dean, foque na estrutura de Setup, Conector, Alvo e Reinterpretação.\n" +
    "    Se for Léo Lins, foque em acidez, lógica reversa, piadas de observação e humor negro. \n" +
    "    IMPORTANTE PARA LÉO LINS: Além da técnica, você DEVE incluir uma breve nota sobre a sensibilidade do humor negro, \n" +
    "    alertando que piadas ácidas exigem um 'punch' técnico muito forte para não serem apenas ofensas gratuitas, \n" +
    "    e que o comediante deve assumir a responsabilidade pelo contexto e local da apresentação.\n" +
    "    Analise a piada do usuário e sugira melhorias."

  const TagsHead: string :=
    "Com base no setup e punchline abaixo, sugira de 3 a 5 tags curtas de categorias de humor " +
    "(ex: 'humor negro', 'cotidiano', 'política', 'relacionamento', 'observação', 'autodepreciação').\n" +
    "    Setup: "

  const TagsMiddle: string := "\n    Punchline: "

  const JsonMimeType: string := "application/json"
  /** The tag request asks for a JSON array of strings. */
  const TagListSchema: Schema := ArrayType(StringType)

  const ImagePrefix: string := "A comedic visual for a stand-up routine: "
  const DefaultAspect: string := "1:1"
  const DefaultSize: string := "1K"

  const VideoPrefix: string := "Funny animated comedy sketch: "
  const DefaultVideoAspect: string := "16:9"
  const VideoResolution: string := "720p"

  const SearchHead: string := "Quais são as notícias ou tendências mais recentes e engraçadas sobre: "
  const SearchTail: string := "? Me dê material para stand-up."

  const DataUrlPrefix: string := "data:image/png;base64,"

  /** `s` begins with `prefix` and the rest of it is exactly `rest`. */
  predicate Splits(s: string, prefix: string, rest: string) {
    |prefix| <= |s| && s[..|prefix|] == prefix && s[|prefix|..] == rest
  }

  /** A concatenation splits at the end of its first part. */
  lemma SplitsConcat(prefix: string, rest: string)
    ensures Splits(prefix + rest, prefix, rest)
  {
  }

  /** The mentor's system instruction, parameterised by the mentor's name. */
  function SystemInstruction(mentor: string): (r: string)
    ensures Splits(r, InstructionHead, mentor + InstructionTail)
  {
    SplitsConcat(InstructionHead, mentor + InstructionTail);
    InstructionHead + (mentor + InstructionTail)
  }

  /** `analyzeJokeWithThinking(joke, mentor)`: the pro model with the fixed
      thinking budget, the joke behind a fixed lead-in, and a system
      instruction naming the mentor. */
  function AnalysisRequest(joke: string, mentor: string): (r: Request)
    ensures r.Analysis? && r.model == AnalysisModel && r.thinkingBudget == ThinkingBudget
    ensures Splits(r.contents, AnalysisPrefix, joke)
    ensures Splits(r.systemInstruction, InstructionHead, mentor + InstructionTail)
  {
    SplitsConcat(AnalysisPrefix, joke);
    Analysis(AnalysisModel, AnalysisPrefix + joke, SystemInstruction(mentor), ThinkingBudget)
  }

  /** `suggestJokeTags(setup, punchline)`: the flash model, asked for a JSON
      array of strings, with setup and punchline on labelled lines. */
  function TagsRequest(setup: string, punchline: string): (r: Request)
    ensures r.Tags? && r.model == FlashModel && r.responseMimeType == JsonMimeType
    ensures r.responseSchema == ArrayType(StringType)
    ensures Splits(r.contents, TagsHead, setup + TagsMiddle + punchline)
  {
    SplitsConcat(TagsHead, setup + TagsMiddle + punchline);
    Tags(FlashModel, TagsHead + (setup + TagsMiddle + punchline), JsonMimeType, TagListSchema)
  }

  /** `generateJokeImage(prompt, aspectRatio?, size?)`: an omitted aspect ratio
      defaults to 1:1 and an omitted size to 1K; both are forwarded unchanged
      into the image configuration. */
  function ImageRequest(prompt: string, aspectRatio: Option<string>, size: Option<string>): (r: Request)
    ensures r.Image? && r.model == ImageModel
    ensures Splits(r.text, ImagePrefix, prompt)
    ensures r.aspectRatio == (if aspectRatio.Some? then aspectRatio.value else DefaultAspect)
    ensures r.imageSize == (if size.Some? then size.value else DefaultSize)
  {
    SplitsConcat(ImagePrefix, prompt);
    Image(ImageModel, ImagePrefix + prompt, aspectRatio.GetOr(DefaultAspect), size.GetOr(DefaultSize))
  }

  /** `generateJokeVideo(prompt, aspectRatio?)`: always one video at 720p; an
      omitted aspect ratio defaults to 16:9. */
  function VideoRequest(prompt: string, aspectRatio: Option<string>): (r: Request)
    ensures r.Video? && r.model == VideoModel
    ensures r.numberOfVideos == 1 && r.resolution == VideoResolution
    ensures Splits(r.prompt, VideoPrefix, prompt)
    ensures r.aspectRatio == (if aspectRatio.Some? then aspectRatio.value else DefaultVideoAspect)
  {
    SplitsConcat(VideoPrefix, prompt);
    Video(VideoModel, VideoPrefix + prompt, 1, VideoResolution, aspectRatio.GetOr(DefaultVideoAspect))
  }

  /** `searchTrends(topic)`: the flash model with the web-search tool, the
      topic embedded in a fixed question. */
  function SearchRequest(topic: string): (r: Request)
    ensures r.Search? && r.model == FlashModel && r.googleSearch
    ensures Splits(r.contents, SearchHead, topic + SearchTail)
  {
    SplitsConcat(SearchHead, topic + SearchTail);
    Search(FlashModel, SearchHead + (topic + SearchTail), true)
  }

  /** Splitting off a known prefix determines the rest. */
  lemma SplitsUnique(s: string, prefix: string, a: string, b: string)
    requires Splits(s, prefix, a) && Splits(s, prefix, b)
    ensures a == b
  {
  }

  /** Cancelling a common suffix. */
  lemma SuffixCancel(a: string, b: string, tail: string)
    requires a + tail == b + tail
    ensures a == b
  {
    assert a == (a + tail)[..|a + tail| - |tail|];
    assert b == (b + tail)[..|b + tail| - |tail|];
  }

  /** An image request's text loses nothing the user typed: it determines the
      prompt, whatever aspect ratio and size accompany it. */
  lemma ImagePromptDetermined(p1: string, p2: string, a1: Option<string>, a2: Option<string>,
                              z1: Option<string>, z2: Option<string>)
    requires ImageRequest(p1, a1, z1).text == ImageRequest(p2, a2, z2).text
    ensures p1 == p2
  {
    SplitsUnique(ImageRequest(p1, a1, z1).text, ImagePrefix, p1, p2);
  }

  /** A video request's prompt determines the user's prompt. */
  lemma VideoPromptDetermined(p1: string, p2: string, a1: Option<string>, a2: Option<string>)
    requires VideoRequest(p1, a1).prompt == VideoRequest(p2, a2).prompt
    ensures p1 == p2
  {
    SplitsUnique(VideoRequest(p1, a1).prompt, VideoPrefix, p1, p2);
  }

  /** A search request determines the topic. */
  lemma SearchTopicDetermined(t1: string, t2: string)
    requires SearchRequest(t1) == SearchRequest(t2)
    ensures t1 == t2
  {
    SplitsUnique(SearchRequest(t1).contents, SearchHead, t1 + SearchTail, t2 + SearchTail);
    SuffixCancel(t1, t2, SearchTail);
  }

  /** An analysis request determines both the joke and the mentor name. */
  lemma AnalysisDetermined(j1: string, j2: string, m1: string, m2: string)
    requires AnalysisRequest(j1, m1) == AnalysisRequest(j2, m2)
    ensures j1 == j2 && m1 == m2
  {
    var r := AnalysisRequest(j1, m1);
    SplitsUnique(r.contents, AnalysisPrefix, j1, j2);
    SplitsUnique(r.systemInstruction, InstructionHead, m1 + InstructionTail, m2 + InstructionTail);
    SuffixCancel(m1, m2, InstructionTail);
  }

  // ---------------------------------------------------------------------------
  // Response normalisation
  // ---------------------------------------------------------------------------

  /** `response.candidates?.[0]?.content.parts || []`: no candidate list, an
      empty one, or absent parts give no parts; a first candidate WITHOUT
      content makes the unguarded `.parts` access throw. */
  function FirstCandidateParts(resp: Response): (r: Settled<seq<Part>>)
    ensures r.Rejected? <==>
      resp.candidates.Some? && |resp.candidates.value| > 0 && resp.candidates.value[0].content.None?
    ensures r.Fulfilled? && r.value != [] ==>
      resp.candidates.Some? && |resp.candidates.value| > 0 &&
      resp.candidates.value[0].content == Some(Content(Some(r.value)))
    ensures resp.candidates.Some? && |resp.candidates.value| > 0 && resp.candidates.value[0].content.Some? ==>
      r == Fulfilled(resp.candidates.value[0].content.value.parts.GetOr([]))
    ensures resp.candidates.None? || resp.candidates.value == [] ==> r == Fulfilled([])
  {
    match resp.candidates
    case None => Fulfilled([])
    case Some(cs) =>
      if cs == [] then Fulfilled([])
      else match cs[0].content
        case None => Rejected
        case Some(c) => Fulfilled(c.parts.GetOr([]))
  }

  /** The position of the first part that carries inline data, if any. */
  function FirstInline(parts: seq<Part>): (r: Option<nat>)
    ensures r.Some? ==> r.value < |parts| && parts[r.value].inlineData.Some?
    ensures r.Some? ==> forall j :: 0 <= j < r.value ==> parts[j].inlineData.None?
    ensures r.None? <==> forall j :: 0 <= j < |parts| ==> parts[j].inlineData.None?
  {
    if parts == [] then None
    else if parts[0].inlineData.Some? then Some(0)
    else match FirstInline(parts[1..])
      case None => None
      case Some(k) => Some(k + 1)
  }

  /** The data URL of an inline image part. */
  function DataUrl(d: InlineData): (r: string)
    ensures Splits(r, DataUrlPrefix, Interpolate(d.data))
  {
    DataUrlPrefix + Interpolate(d.data)
  }

  /** The scan of `generateJokeImage` over a response: the data URL of the first
      part with inline data, `null` when no part has any, and a throw when the
      first candidate has no content. */
  function ImageFromResponse(resp: Response): (r: Settled<Option<string>>)
    ensures r.Rejected? <==> FirstCandidateParts(resp).Rejected?
    ensures r == Fulfilled(None) <==>
      FirstCandidateParts(resp).Fulfilled? &&
      forall j :: 0 <= j < |FirstCandidateParts(resp).value| ==>
        FirstCandidateParts(resp).value[j].inlineData.None?
    ensures r.Fulfilled? && r.value.Some? ==>
      var parts := FirstCandidateParts(resp).value;
      exists i :: 0 <= i < |parts| && parts[i].inlineData.Some? &&
        (forall j :: 0 <= j < i ==> parts[j].inlineData.None?) &&
        r.value.value == DataUrl(parts[i].inlineData.value)
    ensures r.Fulfilled? && r.value.Some? ==> r.value.value != ""
  {
    match FirstCandidateParts(resp)
    case Rejected => Rejected
    case Fulfilled(parts) =>
      match FirstInline(parts)
      case None => Fulfilled(None)
      case Some(i) => Fulfilled(Some(DataUrl(parts[i].inlineData.value)))
  }

  /** The whole of `generateJokeImage` once the SDK call settled: a rejected
      call rejects; otherwise the response is scanned. */
  function ImageCall(sdk: Settled<Response>): (r: Settled<Option<string>>)
    ensures sdk.Rejected? ==> r.Rejected?
    ensures sdk.Fulfilled? ==> r == ImageFromResponse(sdk.value)
  {
    match sdk
    case Rejected => Rejected
    case Fulfilled(resp) => ImageFromResponse(resp)
  }

  /** The whole of `generateJokeVideo` once polling and download settled: the
      object URL of the downloaded video, never `null`. */
  function VideoCall(download: Settled<string>): (r: Settled<Option<string>>)
    ensures r.Rejected? <==> download.Rejected?
    ensures download.Fulfilled? ==> r == Fulfilled(Some(download.value))
  {
    match download
    case Rejected => Rejected
    case Fulfilled(url) => Fulfilled(Some(url))
  }

  /** `analyzeJokeWithThinking` once the SDK call settled: the response text,
      which may be undefined. */
  function AnalysisCall(sdk: Settled<Response>): (r: Settled<Option<string>>)
    ensures r.Rejected? <==> sdk.Rejected?
    ensures sdk.Fulfilled? ==> r.value == sdk.value.text
  {
    match sdk
    case Rejected => Rejected
    case Fulfilled(resp) => Fulfilled(resp.text)
  }

  /** The tag list of `suggestJokeTags`: the JSON text (or "[]" when the text is
      empty or undefined) run through `parse`, an unparseable text giving the
      empty list instead of an exception. `parse` stands for `JSON.parse`. */
  function TagsFromText(text: Option<string>, parse: string -> Option<seq<string>>): (r: seq<string>)
    ensures !Truthy(text) && parse("[]") == Some([]) ==> r == []
    ensures Truthy(text) && parse(text.value).None? ==> r == []
    ensures Truthy(text) && parse(text.value).Some? ==> r == parse(text.value).value
  {
    match parse(OrElse(text, "[]"))
    case Some(tags) => tags
    case None => []
  }

  /** `suggestJokeTags` once the SDK call settled: parsing never throws, so it
      rejects only when the call itself did. */
  function TagsCall(sdk: Settled<Response>, parse: string -> Option<seq<string>>): (r: Settled<seq<string>>)
    ensures r.Rejected? <==> sdk.Rejected?
    ensures sdk.Fulfilled? ==> r.value == TagsFromText(sdk.value.text, parse)
  {
    match sdk
    case Rejected => Rejected
    case Fulfilled(resp) => Fulfilled(TagsFromText(resp.text, parse))
  }

  /** `searchTrends`: the response text unchanged, and the first candidate's
      grounding chunks, or none when any link of that chain is missing. */
  function SearchFromResponse(resp: Response): (r: SearchResult)
    ensures r.text == resp.text
    ensures r.sources != [] ==>
      resp.candidates.Some? && |resp.candidates.value| > 0 &&
      resp.candidates.value[0].groundingMetadata == Some(GroundingMetadata(Some(r.sources)))
    ensures (resp.candidates.None? || resp.candidates.value == [] ||
             resp.candidates.value[0].groundingMetadata.None? ||
             resp.candidates.value[0].groundingMetadata.value.groundingChunks.None?) ==> r.sources == []
    ensures resp.candidates.Some? && |resp.candidates.value| > 0 &&
            resp.candidates.value[0].groundingMetadata.Some? &&
            resp.candidates.value[0].groundingMetadata.value.groundingChunks.Some? ==>
      r.sources == resp.candidates.value[0].groundingMetadata.value.groundingChunks.value
  {
    var chunks :=
      match resp.candidates
      case None => None
      case Some(cs) =>
        if cs == [] then None
        else match cs[0].groundingMetadata
          case None => None
          case Some(g) => g.groundingChunks;
    SearchResult(resp.text, chunks.GetOr([]))
  }

  /** `searchTrends` once the SDK call settled: a rejected call rejects, so
      the view keeps its previous results. */
  function SearchCall(sdk: Settled<Response>): (r: Settled<SearchResult>)
    ensures r.Rejected? <==> sdk.Rejected?
    ensures sdk.Fulfilled? ==> r.value == SearchFromResponse(sdk.value)
  {
    match sdk
    case Rejected => Rejected
    case Fulfilled(resp) => Fulfilled(SearchFromResponse(resp))
  }
}
