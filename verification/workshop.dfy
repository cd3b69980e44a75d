/**
 The joke workshop view: setup and punchline fields, a mentor selector, an
 analysis that issues two requests at once, local tag selection, and the
 example / clear-all / copy buttons. Each handler is one atomic transition
 of an immutable view state; an awaited call is modelled by the outcome it
 settled with.
 */
module Workshop {
  import opened Effects
  import opened Types
  import opened Seqs
  import Gateway

  /** The view's state hooks. */
  datatype WorkshopState = WorkshopState(
    setup: string,
    punchline: string,
    mentor: Mentor,
    feedback: string,
    suggestedTags: seq<string>,
    selectedTags: seq<string>,
    loading: bool,
    copySuccess: bool)

  /** A sample joke offered for a mentor style. */
  datatype Example = Example(setup: string, punchline: string)

  const NoFeedback: string := "Sem feedback disponível."
  const AnalysisError: string := "Erro ao analisar piada."
  const JokeSeparator: string := " ... "

  /** The state on first render. */
  function Initial(): (r: WorkshopState)
    ensures r.setup == "" && r.punchline == "" && r.feedback == ""
    ensures r.mentor == GregDean && r.suggestedTags == [] && r.selectedTags == []
    ensures !r.loading && !r.copySuccess
  {
    WorkshopState("", "", GregDean, "", [], [], false, false)
  }

  const GregDeanSetup: string :=
    "Eu estava em um restaurante e vi uma placa dizendo: 'Por favor, não alimente os animais'."
  const GregDeanPunchline: string :=
    "O que é estranho, porque eu tinha acabado de pedir um bife e me senti pessoalmente atacado pelo garçom."
  const LeoLinsSetup: string :=
    "Vi uma notícia dizendo que cientistas criaram uma inteligência artificial que consegue sentir dor."
  const LeoLinsPunchline: string :=
    "Finalmente uma tecnologia que eu posso contratar pra ser meu estagiário e não me sentir mal por gritar com ela."

  /** The sample joke of each mentor style; none has an empty part. */
  function ExampleFor(m: Mentor): (r: Example)
    ensures |r.setup| > 0 && |r.punchline| > 0
  {
    match m
    case GregDean => Example(GregDeanSetup, GregDeanPunchline)
    case LeoLins => Example(LeoLinsSetup, LeoLinsPunchline)
  }

  /** The joke text sent for analysis: setup and punchline joined by " ... ". */
  function Joke(setup: string, punchline: string): (r: string)
    ensures |r| == |setup| + |JokeSeparator| + |punchline|
    ensures r[..|setup|] == setup && r[|r| - |punchline|..] == punchline
    ensures r[|setup|..|setup| + |JokeSeparator|] == JokeSeparator
  {
    setup + JokeSeparator + punchline
  }

  // ---------------------------------------------------------------------------
  // handleAnalyze
  // ---------------------------------------------------------------------------

  /** Entering `handleAnalyze`: with an empty setup or punchline nothing
      happens; otherwise the view shows the spinner, clears feedback, the
      suggested tags and the copy mark, and issues the critique and tag
      requests together. */
  function StartAnalyze(s: WorkshopState): (r: Step<WorkshopState, Gateway.Request>)
    ensures s.setup == "" || s.punchline == "" ==> r == Step(s, [])
    ensures s.setup != "" && s.punchline != "" ==>
      && r.state == s.(loading := true, feedback := "", suggestedTags := [], copySuccess := false)
      && r.calls == [Gateway.AnalysisRequest(Joke(s.setup, s.punchline), s.mentor.Name()),
                     Gateway.TagsRequest(s.setup, s.punchline)]
  {
    if s.setup == "" || s.punchline == "" then Step(s, [])
    else
      Step(s.(loading := true, feedback := "", suggestedTags := [], copySuccess := false),
           [Gateway.AnalysisRequest(Joke(s.setup, s.punchline), s.mentor.Name()),
            Gateway.TagsRequest(s.setup, s.punchline)])
  }

  /** Leaving `handleAnalyze` once both requests settled together. */
  function SettleAnalyze(s: WorkshopState, both: Settled<(Option<string>, seq<string>)>): (r: WorkshopState)
    ensures !r.loading
    ensures both.Fulfilled? ==> r.feedback == OrElse(both.value.0, NoFeedback) && r.suggestedTags == both.value.1
    ensures both.Rejected? ==> r.feedback == AnalysisError && r.suggestedTags == s.suggestedTags
    ensures r.setup == s.setup && r.punchline == s.punchline && r.mentor == s.mentor
    ensures r.selectedTags == s.selectedTags && r.copySuccess == s.copySuccess
  {
    match both
    case Fulfilled((text, tags)) => s.(feedback := OrElse(text, NoFeedback), suggestedTags := tags, loading := false)
    case Rejected => s.(feedback := AnalysisError, loading := false)
  }

  /** `handleAnalyze` as one transition, given how the critique call and the
      tag call settled (`Promise.all`: either rejection fails the whole). */
  function HandleAnalyze(s: WorkshopState, critique: Settled<Option<string>>, tags: Settled<seq<string>>)
    : (r: Step<WorkshopState, Gateway.Request>)
    ensures s.setup == "" || s.punchline == "" ==> r == Step(s, [])
    ensures s.setup != "" && s.punchline != "" ==>
      && |r.calls| == 2
      && r.calls[0] == Gateway.AnalysisRequest(Joke(s.setup, s.punchline), s.mentor.Name())
      && r.calls[1] == Gateway.TagsRequest(s.setup, s.punchline)
      && !r.state.loading && !r.state.copySuccess
      && (critique.Fulfilled? && tags.Fulfilled? ==>
            && r.state.feedback == (if Truthy(critique.value) then critique.value.value else NoFeedback)
            && r.state.suggestedTags == tags.value)
      && (critique.Rejected? || tags.Rejected? ==>
            r.state.feedback == AnalysisError && r.state.suggestedTags == [])
    ensures r.state.setup == s.setup && r.state.punchline == s.punchline
    ensures r.state.mentor == s.mentor && r.state.selectedTags == s.selectedTags
  {
    var start := StartAnalyze(s);
    if start.calls == [] then start
    else Step(SettleAnalyze(start.state, Both(critique, tags)), start.calls)
  }

  // ---------------------------------------------------------------------------
  // Tag selection
  // ---------------------------------------------------------------------------

  /** Toggling a tag in a selection list: a present tag is removed everywhere
      it occurs, an absent one is appended at the end. */
  function Toggle(xs: seq<string>, tag: string): (r: seq<string>)
    ensures tag in xs ==> tag !in r && IsSubsequence(r, xs)
    ensures tag in xs ==> forall t :: t != tag ==> multiset(r)[t] == multiset(xs)[t]
    ensures tag !in xs ==> |r| == |xs| + 1 && r[..|xs|] == xs && r[|xs|] == tag
  {
    if tag in xs then Filter(t => t != tag, xs) else xs + [tag]
  }

  /** `toggleTag`: only the selection changes; the suggestion list is never
      touched. */
  function ToggleTag(s: WorkshopState, tag: string): (r: WorkshopState)
    ensures tag in r.selectedTags <==> tag !in s.selectedTags
    ensures forall t :: t != tag ==> (t in r.selectedTags <==> t in s.selectedTags)
    ensures r == s.(selectedTags := r.selectedTags)
  {
    s.(selectedTags := Toggle(s.selectedTags, tag))
  }

  /** Toggling keeps a duplicate-free selection duplicate-free. */
  lemma ToggleKeepsDistinct(xs: seq<string>, tag: string)
    requires Distinct(xs)
    ensures Distinct(Toggle(xs, tag))
  {
    if tag in xs {
      FilterDistinct(t => t != tag, xs);
    } else {
      var r := xs + [tag];
      forall i, j | 0 <= i < j < |r| ensures r[i] != r[j] {
        if j == |xs| {
          assert r[i] == xs[i];
        }
      }
    }
  }

  /** Toggling an absent tag twice restores the exact list. */
  lemma ToggleTwiceAbsent(xs: seq<string>, tag: string)
    requires tag !in xs
    ensures Toggle(Toggle(xs, tag), tag) == xs
  {
    var p := (t: string) => t != tag;
    assert tag in xs + [tag];
    FilterAppend(p, xs, [tag]);
    FilterAll(p, xs);
    assert [tag][1..] == [];
  }

  /** Toggling a present tag twice restores the membership set, and on a
      duplicate-free selection the same elements with the same
      multiplicities (the tag moves to the end). */
  lemma ToggleTwicePresent(xs: seq<string>, tag: string)
    requires tag in xs
    ensures forall t :: t in Toggle(Toggle(xs, tag), tag) <==> t in xs
    ensures Distinct(xs) ==> multiset(Toggle(Toggle(xs, tag), tag)) == multiset(xs)
  {
    var once := Toggle(xs, tag);
    assert Toggle(once, tag) == once + [tag];
    if Distinct(xs) {
      DistinctOccursOnce(xs, tag);
      assert multiset(once + [tag]) == multiset(once) + multiset{tag};
      assert multiset(once + [tag]) == multiset(xs) by {
        forall t ensures multiset(once + [tag])[t] == multiset(xs)[t] {}
      }
    }
  }

  // ---------------------------------------------------------------------------
  // Reset buttons and copying
  // ---------------------------------------------------------------------------

  /** `fillExample`: loads the current mentor's sample joke and clears
      suggestions, selection and feedback. */
  function FillExample(s: WorkshopState): (r: WorkshopState)
    ensures r.setup == ExampleFor(s.mentor).setup && r.punchline == ExampleFor(s.mentor).punchline
    ensures r.feedback == "" && r.suggestedTags == [] && r.selectedTags == []
    ensures r.mentor == s.mentor && r.loading == s.loading && r.copySuccess == s.copySuccess
  {
    var e := ExampleFor(s.mentor);
    s.(setup := e.setup, punchline := e.punchline, suggestedTags := [], selectedTags := [], feedback := "")
  }

  /** A loaded example always passes the analysis guard: analysing right after
      "fill example" issues both requests for the example joke. */
  lemma ExampleIsAnalysable(s: WorkshopState)
    ensures var f := FillExample(s);
      StartAnalyze(f).calls ==
        [Gateway.AnalysisRequest(Joke(f.setup, f.punchline), s.mentor.Name()),
         Gateway.TagsRequest(f.setup, f.punchline)]
  {
  }

  /** "Limpar Tudo": empties both fields, the feedback and both tag lists. */
  function ClearAll(s: WorkshopState): (r: WorkshopState)
    ensures r.setup == "" && r.punchline == "" && r.feedback == ""
    ensures r.suggestedTags == [] && r.selectedTags == []
    ensures r.mentor == s.mentor && r.loading == s.loading && r.copySuccess == s.copySuccess
  {
    s.(setup := "", punchline := "", feedback := "", selectedTags := [], suggestedTags := [])
  }

  /** `handleCopy`: with no feedback nothing happens; otherwise the feedback is
      written to the clipboard (the one effect listed) and the copy mark is
      set until its timer fires. */
  function Copy(s: WorkshopState): (r: Step<WorkshopState, string>)
    ensures s.feedback == "" ==> r == Step(s, [])
    ensures s.feedback != "" ==> r.calls == [s.feedback] && r.state == s.(copySuccess := true)
  {
    if s.feedback == "" then Step(s, [])
    else Step(s.(copySuccess := true), [s.feedback])
  }

  /** The two-second timer started by a copy: it clears the copy mark. */
  function CopyTimerFired(s: WorkshopState): (r: WorkshopState)
    ensures !r.copySuccess && r == s.(copySuccess := false)
  {
    s.(copySuccess := false)
  }

  // ---------------------------------------------------------------------------
  // Whole sessions
  // ---------------------------------------------------------------------------

  /** Everything that can happen to the view: typing, choosing a mentor and
      the handlers above (an analysis with the outcomes its calls settle with). */
  datatype Event =
    | EditSetup(text: string)
    | EditPunchline(text: string)
    | ChooseMentor(mentor: Mentor)
    | Analyze(critique: Settled<Option<string>>, tags: Settled<seq<string>>)
    | ToggleTagEvent(tag: string)
    | FillExampleEvent
    | ClearAllEvent
    | CopyEvent
    | CopyTimerEvent

  function Apply(s: WorkshopState, e: Event): WorkshopState {
    match e
    case EditSetup(t) => s.(setup := t)
    case EditPunchline(t) => s.(punchline := t)
    case ChooseMentor(m) => s.(mentor := m)
    case Analyze(c, t) => HandleAnalyze(s, c, t).state
    case ToggleTagEvent(tag) => ToggleTag(s, tag)
    case FillExampleEvent => FillExample(s)
    case ClearAllEvent => ClearAll(s)
    case CopyEvent => Copy(s).state
    case CopyTimerEvent => CopyTimerFired(s)
  }

  function Run(s: WorkshopState, events: seq<Event>): WorkshopState
    decreases |events|
  {
    if events == [] then s else Run(Apply(s, events[0]), events[1..])
  }

  /** Whatever the user does, the selection never holds a tag twice, and
      starting from a settled view the spinner is off after every handler. */
  lemma {:induction false} SessionInvariant(s: WorkshopState, events: seq<Event>)
    requires Distinct(s.selectedTags) && !s.loading
    ensures Distinct(Run(s, events).selectedTags) && !Run(s, events).loading
    decreases |events|
  {
    if events != [] {
      var next := Apply(s, events[0]);
      if events[0].ToggleTagEvent? {
        ToggleKeepsDistinct(s.selectedTags, events[0].tag);
      }
      SessionInvariant(next, events[1..]);
    }
  }
}
