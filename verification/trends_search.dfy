/**
 The trends search view: one grounded search per non-blank topic, the
 result text, and the list of source links rendered from the grounding
 chunks.
 */
module TrendsSearch {
  import opened Effects
  import opened Text
  import Gateway

  /** The view's state hooks; `results` is `null` until a search succeeds. */
  datatype TrendsState = TrendsState(topic: string, loading: bool, results: Option<Gateway.SearchResult>)

  /** One rendered source link: its target, its caption and its React key (the
      chunk's position in the unfiltered source list). */
  datatype Link = Link(href: string, title: string, key: nat)

  /** The sources panel: the "no sources" notice, or the rendered links. */
  datatype SourcePanel = NoSourcesNotice | Links(links: seq<Link>)

  const NoSourcesText: string := "Nenhuma fonte direta encontrada."
  const FallbackPrefix: string := "Fonte "

  function Initial(): (r: TrendsState)
    ensures r.topic == "" && !r.loading && r.results.None?
  {
    TrendsState("", false, None)
  }

  // ---------------------------------------------------------------------------
  // handleSearch
  // ---------------------------------------------------------------------------

  /** Entering `handleSearch`: a topic that trims to nothing does nothing;
      otherwise the spinner shows and one search for the untrimmed topic is
      issued. */
  function StartSearch(s: TrendsState): (r: Step<TrendsState, Gateway.Request>)
    ensures IsBlank(s.topic) ==> r == Step(s, [])
    ensures !IsBlank(s.topic) ==> r.state == s.(loading := true) && r.calls == [Gateway.SearchRequest(s.topic)]
  {
    TrimEmptyIffBlank(s.topic);
    if Trim(s.topic) == "" then Step(s, [])
    else Step(s.(loading := true), [Gateway.SearchRequest(s.topic)])
  }

  /** Leaving `handleSearch`: a result replaces the previous one, a failure
      keeps it; the spinner stops either way. */
  function SettleSearch(s: TrendsState, outcome: Settled<Gateway.SearchResult>): (r: TrendsState)
    ensures !r.loading && r.topic == s.topic
    ensures outcome.Fulfilled? ==> r.results == Some(outcome.value)
    ensures outcome.Rejected? ==> r.results == s.results
  {
    match outcome
    case Fulfilled(data) => s.(results := Some(data), loading := false)
    case Rejected => s.(loading := false)
  }

  /** `handleSearch` as one transition, given how the search settled. */
  function HandleSearch(s: TrendsState, outcome: Settled<Gateway.SearchResult>): (r: Step<TrendsState, Gateway.Request>)
    ensures IsBlank(s.topic) ==> r == Step(s, [])
    ensures !IsBlank(s.topic) ==>
      && r.calls == [Gateway.SearchRequest(s.topic)]
      && !r.state.loading && r.state.topic == s.topic
      && (outcome.Fulfilled? ==> r.state.results == Some(outcome.value))
      && (outcome.Rejected? ==> r.state.results == s.results)
  {
    var start := StartSearch(s);
    if start.calls == [] then start
    else Step(SettleSearch(start.state, outcome), start.calls)
  }

  // ---------------------------------------------------------------------------
  // Rendering the sources
  // ---------------------------------------------------------------------------

  /** A chunk is rendered only when its web entry has a truthy uri. */
  predicate HasUri(c: Gateway.GroundingChunk) {
    c.web.Some? && Truthy(c.web.value.uri)
  }

  /** The caption of the chunk at position `i`: its web title when truthy,
      otherwise "Fonte " followed by the one-based position. */
  function Title(c: Gateway.GroundingChunk, i: nat): (r: string)
    ensures c.web.Some? && Truthy(c.web.value.title) ==> r == c.web.value.title.value
    ensures !(c.web.Some? && Truthy(c.web.value.title)) ==> r == FallbackPrefix + Decimal(i + 1)
    ensures r != ""
  {
    var title := if c.web.Some? then c.web.value.title else None;
    OrElse(title, FallbackPrefix + Decimal(i + 1))
  }

  /** Fallback captions tell positions apart. */
  lemma FallbackTitlesDistinct(i: nat, j: nat)
    requires i != j
    ensures FallbackPrefix + Decimal(i + 1) != FallbackPrefix + Decimal(j + 1)
  {
    DecimalRoundTrip(i + 1);
    DecimalRoundTrip(j + 1);
    var a, b := FallbackPrefix + Decimal(i + 1), FallbackPrefix + Decimal(j + 1);
    assert a[|FallbackPrefix|..] == Decimal(i + 1);
    assert b[|FallbackPrefix|..] == Decimal(j + 1);
  }

  /** The link rendered for the chunk at position `i`. */
  function LinkAt(sources: seq<Gateway.GroundingChunk>, i: nat): Link
    requires i < |sources| && HasUri(sources[i])
  {
    Link(sources[i].web.value.uri.value, Title(sources[i], i), i)
  }

  /** The links for the chunks from position `i` on: only chunks with a uri,
      in their original order, each captioned for its position in the
      unfiltered list. */
  function LinksFrom(sources: seq<Gateway.GroundingChunk>, i: nat): (r: seq<Link>)
    requires i <= |sources|
    ensures forall k :: 0 <= k < |r| ==>
      i <= r[k].key < |sources| && HasUri(sources[r[k].key]) && r[k] == LinkAt(sources, r[k].key)
    ensures forall k1, k2 :: 0 <= k1 < k2 < |r| ==> r[k1].key < r[k2].key
    decreases |sources| - i
  {
    if i == |sources| then []
    else
      var rest := LinksFrom(sources, i + 1);
      if HasUri(sources[i]) then
        var r := [LinkAt(sources, i)] + rest;
        assert forall k :: 0 < k < |r| ==> r[k] == rest[k - 1];
        r
      else rest
  }

  /** No chunk with a uri is left out: every such chunk from position `i` on
      has its link. */
  lemma {:induction false} LinksFromComplete(sources: seq<Gateway.GroundingChunk>, i: nat, j: nat)
    requires i <= j < |sources| && HasUri(sources[j])
    ensures exists k :: 0 <= k < |LinksFrom(sources, i)| && LinksFrom(sources, i)[k].key == j
    decreases |sources| - i
  {
    var r := LinksFrom(sources, i);
    var rest := LinksFrom(sources, i + 1);
    if HasUri(sources[i]) {
      assert r == [LinkAt(sources, i)] + rest;
      if j == i {
        assert r[0].key == j;
      } else {
        LinksFromComplete(sources, i + 1, j);
        var k :| 0 <= k < |rest| && rest[k].key == j;
        assert r[k + 1].key == j;
      }
    } else {
      assert j != i;
      LinksFromComplete(sources, i + 1, j);
    }
  }

  /** The sources panel: the notice exactly when the list is empty; otherwise
      the links of the chunks with a uri, so a non-empty list without any uri
      renders nothing at all. */
  function RenderSources(sources: seq<Gateway.GroundingChunk>): (r: SourcePanel)
    ensures r.NoSourcesNotice? <==> sources == []
    ensures sources != [] && (forall j :: 0 <= j < |sources| ==> !HasUri(sources[j])) ==> r == Links([])
    ensures r.Links? ==> r.links == LinksFrom(sources, 0)
  {
    if |sources| > 0 then
      var links := LinksFrom(sources, 0);
      assert links != [] ==> HasUri(sources[links[0].key]);
      Links(links)
    else NoSourcesNotice
  }
}
