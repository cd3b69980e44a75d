/**
 The visual studio view: a prompt, an asset kind, aspect ratio and image
 quality; one generation request at a time; and a gallery of saved assets
 kept newest first and written back to browser storage after every change.
 Browser storage is the `stored` field of the state (the text under the
 gallery's key, absent until first written); `JSON.stringify` and
 `JSON.parse` are the two functions of a `Json` value; the fresh id and the
 clock reading of a save are inputs.
 */
module VisualStudio {
  import opened Effects
  import opened Seqs
  import Gateway

  datatype AssetKind = ImageAsset | VideoAsset

  /** The quality tiers the image selector offers. */
  datatype ImageSize = Size1K | Size2K | Size4K {
    /** The option value sent as the image size: a digit and "K". */
    function Label(): (r: string)
      ensures |r| == 2 && '1' <= r[0] <= '9' && r[1] == 'K'
    {
      match this
      case Size1K => "1K"
      case Size2K => "2K"
      case Size4K => "4K"
    }
  }

  /** Different tiers send different size values. */
  lemma LabelInjective(a: ImageSize, b: ImageSize)
    ensures a.Label() == b.Label() <==> a == b
  {
    if a != b {
      assert a.Label()[0] != b.Label()[0];
    }
  }

  /** One gallery entry. */
  datatype SavedAsset = SavedAsset(id: string, url: string, kind: AssetKind, prompt: string, timestamp: int)

  /** The storage key the gallery lives under. */
  const StorageKey: string := "comedia_lab_assets"

  /** `JSON.stringify` and `JSON.parse` restricted to gallery lists; `parse`
      answers `None` where `JSON.parse` throws. */
  datatype Json = Json(stringify: seq<SavedAsset> -> string, parse: string -> Option<seq<SavedAsset>>)

  /** What the code relies on of the JSON functions for one gallery value:
      its text is a non-empty string that parses back to the same list. */
  predicate RoundTrips(json: Json, g: seq<SavedAsset>) {
    json.stringify(g) != "" && json.parse(json.stringify(g)) == Some(g)
  }

  /** The view's state hooks plus `stored`, the storage slot under
      `StorageKey`: the text last written there, or `None` when the key is
      unset. */
  datatype StudioState = StudioState(
    prompt: string,
    kind: AssetKind,
    size: ImageSize,
    aspect: string,
    resultUrl: Option<string>,
    loading: bool,
    saved: seq<SavedAsset>,
    stored: Option<string>)

  /** No two entries share an id. */
  ghost predicate UniqueIds(g: seq<SavedAsset>) {
    DistinctBy((a: SavedAsset) => a.id, g)
  }

  /** No entry has an empty url. */
  ghost predicate UrlsPresent(g: seq<SavedAsset>) {
    forall i :: 0 <= i < |g| ==> g[i].url != ""
  }

  /** The gallery invariant the view maintains. */
  ghost predicate WellFormed(g: seq<SavedAsset>) {
    UniqueIds(g) && UrlsPresent(g)
  }

  /** Storage holds exactly the serialised in-memory gallery. */
  predicate Synced(s: StudioState, json: Json) {
    s.stored == Some(json.stringify(s.saved))
  }

  function Ids(g: seq<SavedAsset>): (r: set<string>)
    ensures forall a :: a in g ==> a.id in r
    ensures forall id :: id in r ==> exists a :: a in g && a.id == id
  {
    set a | a in g :: a.id
  }

  // ---------------------------------------------------------------------------
  // Mount
  // ---------------------------------------------------------------------------

  /** The gallery the mount effect rehydrates from the stored text: a missing
      or empty text is skipped, an unparseable one is logged and skipped, so
      both leave the initial empty list. */
  function Rehydrate(stored: Option<string>, json: Json): (r: seq<SavedAsset>)
    ensures !Truthy(stored) ==> r == []
    ensures Truthy(stored) && json.parse(stored.value).None? ==> r == []
    ensures Truthy(stored) && json.parse(stored.value).Some? ==> r == json.parse(stored.value).value
  {
    if Truthy(stored) then json.parse(stored.value).GetOr([]) else []
  }

  /** First render followed by the mount effect: default form values, no
      result, and the rehydrated gallery; storage is only read. */
  function Mount(stored: Option<string>, json: Json): (r: StudioState)
    ensures r.prompt == "" && r.kind == ImageAsset && r.size == Size1K && r.aspect == "16:9"
    ensures r.resultUrl.None? && !r.loading && r.stored == stored
    ensures r.saved == Rehydrate(stored, json)
  {
    StudioState("", ImageAsset, Size1K, "16:9", None, false, Rehydrate(stored, json), stored)
  }

  // ---------------------------------------------------------------------------
  // handleGenerate
  // ---------------------------------------------------------------------------

  /** The request `handleGenerate` issues for the current form: an image
      request with the chosen aspect and size, or a video request with the
      chosen aspect forwarded as is. */
  function GenerationRequest(s: StudioState): (r: Gateway.Request)
    ensures s.kind == ImageAsset ==> r == Gateway.ImageRequest(s.prompt, Some(s.aspect), Some(s.size.Label()))
    ensures s.kind == VideoAsset ==> r == Gateway.VideoRequest(s.prompt, Some(s.aspect))
  {
    match s.kind
    case ImageAsset => Gateway.ImageRequest(s.prompt, Some(s.aspect), Some(s.size.Label()))
    case VideoAsset => Gateway.VideoRequest(s.prompt, Some(s.aspect))
  }

  /** Entering `handleGenerate`: with an empty prompt nothing happens;
      otherwise the spinner shows, the previous result is cleared, and one
      request of the current kind is issued. */
  function StartGenerate(s: StudioState): (r: Step<StudioState, Gateway.Request>)
    ensures s.prompt == "" ==> r == Step(s, [])
    ensures s.prompt != "" ==>
      r.state == s.(loading := true, resultUrl := None) && r.calls == [GenerationRequest(s)]
  {
    if s.prompt == "" then Step(s, [])
    else Step(s.(loading := true, resultUrl := None), [GenerationRequest(s)])
  }

  /** Leaving `handleGenerate`: a fulfilled call's url (or `null`) becomes the
      result; a failure keeps the result as it was; the spinner stops either
      way. */
  function SettleGenerate(s: StudioState, outcome: Settled<Option<string>>): (r: StudioState)
    ensures !r.loading
    ensures outcome.Fulfilled? ==> r.resultUrl == outcome.value
    ensures outcome.Rejected? ==> r.resultUrl == s.resultUrl
    ensures r.saved == s.saved && r.stored == s.stored && r.prompt == s.prompt && r.kind == s.kind
    ensures r == s.(resultUrl := r.resultUrl, loading := false)
  {
    match outcome
    case Fulfilled(url) => s.(resultUrl := url, loading := false)
    case Rejected => s.(loading := false)
  }

  /** `handleGenerate` as one transition, given how the issued call settled
      (`Gateway.ImageCall` or `Gateway.VideoCall` of the SDK's outcome). */
  function HandleGenerate(s: StudioState, outcome: Settled<Option<string>>): (r: Step<StudioState, Gateway.Request>)
    ensures s.prompt == "" ==> r == Step(s, [])
    ensures s.prompt != "" ==>
      && r.calls == [GenerationRequest(s)]
      && (s.kind == ImageAsset ==> r.calls[0].Image? && r.calls[0].aspectRatio == s.aspect
                                   && r.calls[0].imageSize == s.size.Label())
      && (s.kind == VideoAsset ==> r.calls[0].Video? && r.calls[0].aspectRatio == s.aspect)
      && !r.state.loading
      && (outcome.Rejected? ==> r.state.resultUrl.None?)
      && (outcome.Fulfilled? ==> r.state.resultUrl == outcome.value)
    ensures r.state.saved == s.saved && r.state.stored == s.stored
    ensures r.state.prompt == s.prompt && r.state.kind == s.kind
    ensures r.state.aspect == s.aspect && r.state.size == s.size
    ensures r.state == s.(resultUrl := r.state.resultUrl, loading := r.state.loading)
  {
    var start := StartGenerate(s);
    if start.calls == [] then start
    else Step(SettleGenerate(start.state, outcome), start.calls)
  }

  // ---------------------------------------------------------------------------
  // Gallery mutations
  // ---------------------------------------------------------------------------

  /** `handleSave` with the fresh id and the clock reading it draws: without a
      result url (null or empty) nothing changes; otherwise a new entry with
      the current url, kind and prompt goes in front of the old entries, and
      the whole new gallery is written to storage. */
  function Save(s: StudioState, json: Json, id: string, now: int): (r: StudioState)
    ensures !Truthy(s.resultUrl) ==> r == s
    ensures Truthy(s.resultUrl) ==>
      && |r.saved| == |s.saved| + 1
      && r.saved[0] == SavedAsset(id, s.resultUrl.value, s.kind, s.prompt, now)
      && r.saved[1..] == s.saved
      && Synced(r, json)
      && r == s.(saved := r.saved, stored := r.stored)
  {
    if !Truthy(s.resultUrl) then s
    else
      var updated := [SavedAsset(id, s.resultUrl.value, s.kind, s.prompt, now)] + s.saved;
      s.(saved := updated, stored := Some(json.stringify(updated)))
  }

  /** The gallery without the entries carrying `id`, order kept. */
  function WithoutId(g: seq<SavedAsset>, id: string): (r: seq<SavedAsset>)
    ensures forall a :: a in r <==> a in g && a.id != id
    ensures IsSubsequence(r, g)
    ensures forall a :: multiset(r)[a] == if a.id != id then multiset(g)[a] else 0
  {
    Filter((a: SavedAsset) => a.id != id, g)
  }

  /** `removeAsset`: drops every entry with the id, keeps the others in their
      order, and writes the new gallery to storage. */
  function Remove(s: StudioState, json: Json, id: string): (r: StudioState)
    ensures id !in Ids(r.saved)
    ensures IsSubsequence(r.saved, s.saved)
    ensures forall a :: a in s.saved && a.id != id ==> a in r.saved
    ensures forall a :: multiset(r.saved)[a] == if a.id != id then multiset(s.saved)[a] else 0
    ensures Synced(r, json)
    ensures r == s.(saved := r.saved, stored := r.stored)
  {
    var updated := WithoutId(s.saved, id);
    s.(saved := updated, stored := Some(json.stringify(updated)))
  }

  /** How many entries carry `id`. */
  function CountId(g: seq<SavedAsset>, id: string): nat {
    if g == [] then 0 else (if g[0].id == id then 1 else 0) + CountId(g[1..], id)
  }

  /** Removal shortens the gallery by the number of entries carrying the id,
      so removing an absent id leaves the gallery exactly as it was (and only
      rewrites storage). */
  lemma {:induction false} RemoveLength(g: seq<SavedAsset>, id: string)
    ensures |WithoutId(g, id)| == |g| - CountId(g, id)
    ensures id !in Ids(g) ==> WithoutId(g, id) == g
  {
    if id !in Ids(g) {
      FilterAll((a: SavedAsset) => a.id != id, g);
    }
    if g != [] {
      RemoveLength(g[1..], id);
      WithoutIdCons(g, id);
    }
  }

  /** One step of the filter: the head is kept exactly when its id differs. */
  lemma WithoutIdCons(g: seq<SavedAsset>, id: string)
    requires g != []
    ensures WithoutId(g, id) == (if g[0].id != id then [g[0]] else []) + WithoutId(g[1..], id)
  {
    assert g == [g[0]] + g[1..];
  }

  /** `Remove`'s contract determines the new gallery: any subsequence of the
      gallery that keeps exactly the entries with other ids, as often as they
      occur, is `WithoutId`. */
  lemma RemoveCharacterised(g: seq<SavedAsset>, id: string, r: seq<SavedAsset>)
    requires IsSubsequence(r, g)
    requires forall a :: multiset(r)[a] == if a.id != id then multiset(g)[a] else 0
    ensures r == WithoutId(g, id)
  {
    FilterUnique((a: SavedAsset) => a.id != id, g, r);
  }

  // ---------------------------------------------------------------------------
  // Invariants
  // ---------------------------------------------------------------------------

  /** A save with an id not yet in the gallery keeps ids unique and urls
      present. */
  lemma SaveKeepsWellFormed(s: StudioState, json: Json, id: string, now: int)
    requires WellFormed(s.saved) && id !in Ids(s.saved)
    ensures WellFormed(Save(s, json, id, now).saved)
  {
    var r := Save(s, json, id, now);
    if Truthy(s.resultUrl) {
      forall i, j | 0 <= i < j < |r.saved| ensures r.saved[i].id != r.saved[j].id {
        assert r.saved[j] == s.saved[j - 1];
        if i == 0 {
          assert s.saved[j - 1] in s.saved;
        } else {
          assert r.saved[i] == s.saved[i - 1];
        }
      }
      forall i | 0 <= i < |r.saved| ensures r.saved[i].url != "" {
        if i > 0 {
          assert r.saved[i] == s.saved[i - 1];
        }
      }
    }
  }

  /** A removal keeps ids unique and urls present. */
  lemma RemoveKeepsWellFormed(s: StudioState, json: Json, id: string)
    requires WellFormed(s.saved)
    ensures WellFormed(Remove(s, json, id).saved)
  {
    var p := (a: SavedAsset) => a.id != id;
    FilterDistinctBy((a: SavedAsset) => a.id, p, s.saved);
    var r := WithoutId(s.saved, id);
    forall i | 0 <= i < |r| ensures r[i].url != "" {
      assert r[i] in s.saved;
    }
  }

  /** After a save or a removal, reloading the view reads back exactly the
      in-memory gallery, provided the JSON functions round-trip that list. */
  lemma ReloadAfterMutation(s: StudioState, json: Json, id: string, now: int)
    ensures Truthy(s.resultUrl) && RoundTrips(json, Save(s, json, id, now).saved) ==>
      Mount(Save(s, json, id, now).stored, json).saved == Save(s, json, id, now).saved
    ensures RoundTrips(json, Remove(s, json, id).saved) ==>
      Mount(Remove(s, json, id).stored, json).saved == Remove(s, json, id).saved
  {
  }

  // ---------------------------------------------------------------------------
  // Whole sessions
  // ---------------------------------------------------------------------------

  /** Everything that can happen to the view: editing the form, generating
      (with the outcome its call settles with), saving (with the id and time
      drawn) and removing. */
  datatype Event =
    | EditPrompt(text: string)
    | ChooseKind(kind: AssetKind)
    | ChooseSize(size: ImageSize)
    | ChooseAspect(aspect: string)
    | Generate(outcome: Settled<Option<string>>)
    | SaveEvent(id: string, now: int)
    | RemoveEvent(removed: string)

  function Apply(s: StudioState, json: Json, e: Event): StudioState {
    match e
    case EditPrompt(t) => s.(prompt := t)
    case ChooseKind(k) => s.(kind := k)
    case ChooseSize(z) => s.(size := z)
    case ChooseAspect(a) => s.(aspect := a)
    case Generate(o) => HandleGenerate(s, o).state
    case SaveEvent(id, now) => Save(s, json, id, now)
    case RemoveEvent(id) => Remove(s, json, id)
  }

  function Run(s: StudioState, json: Json, events: seq<Event>): StudioState
    decreases |events|
  {
    if events == [] then s else Run(Apply(s, json, events[0]), json, events[1..])
  }

  /** The ids the saves of a session draw, in order. */
  function SaveIds(events: seq<Event>): seq<string> {
    if events == [] then []
    else (if events[0].SaveEvent? then [events[0].id] else []) + SaveIds(events[1..])
  }

  /** One event keeps the gallery well formed and keeps out of it every id a
      later save will draw, provided the event's own save id is fresh. */
  lemma ApplyKeepsWellFormed(s: StudioState, json: Json, e: Event, later: seq<string>)
    requires WellFormed(s.saved)
    requires e.SaveEvent? ==> e.id !in Ids(s.saved) && e.id !in later
    requires forall id :: id in later ==> id !in Ids(s.saved)
    ensures WellFormed(Apply(s, json, e).saved)
    ensures forall id :: id in later ==> id !in Ids(Apply(s, json, e).saved)
    ensures Synced(s, json) ==> Synced(Apply(s, json, e), json)
  {
    match e {
      case SaveEvent(id, now) =>
        SaveKeepsWellFormed(s, json, id, now);
      case RemoveEvent(id) =>
        RemoveKeepsWellFormed(s, json, id);
      case _ =>
    }
  }

  /** Over any session whose saves draw ids that are pairwise distinct and not
      already in the gallery, the gallery keeps unique ids and present urls,
      and once storage matches memory it keeps matching. */
  lemma {:induction false} SessionInvariant(s: StudioState, json: Json, events: seq<Event>)
    requires WellFormed(s.saved)
    requires Distinct(SaveIds(events))
    requires forall id :: id in SaveIds(events) ==> id !in Ids(s.saved)
    ensures WellFormed(Run(s, json, events).saved)
    ensures Synced(s, json) ==> Synced(Run(s, json, events), json)
    decreases |events|
  {
    if events != [] {
      var e, rest := events[0], events[1..];
      var head := if e.SaveEvent? then [e.id] else [];
      assert SaveIds(events) == head + SaveIds(rest);
      DistinctSplit(head, SaveIds(rest));
      if e.SaveEvent? {
        assert e.id in SaveIds(events);
      }
      ApplyKeepsWellFormed(s, json, e, SaveIds(rest));
      SessionInvariant(Apply(s, json, e), json, rest);
    }
  }
}
