/**
  The home page's panorama state: the gallery history (most recent first),
  the panorama shown in the viewer, and whether a generation is running.
  Covers loading the history from browser storage, writing it back with a
  size cap, and the effect of one generate request.

  Browser storage is a value of type `Saved`; a write that exceeds the
  storage quota is a boolean input. The random panorama id and the creation
  time are parameters.
 */
module Page {
  import opened Outcomes
  import opened Sequences
  import Route
  import Upload

  const HistoryCap := 10
  const FallbackCap := 3
  const PhotoPrompt := "Generated from photos"
  const GenerateFailedMessage := "Failed to generate panorama"
  const AlertPrefix := "Generation Error: "

  /** A gallery entry. A stored record without a url has the empty url. */
  datatype Panorama = Panorama(id: string, url: string, prompt: string, timestamp: int)

  /** What the `pano-history` storage entry holds, as far as loading can tell. */
  datatype Saved = Absent | Unparsable | NotAnArray | Records(items: seq<Panorama>)

  datatype State = State(history: seq<Panorama>, current: Option<Panorama>, generating: bool)

  /** What the page's request to the generation route came back with. */
  datatype Fetch = Rejected(message: string) | Delivered(response: Route.Response)

  /** The state after a generate request, and the alert shown to the user, if any. */
  datatype Step = Step(state: State, alert: Option<string>)

  const Initial := State([], None, false)

  function Min(a: int, b: int): int {
    if a <= b then a else b
  }

  /** Only local, inline or known long-lived image hosts survive a reload. */
  predicate IsStableUrl(url: string) {
    || StartsWith(url, "/")
    || StartsWith(url, "data:")
    || Contains(url, "threejs.org")
    || Contains(url, "polyhaven.org")
  }

  predicate HasStableUrl(p: Panorama) {
    IsStableUrl(p.url)
  }

  /**
    Loading the stored history on mount: an array of records is filtered down
    to those with a stable url and becomes the history, and its first entry
    becomes the current panorama; anything else leaves the state as it was.
   */
  function LoadHistory(s: State, saved: Saved): (r: State)
    ensures !saved.Records? ==> r == s
    ensures saved.Records? ==> IsSubsequence(r.history, saved.items)
    ensures saved.Records? ==> forall i :: 0 <= i < |r.history| ==> IsStableUrl(r.history[i].url)
    ensures saved.Records? ==> |r.history| == CountWhere(HasStableUrl, saved.items)
    ensures saved.Records? ==>
      forall i :: 0 <= i < |saved.items| && IsStableUrl(saved.items[i].url) ==> saved.items[i] in r.history
    ensures saved.Records? && |r.history| > 0 ==> r.current == Some(r.history[0])
    ensures saved.Records? && |r.history| == 0 ==> r.current == s.current
    ensures r.generating == s.generating
  {
    if saved.Records? then
      var kept := Filter(HasStableUrl, saved.items);
      FilterIsSubsequence(HasStableUrl, saved.items);
      State(kept, if |kept| > 0 then Some(kept[0]) else s.current, s.generating)
    else s
  }

  /**
    Writing the history back after every change: nothing while it is empty;
    otherwise its first ten entries, or, when that write exceeds the quota,
    its first three; when that fails too, storage keeps what it had.
   */
  function PersistHistory(stored: Saved, history: seq<Panorama>, fullWriteFails: bool, shortWriteFails: bool): (r: Saved)
    ensures |history| == 0 ==> r == stored
    ensures r != stored ==> r.Records? && 0 < |r.items| <= HistoryCap && |r.items| <= |history| && r.items == history[..|r.items|]
    ensures |history| > 0 && !fullWriteFails ==> r == Records(history[..Min(HistoryCap, |history|)])
    ensures |history| > 0 && fullWriteFails && !shortWriteFails ==> r == Records(history[..Min(FallbackCap, |history|)])
    ensures fullWriteFails && shortWriteFails ==> r == stored
  {
    if |history| == 0 then stored
    else if !fullWriteFails then Records(history[..Min(HistoryCap, |history|)])
    else if !shortWriteFails then Records(history[..Min(FallbackCap, |history|)])
    else stored
  }

  /**
    A history whose entries all have stable urls survives a write and a reload
    as the written prefix, with its newest entry shown.
   */
  lemma PersistThenLoad(s: State, stored: Saved, history: seq<Panorama>, fullWriteFails: bool, shortWriteFails: bool)
    requires |history| > 0 && !(fullWriteFails && shortWriteFails)
    requires forall i :: 0 <= i < |history| ==> IsStableUrl(history[i].url)
    ensures var cap := if fullWriteFails then FallbackCap else HistoryCap;
      var r := LoadHistory(s, PersistHistory(stored, history, fullWriteFails, shortWriteFails));
      r.history == history[..Min(cap, |history|)] && r.current == Some(history[0])
  {
    var cap := if fullWriteFails then FallbackCap else HistoryCap;
    var written := history[..Min(cap, |history|)];
    assert PersistHistory(stored, history, fullWriteFails, shortWriteFails) == Records(written);
    FilterKeepsAll(HasStableUrl, written);
  }

  /** The request succeeded: the response was 2xx and its body has the success shape. */
  predicate Succeeded(fetch: Fetch) {
    fetch.Delivered? && 200 <= fetch.response.status < 300 && fetch.response.body.Generated?
  }

  /** The message of the error a failed request raises. */
  function ErrorMessage(fetch: Fetch): string {
    match fetch
    case Rejected(message) => message
    case Delivered(response) =>
      if response.body.Failed? && response.body.message != "" then response.body.message
      else GenerateFailedMessage
  }

  /** The new gallery entry; an empty prompt (a photos-only request) gets a stock description. */
  function NewPanorama(id: string, url: string, prompt: string, timestamp: int): (p: Panorama)
    ensures p.prompt != ""
    ensures prompt != "" ==> p.prompt == prompt
    ensures prompt == "" ==> p.prompt == PhotoPrompt
    ensures p.url == url && p.id == id && p.timestamp == timestamp
  {
    Panorama(id, url, if prompt == "" then PhotoPrompt else prompt, timestamp)
  }

  /**
    `handleGenerate`: on success the new panorama is shown and put at the
    front of the history; on any failure the history and the shown panorama
    stay as they were and an alert carries the error. Either way the page is
    no longer generating afterwards.
   */
  function HandleGenerate(s: State, prompt: string, fetch: Fetch, id: string, timestamp: int): (r: Step)
    ensures !r.state.generating
    ensures Succeeded(fetch) ==>
      && r.alert.None?
      && |r.state.history| == |s.history| + 1
      && r.state.history[1..] == s.history
      && r.state.current == Some(r.state.history[0])
      && r.state.history[0] == NewPanorama(id, fetch.response.body.url, prompt, timestamp)
    ensures !Succeeded(fetch) ==>
      && r.state.history == s.history
      && r.state.current == s.current
      && r.alert == Some(AlertPrefix + ErrorMessage(fetch))
  {
    if Succeeded(fetch) then
      var pano := NewPanorama(id, fetch.response.body.url, prompt, timestamp);
      Step(State([pano] + s.history, Some(pano), false), None)
    else
      Step(State(s.history, s.current, false), Some(AlertPrefix + ErrorMessage(fetch)))
  }

  /**
    End to end: when staging succeeds and some Stability key produces an
    image, the first such image is what the gallery gains and shows.
   */
  lemma RouteSuccessReachesGallery(s: State, prompt: string, staging: Option<string>,
                                   attempts: seq<Attempt<string>>, id: string, timestamp: int)
    requires staging.None? && FirstOk(attempts, 0).Some?
    ensures var r := HandleGenerate(s, prompt, Delivered(Route.Handle(staging, attempts)), id, timestamp);
      && r.alert.None?
      && r.state.history == [NewPanorama(id, attempts[FirstOk(attempts, 0).value].value, prompt, timestamp)] + s.history
      && r.state.current == Some(r.state.history[0])
  {
    var r := HandleGenerate(s, prompt, Delivered(Route.Handle(staging, attempts)), id, timestamp);
    assert r.state.history == [r.state.history[0]] + r.state.history[1..];
  }

  /**
    End to end: when every Stability key fails, the gallery is untouched and
    the alert shows the last key's error (or the generic pipeline message
    when that error had no text).
   */
  lemma RouteFailureReachesAlert(s: State, prompt: string, attempts: seq<Attempt<string>>, id: string, timestamp: int)
    requires |attempts| > 0
    requires FirstOk(attempts, 0).None?
    ensures var r := HandleGenerate(s, prompt, Delivered(Route.Handle(None, attempts)), id, timestamp);
      var m := attempts[|attempts| - 1].message;
      && r.state.history == s.history
      && r.state.current == s.current
      && r.alert == Some(AlertPrefix + (if m == "" then Route.PipelineFailedMessage else m))
  {
  }

  /**
    A request the upload panel lets through without photos carries a
    non-empty prompt, so neither the route nor the gallery substitutes a
    default for it.
   */
  lemma PhotoFreeRequestKeepsPrompt<F>(form: Upload.Form<F>, id: string, url: string, timestamp: int)
    requires Upload.Click(form, false).Some? && |form.files| == 0
    ensures Route.EffectivePrompt(Some(form.prompt)) == form.prompt
    ensures NewPanorama(id, url, form.prompt, timestamp).prompt == form.prompt
  {
  }

  /**
    After a successful generation is written back with room to spare, the
    stored list starts with the new panorama and holds at most ten entries.
   */
  lemma GenerateThenPersist(s: State, stored: Saved, prompt: string, fetch: Fetch, id: string, timestamp: int)
    requires Succeeded(fetch)
    ensures var h := HandleGenerate(s, prompt, fetch, id, timestamp).state.history;
      var w := PersistHistory(stored, h, false, false);
      && w.Records? && 0 < |w.items| <= HistoryCap
      && w.items[0] == NewPanorama(id, fetch.response.body.url, prompt, timestamp)
      && w.items[1..] == s.history[..Min(HistoryCap - 1, |s.history|)]
  {
  }

  /** A stored history holding one local-path record loads as that record, which is then shown. */
  lemma LoadsLocalRecord(p: Panorama)
    requires p.url == "/mock-local-url.jpg"
    ensures LoadHistory(Initial, Records([p])) == State([p], Some(p), false)
  {
    assert StartsWith(p.url, "/");
    assert [p][1..] == [];
  }
}
