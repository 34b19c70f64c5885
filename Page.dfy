/** The search page: it owns the query text, the result list, the in-flight
    flag and the transient save confirmation, and changes them in response to
    user events and to the completion of its two outbound calls (search and
    save) and of its confirmation timer. Each completion is a separate event,
    so a search may resolve after a later one and both write the results.
    The handlers allow such overlap; the page's controls do not offer it,
    since submit is disabled and the presets are hidden while searching. */
module Page {
  import opened Wrappers
  import opened Text
  import opened Records

  /** The canned queries offered as one-click shortcuts. */
  const PresetQueries: seq<string> := [
    "Find suppliers for industrial components",
    "Search for manufacturing partners",
    "Locate raw material suppliers",
    "Find quality certified vendors",
    "Search for international suppliers"
  ]

  /** The four state fields of the page. */
  datatype PageState = PageState(
    query: string,
    results: seq<Supplier>,
    loading: bool,
    saved: Option<string>)

  const InitialState: PageState := PageState("", [], false, None)

  // ---------------------------------------------------------------------
  // Transitions, one per event, as functions of the state before it.
  // ---------------------------------------------------------------------

  /** The query a search uses: the explicit argument when it is a non-empty
      string, otherwise the current query text (JavaScript's
      `searchQuery || query`). */
  function EffectiveQuery(s: PageState, searchQuery: Option<string>): string {
    if searchQuery.Some? && searchQuery.value != "" then searchQuery.value else s.query
  }

  /** The `query` of the search request a search event issues, or None when
      the effective query is whitespace only and nothing is sent. */
  function RequestQuery(s: PageState, searchQuery: Option<string>): Option<string> {
    var q := EffectiveQuery(s, searchQuery);
    if TrimsToEmpty(q) then None else Some(q)
  }

  /** JavaScript's `!q.trim()`: trimming leaves the empty string, which is
      the case exactly when every character is whitespace (see
      `TrimsToEmptyMeans`). */
  predicate TrimsToEmpty(q: string) {
    IsBlank(q, JsWhitespace)
  }

  lemma TrimsToEmptyMeans(q: string)
    ensures TrimsToEmpty(q) <==> Trim(q, JsWhitespace) == ""
  {
  }

  /** The state right after a search event, before its request completes. */
  function Dispatched(s: PageState, searchQuery: Option<string>): PageState {
    if RequestQuery(s, searchQuery).None? then s
    else s.(loading := true, results := [], saved := None)
  }

  /** Typing in the input field. */
  function Typed(s: PageState, text: string): PageState {
    s.(query := text)
  }

  /** Clicking a preset: a search with the preset as explicit argument, and
      the query text becomes the preset. The search reads the query text of
      the render the click happened in, not the preset just set, because a
      React state update only shows at the next render. */
  function PresetChosen(s: PageState, preset: string): PageState {
    Dispatched(s, Some(preset)).(query := preset)
  }

  /** A search request completed with `data` as its response. */
  function SearchResolved(s: PageState, data: seq<Supplier>): PageState {
    s.(results := data, loading := false)
  }

  /** A search request failed (transport error or unreadable response). */
  function SearchFailed(s: PageState): PageState {
    s.(loading := false)
  }

  /** The confirmation shown after `name` was saved. */
  function Confirmation(name: string): (message: string)
    ensures |message| == |name| + 7
    ensures message[..6] == "Saved " && message[6..|message| - 1] == name
    ensures message[|message| - 1] == '!'
  {
    "Saved " + name + "!"
  }

  /** A save request for `supplier` completed; `ok` is whether its status
      was a success status. */
  function SaveResolved(s: PageState, ok: bool, supplier: Supplier): PageState {
    if ok then s.(saved := Some(Confirmation(supplier.name))) else s
  }

  /** A confirmation timer fired. */
  function Cleared(s: PageState): PageState {
    s.(saved := None)
  }

  // ---------------------------------------------------------------------
  // What the page renders.
  // ---------------------------------------------------------------------

  /** The submit button is disabled. */
  predicate SubmitDisabled(s: PageState) {
    s.loading || TrimsToEmpty(s.query)
  }

  /** The preset shortcuts are shown. */
  predicate PresetsShown(s: PageState) {
    |s.results| == 0 && !s.loading
  }

  /** The "No results found" message is shown (the query text is tested
      untrimmed, as JavaScript truthiness does). */
  predicate NoResultsShown(s: PageState) {
    |s.results| == 0 && !s.loading && s.query != ""
  }

  /** The "Searching..." message is shown. */
  predicate SearchingShown(s: PageState) {
    s.loading
  }

  /** The save confirmation is shown (a held but empty string is falsy). */
  predicate ConfirmationShown(s: PageState) {
    s.saved.Some? && s.saved.value != ""
  }

  // ---------------------------------------------------------------------
  // Properties of the transitions.
  // ---------------------------------------------------------------------

  /** The submit button is disabled exactly while a search is in flight or
      the query text trims to the empty string. */
  lemma SubmitDisabledMeans(s: PageState)
    ensures SubmitDisabled(s) <==> s.loading || Trim(s.query, JsWhitespace) == ""
  {
  }

  /** A search whose effective query is whitespace only sends nothing and
      changes nothing; any other search sends the effective query as it is,
      untrimmed. */
  lemma SearchGuard(s: PageState, searchQuery: Option<string>)
    ensures var q := EffectiveQuery(s, searchQuery);
      && (Trim(q, JsWhitespace) == "" ==> RequestQuery(s, searchQuery).None? && Dispatched(s, searchQuery) == s)
      && (Trim(q, JsWhitespace) != "" ==> RequestQuery(s, searchQuery) == Some(q))
  {
  }

  /** A dispatched search clears the results and the confirmation and sets
      the in-flight flag, so the page shows "Searching..." and neither the
      presets nor "No results" nor a confirmation, and submit is disabled. */
  lemma DispatchResets(s: PageState, searchQuery: Option<string>)
    requires RequestQuery(s, searchQuery).Some?
    ensures var t := Dispatched(s, searchQuery);
      && t.query == s.query && t.results == [] && t.loading && t.saved == None
      && SearchingShown(t) && SubmitDisabled(t)
      && !PresetsShown(t) && !NoResultsShown(t) && !ConfirmationShown(t)
  {
  }

  /** Clicking a non-empty preset is the same as typing it and submitting:
      same request, same state. */
  lemma PresetIsTypedSubmit(s: PageState, preset: string)
    requires preset != ""
    ensures PresetChosen(s, preset) == Dispatched(Typed(s, preset), None)
    ensures RequestQuery(s, Some(preset)) == RequestQuery(Typed(s, preset), None)
  {
  }

  /** An empty preset falls back to the query text the click's render
      showed: that text is what is sent, while the field shows "". */
  lemma EmptyPresetSearchesShownQuery(s: PageState)
    ensures RequestQuery(s, Some("")) == RequestQuery(s, None)
    ensures PresetChosen(s, "") == Dispatched(s, None).(query := "")
  {
  }

  /** No preset is empty or whitespace only, so clicking one always sends
      exactly that preset. */
  lemma PresetsAlwaysSearch(s: PageState, i: nat)
    requires i < |PresetQueries|
    ensures PresetQueries[i] != ""
    ensures RequestQuery(s, Some(PresetQueries[i])) == Some(PresetQueries[i])
  {
    var p := PresetQueries[i];
    assert p[0] in {'F', 'S', 'L'};
    assert !IsBlank(p, JsWhitespace);
  }

  /** A successful search shows exactly the returned records and ends the
      in-flight state; the presets come back only when the response is
      empty, and "No results" also needs a non-empty query text. */
  lemma ResolvedShowsData(s: PageState, data: seq<Supplier>)
    ensures var t := SearchResolved(s, data);
      && t.results == data && !t.loading && t.query == s.query && t.saved == s.saved
      && (PresetsShown(t) <==> data == [])
      && (NoResultsShown(t) <==> data == [] && s.query != "")
  {
  }

  /** A submitted search that fails leaves the results empty, ends the
      in-flight state and shows "No results" next to the presets. */
  lemma FailedSubmitShowsNoResults(s: PageState)
    requires RequestQuery(s, None).Some?
    ensures var t := SearchFailed(Dispatched(s, None));
      && t.results == [] && !t.loading
      && NoResultsShown(t) && PresetsShown(t)
  {
  }

  /** With two searches in flight, the response that arrives last decides
      the results, even when it answers the earlier search. */
  lemma StaleResponseWins(s: PageState, first: Option<string>, second: Option<string>,
                          firstData: seq<Supplier>, secondData: seq<Supplier>)
    ensures var both := Dispatched(Dispatched(s, first), second);
      && SearchResolved(SearchResolved(both, secondData), firstData).results == firstData
      && !SearchResolved(both, firstData).loading
  {
  }

  /** A successful save shows "Saved <name>!"; an unsuccessful one changes
      nothing. */
  lemma SaveOutcome(s: PageState, supplier: Supplier)
    ensures SaveResolved(s, true, supplier).saved == Some("Saved " + supplier.name + "!")
    ensures ConfirmationShown(SaveResolved(s, true, supplier))
    ensures SaveResolved(s, true, supplier) == s.(saved := SaveResolved(s, true, supplier).saved)
    ensures SaveResolved(s, false, supplier) == s
  {
  }

  /** Each timer clears whatever confirmation is shown, so the timer of an
      earlier save erases the confirmation of a later one. */
  lemma EarlierTimerClearsLaterConfirmation(s: PageState, first: Supplier, second: Supplier)
    ensures var both := SaveResolved(SaveResolved(s, true, first), true, second);
      && both.saved == Some(Confirmation(second.name))
      && Cleared(both).saved == None
      && !ConfirmationShown(Cleared(both))
  {
  }

  /** "No results" appears only where the presets do, and neither appears
      while searching. */
  lemma RenderConditionsAgree(s: PageState)
    ensures NoResultsShown(s) ==> PresetsShown(s)
    ensures SearchingShown(s) ==> !PresetsShown(s) && !NoResultsShown(s) && SubmitDisabled(s)
  {
  }

  // ---------------------------------------------------------------------
  // The page itself.
  // ---------------------------------------------------------------------

  /** The page component. The ghost fields count the continuations waiting
      on the event loop: search requests in flight, save requests in flight
      (with the record each will confirm) and confirmation timers pending.
      They only say when a completion event can arrive. */
  class Home {
    var query: string
    var results: seq<Supplier>
    var loading: bool
    var saved: Option<string>

    ghost var searchesInFlight: nat
    ghost var savesInFlight: multiset<Supplier>
    ghost var timersPending: nat

    function State(): PageState
      reads this
    {
      PageState(query, results, loading, saved)
    }

    /** A search is in flight while the page says so, and a shown
        confirmation always has a timer that will clear it. */
    ghost predicate Valid()
      reads this
    {
      && (loading ==> searchesInFlight > 0)
      && (saved.Some? ==> timersPending > 0)
    }

    constructor ()
      ensures Valid() && State() == InitialState
      ensures searchesInFlight == 0 && savesInFlight == multiset{} && timersPending == 0
    {
      query := "";
      results := [];
      loading := false;
      saved := None;
      searchesInFlight := 0;
      savesInFlight := multiset{};
      timersPending := 0;
    }

    /** The input field's change handler. */
    method SetQuery(text: string)
      requires Valid()
      modifies this
      ensures Valid() && State() == Typed(old(State()), text)
      ensures searchesInFlight == old(searchesInFlight) && savesInFlight == old(savesInFlight)
      ensures timersPending == old(timersPending)
    {
      query := text;
    }

    /** The search handler up to its first suspension: the guard, the three
        resets and the request. Returns the `query` of the request sent, or
        None when nothing is sent. */
    method HandleSearch(searchQuery: Option<string>) returns (request: Option<string>)
      requires Valid()
      modifies this
      ensures Valid()
      ensures request == RequestQuery(old(State()), searchQuery)
      ensures State() == Dispatched(old(State()), searchQuery)
      ensures searchesInFlight == old(searchesInFlight) + (if request.Some? then 1 else 0)
      ensures timersPending == old(timersPending)
      ensures savesInFlight == old(savesInFlight)
    {
      var queryToUse := if searchQuery.Some? && searchQuery.value != "" then searchQuery.value else query;
      if TrimsToEmpty(queryToUse) {
        return None;
      }
      loading := true;
      results := [];
      saved := None;
      searchesInFlight := searchesInFlight + 1;
      request := Some(queryToUse);
    }

    /** The form's submit handler. */
    method HandleSubmit() returns (request: Option<string>)
      requires Valid()
      modifies this
      ensures Valid()
      ensures request == RequestQuery(old(State()), None)
      ensures State() == Dispatched(old(State()), None)
      ensures searchesInFlight == old(searchesInFlight) + (if request.Some? then 1 else 0)
      ensures savesInFlight == old(savesInFlight) && timersPending == old(timersPending)
    {
      request := HandleSearch(None);
    }

    /** A preset button's click handler. The handler sets the query text and
        then searches, but the search still sees the query text of the
        current render; the search writes no query text, so running it
        first and then setting the text gives the same state. */
    method HandlePresetClick(preset: string) returns (request: Option<string>)
      requires Valid()
      modifies this
      ensures Valid()
      ensures request == RequestQuery(old(State()), Some(preset))
      ensures State() == PresetChosen(old(State()), preset)
      ensures searchesInFlight == old(searchesInFlight) + (if request.Some? then 1 else 0)
      ensures savesInFlight == old(savesInFlight) && timersPending == old(timersPending)
    {
      request := HandleSearch(Some(preset));
      query := preset;
    }

    /** A search request's response arrived and was read as `data`. */
    method OnSearchResolved(data: seq<Supplier>)
      requires Valid() && searchesInFlight > 0
      modifies this
      ensures Valid() && State() == SearchResolved(old(State()), data)
      ensures searchesInFlight == old(searchesInFlight) - 1
      ensures savesInFlight == old(savesInFlight) && timersPending == old(timersPending)
    {
      results := data;
      searchesInFlight := searchesInFlight - 1;
      loading := false;
    }

    /** A search request failed. */
    method OnSearchFailed()
      requires Valid() && searchesInFlight > 0
      modifies this
      ensures Valid() && State() == SearchFailed(old(State()))
      ensures searchesInFlight == old(searchesInFlight) - 1
      ensures savesInFlight == old(savesInFlight) && timersPending == old(timersPending)
    {
      searchesInFlight := searchesInFlight - 1;
      loading := false;
    }

    /** The save handler up to its suspension: returns the request body,
        which is the record as displayed. */
    method HandleSave(supplier: Supplier) returns (body: Supplier)
      requires Valid()
      modifies this
      ensures Valid() && State() == old(State())
      ensures body == supplier
      ensures savesInFlight == old(savesInFlight) + multiset{supplier}
      ensures searchesInFlight == old(searchesInFlight) && timersPending == old(timersPending)
    {
      savesInFlight := savesInFlight + multiset{supplier};
      body := supplier;
    }

    /** The save request for `supplier` got a response; `ok` says whether
        its status was a success status. A success shows the confirmation
        and starts its timer. */
    method OnSaveResolved(ok: bool, supplier: Supplier)
      requires Valid() && supplier in savesInFlight
      modifies this
      ensures Valid() && State() == SaveResolved(old(State()), ok, supplier)
      ensures savesInFlight == old(savesInFlight) - multiset{supplier}
      ensures timersPending == old(timersPending) + (if ok then 1 else 0)
      ensures searchesInFlight == old(searchesInFlight)
    {
      savesInFlight := savesInFlight - multiset{supplier};
      if ok {
        saved := Some(Confirmation(supplier.name));
        timersPending := timersPending + 1;
      }
    }

    /** The save request for `supplier` failed in transport. */
    method OnSaveFailed(supplier: Supplier)
      requires Valid() && supplier in savesInFlight
      modifies this
      ensures Valid() && State() == old(State())
      ensures savesInFlight == old(savesInFlight) - multiset{supplier}
      ensures searchesInFlight == old(searchesInFlight) && timersPending == old(timersPending)
    {
      savesInFlight := savesInFlight - multiset{supplier};
    }

    /** A confirmation timer fired. */
    method OnClearTimer()
      requires Valid() && timersPending > 0
      modifies this
      ensures Valid() && State() == Cleared(old(State()))
      ensures timersPending == old(timersPending) - 1
      ensures searchesInFlight == old(searchesInFlight) && savesInFlight == old(savesInFlight)
    {
      saved := None;
      timersPending := timersPending - 1;
    }
  }

  /** A search for an industrial-components query that returns one record,
      followed by saving that record. */
  method SearchThenSaveScenario()
  {
    var page := new Home();
    var q := "Find suppliers for industrial components";
    page.SetQuery(q);
    assert q[0] !in JsWhitespace;
    assert !IsBlank(q, JsWhitespace);
    var request := page.HandleSubmit();
    assert request == Some(q);
    assert SearchingShown(page.State());

    var acme := Supplier(None, "Acme Co", "https://acme.example", 0.92, "ISO 9001");
    page.OnSearchResolved([acme]);
    assert page.results == [acme] && !page.loading && page.saved == None;

    var body := page.HandleSave(acme);
    assert body == acme;
    page.OnSaveResolved(true, acme);
    assert Confirmation("Acme Co") == "Saved Acme Co!";
    assert page.saved == Some("Saved Acme Co!");
    page.OnClearTimer();
    assert page.saved == None && page.results == [acme];
  }
}
