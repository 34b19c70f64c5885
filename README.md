# Supplier Scout: a Dafny model of its search-and-save logic

Supplier Scout is a small web application. A user types a description of the
suppliers they need, or clicks one of five preset queries. The page posts the
query to a backend. The backend runs a web search and returns candidate
supplier records. The user can save any record, and the page then shows a
confirmation for up to three seconds: an earlier save's timer or a new
search clears it sooner, and a later save replaces it.

This project models the three pieces of that system that carry logic:

- **The search page** (`frontend/app/page.tsx`). The page owns four state
  fields: `query`, `results`, `loading` and `saved`. Its handlers change them
  in fixed steps. `Page.dfy` holds two layers:
  - one pure transition function per event, over a `PageState` value, with
    the render conditions as predicates and lemmas about them;
  - the class `Page.Home`, whose methods perform the handlers' setter calls
    in order (the preset click reorders its two steps; see
    `HandlePresetClick`), each proved to yield the transition function's
    state.
  Each outbound call's completion is one event method: the search's two
  `await`s (the `fetch` and the `res.json()` after it) form one event,
  because no state changes between them; the save's `await` and the
  `setTimeout` callback are events of their own. So a search may resolve
  after a later one, and an old confirmation timer may fire after a newer
  save; lemmas state both. The handlers themselves do not prevent two
  searches from overlapping, but the page's controls do: while a search is
  in flight the submit button is disabled and the presets are hidden. So
  the overlapping-search race describes the handlers, not a sequence of
  clicks the page lets a user make. Ghost counters in `Home`
  record which completions are outstanding. They only decide when a
  completion event may arrive. The page itself keeps no request tags.
- **The agent** (`backend/agent.py`). It builds the web-search string from the
  query. The search tool is a function parameter that returns either `Fail`
  or `Ok(raw)`. The agent turns that outcome into one error record or two
  supplier records, using Python's clamping slice semantics (`Agent.dfy`).
- **The server** (`backend/main.py`). It parses the `CORS_ORIGINS` variable
  into the list of allowed origins. It declares the request and response
  shapes. Its `/search` endpoint passes the agent's result through
  (`Server.dfy`).

`Text.dfy` holds the string operations these depend on, each defined once:

- trimming, for a given whitespace set. Python's `str.strip()` and
  JavaScript's `trim()` remove different sets, so both sets are listed.
- Python's `str.split(sep)` and `sep.join(...)`.

`Records.dfy` holds the supplier record shared by the page and the agent.
`Wrappers.dfy` holds `Option`.

## Model

| member | source | states |
|---|---|---|
| Text.LeadingBlanks | backend/main.py:23 | counts the whitespace characters before the first non-whitespace character of the string |
| Text.TrailingBlanks | backend/main.py:23 | counts the whitespace characters after the last non-whitespace character of the string |
| Text.Trim | backend/main.py:23 | the result neither starts nor ends with whitespace, and it is empty exactly when the input is all whitespace |
| Text.TrimUnique | backend/main.py:23 | trimming a blank prefix + a trimmed middle + a blank suffix yields exactly the middle, which characterises `strip()` |
| Text.TrimIdempotent | backend/main.py:23 | stripping twice equals stripping once |
| Text.TrimKeepsOut | backend/main.py:23 | stripping adds no character: a character absent from the input is absent from the result |
| Text.Split | backend/main.py:23 | `split(sep)` yields one more piece than there are separators, and no piece contains the separator |
| Text.SplitKeeps | backend/main.py:23 | every character of a piece occurs in the split string |
| Text.JoinSplit | backend/main.py:23 | joining the pieces of a split with the separator gives back the original string |
| Text.SplitJoin | backend/main.py:23 | splitting a join of separator-free pieces gives back exactly those pieces, in order |
| Text.SplitAfterPiece | backend/main.py:23 | a separator-free piece followed by the separator splits off as exactly that piece |
| Text.SplitWithoutSep | backend/main.py:23 | a string without the separator splits into itself alone |
| Server.ParseOrigins | backend/main.py:20-23 | "*" yields ["*"]; any other value yields one origin per comma-separated piece, in order, each the piece stripped of surrounding whitespace; no origin has surrounding whitespace or contains a comma |
| Server.CorsOrigins | backend/main.py:18-23 | with the variable unset the origins are exactly ["http://localhost:3000"]; with it set they are the parse of its value |
| Server.SingleOrigin | backend/main.py:23 | a value other than "*" with no comma and no surrounding whitespace is its own only origin |
| Server.DefaultOriginsParsed | backend/main.py:18-23 | the default value parses to itself as the single origin |
| Server.EmptyOriginsParsed | backend/main.py:23 | an empty value yields one empty origin |
| Server.ParseJoinedOrigins | backend/main.py:23 | a comma-joined list of trimmed, comma-free origins (other than "*") parses back into exactly that list |
| Server.ParsedOriginsRejoin | backend/main.py:23 | for a whitespace-free value other than "*", joining the parsed origins with commas gives back the value |
| Server.SearchRequest | backend/main.py:39-40 | the search request body: a query string only |
| Server.SupplierCreate | backend/main.py:42-46 | the save request body: a required name and optional website, relevance score and notes; it carries no id |
| Server.SupplierResponse | backend/main.py:48-51 | the saved supplier as returned: the save request's fields plus the id the store assigned; only this shape carries an id |
| Server.CreateWithDefaults | backend/main.py:42-46 | a save request that gives only a name has website None, relevance score 0.0 and notes None |
| Server.SearchSuppliers | backend/main.py:54-60 | `/search` returns the agent's result for the request's query unchanged |
| Agent.SearchOutcome | backend/agent.py:15-19 | the search tool's call either raises (`Fail`) or returns the raw result text (`Ok`) |
| Agent.ErrorRecord | backend/agent.py:19 | the one record of a failed search: no id, name "Error", empty website, score 0, notes "Search failed." |
| Agent.TopResult | backend/agent.py:35-40 | the first record of a successful search, characterised by `Agent.TopResultNotes` and `Agent.FixedWebsitesAndScores` |
| Agent.Alternative | backend/agent.py:42-47 | the second record of a successful search, characterised by `Agent.AlternativeNotes` and `Agent.FixedWebsitesAndScores` |
| Agent.SearchString | backend/agent.py:14 | the search text is the fixed prefix, then the query unaltered and untrimmed, then the fixed suffix |
| Agent.SearchStringInjective | backend/agent.py:14 | distinct queries give distinct search texts |
| Agent.Slice | backend/agent.py:39 | Python's `s[start:stop]`: its length is the clamped range's length, and it is the text of `s` from `start` |
| Agent.ScoutResults | backend/agent.py:15-49 | a failed search yields exactly the one "Error" record; a successful one yields exactly two records; no record has an id |
| Agent.TopResultNotes | backend/agent.py:35-40 | the first record is named "Top Result for " + query; its notes are the first min(len(raw), 200) characters of raw, then "...", so their length is min(len(raw), 200) + 3 |
| Agent.AlternativeNotes | backend/agent.py:42-47 | the second record is "Alternative Supplier"; its notes are raw[200:400] + "..." when raw is longer than 200 characters, otherwise "Good alternative." |
| Agent.FixedWebsitesAndScores | backend/agent.py:35-47 | whatever the query and the raw text, the first record is "https://example.com" with score 0.95 and the second "https://supplier-b.com" with score 0.88 |
| Agent.RunSupplierScout | backend/agent.py:7-49 | the agent calls the search tool once, with the search text, and returns the shaped result of that call's outcome |
| Records.Supplier | frontend/app/page.tsx:6-12 | the supplier record the page shows and saves: an optional id, name, website, relevance score and notes |
| Records.WebsiteLabel | frontend/components/SupplierCard.tsx:28 | the card shows the website, or "No website provided" when it is empty; the label is never empty |
| Page.PageState | frontend/app/page.tsx:23-26 | the page's four state fields: query text, results, loading flag and confirmation |
| Page.PresetQueries | frontend/app/page.tsx:14-20 | the five preset texts, in order |
| Page.EffectiveQuery | frontend/app/page.tsx:29 | the argument when it is a non-empty string, else the query text; used by `Page.SearchGuard` |
| Page.RequestQuery | frontend/app/page.tsx:28-42 | the query sent, or None when the guard returns; characterised by `Page.SearchGuard` |
| Page.Dispatched | frontend/app/page.tsx:28-34 | the state after a search event; characterised by `Page.SearchGuard` and `Page.DispatchResets` |
| Page.Typed | frontend/app/page.tsx:104 | typing replaces the query text only |
| Page.PresetChosen | frontend/app/page.tsx:58-61 | a search with the preset against the render's query text, then the query text set to the preset; characterised by `Page.PresetIsTypedSubmit` and `Page.EmptyPresetSearchesShownQuery` |
| Page.SearchResolved | frontend/app/page.tsx:44-49 | results become the response and loading ends; characterised by `Page.ResolvedShowsData` |
| Page.SearchFailed | frontend/app/page.tsx:46-49 | loading ends and nothing else changes |
| Page.SaveResolved | frontend/app/page.tsx:72-73 | an ok save sets the confirmation; characterised by `Page.SaveOutcome` |
| Page.Cleared | frontend/app/page.tsx:74 | the timer callback clears the confirmation |
| Page.SubmitDisabled | frontend/app/page.tsx:124 | disabled while loading or while the query text trims to empty; characterised by `Page.SubmitDisabledMeans` |
| Page.PresetsShown | frontend/app/page.tsx:137 | no results and not loading |
| Page.NoResultsShown | frontend/app/page.tsx:166 | no results, not loading and a non-empty query text |
| Page.SearchingShown | frontend/app/page.tsx:170 | loading |
| Page.ConfirmationShown | frontend/app/page.tsx:154 | a confirmation is held and it is not the empty string |
| Page.TrimsToEmpty | frontend/app/page.tsx:30 | the guard `!q.trim()`, also used for the submit button at line 124; characterised by `Page.TrimsToEmptyMeans` |
| Page.TrimsToEmptyMeans | frontend/app/page.tsx:30 | the guard `!q.trim()` holds exactly when every character of q is JavaScript whitespace |
| Page.Confirmation | frontend/app/page.tsx:73 | the confirmation is "Saved ", then the name, then "!" |
| Page.SubmitDisabledMeans | frontend/app/page.tsx:124 | submit is disabled iff a search is in flight or the query text trims to "" |
| Page.SearchGuard | frontend/app/page.tsx:28-42 | a search whose effective query trims to "" sends nothing and changes no field; any other search sends the effective query untrimmed |
| Page.DispatchResets | frontend/app/page.tsx:32-34 | a dispatched search sets loading, empties results and clears the confirmation, so "Searching..." shows and presets, "No results" and the confirmation do not |
| Page.PresetIsTypedSubmit | frontend/app/page.tsx:58-61 | clicking a non-empty preset equals typing it and then submitting: same request, same state |
| Page.EmptyPresetSearchesShownQuery | frontend/app/page.tsx:58-61 | clicking an empty preset sends the query text of the click's render, not the "" just set, and the field then shows "" |
| Page.PresetsAlwaysSearch | frontend/app/page.tsx:14-20 | none of the five presets is empty or blank, so clicking one always sends exactly it |
| Page.ResolvedShowsData | frontend/app/page.tsx:44-49 | on success the results become exactly the response and loading ends; presets show iff the response is empty, and "No results" iff it is empty and the query text is non-empty |
| Page.FailedSubmitShowsNoResults | frontend/app/page.tsx:46-49 | a submitted search that fails ends with empty results, loading false, and both "No results" and the presets shown |
| Page.StaleResponseWins | frontend/app/page.tsx:44-45 | with two searches in flight, the response that arrives last decides the results, even when it answers the earlier search |
| Page.SaveOutcome | frontend/app/page.tsx:72-78 | an ok save sets exactly the confirmation "Saved <name>!" and it is shown; a non-ok save changes nothing |
| Page.EarlierTimerClearsLaterConfirmation | frontend/app/page.tsx:73-74 | the first save's timer clears the second save's confirmation |
| Page.RenderConditionsAgree | frontend/app/page.tsx:137-170 | "No results" shows only where the presets do; while searching neither shows and submit is disabled |
| Page.Home.constructor | frontend/app/page.tsx:23-26 | the page starts with an empty query, no results, loading false and no confirmation |
| Page.Home.SetQuery | frontend/app/page.tsx:104 | typing replaces the query text and nothing else |
| Page.Home.HandleSearch | frontend/app/page.tsx:28-43 | performs the guard, the three resets and the request; the request and new state are those of the transition functions; the invariant is kept |
| Page.Home.HandleSubmit | frontend/app/page.tsx:53-56 | submitting is a search with no explicit argument |
| Page.Home.HandlePresetClick | frontend/app/page.tsx:58-61 | searches with the preset against the query text of the current render and sets the query text to the preset; state and request are `Page.PresetChosen`'s |
| Page.Home.OnSearchResolved | frontend/app/page.tsx:44-50 | replaces the results with the response and clears loading |
| Page.Home.OnSearchFailed | frontend/app/page.tsx:46-50 | clears loading only |
| Page.Home.HandleSave | frontend/app/page.tsx:63-71 | the save request body is the displayed record unchanged; no field changes |
| Page.Home.OnSaveResolved | frontend/app/page.tsx:72-75 | an ok response sets the confirmation and starts one clear timer; a non-ok response changes no field |
| Page.Home.OnSaveFailed | frontend/app/page.tsx:76-78 | a thrown save changes no field |
| Page.Home.OnClearTimer | frontend/app/page.tsx:74 | a firing timer clears the confirmation, whichever save set it |

## Left out

- Network I/O is not modelled. This covers `fetch`, JSON encoding and decoding, and the `res.ok` status test. Each response arrives as an event parameter instead.
- A search response that is not a list of records is not modelled. `setResults` would store a non-list and rendering would fail. The model's responses are always sequences of records.
- Real time and the event loop are not modelled. The 3000 ms `setTimeout` is the `OnClearTimer` event. Completions can arrive in any order, as long as they are outstanding.
- `console.error` and `print` diagnostics are left out because they change no state.
- JSX layout, styling and the send-arrow colour (frontend/app/page.tsx:128) are presentation.
- Two parts of the supplier card remain. Its website fallback is `Records.WebsiteLabel`. Its hand-off of the record to `onSave` is the `body == supplier` postcondition of `Page.Home.HandleSave`.
- The DuckDuckGo search tool is a foreign library. Its outcome for the search text is the `invoke` parameter. A failure while constructing the tool (backend/agent.py:11, outside the `try`) is not modelled: it escapes the agent, `/search` answers with a server error, and the page takes its search-failed path; `Agent.RunSupplierScout` always returns a result.
- The `save_supplier` and `get_suppliers` bodies are left out (backend/main.py:62-78). So are `backend/database.py` and id assignment. They are ORM behaviour outside this model.
- Pydantic validation and coercion are library behaviour and are left out. This includes dropping a client-sent `id` and turning the error record's integer score into a float.
- `load_dotenv`, the FastAPI application and the CORS middleware wiring are framework configuration, so they are left out.
- `relevance_score` is a Dafny `real`, used only as an opaque value. The error record's integer `0` is `0.0`. No floating-point behaviour is modelled.
- Characters are Unicode scalar values. JavaScript strings are UTF-16 and Python strings may hold lone surrogates; neither difference affects the whitespace sets, the separators or the literals used here.
