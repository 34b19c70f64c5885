/** The supplier-scout agent: it builds a web-search string from the user's
    query, hands it to an external search tool, and shapes the tool's raw
    text into supplier records. The search tool is a parameter: its outcome
    for a given search string is either a failure or the raw result text. */
module Agent {
  import opened Wrappers
  import opened Records

  datatype SearchOutcome = Fail | Ok(raw: string)

  const SearchPrefix: string := "suppliers for "
  const SearchSuffix: string := " contact info location"

  /** The text sent to the search tool: the query, unaltered and untrimmed,
      between a fixed prefix and a fixed suffix. */
  function SearchString(query: string): (r: string)
    ensures |r| == |SearchPrefix| + |query| + |SearchSuffix|
    ensures r[..|SearchPrefix|] == SearchPrefix
    ensures r[|SearchPrefix|..|r| - |SearchSuffix|] == query
    ensures r[|r| - |SearchSuffix|..] == SearchSuffix
  {
    SearchPrefix + query + SearchSuffix
  }

  /** Distinct queries give distinct search strings, so the tool always sees
      which query it is answering. */
  lemma SearchStringInjective(q1: string, q2: string)
    requires SearchString(q1) == SearchString(q2)
    ensures q1 == q2
  {
  }

  function Min(a: int, b: int): int { if a <= b then a else b }

  /** Python's `s[start:stop]` for non-negative bounds: both bounds are
      clamped to the length of `s`, and an empty range gives "". */
  function Slice(s: string, start: nat, stop: nat): (r: string)
    ensures |r| == if Min(stop, |s|) <= start then 0 else Min(stop, |s|) - start
    ensures start <= |s| ==> r == s[start..][..|r|]
  {
    var hi := Min(stop, |s|);
    if hi <= start then "" else s[start..hi]
  }

  const NotesLimit: nat := 200
  const Ellipsis: string := "..."

  /** The single record returned when the search tool fails. */
  const ErrorRecord: Supplier :=
    Supplier(None, "Error", "", 0.0, "Search failed.")

  /** The first record of a successful search. */
  function TopResult(query: string, raw: string): Supplier {
    Supplier(None, "Top Result for " + query, "https://example.com", 0.95,
             Slice(raw, 0, NotesLimit) + Ellipsis)
  }

  /** The second record of a successful search. */
  function Alternative(raw: string): Supplier {
    Supplier(None, "Alternative Supplier", "https://supplier-b.com", 0.88,
             if |raw| > NotesLimit then Slice(raw, NotesLimit, 2 * NotesLimit) + Ellipsis
             else "Good alternative.")
  }

  /** What the agent returns for `query` once the search tool has answered
      with `outcome`. */
  function ScoutResults(query: string, outcome: SearchOutcome): (r: seq<Supplier>)
    ensures outcome.Fail? ==> r == [ErrorRecord]
    ensures outcome.Ok? ==> |r| == 2
    ensures forall i :: 0 <= i < |r| ==> r[i].id.None?
  {
    match outcome
    case Fail => [ErrorRecord]
    case Ok(raw) => [TopResult(query, raw), Alternative(raw)]
  }

  /** The first record of a successful search is named after the query and
      carries the first at most 200 characters of the raw text, followed by
      an ellipsis, as its notes. */
  lemma TopResultNotes(query: string, raw: string)
    ensures var r := ScoutResults(query, Ok(raw));
      var n := Min(|raw|, NotesLimit);
      && r[0].name == "Top Result for " + query
      && |r[0].notes| == n + 3
      && r[0].notes[..n] == raw[..n]
      && r[0].notes[n..] == Ellipsis
  {
  }

  /** The second record's notes continue the raw text from character 200 up
      to at most character 400, followed by an ellipsis, when the raw text is
      longer than 200 characters; otherwise they are a fixed phrase. */
  lemma AlternativeNotes(query: string, raw: string)
    ensures var r := ScoutResults(query, Ok(raw));
      && r[1].name == "Alternative Supplier"
      && (|raw| <= NotesLimit ==> r[1].notes == "Good alternative.")
      && (|raw| > NotesLimit ==>
            var n := Min(|raw|, 2 * NotesLimit) - NotesLimit;
            && 0 < n <= NotesLimit
            && |r[1].notes| == n + 3
            && r[1].notes[..n] == raw[NotesLimit..NotesLimit + n]
            && r[1].notes[n..] == Ellipsis)
  {
  }

  /** The websites and scores of a successful search are fixed, whatever the
      query and the raw text: "https://example.com" scored 0.95, then
      "https://supplier-b.com" scored 0.88. */
  lemma FixedWebsitesAndScores(q1: string, raw1: string, q2: string, raw2: string)
    ensures var r1, r2 := ScoutResults(q1, Ok(raw1)), ScoutResults(q2, Ok(raw2));
      && (forall i :: 0 <= i < 2 ==>
            r1[i].website == r2[i].website && r1[i].relevanceScore == r2[i].relevanceScore)
      && r1[0].website == "https://example.com" && r1[0].relevanceScore == 0.95
      && r1[1].website == "https://supplier-b.com" && r1[1].relevanceScore == 0.88
  {
  }

  /** The agent itself: one call of the search tool with the search string,
      then either the error record or two records appended in turn. */
  method RunSupplierScout(query: string, invoke: string -> SearchOutcome)
    returns (results: seq<Supplier>)
    ensures results == ScoutResults(query, invoke(SearchString(query)))
  {
    var searchQuery := SearchString(query);
    var outcome := invoke(searchQuery);
    if outcome.Fail? {
      return [ErrorRecord];
    }
    var raw := outcome.raw;
    results := [];
    results := results + [TopResult(query, raw)];
    results := results + [Alternative(raw)];
  }
}
