/** The HTTP service: the list of origins allowed by its CORS policy, the
    shapes of its request and response bodies, and the search endpoint. */
module Server {
  import opened Wrappers
  import opened Text
  import opened Records
  import Agent

  /** The value used when the CORS_ORIGINS environment variable is unset. */
  const DefaultOrigins: string := "http://localhost:3000"

  /** The allowed origins for the value of CORS_ORIGINS: "*" on its own
      allows every origin; any other value is a comma-separated list whose
      pieces are stripped of surrounding whitespace. */
  function ParseOrigins(s: string): (origins: seq<string>)
    ensures s == "*" ==> origins == ["*"]
    ensures s != "*" ==> |origins| == Occurrences(s, ',') + 1
    ensures s != "*" ==> forall i :: 0 <= i < |origins| ==>
      origins[i] == Trim(Split(s, ',')[i], PyWhitespace)
    ensures forall i :: 0 <= i < |origins| ==>
      IsTrimmed(origins[i], PyWhitespace) && ',' !in origins[i]
  {
    if s == "*" then ["*"]
    else
      var pieces := Split(s, ',');
      TrimAllKeepOut(pieces, PyWhitespace, ',');
      seq(|pieces|, i requires 0 <= i < |pieces| => Trim(pieces[i], PyWhitespace))
  }

  /** The origins for the environment: `env` is the variable's value, or
      None when it is unset. */
  function CorsOrigins(env: Option<string>): (origins: seq<string>)
    ensures env.None? ==> origins == [DefaultOrigins]
    ensures env.Some? ==> origins == ParseOrigins(env.value)
  {
    var s := env.GetOr(DefaultOrigins);
    DefaultOriginsParsed();
    ParseOrigins(s)
  }

  /** A value other than "*" without commas and without surrounding
      whitespace is its own only origin. */
  lemma SingleOrigin(s: string)
    requires s != "*" && ',' !in s && IsTrimmed(s, PyWhitespace)
    ensures ParseOrigins(s) == [s]
  {
    SplitWithoutSep(s, ',');
    assert [] + s + [] == s;
    TrimUnique([], s, [], PyWhitespace);
  }

  /** The default value parses to itself as the only origin. */
  lemma DefaultOriginsParsed()
    ensures ParseOrigins(DefaultOrigins) == [DefaultOrigins]
  {
    var s := DefaultOrigins;
    assert ',' !in s;
    assert s[0] == 'h' && s[|s| - 1] == '0';
    SingleOrigin(s);
  }

  /** An empty variable gives one empty origin. */
  lemma EmptyOriginsParsed()
    ensures ParseOrigins("") == [""]
  {
  }

  /** A comma-separated list whose pieces carry no surrounding whitespace
      (and is not "*") parses into exactly those pieces, in order. */
  lemma {:induction false} ParseJoinedOrigins(pieces: seq<string>)
    requires |pieces| >= 1
    requires forall i :: 0 <= i < |pieces| ==>
      ',' !in pieces[i] && IsTrimmed(pieces[i], PyWhitespace)
    requires Join(pieces, ',') != "*"
    ensures ParseOrigins(Join(pieces, ',')) == pieces
  {
    SplitJoin(pieces, ',');
    var origins := ParseOrigins(Join(pieces, ','));
    forall i | 0 <= i < |pieces| ensures origins[i] == pieces[i] {
      assert [] + pieces[i] + [] == pieces[i];
      TrimUnique([], pieces[i], [], PyWhitespace);
    }
  }

  /** Joining the parsed origins of a list without whitespace gives back the
      list. */
  lemma ParsedOriginsRejoin(s: string)
    requires s != "*"
    requires forall i :: 0 <= i < |s| ==> s[i] !in PyWhitespace
    ensures Join(ParseOrigins(s), ',') == s
  {
    var pieces := Split(s, ',');
    var origins := ParseOrigins(s);
    forall i | 0 <= i < |pieces| ensures origins[i] == pieces[i] {
      if pieces[i] != [] {
        SplitKeeps(s, ',', i, pieces[i][0]);
        SplitKeeps(s, ',', i, pieces[i][|pieces[i]| - 1]);
      }
      assert IsTrimmed(pieces[i], PyWhitespace);
      assert [] + pieces[i] + [] == pieces[i];
      TrimUnique([], pieces[i], [], PyWhitespace);
    }
    assert origins == pieces;
    JoinSplit(s, ',');
  }

  /** The body of a search request. */
  datatype SearchRequest = SearchRequest(query: string)

  /** The body of a save request: only the name is required. */
  datatype SupplierCreate = SupplierCreate(
    name: string,
    website: Option<string>,
    relevanceScore: Option<real>,
    notes: Option<string>)

  /** The saved supplier as the service returns it: the create fields plus
      the id the store assigned. */
  datatype SupplierResponse = SupplierResponse(id: int, fields: SupplierCreate)

  /** A save request that gives only the name: every other field takes its
      declared default. */
  function CreateWithDefaults(name: string): (c: SupplierCreate)
    ensures c.name == name
    ensures c.website.None? && c.notes.None?
    ensures c.relevanceScore == Some(0.0)
  {
    SupplierCreate(name, None, Some(0.0), None)
  }

  /** The search endpoint returns the agent's result unchanged. */
  method SearchSuppliers(request: SearchRequest, invoke: string -> Agent.SearchOutcome)
    returns (results: seq<Supplier>)
    ensures results == Agent.ScoutResults(request.query, invoke(Agent.SearchString(request.query)))
  {
    results := Agent.RunSupplierScout(request.query, invoke);
  }
}
