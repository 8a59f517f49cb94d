/**
 * The registry client: how each registry operation turns into at most one
 * HTTP request and how the response becomes its result.
 *
 * `fetch` is a parameter, `server`, that maps a request to the response it
 * gets; an operation's `Exchange` lists the requests it fetched (none when
 * a local guard or validation throws first) and its result.
 */
module RegistryClient {
  import opened Wrappers
  import opened JsValues
  import Schemas
  import ApiErrors

  const HOST := "http://localhost:8000"
  const TECHNOLOGIES_URL := HOST + "/technologies"

  const DELETE_NAME_REQUIRED := "Technology name is required for deletion"
  const UPDATE_NAME_REQUIRED := "Technology name is required for update"

  datatype HttpMethod = GET | PUT | DELETE | POST

  /** One `name=value` entry of a URL's search parameters. */
  datatype QueryPair = QueryPair(name: string, value: string)

  /** A request target: the URL without its query, and the query's entries in order. */
  datatype Url = Url(path: string, query: seq<QueryPair>)

  datatype Header = Header(name: string, value: string)

  /** A `fetch` call; the body is the value handed to `JSON.stringify`. */
  datatype HttpRequest = HttpRequest(verb: HttpMethod, url: Url, headers: seq<Header>, body: Option<Value>)

  const JSON_HEADERS := [Header("Content-Type", "application/json")]

  /** What a client operation throws: an `Error` with a message, or zod's `ZodError`. */
  datatype ClientError = Error(message: string) | ZodError(issues: seq<Schemas.Issue>)

  datatype Exchange<+T> = Exchange(fetches: seq<HttpRequest>, result: Result<T, ClientError>)

  // ---------------------------------------------------------------------------
  // getTechnologies

  /** The optional filters of `getTechnologies`; every field may be omitted. */
  datatype QueryParams = QueryParams(
    search: Option<string>,
    categories: Option<seq<string>>,
    stages: Option<seq<string>>,
    tags: Option<seq<string>>)

  function OrEmpty(values: Option<seq<string>>): seq<string> {
    if values.Some? then values.value else []
  }

  /** One entry per value, in order, all under the same name. */
  function Each(name: string, values: seq<string>): (q: seq<QueryPair>)
    ensures |q| == |values|
    ensures forall i :: 0 <= i < |values| ==> q[i] == QueryPair(name, values[i])
  {
    seq(|values|, i requires 0 <= i < |values| => QueryPair(name, values[i]))
  }

  /** The search entry, present only for a non-empty search text. */
  function SearchPart(params: QueryParams): (s: seq<QueryPair>)
    ensures s != [] <==> params.search.Some? && params.search.value != ""
    ensures s != [] ==> s == [QueryPair("search", params.search.value)]
  {
    if params.search.Some? && params.search.value != "" then [QueryPair("search", params.search.value)] else []
  }

  /** The query `getTechnologies` builds: the search, then each category, each stage and each tag. */
  function QueryPairs(params: Option<QueryParams>): (q: seq<QueryPair>)
    ensures params.None? ==> q == []
  {
    match params
    case None => []
    case Some(p) =>
      SearchPart(p) + Each("categories", OrEmpty(p.categories)) + Each("stages", OrEmpty(p.stages))
      + Each("tags", OrEmpty(p.tags))
  }

  /** The values of the entries with a given name, in order (`searchParams.getAll(name)`). */
  function ValuesOf(query: seq<QueryPair>, name: string): (vs: seq<string>)
    ensures |vs| <= |query|
  {
    if query == [] then []
    else ValuesOf(query[..|query| - 1], name)
         + (if query[|query| - 1].name == name then [query[|query| - 1].value] else [])
  }

  lemma {:induction false} ValuesOfConcat(a: seq<QueryPair>, b: seq<QueryPair>, name: string)
    ensures ValuesOf(a + b, name) == ValuesOf(a, name) + ValuesOf(b, name)
    decreases |b|
  {
    if b == [] {
      assert a + b == a;
    } else {
      assert (a + b)[..|a + b| - 1] == a + b[..|b| - 1];
      ValuesOfConcat(a, b[..|b| - 1], name);
    }
  }

  lemma {:induction false} ValuesOfEach(key: string, values: seq<string>, name: string)
    ensures ValuesOf(Each(key, values), name) == if key == name then values else []
    decreases |values|
  {
    if values != [] {
      var q := Each(key, values);
      assert q[..|q| - 1] == Each(key, values[..|values| - 1]);
      ValuesOfEach(key, values[..|values| - 1], name);
    }
  }

  /** The search part holds no category, stage or tag, and the search text only when it is non-empty. */
  lemma ValuesOfSearchPart(params: QueryParams, name: string)
    ensures ValuesOf(SearchPart(params), name) ==
      if name == "search" && params.search.Some? && params.search.value != "" then [params.search.value] else []
  {
    var s := SearchPart(params);
    if s != [] {
      assert s[..0] == [];
    }
  }

  lemma ValuesOfQuery(params: QueryParams, name: string)
    ensures ValuesOf(QueryPairs(Some(params)), name) ==
      ValuesOf(SearchPart(params), name)
      + ValuesOf(Each("categories", OrEmpty(params.categories)), name)
      + ValuesOf(Each("stages", OrEmpty(params.stages)), name)
      + ValuesOf(Each("tags", OrEmpty(params.tags)), name)
  {
    var s, c, st, t := SearchPart(params), Each("categories", OrEmpty(params.categories)),
      Each("stages", OrEmpty(params.stages)), Each("tags", OrEmpty(params.tags));
    ValuesOfConcat(s + c + st, t, name);
    ValuesOfConcat(s + c, st, name);
    ValuesOfConcat(s, c, name);
  }

  /** The four query keys are different names. */
  lemma QueryKeysDistinct()
    ensures "search" != "categories" && "search" != "stages" && "search" != "tags"
    ensures "categories" != "stages" && "categories" != "tags" && "stages" != "tags"
  {
    assert "search"[1] != "stages"[1];
  }

  /**
   * The server reads back exactly the filters given: under "search" the
   * search text when it is non-empty, and under "categories", "stages" and
   * "tags" every given value in order; nothing under any other name.
   */
  lemma QueryCarriesFilters(params: QueryParams, name: string)
    ensures ValuesOf(QueryPairs(Some(params)), name) ==
      (if name == "search" && params.search.Some? && params.search.value != "" then [params.search.value] else [])
      + (if name == "categories" then OrEmpty(params.categories) else [])
      + (if name == "stages" then OrEmpty(params.stages) else [])
      + (if name == "tags" then OrEmpty(params.tags) else [])
  {
    var cs, ss, ts := OrEmpty(params.categories), OrEmpty(params.stages), OrEmpty(params.tags);
    QueryKeysDistinct();
    ValuesOfQuery(params, name);
    ValuesOfSearchPart(params, name);
    ValuesOfEach("categories", cs, name);
    ValuesOfEach("stages", ss, name);
    ValuesOfEach("tags", ts, name);
  }

  /** Without parameters, or with all of them empty, the target has no query at all. */
  lemma EmptyParamsNoQuery(params: Option<QueryParams>)
    requires params.Some? ==>
      (params.value.search.None? || params.value.search.value == "") &&
      OrEmpty(params.value.categories) == [] && OrEmpty(params.value.stages) == [] && OrEmpty(params.value.tags) == []
    ensures QueryPairs(params) == []
  {
  }

  /** The categories run: right after the search entry. */
  lemma CategoriesRun(params: QueryParams)
    ensures var q := QueryPairs(Some(params));
      var n0, cs := |SearchPart(params)|, OrEmpty(params.categories);
      forall i :: 0 <= i < |cs| ==> q[n0 + i] == QueryPair("categories", cs[i])
  {
    var s, c := SearchPart(params), Each("categories", OrEmpty(params.categories));
    var rest := Each("stages", OrEmpty(params.stages)) + Each("tags", OrEmpty(params.tags));
    var q := QueryPairs(Some(params));
    assert q == (s + c) + rest;
    forall i | 0 <= i < |c|
      ensures q[|s| + i] == c[i]
    {
      assert q[|s| + i] == (s + c)[|s| + i];
    }
  }

  /** The stages run: right after the categories. */
  lemma StagesRun(params: QueryParams)
    ensures var q := QueryPairs(Some(params));
      var n1, ss := |SearchPart(params)| + |OrEmpty(params.categories)|, OrEmpty(params.stages);
      forall i :: 0 <= i < |ss| ==> q[n1 + i] == QueryPair("stages", ss[i])
  {
    var sc := SearchPart(params) + Each("categories", OrEmpty(params.categories));
    var st, t := Each("stages", OrEmpty(params.stages)), Each("tags", OrEmpty(params.tags));
    var q := QueryPairs(Some(params));
    assert q == (sc + st) + t;
    forall i | 0 <= i < |st|
      ensures q[|sc| + i] == st[i]
    {
      assert q[|sc| + i] == (sc + st)[|sc| + i];
    }
  }

  /** The tags run: last. */
  lemma TagsRun(params: QueryParams)
    ensures var q := QueryPairs(Some(params));
      var n2 := |SearchPart(params)| + |OrEmpty(params.categories)| + |OrEmpty(params.stages)|;
      var ts := OrEmpty(params.tags);
      forall i :: 0 <= i < |ts| ==> q[n2 + i] == QueryPair("tags", ts[i])
  {
    var scs := SearchPart(params) + Each("categories", OrEmpty(params.categories)) + Each("stages", OrEmpty(params.stages));
    var t := Each("tags", OrEmpty(params.tags));
    var q := QueryPairs(Some(params));
    assert q == scs + t;
  }

  /** The entries come in four runs: the search, then the categories, the stages and the tags. */
  lemma QueryLayout(params: QueryParams)
    ensures var q := QueryPairs(Some(params));
      var n0 := |SearchPart(params)|;
      var cs, ss, ts := OrEmpty(params.categories), OrEmpty(params.stages), OrEmpty(params.tags);
      && |q| == n0 + |cs| + |ss| + |ts|
      && (n0 == 1 ==> q[0] == QueryPair("search", params.search.value))
      && (forall i :: 0 <= i < |cs| ==> q[n0 + i] == QueryPair("categories", cs[i]))
      && (forall i :: 0 <= i < |ss| ==> q[n0 + |cs| + i] == QueryPair("stages", ss[i]))
      && (forall i :: 0 <= i < |ts| ==> q[n0 + |cs| + |ss| + i] == QueryPair("tags", ts[i]))
  {
    CategoriesRun(params);
    StagesRun(params);
    TagsRun(params);
  }

  /** `params.<key>.forEach(value => url.searchParams.append(key, value))` */
  method AppendEach(query: seq<QueryPair>, name: string, values: seq<string>) returns (result: seq<QueryPair>)
    ensures result == query + Each(name, values)
  {
    result := query;
    for i := 0 to |values|
      invariant result == query + Each(name, values[..i])
    {
      assert values[..i + 1][..i] == values[..i];
      result := result + [QueryPair(name, values[i])];
    }
    assert values[..|values|] == values;
  }

  /** The search parameters `getTechnologies` puts on the URL, step by step. */
  method BuildQuery(params: Option<QueryParams>) returns (query: seq<QueryPair>)
    ensures query == QueryPairs(params)
  {
    query := [];
    if params.Some? {
      var p := params.value;
      if p.search.Some? && p.search.value != "" {
        // `set` on a URL with no search parameters yet adds the one entry.
        query := [QueryPair("search", p.search.value)];
      }
      assert query == SearchPart(p);
      query := AppendIfAny(query, "categories", p.categories);
      query := AppendIfAny(query, "stages", p.stages);
      query := AppendIfAny(query, "tags", p.tags);
    }
  }

  /** `if (values?.length) values.forEach(...)`: nothing for an absent or empty list. */
  method AppendIfAny(query: seq<QueryPair>, name: string, values: Option<seq<string>>) returns (result: seq<QueryPair>)
    ensures result == query + Each(name, OrEmpty(values))
  {
    result := query;
    if values.Some? && |values.value| > 0 {
      result := AppendEach(query, name, values.value);
    } else {
      assert query + Each(name, OrEmpty(values)) == query;
    }
  }

  /** `GetTechnologiesResponseSchema.safeParse`, reduced to the first issue. */
  function GetTechnologiesSchema(p: Schemas.Platform): (schema: Value -> ApiErrors.SafeParse<Schemas.GetTechnologiesResponse>)
    ensures forall v :: schema(v).Success? <==> Schemas.ParseGetTechnologiesResponse(p, v, []).Valid?
    ensures forall v :: schema(v).Success? ==> schema(v).data == Schemas.ParseGetTechnologiesResponse(p, v, []).data
    ensures forall v :: schema(v).Failure? ==> schema(v).issues == [Schemas.ParseGetTechnologiesResponse(p, v, []).issue]
  {
    (v: Value) =>
      match Schemas.ParseGetTechnologiesResponse(p, v, [])
      case Valid(data) => ApiErrors.Success(data)
      case Invalid(issue) => ApiErrors.Failure([issue])
  }

  /** An error message from `handleResponse` as the operation's thrown `Error`. */
  function Thrown<T>(r: Result<T, string>): (e: Result<T, ClientError>)
    ensures r.Ok? <==> e.Ok?
    ensures r.Ok? ==> e.value == r.value
    ensures r.Err? ==> e.error == Error(r.error)
  {
    match r
    case Ok(v) => Ok(v)
    case Err(message) => Err(Error(message))
  }

  /** `getTechnologies(params)`: one GET of the registry with the built query, the response validated. */
  method GetTechnologies(p: Schemas.Platform, params: Option<QueryParams>, server: HttpRequest -> ApiErrors.Response)
    returns (ex: Exchange<Schemas.GetTechnologiesResponse>)
    ensures |ex.fetches| == 1
    ensures ex.fetches[0] == HttpRequest(GET, Url(TECHNOLOGIES_URL, QueryPairs(params)), [], None)
    ensures ex.result == Thrown(ApiErrors.HandleResponse(server(ex.fetches[0]), GetTechnologiesSchema(p)))
  {
    var query := BuildQuery(params);
    var request := HttpRequest(GET, Url(TECHNOLOGIES_URL, query), [], None);
    var response := server(request);
    ex := Exchange([request], Thrown(ApiErrors.HandleResponse(response, GetTechnologiesSchema(p))));
  }

  // ---------------------------------------------------------------------------
  // The name guard

  /** ECMAScript's WhiteSpace and LineTerminator code points, which `trim` removes. */
  predicate IsJsWhiteSpace(c: char) {
    || c == '\U{0009}' || c == '\U{000B}' || c == '\U{000C}' || c == '\U{0020}' || c == '\U{00A0}'
    || c == '\U{FEFF}' || c == '\U{1680}' || ('\U{2000}' <= c <= '\U{200A}') || c == '\U{202F}'
    || c == '\U{205F}' || c == '\U{3000}'
    || c == '\U{000A}' || c == '\U{000D}' || c == '\U{2028}' || c == '\U{2029}'
  }

  /** `s` without its leading whitespace. */
  function TrimStart(s: string): (r: string)
    ensures |r| <= |s| && r == s[|s| - |r|..]
    ensures forall i :: 0 <= i < |s| - |r| ==> IsJsWhiteSpace(s[i])
    ensures r != [] ==> !IsJsWhiteSpace(r[0])
    ensures r == [] <==> forall i :: 0 <= i < |s| ==> IsJsWhiteSpace(s[i])
  {
    if s != [] && IsJsWhiteSpace(s[0]) then TrimStart(s[1..]) else s
  }

  /** `s` without its trailing whitespace. */
  function TrimEnd(s: string): (r: string)
    ensures |r| <= |s| && r == s[..|r|]
    ensures forall i :: |r| <= i < |s| ==> IsJsWhiteSpace(s[i])
    ensures r != [] ==> !IsJsWhiteSpace(r[|r| - 1])
    ensures r == [] <==> forall i :: 0 <= i < |s| ==> IsJsWhiteSpace(s[i])
  {
    if s != [] && IsJsWhiteSpace(s[|s| - 1]) then TrimEnd(s[..|s| - 1]) else s
  }

  /** `s.trim()` */
  function Trim(s: string): (r: string)
    ensures r != [] ==> !IsJsWhiteSpace(r[0]) && !IsJsWhiteSpace(r[|r| - 1])
  {
    TrimEnd(TrimStart(s))
  }

  /** `!name || name.trim().length === 0` */
  predicate IsBlank(name: string) {
    name == [] || |Trim(name)| == 0
  }

  /** A name is blank exactly when it is empty or made only of whitespace. */
  lemma BlankIffAllWhiteSpace(name: string)
    ensures IsBlank(name) <==> forall i :: 0 <= i < |name| ==> IsJsWhiteSpace(name[i])
  {
    var t := TrimStart(name);
    if t != [] {
      assert !IsJsWhiteSpace(t[0]);
      assert Trim(name) != [];
    }
  }

  /** A whitespace-only name passes the schemas' name check, yet the delete and update guards refuse it. */
  lemma WhitespaceNameGuarded(p: Schemas.Platform, name: string, path: seq<Schemas.PathItem>)
    requires |name| >= 1 && forall i :: 0 <= i < |name| ==> IsJsWhiteSpace(name[i])
    ensures Schemas.ParseName(p, Str(name), path).Valid?
    ensures IsBlank(name)
    ensures forall server :: DeleteTechnology(p, name, server).fetches == []
    ensures forall server, request :: UpdateTechnology(p, name, request, server).fetches == []
  {
    BlankIffAllWhiteSpace(name);
  }

  // ---------------------------------------------------------------------------
  // encodeURIComponent

  /** The characters `encodeURIComponent` leaves as they are (ECMA-262, section 19.2.6.5). */
  predicate IsUnreserved(c: char) {
    ('a' <= c <= 'z') || ('A' <= c <= 'Z') || ('0' <= c <= '9') || c in "-_.!~*'()"
  }

  function UpperHexDigit(d: nat): (c: char)
    requires d < 16
    ensures ('0' <= c <= '9') || ('A' <= c <= 'F')
  {
    if d < 10 then ('0' as int + d) as char else ('A' as int + d - 10) as char
  }

  /** `%XY` for one octet (section 2.1 of RFC 3986, uppercase digits). */
  function PercentOctet(b: nat): (s: string)
    requires b < 256
    ensures |s| == 3 && s[0] == '%'
    ensures s[1] == UpperHexDigit(b / 16) && s[2] == UpperHexDigit(b % 16)
  {
    ['%', UpperHexDigit(b / 16), UpperHexDigit(b % 16)]
  }

  /** The UTF-8 octets of a code point (RFC 3629). */
  function Utf8(c: char): (octets: seq<nat>)
    ensures 1 <= |octets| <= 4
    ensures forall i :: 0 <= i < |octets| ==> octets[i] < 256
    ensures (c as int < 0x80) <==> octets == [c as int]
  {
    var n := c as int;
    if n < 0x80 then [n]
    else if n < 0x800 then [0xC0 + n / 0x40, 0x80 + n % 0x40]
    else if n < 0x1_0000 then [0xE0 + n / 0x1000, 0x80 + (n / 0x40) % 0x40, 0x80 + n % 0x40]
    else [0xF0 + n / 0x4_0000, 0x80 + (n / 0x1000) % 0x40, 0x80 + (n / 0x40) % 0x40, 0x80 + n % 0x40]
  }

  function PercentOctets(octets: seq<nat>): (s: string)
    requires forall i :: 0 <= i < |octets| ==> octets[i] < 256
    ensures |s| == 3 * |octets|
    ensures octets != [] ==> s[..3] == PercentOctet(octets[0])
  {
    if octets == [] then [] else PercentOctet(octets[0]) + PercentOctets(octets[1..])
  }

  /** One character: itself when unreserved, else the escapes of its UTF-8 octets. */
  function EncodeChar(c: char): (s: string)
    ensures s == [c] <==> IsUnreserved(c)
    ensures !IsUnreserved(c) ==> |s| == 3 * |Utf8(c)| && s[0] == '%'
    ensures forall i :: 0 <= i < |s| ==> IsUnreserved(s[i]) || s[i] == '%'
  {
    if IsUnreserved(c) then [c]
    else
      PercentOctetsSafe(Utf8(c));
      PercentOctets(Utf8(c))
  }

  /** `encodeURIComponent(s)` */
  function EncodeURIComponent(s: string): (r: string)
    ensures |r| >= |s|
  {
    if s == [] then [] else EncodeChar(s[0]) + EncodeURIComponent(s[1..])
  }

  lemma {:induction false} EncodeConcat(a: string, b: string)
    ensures EncodeURIComponent(a + b) == EncodeURIComponent(a) + EncodeURIComponent(b)
  {
    if a == [] {
      assert a + b == b;
    } else {
      assert (a + b)[1..] == a[1..] + b;
      EncodeConcat(a[1..], b);
    }
  }

  /** A space becomes `%20`. */
  lemma SpaceEncoding()
    ensures EncodeURIComponent(" ") == "%20"
  {
  }

  /** A string of unreserved characters is its own encoding. */
  lemma {:induction false} UnreservedUnchanged(s: string)
    requires forall i :: 0 <= i < |s| ==> IsUnreserved(s[i])
    ensures EncodeURIComponent(s) == s
  {
    if s != [] {
      UnreservedUnchanged(s[1..]);
    }
  }

  /** An unreserved word and a space: only the space is escaped. */
  lemma EncodeSpaced(a: string, b: string)
    requires forall i :: 0 <= i < |a| ==> IsUnreserved(a[i])
    ensures EncodeURIComponent(a + " " + b) == a + "%20" + EncodeURIComponent(b)
  {
    UnreservedUnchanged(a);
    SpaceEncoding();
    EncodeConcat(a + " ", b);
    EncodeConcat(a, " ");
  }

  function HexValue(c: char): nat {
    if '0' <= c <= '9' then c as int - '0' as int
    else if 'A' <= c <= 'F' then c as int - 'A' as int + 10
    else 0
  }

  /** Percent-decoding of a string whose escapes are all single octets below 0x80. */
  function DecodeAscii(s: string): string
  {
    if |s| >= 3 && s[0] == '%' then
      [(16 * HexValue(s[1]) + HexValue(s[2])) as char] + DecodeAscii(s[3..])
    else if s == [] then []
    else [s[0]] + DecodeAscii(s[1..])
  }

  lemma UpperHexValue(d: nat)
    requires d < 16
    ensures HexValue(UpperHexDigit(d)) == d
  {
  }

  /** Decoding undoes the encoding of one ASCII character. */
  lemma DecodeAsciiChar(c: char, rest: string)
    requires c as int < 0x80
    ensures DecodeAscii(EncodeChar(c) + rest) == [c] + DecodeAscii(rest)
  {
    if IsUnreserved(c) {
      assert ([c] + rest)[1..] == rest;
    } else {
      var n := c as int;
      var e := PercentOctet(n);
      assert EncodeChar(c) == e by {
        assert PercentOctets([n]) == e + PercentOctets([]);
      }
      assert (e + rest)[3..] == rest;
      UpperHexValue(n / 16);
      UpperHexValue(n % 16);
      assert 16 * HexValue(e[1]) + HexValue(e[2]) == n;
    }
  }

  /** For an ASCII name, decoding the encoded path segment gives back the name. */
  lemma {:induction false} AsciiEncodingRoundTrip(s: string)
    requires forall i :: 0 <= i < |s| ==> s[i] as int < 0x80
    ensures DecodeAscii(EncodeURIComponent(s)) == s
  {
    if s != [] {
      var c := s[0];
      AsciiEncodingRoundTrip(s[1..]);
      var rest := EncodeURIComponent(s[1..]);
      assert EncodeURIComponent(s) == EncodeChar(c) + rest;
      DecodeAsciiChar(c, rest);
    }
  }

  /** The encoding of any name uses only unreserved characters and `%`. */
  lemma {:induction false} EncodingIsUriSafe(s: string)
    ensures forall i :: 0 <= i < |EncodeURIComponent(s)| ==>
      var c := EncodeURIComponent(s)[i];
      IsUnreserved(c) || c == '%'
  {
    if s != [] {
      EncodingIsUriSafe(s[1..]);
    }
  }

  lemma {:induction false} PercentOctetsSafe(octets: seq<nat>)
    requires forall i :: 0 <= i < |octets| ==> octets[i] < 256
    ensures forall i :: 0 <= i < |PercentOctets(octets)| ==>
      IsUnreserved(PercentOctets(octets)[i]) || PercentOctets(octets)[i] == '%'
  {
    if octets != [] {
      PercentOctetsSafe(octets[1..]);
    }
  }

  /** The target of a delete or an update: the registry URL, a slash, then the encoded name and no query. */
  function TechnologyUrl(name: string): (u: Url)
    ensures u.query == []
    ensures var n := |TECHNOLOGIES_URL| + 1;
      && |u.path| >= n
      && u.path[..n] == TECHNOLOGIES_URL + "/"
      && u.path[n..] == EncodeURIComponent(name)
      && forall i :: n <= i < |u.path| ==> IsUnreserved(u.path[i]) || u.path[i] == '%'
  {
    EncodingIsUriSafe(name);
    Url(TECHNOLOGIES_URL + "/" + EncodeURIComponent(name), [])
  }

  /** The names `.` and `..` are not blank and are not escaped: they reach the path as dot-segments. */
  lemma DotNamesUnescaped()
    ensures !IsBlank(".") && EncodeURIComponent(".") == "."
    ensures !IsBlank("..") && EncodeURIComponent("..") == ".."
  {
    UnreservedUnchanged(".");
    UnreservedUnchanged("..");
    assert Trim(".") == ".";
    assert Trim("..") == "..";
  }

  // ---------------------------------------------------------------------------
  // Request bodies

  function NullableString(s: Option<string>): Value {
    if s.Some? then Str(s.value) else Null
  }

  /** The validated add request, property by property in schema order. */
  function AddRequestBody(r: Schemas.AddTechnologyRequest): (v: Value)
    ensures v.Object?
    ensures Get(v, "name") == Str(r.name) && Get(v, "category") == Str(r.category) && Get(v, "stage") == Str(r.stage)
    ensures Get(v, "tags") == StringArray(r.tags) && Get(v, "detailsPage") == NullableString(r.detailsPage)
  {
    AddBodyFields(Str(r.name), Str(r.category), Str(r.stage), StringArray(r.tags), NullableString(r.detailsPage));
    Object([
      Field("name", Str(r.name)),
      Field("category", Str(r.category)),
      Field("stage", Str(r.stage)),
      Field("tags", StringArray(r.tags)),
      Field("detailsPage", NullableString(r.detailsPage))])
  }

  function StageTransitionBody(t: Option<Schemas.NewStageTransition>): (v: Value)
    ensures v == Null <==> t.None?
    ensures t.Some? ==>
      v.Object? && Get(v, "newStage") == Str(t.value.newStage) && Get(v, "adrLink") == Str(t.value.adrLink)
  {
    if t.Some? then
      var fs := [Field("newStage", Str(t.value.newStage)), Field("adrLink", Str(t.value.adrLink))];
      LookupAt(fs, 0);
      LookupAt(fs, 1);
      Object(fs)
    else Null
  }

  /** The validated update request, property by property in schema order. */
  function UpdateRequestBody(r: Schemas.UpdateTechnologyRequest): (v: Value)
    ensures v.Object?
    ensures Get(v, "category") == Str(r.category) && Get(v, "tags") == StringArray(r.tags)
    ensures Get(v, "detailsPage") == NullableString(r.detailsPage)
    ensures Get(v, "stageTransition") == StageTransitionBody(r.stageTransition)
  {
    var fs := [
      Field("category", Str(r.category)),
      Field("tags", StringArray(r.tags)),
      Field("detailsPage", NullableString(r.detailsPage)),
      Field("stageTransition", StageTransitionBody(r.stageTransition))];
    LookupAt(fs, 0);
    LookupAt(fs, 1);
    LookupAt(fs, 2);
    LookupAt(fs, 3);
    Object(fs)
  }

  /** An add request read from any object whose properties are those of the request. */
  lemma AddRequestFrom(p: Schemas.Platform, v: Value, r: Schemas.AddTechnologyRequest)
    requires |r.name| >= 1 && (r.detailsPage.Some? ==> Schemas.StableUrl(p, r.detailsPage.value))
    requires v.Object?
    requires Get(v, "name") == Str(r.name) && Get(v, "category") == Str(r.category) && Get(v, "stage") == Str(r.stage)
    requires Get(v, "tags") == StringArray(r.tags) && Get(v, "detailsPage") == NullableString(r.detailsPage)
    ensures Schemas.ParseAddTechnologyRequest(p, v, []) == Schemas.Valid(r)
  {
    Schemas.StringArrayParses(p, r.tags, [Schemas.Key("tags")]);
    var parsed := Schemas.ParseAddTechnologyRequest(p, v, []);
    assert Get(v, "tags") != Undefined;
    assert Get(v, "detailsPage") in {Undefined, Null} <==> r.detailsPage.None?;
    assert parsed.Valid?;
    assert parsed.data.name == r.name && parsed.data.category == r.category && parsed.data.stage == r.stage;
    assert parsed.data.tags == r.tags;
    assert parsed.data.detailsPage == r.detailsPage;
  }

  /** Each property of an add body is found under its own key. */
  lemma AddBodyFields(name: Value, category: Value, stage: Value, tags: Value, detailsPage: Value)
    ensures var v := Object([
        Field("name", name), Field("category", category), Field("stage", stage),
        Field("tags", tags), Field("detailsPage", detailsPage)]);
      && Get(v, "name") == name && Get(v, "category") == category && Get(v, "stage") == stage
      && Get(v, "tags") == tags && Get(v, "detailsPage") == detailsPage
  {
    var fs := [
        Field("name", name), Field("category", category), Field("stage", stage),
        Field("tags", tags), Field("detailsPage", detailsPage)];
    assert Get(Object(fs), "name") == name by { LookupAt(fs, 0); }
    assert Get(Object(fs), "category") == category by { LookupAt(fs, 1); }
    assert Get(Object(fs), "stage") == stage by { LookupAt(fs, 2); }
    assert Get(Object(fs), "tags") == tags by {
      assert "name"[0] != "tags"[0];
      LookupAt(fs, 3);
    }
    assert Get(Object(fs), "detailsPage") == detailsPage by { LookupAt(fs, 4); }
  }

  /** A sent add body passes the schema again and yields the same request. */
  lemma AddBodyRevalidates(p: Schemas.Platform, r: Schemas.AddTechnologyRequest)
    requires |r.name| >= 1 && (r.detailsPage.Some? ==> Schemas.StableUrl(p, r.detailsPage.value))
    ensures Schemas.ParseAddTechnologyRequest(p, AddRequestBody(r), []) == Schemas.Valid(r)
  {
    AddRequestFrom(p, AddRequestBody(r), r);
  }

  /** The stage transition of an update request, read from the property under its key. */
  lemma StageTransitionFrom(p: Schemas.Platform, t: Value, path: seq<Schemas.PathItem>,
                            expected: Option<Schemas.NewStageTransition>)
    requires expected.Some? ==> Schemas.StableUrl(p, expected.value.adrLink)
    requires t == StageTransitionBody(expected)
    requires expected.Some? ==>
      Get(t, "newStage") == Str(expected.value.newStage) && Get(t, "adrLink") == Str(expected.value.adrLink)
    ensures t == Null <==> expected.None?
    ensures expected.Some? ==> Schemas.ParseNewStageTransition(p, t, path) == Schemas.Valid(expected.value)
  {
  }

  /** An update request read from any object whose properties are those of the request. */
  lemma UpdateRequestFrom(p: Schemas.Platform, v: Value, r: Schemas.UpdateTechnologyRequest)
    requires r.detailsPage.Some? ==> Schemas.StableUrl(p, r.detailsPage.value)
    requires v.Object?
    requires Get(v, "category") == Str(r.category) && Get(v, "tags") == StringArray(r.tags)
    requires Get(v, "detailsPage") == NullableString(r.detailsPage)
    requires Get(v, "stageTransition") == Null <==> r.stageTransition.None?
    requires r.stageTransition.Some? ==>
      Schemas.ParseNewStageTransition(p, Get(v, "stageTransition"), [Schemas.Key("stageTransition")])
        == Schemas.Valid(r.stageTransition.value)
    ensures Schemas.ParseUpdateTechnologyRequest(p, v, []) == Schemas.Valid(r)
  {
    Schemas.StringArrayParses(p, r.tags, [Schemas.Key("tags")]);
    var parsed := Schemas.ParseUpdateTechnologyRequest(p, v, []);
    assert parsed.Valid?;
    assert parsed.data.category == r.category && parsed.data.tags == r.tags;
    assert parsed.data.detailsPage == r.detailsPage;
    assert parsed.data.stageTransition == r.stageTransition;
  }

  /** A sent update body passes the schema again and yields the same request. */
  lemma UpdateBodyRevalidates(p: Schemas.Platform, r: Schemas.UpdateTechnologyRequest)
    requires r.detailsPage.Some? ==> Schemas.StableUrl(p, r.detailsPage.value)
    requires r.stageTransition.Some? ==> Schemas.StableUrl(p, r.stageTransition.value.adrLink)
    ensures Schemas.ParseUpdateTechnologyRequest(p, UpdateRequestBody(r), []) == Schemas.Valid(r)
  {
    var v := UpdateRequestBody(r);
    StageTransitionFrom(p, Get(v, "stageTransition"), [Schemas.Key("stageTransition")], r.stageTransition);
    UpdateRequestFrom(p, v, r);
  }

  /** When zod's URLs settle, the body sent for any validated add request passes the schema again unchanged. */
  lemma AddValidatedRevalidates(p: Schemas.Platform, request: Value)
    requires Schemas.ParseAddTechnologyRequest(p, request, []).Valid?
    ensures Schemas.UrlsSettle(p) ==>
      var r := Schemas.ParseAddTechnologyRequest(p, request, []).data;
      Schemas.ParseAddTechnologyRequest(p, AddRequestBody(r), []) == Schemas.Valid(r)
  {
    if Schemas.UrlsSettle(p) {
      var r := Schemas.ParseAddTechnologyRequest(p, request, []).data;
      if r.detailsPage.Some? {
        assert p.isUrl(Get(request, "detailsPage").s);
      }
      AddBodyRevalidates(p, r);
    }
  }

  /** When zod's URLs settle, the body sent for any validated update request passes the schema again unchanged. */
  lemma UpdateValidatedRevalidates(p: Schemas.Platform, request: Value)
    requires Schemas.ParseUpdateTechnologyRequest(p, request, []).Valid?
    ensures Schemas.UrlsSettle(p) ==>
      var r := Schemas.ParseUpdateTechnologyRequest(p, request, []).data;
      Schemas.ParseUpdateTechnologyRequest(p, UpdateRequestBody(r), []) == Schemas.Valid(r)
  {
    if Schemas.UrlsSettle(p) {
      var r := Schemas.ParseUpdateTechnologyRequest(p, request, []).data;
      if r.detailsPage.Some? {
        assert p.isUrl(Get(request, "detailsPage").s);
      }
      if r.stageTransition.Some? {
        var t := Get(request, "stageTransition");
        assert p.isUrl(Get(t, "adrLink").s);
      }
      UpdateBodyRevalidates(p, r);
    }
  }

  // ---------------------------------------------------------------------------
  // addTechnology, deleteTechnology, updateTechnology

  /** The PUT of a validated add request. */
  function AddRequest(r: Schemas.AddTechnologyRequest): HttpRequest {
    HttpRequest(PUT, Url(TECHNOLOGIES_URL, []), JSON_HEADERS, Some(AddRequestBody(r)))
  }

  /** `addTechnology(request)`: validate (with defaults), then one PUT of the validated request. */
  function AddTechnology(p: Schemas.Platform, request: Value, server: HttpRequest -> ApiErrors.Response): (ex: Exchange<()>)
    ensures ex.fetches == [] <==> Schemas.ParseAddTechnologyRequest(p, request, []).Invalid?
    ensures ex.fetches == [] ==>
      ex.result == Err(ZodError([Schemas.ParseAddTechnologyRequest(p, request, []).issue]))
    ensures ex.fetches != [] ==>
      var validated := Schemas.ParseAddTechnologyRequest(p, request, []).data;
      && ex.fetches == [AddRequest(validated)]
      && (Schemas.UrlsSettle(p) ==>
            Schemas.ParseAddTechnologyRequest(p, ex.fetches[0].body.value, []) == Schemas.Valid(validated))
      && ex.result == Thrown(ApiErrors.HandleVoidResponse(p, server(ex.fetches[0])))
  {
    match Schemas.ParseAddTechnologyRequest(p, request, [])
    case Invalid(issue) => Exchange([], Err(ZodError([issue])))
    case Valid(validated) =>
      AddValidatedRevalidates(p, request);
      var http := AddRequest(validated);
      Exchange([http], Thrown(ApiErrors.HandleVoidResponse(p, server(http))))
  }

  /** `deleteTechnology(name)`: refuse a blank name, else one DELETE of the encoded name. */
  function DeleteTechnology(p: Schemas.Platform, name: string, server: HttpRequest -> ApiErrors.Response): (ex: Exchange<()>)
    ensures ex.fetches == [] <==> IsBlank(name)
    ensures IsBlank(name) ==> ex.result == Err(Error(DELETE_NAME_REQUIRED))
    ensures !IsBlank(name) ==>
      && ex.fetches == [HttpRequest(DELETE, TechnologyUrl(name), [], None)]
      && ex.result == Thrown(ApiErrors.HandleVoidResponse(p, server(ex.fetches[0])))
  {
    if IsBlank(name) then Exchange([], Err(Error(DELETE_NAME_REQUIRED)))
    else
      var http := HttpRequest(DELETE, TechnologyUrl(name), [], None);
      Exchange([http], Thrown(ApiErrors.HandleVoidResponse(p, server(http))))
  }

  /** `updateTechnology(name, request)`: the name guard, then validation, then one POST. */
  function UpdateTechnology(p: Schemas.Platform, name: string, request: Value, server: HttpRequest -> ApiErrors.Response)
    : (ex: Exchange<()>)
    ensures |ex.fetches| <= 1
    ensures IsBlank(name) ==> ex == Exchange([], Err(Error(UPDATE_NAME_REQUIRED)))
    ensures !IsBlank(name) && Schemas.ParseUpdateTechnologyRequest(p, request, []).Invalid? ==>
      ex == Exchange([], Err(ZodError([Schemas.ParseUpdateTechnologyRequest(p, request, []).issue])))
    ensures ex.fetches != [] <==> !IsBlank(name) && Schemas.ParseUpdateTechnologyRequest(p, request, []).Valid?
    ensures ex.fetches != [] ==>
      var validated := Schemas.ParseUpdateTechnologyRequest(p, request, []).data;
      && ex.fetches[0] == HttpRequest(POST, TechnologyUrl(name), JSON_HEADERS, Some(UpdateRequestBody(validated)))
      && (Schemas.UrlsSettle(p) ==>
            Schemas.ParseUpdateTechnologyRequest(p, ex.fetches[0].body.value, []) == Schemas.Valid(validated))
      && ex.result == Thrown(ApiErrors.HandleVoidResponse(p, server(ex.fetches[0])))
  {
    if IsBlank(name) then Exchange([], Err(Error(UPDATE_NAME_REQUIRED)))
    else
      match Schemas.ParseUpdateTechnologyRequest(p, request, [])
      case Invalid(issue) => Exchange([], Err(ZodError([issue])))
      case Valid(validated) =>
        UpdateValidatedRevalidates(p, request);
        var http := HttpRequest(POST, TechnologyUrl(name), JSON_HEADERS, Some(UpdateRequestBody(validated)));
        Exchange([http], Thrown(ApiErrors.HandleVoidResponse(p, server(http))))
  }
}
