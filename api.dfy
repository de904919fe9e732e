/**
 * main.py: the bearer-token check, the engine registry built from the
 * requested names, the cache key, and the cache-then-search policy of
 * `POST /v1/search`.
 */
module Api {
  import opened Wrappers
  import opened Text
  import opened Engines
  import opened Orchestrator

  /**
   * The environment values the service reads: `API_KEY`, `GOOGLE_API_KEY`,
   * `GOOGLE_CX` and `SEARCH_TTL` (as the integer it parses to).
   */
  datatype Env = Env(apiKey: Option<string>, googleApiKey: Option<string>, googleCx: Option<string>, searchTtl: Option<int>)

  /** The scheme and credentials of an `Authorization` header. */
  datatype Credentials = Credentials(scheme: string, credentials: string)

  /** An `HTTPException`: status code and detail. */
  datatype HttpError = HttpError(statusCode: int, detail: string)

  /** The paths `auth` lets through without a token. */
  const WhiteList: seq<string> := ["/", "/v1/health"]

  /**
   * `auth`: `None` lets the request through. White-listed paths always
   * pass, every request passes while `API_KEY` is unset or empty, and
   * otherwise exactly the requests whose scheme is "Bearer" and whose
   * credentials equal `API_KEY` pass; the others get 403 "Forbidden".
   */
  function Auth(path: string, env: Env, c: Credentials): (r: Option<HttpError>)
    ensures path in WhiteList ==> r.None?
    ensures env.apiKey.GetOr("") == "" ==> r.None?
    ensures r.None? <==>
              || path in WhiteList
              || env.apiKey.GetOr("") == ""
              || (c.scheme == "Bearer" && env.apiKey == Some(c.credentials))
    ensures r.Some? ==> r.value == HttpError(403, "Forbidden")
  {
    if path in WhiteList then None
    else if env.apiKey.GetOr("") == "" then None
    else if c.scheme != "Bearer" || Some(c.credentials) != env.apiKey then Some(HttpError(403, "Forbidden"))
    else None
  }

  /** The names the registry loop acts on. */
  predicate Known(name: string) {
    name == "google" || name == "duckduckgo"
  }

  /**
   * The names in the registry after the loop over the requested names:
   * only "google" and "duckduckgo", each once, all the known names that
   * were requested.
   */
  function RegisteredNames(requested: seq<string>): (names: seq<string>)
    ensures forall name :: name in names ==> Known(name)
    ensures forall name :: name in names <==> name in requested && Known(name)
    ensures forall i, j :: 0 <= i < j < |names| ==> names[i] != names[j]
  {
    if requested == [] then []
    else
      var before := RegisteredNames(requested[..|requested| - 1]);
      var name := requested[|requested| - 1];
      assert requested == requested[..|requested| - 1] + [name];
      if Known(name) && name !in before then before + [name] else before
  }

  /** The position of the first occurrence of `x` in `s`. */
  function FirstIndex(s: seq<string>, x: string): (i: nat)
    requires x in s
    ensures i < |s| && s[i] == x && x !in s[..i]
  {
    if s[0] == x then 0 else FirstIndex(s[1..], x) + 1
  }

  /** A repeated name keeps the place of its first request: the registry lists names in order of first request. */
  lemma {:induction false} RegisteredInFirstRequestOrder(requested: seq<string>, i: nat, j: nat)
    requires i < j < |RegisteredNames(requested)|
    ensures FirstIndex(requested, RegisteredNames(requested)[i]) < FirstIndex(requested, RegisteredNames(requested)[j])
  {
    var names := RegisteredNames(requested);
    var prefix := requested[..|requested| - 1];
    var before := RegisteredNames(prefix);
    var last := requested[|requested| - 1];
    assert requested == prefix + [last];
    if j < |before| {
      RegisteredInFirstRequestOrder(prefix, i, j);
      FirstIndexOfPrefix(prefix, last, names[i]);
      FirstIndexOfPrefix(prefix, last, names[j]);
    } else {
      assert names[j] == last && last !in before && names[i] in before;
      assert names[i] in prefix;
      FirstIndexOfPrefix(prefix, last, names[i]);
      assert last !in prefix;
      assert FirstIndex(requested, last) == |prefix| by {
        assert requested[|prefix|] == last;
        assert last !in requested[..|prefix|];
        FirstIndexIsFirst(requested, last, |prefix|);
      }
    }
  }

  lemma FirstIndexOfPrefix(prefix: seq<string>, last: string, x: string)
    requires x in prefix
    ensures FirstIndex(prefix + [last], x) == FirstIndex(prefix, x)
  {
    var i := FirstIndex(prefix, x);
    assert (prefix + [last])[..i] == prefix[..i];
    FirstIndexIsFirst(prefix + [last], x, i);
  }

  lemma {:induction false} FirstIndexIsFirst(s: seq<string>, x: string, i: nat)
    requires i < |s| && s[i] == x && x !in s[..i]
    ensures FirstIndex(s, x) == i
  {
    if i > 0 {
      assert s[0] in s[..i];
      assert s[1..][..i - 1] == s[..i][1..];
      FirstIndexIsFirst(s[1..], x, i - 1);
    }
  }

  /** The configuration main.py gives Google: its key and search engine id from the environment. */
  function GoogleConfig(env: Env): EngineConfig {
    EngineConfig(env.googleApiKey.GetOr(""), "",
                 map["cx" := if env.googleCx.Some? then Str(env.googleCx.value) else Null])
  }

  /** The configuration main.py gives DuckDuckGo: no key, region "cn-zh". */
  const DuckDuckGoConfig: EngineConfig := EngineConfig("", "", map["region" := Str("cn-zh")])

  /** The engine main.py registers under a known name. */
  function RegisteredEngine(name: string, env: Env): Engine {
    if name == "google" then Google(GoogleConfig(env)) else DuckDuckGo(DuckDuckGoConfig)
  }

  /** The registry's engines for a list of registered names. */
  function RegistryMap(names: seq<string>, env: Env): (m: map<string, Engine>)
    ensures forall name :: name in m <==> name in names
  {
    map name | name in names :: RegisteredEngine(name, env)
  }

  /**
   * Building a Google configuration without `GOOGLE_API_KEY` fails
   * validation (`api_key` must be a string), which aborts the request.
   */
  predicate GoogleUnconfigured(requested: seq<string>, env: Env) {
    "google" in requested && env.googleApiKey.None?
  }

  /**
   * The loop of the `search` handler over `req.search_engines`: a new
   * service, then `add_engine` for every "google" and "duckduckgo"
   * request; other names are ignored.
   */
  method BuildService(requested: seq<string>, env: Env, fetcher: PageFetcher, llm: CompletionClient)
    returns (r: Result<OmniSearchService>)
    ensures r.Err? <==> GoogleUnconfigured(requested, env)
    ensures r.Ok? ==> fresh(r.value) && r.value.Valid()
    ensures r.Ok? ==> r.value.order == RegisteredNames(requested)
    ensures r.Ok? ==> r.value.engines == RegistryMap(RegisteredNames(requested), env)
    ensures r.Ok? ==> r.value.fetcher == fetcher && r.value.llm == llm
  {
    var service := new OmniSearchService(fetcher, llm);
    var i := 0;
    while i < |requested|
      invariant 0 <= i <= |requested|
      invariant fresh(service) && service.Valid()
      invariant service.order == RegisteredNames(requested[..i])
      invariant service.engines == RegistryMap(service.order, env)
      invariant service.fetcher == fetcher && service.llm == llm
      invariant !GoogleUnconfigured(requested[..i], env)
    {
      var name := requested[i];
      RegisteredNamesStep(requested, i);
      if name == "google" && env.googleApiKey.None? {
        assert requested[i] in requested;
        return Err("1 validation error for SearchEngineConfig: api_key");
      }
      if Known(name) {
        RegistryMapStep(service.order, name, env);
        service.AddEngine(name, RegisteredEngine(name, env));
      }
      i := i + 1;
    }
    assert requested[..i] == requested;
    return Ok(service);
  }

  /** One turn of the registry loop on the names, and on whether "google" was requested. */
  lemma RegisteredNamesStep(requested: seq<string>, i: nat)
    requires i < |requested|
    ensures var before := RegisteredNames(requested[..i]);
            var name := requested[i];
            RegisteredNames(requested[..i + 1])
            == (if Known(name) && name !in before then before + [name] else before)
    ensures "google" in requested[..i + 1] <==> "google" in requested[..i] || requested[i] == "google"
  {
    assert requested[..i + 1][..i] == requested[..i];
    assert requested[..i + 1] == requested[..i] + [requested[i]];
  }

  /** One turn of the registry loop on the engine map. */
  lemma RegistryMapStep(names: seq<string>, name: string, env: Env)
    ensures RegistryMap(if name in names then names else names + [name], env)
            == RegistryMap(names, env)[name := RegisteredEngine(name, env)]
  {
  }

  /** The body of `POST /v1/search`. */
  datatype SearchRequest = SearchRequest(query: string, maxResults: int, fetchContent: bool, searchEngines: seq<string>)

  /** The response envelope. */
  datatype SearchResponse = SearchResponse(data: seq<SearchResult>, code: int, message: string)

  /** The character of a decimal digit. */
  function Digit(d: nat): char
    requires d < 10
  {
    "0123456789"[d]
  }

  /** `str(n)` for a natural number. */
  function NatDecimal(n: nat): (s: string)
    ensures |s| >= 1
    ensures forall c :: c in s ==> '0' <= c <= '9'
    ensures n >= 10 ==> |s| >= 2
  {
    if n < 10 then [Digit(n)] else NatDecimal(n / 10) + [Digit(n % 10)]
  }

  /** `str(n)` for any integer. */
  function Decimal(n: int): (s: string)
    ensures forall c :: c in s ==> c == '-' || '0' <= c <= '9'
  {
    if n < 0 then "-" + NatDecimal(-n) else NatDecimal(n)
  }

  /** `str(b)`. */
  function BoolText(b: bool): string {
    if b then "True" else "False"
  }

  /** The items of `str(names)`, each in single quotes, separated by ", ". */
  function QuotedItems(names: seq<string>): string {
    if names == [] then ""
    else if |names| == 1 then "'" + names[0] + "'"
    else "'" + names[0] + "', " + QuotedItems(names[1..])
  }

  /** `str(names)` for a list of strings. */
  function ListText(names: seq<string>): string {
    "[" + QuotedItems(names) + "]"
  }

  /** The key text main.py hashes, as written: query, `max_results`, flag and engine list run together. */
  function KeyText(req: SearchRequest): string {
    Strip(req.query) + Decimal(req.maxResults) + BoolText(req.fetchContent) + ListText(req.searchEngines)
  }

  /**
   * The plain concatenation lets different requests share a key: the query
   * "weather1" with `max_results` 0 and the query "weather" with the
   * default 10 both give "weather10False['duckduckgo']".
   */
  lemma KeyTextCollides()
    ensures KeyText(SearchRequest("weather1", 0, false, ["duckduckgo"]))
            == KeyText(SearchRequest("weather", 10, false, ["duckduckgo"]))
  {
    StripUnpadded("weather1");
    StripUnpadded("weather");
    assert Decimal(0) == "0";
    assert Decimal(10) == NatDecimal(1) + "0" == "10";
    assert "weather1" + "0" == "weather" + "10";
  }

  /**
   * The key text with the fields kept apart: the stripped query behind its
   * length, and `max_results` closed by ':'.
   */
  function DelimitedKeyText(req: SearchRequest): string {
    var q := Strip(req.query);
    var rest := BoolText(req.fetchContent) + ListText(req.searchEngines);
    NatDecimal(|q|) + ":" + (q + (Decimal(req.maxResults) + ":" + rest))
  }

  /**
   * Requests that share a delimited key agree on the stripped query,
   * `max_results`, the enrichment flag and the text of the engine list.
   */
  lemma DelimitedKeyTextInjective(a: SearchRequest, b: SearchRequest)
    requires DelimitedKeyText(a) == DelimitedKeyText(b)
    ensures Strip(a.query) == Strip(b.query)
    ensures a.maxResults == b.maxResults
    ensures a.fetchContent == b.fetchContent
    ensures ListText(a.searchEngines) == ListText(b.searchEngines)
  {
    var qa, qb := Strip(a.query), Strip(b.query);
    var ta := BoolText(a.fetchContent) + ListText(a.searchEngines);
    var tb := BoolText(b.fetchContent) + ListText(b.searchEngines);
    var da := Decimal(a.maxResults) + [':'] + ta;
    var db := Decimal(b.maxResults) + [':'] + tb;
    NoColonInDecimal(|qa|);
    NoColonInDecimal(|qb|);
    SplitAtDelimiter(NatDecimal(|qa|), qa + da, NatDecimal(|qb|), qb + db, ':');
    NatDecimalInjective(|qa|, |qb|);
    SplitAtLength(qa, da, qb, db);
    NoColonInDecimal(a.maxResults);
    NoColonInDecimal(b.maxResults);
    SplitAtDelimiter(Decimal(a.maxResults), ta, Decimal(b.maxResults), tb, ':');
    DecimalInjective(a.maxResults, b.maxResults);
    BoolTextInjective(a.fetchContent, ListText(a.searchEngines), b.fetchContent, ListText(b.searchEngines));
  }

  /** No printed number holds ':'. */
  lemma NoColonInDecimal(n: int)
    ensures ':' !in Decimal(n)
    ensures n >= 0 ==> ':' !in NatDecimal(n)
  {
  }

  /** Two concatenations whose first parts have the same length agree part by part. */
  lemma SplitAtLength(x1: string, r1: string, x2: string, r2: string)
    requires |x1| == |x2| && x1 + r1 == x2 + r2
    ensures x1 == x2 && r1 == r2
  {
    assert x1 == (x1 + r1)[..|x1|];
    assert x2 == (x2 + r2)[..|x2|];
    assert r1 == (x1 + r1)[|x1|..];
    assert r2 == (x2 + r2)[|x2|..];
  }

  /** "True" and "False" differ in their first letter, so the flag and what follows it can be read back. */
  lemma BoolTextInjective(f1: bool, t1: string, f2: bool, t2: string)
    requires BoolText(f1) + t1 == BoolText(f2) + t2
    ensures f1 == f2 && t1 == t2
  {
    BoolTextFirst(f1, t1);
    BoolTextFirst(f2, t2);
    if f1 == f2 {
      SplitAtLength(BoolText(f1), t1, BoolText(f2), t2);
    }
  }

  lemma BoolTextFirst(f: bool, t: string)
    ensures (BoolText(f) + t)[0] == if f then 'T' else 'F'
  {
  }

  /** Two strings that lead up to the first occurrence of a delimiter split at the same place. */
  lemma SplitAtDelimiter(x1: string, r1: string, x2: string, r2: string, d: char)
    requires d !in x1 && d !in x2
    requires x1 + [d] + r1 == x2 + [d] + r2
    ensures x1 == x2 && r1 == r2
  {
    var s := x1 + [d] + r1;
    FirstDelimiter(x1, r1, d);
    FirstDelimiter(x2, r2, d);
    assert x1 == s[..|x1|];
    assert r1 == s[|x1| + 1..];
  }

  /** The first delimiter of `x + [d] + r` is the one after `x`. */
  lemma FirstDelimiter(x: string, r: string, d: char)
    requires d !in x
    ensures (x + [d] + r)[|x|] == d
    ensures forall i :: 0 <= i < |x| ==> (x + [d] + r)[i] != d
  {
    forall i | 0 <= i < |x|
      ensures (x + [d] + r)[i] != d
    {
      assert (x + [d] + r)[i] == x[i];
    }
  }

  /** Different natural numbers print differently. */
  lemma {:induction false} NatDecimalInjective(m: nat, n: nat)
    requires NatDecimal(m) == NatDecimal(n)
    ensures m == n
  {
    if m >= 10 && n >= 10 {
      var sm, sn := NatDecimal(m), NatDecimal(n);
      assert sm[..|sm| - 1] == NatDecimal(m / 10);
      assert sn[..|sn| - 1] == NatDecimal(n / 10);
      NatDecimalInjective(m / 10, n / 10);
      assert Digit(m % 10) == sm[|sm| - 1] == sn[|sn| - 1] == Digit(n % 10);
      DigitInjective(m % 10, n % 10);
    } else if m < 10 && n < 10 {
      DigitInjective(m, n);
    }
  }

  lemma DigitInjective(a: nat, b: nat)
    requires a < 10 && b < 10 && Digit(a) == Digit(b)
    ensures a == b
  {
  }

  /** Different integers print differently. */
  lemma DecimalInjective(m: int, n: int)
    requires Decimal(m) == Decimal(n)
    ensures m == n
  {
    var sm, sn := Decimal(m), Decimal(n);
    DecimalSign(m);
    DecimalSign(n);
    if m < 0 && n < 0 {
      assert NatDecimal(-m) == sm[1..] == sn[1..] == NatDecimal(-n);
      NatDecimalInjective(-m, -n);
    } else if m >= 0 && n >= 0 {
      NatDecimalInjective(m, n);
    }
  }

  /** The printed form starts with '-' exactly for negative numbers. */
  lemma DecimalSign(n: int)
    ensures |Decimal(n)| >= 1
    ensures Decimal(n)[0] == '-' <==> n < 0
  {
    if n >= 0 {
      assert Decimal(n)[0] in Decimal(n);
    }
  }

  /** `search_api.search.<md5 hex of the key text>`, as written; the digest is a parameter. */
  function CacheKey(req: SearchRequest, md5: string -> string): string {
    "search_api.search." + md5(KeyText(req))
  }

  /**
   * Whatever the digest, the colliding requests share one cache entry: the
   * second is answered with the results cached for the first.
   */
  lemma CollidingRequestsShareEntry(md5: string -> string)
    ensures CacheKey(SearchRequest("weather1", 0, false, ["duckduckgo"]), md5)
            == CacheKey(SearchRequest("weather", 10, false, ["duckduckgo"]), md5)
  {
    KeyTextCollides();
  }

  /** The cache key over the delimited key text. */
  function DelimitedCacheKey(req: SearchRequest, md5: string -> string): string {
    "search_api.search." + md5(DelimitedKeyText(req))
  }

  /** With a collision-free digest, the delimited key keeps the colliding requests apart. */
  lemma DelimitedCacheKeySeparates(md5: string -> string)
    requires forall x, y :: md5(x) == md5(y) ==> x == y
    ensures DelimitedCacheKey(SearchRequest("weather1", 0, false, ["duckduckgo"]), md5)
            != DelimitedCacheKey(SearchRequest("weather", 10, false, ["duckduckgo"]), md5)
  {
    var a := SearchRequest("weather1", 0, false, ["duckduckgo"]);
    var b := SearchRequest("weather", 10, false, ["duckduckgo"]);
    if DelimitedCacheKey(a, md5) == DelimitedCacheKey(b, md5) {
      var prefix := "search_api.search.";
      assert md5(DelimitedKeyText(a)) == DelimitedCacheKey(a, md5)[|prefix|..];
      assert md5(DelimitedKeyText(b)) == DelimitedCacheKey(b, md5)[|prefix|..];
      DelimitedKeyTextInjective(a, b);
    }
  }

  /** `int(os.environ.get("SEARCH_TTL", 30))`. */
  function Ttl(env: Env): int {
    env.searchTtl.GetOr(30)
  }

  /**
   * What a cache miss computes: the registry from the requested names, then
   * the fan-out of the stripped query with the request's options; an
   * unconfigured Google aborts it.
   */
  function MissResults(req: SearchRequest, env: Env, fetcher: PageFetcher, llm: CompletionClient, call: EngineCall)
    : Result<seq<SearchResult>>
  {
    if GoogleUnconfigured(req.searchEngines, env) then Err("1 validation error for SearchEngineConfig: api_key")
    else
      var names := RegisteredNames(req.searchEngines);
      var opts := SearchOptions(Some(req.maxResults), req.fetchContent);
      Ok(FanOut(fetcher, llm, Runs(names, RegistryMap(names, env), call, Strip(req.query), opts), req.fetchContent))
  }

  /**
   * Requests that differ only in white space around the query share their
   * cache key and, on a miss, their results.
   */
  lemma WhitespaceVariantsAgree(req: SearchRequest, w1: string, w2: string, md5: string -> string,
                                env: Env, fetcher: PageFetcher, llm: CompletionClient, call: EngineCall)
    requires AllSpace(w1) && AllSpace(w2)
    ensures KeyText(req.(query := w1 + req.query + w2)) == KeyText(req)
    ensures DelimitedKeyText(req.(query := w1 + req.query + w2)) == DelimitedKeyText(req)
    ensures CacheKey(req.(query := w1 + req.query + w2), md5) == CacheKey(req, md5)
    ensures MissResults(req.(query := w1 + req.query + w2), env, fetcher, llm, call)
            == MissResults(req, env, fetcher, llm, call)
  {
    StripPadded(w1, req.query, w2);
  }

  /** A cached value: the result list and the time to live it was written with. */
  datatype CacheEntry = CacheEntry(data: seq<SearchResult>, ttl: int)

  /** The key-value store behind `redis_cli`; expiry is left to the store. */
  class Cache {
    var entries: map<string, CacheEntry>

    constructor ()
      ensures entries == map[]
    {
      entries := map[];
    }

    /** `redis_cli.get(key)`: the stored value, if any. */
    method Get(key: string) returns (v: Option<seq<SearchResult>>)
      ensures v.Some? <==> key in entries
      ensures v.Some? ==> v.value == entries[key].data
    {
      if key in entries {
        v := Some(entries[key].data);
      } else {
        v := None;
      }
    }

    /** `redis_cli.setex(key, ttl, value)`: store or replace. */
    method SetEx(key: string, ttl: int, data: seq<SearchResult>)
      modifies this
      ensures entries == old(entries)[key := CacheEntry(data, ttl)]
    {
      entries := entries[key := CacheEntry(data, ttl)];
    }
  }

  /**
   * `POST /v1/search` after `auth`: a cache hit answers the cached list and
   * touches nothing else; a miss builds the registry, runs the fan-out on
   * the stripped query and writes the list to the cache only when it is
   * not empty. Both answer code 0 with "success".
   */
  method HandleSearch(req: SearchRequest, env: Env, cache: Cache, md5: string -> string,
                      fetcher: PageFetcher, llm: CompletionClient, call: EngineCall)
    returns (r: Result<SearchResponse>)
    modifies cache
    ensures CacheKey(req, md5) in old(cache.entries) ==>
              && r == Ok(SearchResponse(old(cache.entries)[CacheKey(req, md5)].data, 0, "success"))
              && cache.entries == old(cache.entries)
    ensures CacheKey(req, md5) !in old(cache.entries) && MissResults(req, env, fetcher, llm, call).Err? ==>
              r.Err? && cache.entries == old(cache.entries)
    ensures CacheKey(req, md5) !in old(cache.entries) && MissResults(req, env, fetcher, llm, call).Ok? ==>
              var data := MissResults(req, env, fetcher, llm, call).value;
              && r == Ok(SearchResponse(data, 0, "success"))
              && cache.entries == if |data| > 0 then old(cache.entries)[CacheKey(req, md5) := CacheEntry(data, Ttl(env))]
                                  else old(cache.entries)
  {
    var key := CacheKey(req, md5);
    var cached := cache.Get(key);
    if cached.Some? {
      return Ok(SearchResponse(cached.value, 0, "success"));
    }
    var built := BuildService(req.searchEngines, env, fetcher, llm);
    if built.Err? {
      return Err(built.message);
    }
    var service := built.value;
    var results := service.Search(Strip(req.query), SearchOptions(Some(req.maxResults), req.fetchContent), call);
    if |results| > 0 {
      cache.SetEx(key, Ttl(env), results);
    }
    return Ok(SearchResponse(results, 0, "success"));
  }

  /** Engine calls that reach the network and raise nothing while gathering. */
  function DirectCall(net: Network): EngineCall {
    (name: string, engine: Engine, query: string, opts: SearchOptions) =>
      EngineRun(EngineSearch(engine, query, opts.maxResults, net), false)
  }

  /**
   * A worked example: one DuckDuckGo engine whose library
   * call yields one item, no enrichment: one result, numbered 0, without
   * content.
   */
  lemma SingleDuckDuckGoExample(net: Network, item: Item, env: Env, fetcher: PageFetcher, llm: CompletionClient)
    requires net.duckDuckGo(DuckDuckGoCall(DuckDuckGoConfig, "weather", Some(1))) == Ok([item])
    ensures var r := MissResults(SearchRequest("weather", 1, false, ["duckduckgo"]), env, fetcher, llm, DirectCall(net));
            && r.Ok? && |r.value| == 1
            && r.value[0].index == Some(0)
            && r.value[0].content.None?
            && r.value[0].sourceEngine == "DuckDuckGo"
  {
    var req := SearchRequest("weather", 1, false, ["duckduckgo"]);
    StripUnpadded("weather");
    var reply := EngineSearch(DuckDuckGo(DuckDuckGoConfig), "weather", Some(1), net);
    var run := EngineRun(reply, false);
    assert DirectCall(net)("duckduckgo", DuckDuckGo(DuckDuckGoConfig), "weather", SearchOptions(Some(1), false)) == run;
    MissResultsOfDuckDuckGo(req, env, fetcher, llm, DirectCall(net));
    FanOutSingle(fetcher, llm, run);
    DuckDuckGoOneItem(net, item);
    var b := Block(fetcher, llm, run, false);
    assert |b| == 1 && b[0].index == Some(0) && b[0].content == reply.value[0].content;
  }

  /** The DuckDuckGo adapter turns a one-item answer into one untouched DuckDuckGo result. */
  lemma DuckDuckGoOneItem(net: Network, item: Item)
    requires net.duckDuckGo(DuckDuckGoCall(DuckDuckGoConfig, "weather", Some(1))) == Ok([item])
    ensures var reply := EngineSearch(DuckDuckGo(DuckDuckGoConfig), "weather", Some(1), net);
            && reply.Ok? && |reply.value| == 1
            && reply.value[0].content.None? && reply.value[0].sourceEngine == "DuckDuckGo"
  {
    var reply := EngineSearch(DuckDuckGo(DuckDuckGoConfig), "weather", Some(1), net);
    assert reply.value[0] in reply.value;
  }

  /** A request for "duckduckgo" alone runs that one engine on the stripped query. */
  lemma MissResultsOfDuckDuckGo(req: SearchRequest, env: Env, fetcher: PageFetcher, llm: CompletionClient, call: EngineCall)
    requires req.searchEngines == ["duckduckgo"]
    ensures MissResults(req, env, fetcher, llm, call)
            == Ok(FanOut(fetcher, llm, [call("duckduckgo", DuckDuckGo(DuckDuckGoConfig), Strip(req.query),
                                             SearchOptions(Some(req.maxResults), req.fetchContent))], req.fetchContent))
  {
    OnlyDuckDuckGo(env);
  }

  lemma FanOutSingle(fetcher: PageFetcher, llm: CompletionClient, run: EngineRun)
    ensures FanOut(fetcher, llm, [run], false) == Block(fetcher, llm, run, false)
  {
    assert [run][..0] == [];
  }

  /** Asking for "duckduckgo" alone registers that one engine. */
  lemma OnlyDuckDuckGo(env: Env)
    ensures RegisteredNames(["duckduckgo"]) == ["duckduckgo"]
    ensures RegistryMap(["duckduckgo"], env)["duckduckgo"] == DuckDuckGo(DuckDuckGoConfig)
  {
    assert ["duckduckgo"][..0] == [];
  }
}
