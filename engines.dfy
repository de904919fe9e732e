/**
 * search/search.py, provider side: the normalised result record, the
 * engine configurations, the request each provider adapter sends and the
 * mapping of each provider's answer to results.
 */
module Engines {
  import opened Wrappers
  import opened Text

  /** `SearchResult`: `content` and `index` stay `None` until the orchestrator sets them. */
  datatype SearchResult = SearchResult(
    title: string,
    link: string,
    snippet: string,
    content: Option<string>,
    sourceEngine: string,
    index: Option<int>)

  /** A request parameter value: a string, an integer, or `None`. */
  datatype Param = Str(s: string) | Number(n: int) | Null

  /** `SearchEngineConfig`: the API key, an endpoint override and extra provider parameters. */
  datatype EngineConfig = EngineConfig(apiKey: string, endpoint: string, params: map<string, Param>)

  /** The three adapters, each holding its configuration. */
  datatype Engine =
    | Google(config: EngineConfig)
    | Bing(config: EngineConfig)
    | DuckDuckGo(config: EngineConfig)

  /** The fixed `source_engine` tag each adapter writes into its results. */
  function Tag(engine: Engine): string {
    match engine
    case Google(_) => "Google"
    case Bing(_) => "Bing"
    case DuckDuckGo(_) => "DuckDuckGo"
  }

  /** `if max_results:` on `kwargs.get("max_results", None)`: present and not zero. */
  predicate Truthy(maxResults: Option<int>) {
    maxResults.Some? && maxResults.value != 0
  }

  /**
   * The provider's result-count parameter `key` is set to `max_results`
   * only when that is truthy, overriding a configured value; every other
   * parameter is left as it was.
   */
  function WithLimit(params: map<string, Param>, key: string, maxResults: Option<int>): (r: map<string, Param>)
    ensures key in r <==> Truthy(maxResults) || key in params
    ensures Truthy(maxResults) ==> r[key] == Number(maxResults.value)
    ensures !Truthy(maxResults) ==> r == params
    ensures forall k :: k in params && k != key ==> k in r && r[k] == params[k]
    ensures forall k :: k in r && k != key ==> k in params
  {
    if Truthy(maxResults) then params[key := Number(maxResults.value)] else params
  }

  /** An HTTP GET as `requests.get` sends it. */
  datatype HttpGet = HttpGet(url: string, headers: map<string, string>, params: map<string, Param>)

  /** A call `ddgs.text(query, **params)`. */
  datatype TextCall = TextCall(query: string, params: map<string, Param>)

  const GoogleEndpoint: string := "https://www.googleapis.com/customsearch/v1"
  const BingEndpoint: string := "https://api.bing.microsoft.com/v7.0/search"

  /** `self.config.endpoint or default`: an empty override selects the default. */
  function EndpointOr(config: EngineConfig, default: string): string {
    if config.endpoint != "" then config.endpoint else default
  }

  /**
   * `GoogleSearch.search`, request part: `q` and `key` first, the configured
   * parameters over them, then `num` when `max_results` is truthy.
   */
  function GoogleRequest(config: EngineConfig, query: string, maxResults: Option<int>): (r: HttpGet)
    ensures r.url == (if config.endpoint == "" then GoogleEndpoint else config.endpoint)
    ensures r.headers == map[]
    ensures "num" in r.params <==> Truthy(maxResults) || "num" in config.params
    ensures Truthy(maxResults) ==> r.params["num"] == Number(maxResults.value)
    ensures "q" in r.params && r.params["q"] == if "q" in config.params then config.params["q"] else Str(query)
    ensures "key" in r.params && r.params["key"] == if "key" in config.params then config.params["key"] else Str(config.apiKey)
    ensures r.params.Keys == config.params.Keys + {"q", "key"} + (if Truthy(maxResults) then {"num"} else {})
    ensures forall k :: k in config.params && !(k == "num" && Truthy(maxResults)) ==>
              k in r.params && r.params[k] == config.params[k]
  {
    var base := map["q" := Str(query), "key" := Str(config.apiKey)] + config.params;
    HttpGet(EndpointOr(config, GoogleEndpoint), map[], WithLimit(base, "num", maxResults))
  }

  /**
   * `BingSearch.search`, request part: the key travels in a header, `q`
   * first, the configured parameters over it, then `count` when
   * `max_results` is truthy.
   */
  function BingRequest(config: EngineConfig, query: string, maxResults: Option<int>): (r: HttpGet)
    ensures r.url == (if config.endpoint == "" then BingEndpoint else config.endpoint)
    ensures r.headers == map["Ocp-Apim-Subscription-Key" := config.apiKey]
    ensures "count" in r.params <==> Truthy(maxResults) || "count" in config.params
    ensures Truthy(maxResults) ==> r.params["count"] == Number(maxResults.value)
    ensures "q" in r.params && r.params["q"] == if "q" in config.params then config.params["q"] else Str(query)
    ensures r.params.Keys == config.params.Keys + {"q"} + (if Truthy(maxResults) then {"count"} else {})
    ensures forall k :: k in config.params && !(k == "count" && Truthy(maxResults)) ==>
              k in r.params && r.params[k] == config.params[k]
  {
    var base := map["q" := Str(query)] + config.params;
    HttpGet(EndpointOr(config, BingEndpoint), map["Ocp-Apim-Subscription-Key" := config.apiKey],
            WithLimit(base, "count", maxResults))
  }

  /**
   * `DuckDuckGoSearch.search`, call part: safe search off and a one-year
   * time limit unless configured otherwise, then `max_results` when truthy.
   */
  function DuckDuckGoCall(config: EngineConfig, query: string, maxResults: Option<int>): (r: TextCall)
    ensures r.query == query
    ensures "max_results" in r.params <==> Truthy(maxResults) || "max_results" in config.params
    ensures Truthy(maxResults) ==> r.params["max_results"] == Number(maxResults.value)
    ensures "safesearch" in r.params && r.params["safesearch"] == if "safesearch" in config.params then config.params["safesearch"] else Str("off")
    ensures "timelimit" in r.params && r.params["timelimit"] == if "timelimit" in config.params then config.params["timelimit"] else Str("y")
    ensures r.params.Keys == config.params.Keys + {"safesearch", "timelimit"}
                             + (if Truthy(maxResults) then {"max_results"} else {})
    ensures forall k :: k in config.params && !(k == "max_results" && Truthy(maxResults)) ==>
              k in r.params && r.params[k] == config.params[k]
  {
    var base := map["safesearch" := Str("off"), "timelimit" := Str("y")] + config.params;
    TextCall(query, WithLimit(base, "max_results", maxResults))
  }

  /** One result object of a provider's JSON answer, restricted to its string fields. */
  type Item = map<string, string>

  /** Google's JSON answer: the optional `items` list. */
  datatype GoogleData = GoogleData(items: Option<seq<Item>>)

  /** Bing's JSON answer: the optional `webPages` object with its optional `value` list. */
  datatype BingData = BingData(webPages: Option<BingPages>)
  datatype BingPages = BingPages(value: Option<seq<Item>>)

  /** An HTTP answer: the status code and the outcome of `response.json()`. */
  datatype HttpReply<T> = HttpReply(statusCode: int, json: Result<T>)

  /** `item[key]`: a missing key raises `KeyError`, whose text is the quoted key. */
  function Field(item: Item, key: string): Result<string> {
    if key in item then Ok(item[key]) else Err("'" + key + "'")
  }

  /** `item.get(key, "")`. */
  function FieldOr(item: Item, key: string): string {
    if key in item then item[key] else ""
  }

  /** One element of the Google list comprehension. */
  function GoogleResult(item: Item): Result<SearchResult> {
    match Field(item, "title")
    case Err(e) => Err(e)
    case Ok(title) =>
      match Field(item, "link")
      case Err(e) => Err(e)
      case Ok(link) =>
        match Field(item, "snippet")
        case Err(e) => Err(e)
        case Ok(snippet) => Ok(SearchResult(title, link, snippet, None, "Google", None))
  }

  /** One element of the Bing list comprehension. */
  function BingResult(item: Item): Result<SearchResult> {
    match Field(item, "name")
    case Err(e) => Err(e)
    case Ok(title) =>
      match Field(item, "url")
      case Err(e) => Err(e)
      case Ok(link) =>
        match Field(item, "snippet")
        case Err(e) => Err(e)
        case Ok(snippet) => Ok(SearchResult(title, link, snippet, None, "Bing", None))
  }

  /**
   * A list comprehension whose element may raise: one result per item, in
   * order, or the first item's exception.
   */
  function ParseAll(items: seq<Item>, parse: Item -> Result<SearchResult>): (r: Result<seq<SearchResult>>)
    ensures r.Ok? <==> forall i :: 0 <= i < |items| ==> parse(items[i]).Ok?
    ensures r.Ok? ==> |r.value| == |items|
    ensures r.Ok? ==> forall i :: 0 <= i < |items| ==> r.value[i] == parse(items[i]).value
    ensures r.Err? ==> exists i :: 0 <= i < |items| && parse(items[i]) == Err(r.message)
                                   && forall j :: 0 <= j < i ==> parse(items[j]).Ok?
  {
    if items == [] then Ok([])
    else
      match parse(items[0])
      case Err(e) => Err(e)
      case Ok(first) =>
        match ParseAll(items[1..], parse)
        case Err(e) => Err(e)
        case Ok(rest) => Ok([first] + rest)
  }

  /**
   * `GoogleSearch._parse_results`: one result per entry of `items` (none
   * when the key is absent), tagged "Google"; an entry without `title`,
   * `link` or `snippet` makes the whole parse raise.
   */
  function ParseGoogle(data: GoogleData): (r: Result<seq<SearchResult>>)
    ensures data.items.None? ==> r == Ok([])
    ensures r.Ok? <==> forall item :: item in data.items.GetOr([]) ==> "title" in item && "link" in item && "snippet" in item
    ensures r.Ok? ==> |r.value| == |data.items.GetOr([])|
    ensures r.Ok? ==> forall i :: 0 <= i < |r.value| ==>
              var item := data.items.value[i];
              r.value[i] == SearchResult(item["title"], item["link"], item["snippet"], None, "Google", None)
  {
    var items := data.items.GetOr([]);
    var r := ParseAll(items, GoogleResult);
    assert r.Ok? <== forall item :: item in items ==> "title" in item && "link" in item && "snippet" in item by {
      if forall item :: item in items ==> "title" in item && "link" in item && "snippet" in item {
        assert forall i :: 0 <= i < |items| ==> items[i] in items;
      }
    }
    r
  }

  /**
   * `BingSearch._parse_results`: one result per entry of `webPages.value`
   * (none when either key is absent), tagged "Bing", with `name` as title
   * and `url` as link; an entry missing one of them makes the parse raise.
   */
  function ParseBing(data: BingData): (r: Result<seq<SearchResult>>)
    ensures data.webPages.None? || data.webPages.value.value.None? ==> r == Ok([])
    ensures r.Ok? <==> forall item :: item in BingItems(data) ==> "name" in item && "url" in item && "snippet" in item
    ensures r.Ok? ==> |r.value| == |BingItems(data)|
    ensures r.Ok? ==> forall i :: 0 <= i < |r.value| ==>
              var item := BingItems(data)[i];
              r.value[i] == SearchResult(item["name"], item["url"], item["snippet"], None, "Bing", None)
  {
    var items := BingItems(data);
    var r := ParseAll(items, BingResult);
    assert r.Ok? <== forall item :: item in items ==> "name" in item && "url" in item && "snippet" in item by {
      if forall item :: item in items ==> "name" in item && "url" in item && "snippet" in item {
        assert forall i :: 0 <= i < |items| ==> items[i] in items;
      }
    }
    r
  }

  /** `data.get("webPages", {}).get("value", [])`. */
  function BingItems(data: BingData): seq<Item> {
    match data.webPages
    case None => []
    case Some(pages) => pages.value.GetOr([])
  }

  /**
   * `DuckDuckGoSearch._parse_results`: missing keys read as "", title and
   * snippet (`body`) are stripped, the link (`href`) is kept as it is.
   */
  function DuckDuckGoResult(item: Item): (r: SearchResult)
    ensures r.title == Strip(FieldOr(item, "title")) && Strip(r.title) == r.title
    ensures r.snippet == Strip(FieldOr(item, "body")) && Strip(r.snippet) == r.snippet
    ensures r.link == FieldOr(item, "href")
    ensures r.sourceEngine == "DuckDuckGo" && r.content.None? && r.index.None?
  {
    StripIdempotent(FieldOr(item, "title"));
    StripIdempotent(FieldOr(item, "body"));
    SearchResult(Strip(FieldOr(item, "title")), FieldOr(item, "href"), Strip(FieldOr(item, "body")),
                 None, "DuckDuckGo", None)
  }

  /** The three collaborators the adapters call: Google's and Bing's HTTP APIs and the DuckDuckGo library. */
  datatype Network = Network(
    google: HttpGet -> Result<HttpReply<GoogleData>>,
    bing: HttpGet -> Result<HttpReply<BingData>>,
    duckDuckGo: TextCall -> Result<seq<Item>>)

  /** `response.raise_for_status()` raises for a 4xx or 5xx status. */
  predicate IsHttpError(statusCode: int) {
    400 <= statusCode < 600
  }

  /** Google and Bing: send, raise on an error status, decode the JSON, parse it. */
  function ReplyResults<T>(reply: Result<HttpReply<T>>, parse: T -> Result<seq<SearchResult>>): Result<seq<SearchResult>> {
    match reply
    case Err(e) => Err(e)
    case Ok(answer) =>
      if IsHttpError(answer.statusCode) then Err("HTTPError")
      else
        match answer.json
        case Err(e) => Err(e)
        case Ok(data) => parse(data)
  }

  /**
   * `engine.search(query, max_results=...)`: the adapter sends its request
   * to its provider and maps the answer; an exception anywhere is an `Err`.
   * Every result it returns carries the engine's tag and no content or index.
   */
  function EngineSearch(engine: Engine, query: string, maxResults: Option<int>, net: Network)
    : (r: Result<seq<SearchResult>>)
    ensures r.Ok? ==> forall x :: x in r.value ==> x.sourceEngine == Tag(engine) && x.content.None? && x.index.None?
    ensures engine.DuckDuckGo? ==>
              (r.Ok? <==> net.duckDuckGo(DuckDuckGoCall(engine.config, query, maxResults)).Ok?)
    ensures engine.DuckDuckGo? && r.Ok? ==>
              |r.value| == |net.duckDuckGo(DuckDuckGoCall(engine.config, query, maxResults)).value|
    ensures engine.DuckDuckGo? && r.Ok? ==>
              var items := net.duckDuckGo(DuckDuckGoCall(engine.config, query, maxResults)).value;
              forall i :: 0 <= i < |r.value| ==> r.value[i] == DuckDuckGoResult(items[i])
    ensures engine.Google? ==>
              var reply := net.google(GoogleRequest(engine.config, query, maxResults));
              if reply.Ok? && !IsHttpError(reply.value.statusCode) && reply.value.json.Ok?
              then r == ParseGoogle(reply.value.json.value)
              else r.Err?
    ensures engine.Bing? ==>
              var reply := net.bing(BingRequest(engine.config, query, maxResults));
              if reply.Ok? && !IsHttpError(reply.value.statusCode) && reply.value.json.Ok?
              then r == ParseBing(reply.value.json.value)
              else r.Err?
  {
    match engine
    case Google(config) =>
      var r := ReplyResults(net.google(GoogleRequest(config, query, maxResults)), ParseGoogle);
      r
    case Bing(config) =>
      var r := ReplyResults(net.bing(BingRequest(config, query, maxResults)), ParseBing);
      r
    case DuckDuckGo(config) =>
      match net.duckDuckGo(DuckDuckGoCall(config, query, maxResults))
      case Err(e) => Err(e)
      case Ok(items) => Ok(seq(|items|, i requires 0 <= i < |items| => DuckDuckGoResult(items[i])))
  }
}
