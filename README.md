# Omni search: a verified model of the request orchestration

This project models the core of a meta-search service. One HTTP endpoint, `POST /v1/search`, does the following:

- It checks a bearer token.
- It looks the request up in a key-value cache.
- On a miss, it builds a registry of search engines from the names the request asks for (Google and DuckDuckGo; a Bing adapter exists but is not wired in).
- It fans the stripped query out to every registered engine in registry order.
- It catches each engine's failure on its own and numbers each engine's results from 0.
- On request, it enriches every result with a completion-model summary of the fetched page.
- It caches non-empty answers.

Every call into the outside world is an input of the model: the provider APIs, the DuckDuckGo library, the page fetcher and the completion client. Each is a function-valued parameter or field that returns an outcome (`Ok` or `Err`).

Modules:

- `Wrappers`: `Option` and `Result`.
- `Text`: Python's `str.strip` (with Python's white-space set), `split('\n')` and `'\n'.join`, with their round trips.
- `Fetcher` (search/fetcher.py): the `FetchedContent` record, the line clean-up at the end of `_clean_text`, and both `fetch` methods on a given response.
- `Engines` (search/search.py, provider side):
  - the `SearchResult` record and the engine configurations;
  - the request each adapter sends, including the rule that adds `num`/`count`/`max_results` only when `max_results` is truthy;
  - the three `_parse_results` mappers and an adapter's `search` on a given provider answer.
- `Orchestrator` (search/search.py, `OmniSearchService`):
  - the class with its ordered registry (`order` plus `engines`, mirroring a Python dict's insertion order);
  - `add_engine`, and `search` as a loop proved against the specification function `FanOut`;
  - the enrichment functions, the lemmas about the fan-out, and `search_by_engine`.
- `Api` (main.py):
  - `auth`, and the registry loop as a method;
  - the cache key, and the cache as a class over a map;
  - the `search` handler as a method proved against `MissResults` and the cache state, keyed as main.py keys it;
  - a corrected, delimited cache key beside the as-written one (see "## Findings").

## Model

| member | source | states |
|---|---|---|
| Text.Strip | search/fetcher.py:62 | `strip()` is empty exactly when the input is all white space; otherwise it neither starts nor ends with white space, and it only holds characters of the input |
| Text.StripIdempotent | search/search.py:121 | stripping twice is stripping once |
| Text.StripPadded | main.py:69 | white space added around a string does not change its strip |
| Text.Split | search/fetcher.py:62 | `split('\n')` yields at least one piece, and no piece holds the separator |
| Text.JoinSplit | search/fetcher.py:62 | joining the pieces of a split gives back the text |
| Text.SplitJoin | search/fetcher.py:62 | splitting a join of separator-free lines gives back the lines |
| Fetcher.CleanText | search/fetcher.py:62 | the definition of line 62: split on '\n', strip each line, drop the empty ones, join with '\n'; its properties are the `CleanText...` lemmas below |
| Fetcher.CleanedLines | search/fetcher.py:62 | the kept lines are no more than the input lines, and each is non-empty and stripped |
| Fetcher.CleanedLinesMembers | search/fetcher.py:62 | a line is kept exactly when it is non-empty and some input line strips to it |
| Fetcher.CleanedLinesAvoid | search/fetcher.py:62 | a character absent from every input line is absent from every kept line |
| Fetcher.CleanedLinesAppend | search/fetcher.py:62 | cleaning works line by line: cleaning two groups of lines concatenates their cleanings, in order |
| Fetcher.CleanedLinesOfClean | search/fetcher.py:62 | cleaning lines that are already clean changes nothing |
| Fetcher.CleanTextLines | search/fetcher.py:62 | the output is empty exactly when every input line is blank; otherwise its lines are exactly the non-blank input lines, stripped, in input order |
| Fetcher.CleanTextNoBlankLines | search/fetcher.py:62 | the normalised text holds no empty line |
| Fetcher.CleanTextStrippedLines | search/fetcher.py:62 | no line of the normalised text starts or ends with white space |
| Fetcher.CleanTextIdempotent | search/fetcher.py:62 | normalising the normalised text changes nothing |
| Fetcher.ErrorRecord | search/fetcher.py:43 | the record of a failed fetch keeps the url and the message and has the error shape: no page text and status 0 |
| Fetcher.SimpleFetch | search/fetcher.py:28-43 | the record always echoes the url and is either the error shape or has an empty `error`. An exception from the request or from the HTML extraction gives the error record (`raw_content`, `clean_text` "", status 0, `error` the message). Success keeps the body and status code and sets `clean_text` to the line-normalised text, so it has no blank or padded lines |
| Fetcher.RequestsHtmlFetch | search/fetcher.py:72-87 | the same record shapes; on success `clean_text` is the page text, or the rendered text when rendering is on. A failed request, a failed render, or a page text that cannot be read gives the error record |
| Engines.WithLimit | search/search.py:43-45 | the count parameter is present exactly when `max_results` is truthy or configured. A truthy value (negative ones included) overrides the configured one. A falsy one leaves the parameters untouched, and every other parameter is kept |
| Engines.GoogleRequest | search/search.py:37-51 | default endpoint unless overridden, no headers; `q` and `key` unless the configuration overrides them; `num` per the truthiness rule; every configured parameter (such as `cx`) keeps its value, except `num` when `max_results` is truthy; no other keys than these and the configured ones |
| Engines.BingRequest | search/search.py:69-83 | default endpoint unless overridden; the key in the `Ocp-Apim-Subscription-Key` header; `q` unless configured; `count` per the truthiness rule; every configured parameter keeps its value, except `count` when `max_results` is truthy; no other keys |
| Engines.DuckDuckGoCall | search/search.py:101-111 | the query as given; `safesearch` "off" and `timelimit` "y" unless configured; `max_results` per the truthiness rule; every configured parameter (such as `region`) keeps its value, except `max_results` when it is truthy; no other keys |
| Engines.ParseAll | search/search.py:57-63 | a comprehension whose element may raise succeeds exactly when every element succeeds. On success it has one result per item, in order; on failure the error is that of the first item that raises |
| Engines.ParseGoogle | search/search.py:56-64 | a missing `items` gives an empty list. The parse succeeds exactly when every item has `title`, `link` and `snippet`, and then gives one result per item, in order, tagged "Google", with content and index unset |
| Engines.ParseBing | search/search.py:88-96 | a missing `webPages` or `value` gives an empty list. The parse succeeds exactly when every item has `name`, `url` and `snippet`, and then gives one result per item, in order, tagged "Bing", title from `name` and link from `url` |
| Engines.DuckDuckGoResult | search/search.py:119-128 | title and snippet are the stripped `title` and `body` (missing keys read as ""); the link is `href`; the tag is "DuckDuckGo"; content and index are unset |
| Engines.EngineSearch | search/search.py:36-128 | every result an adapter returns carries its engine's tag and no content or index. DuckDuckGo succeeds exactly when the library call does, with `DuckDuckGoResult` of each item, in order. For Google and Bing, a reply that arrives with a non-error status and decodable JSON gives exactly the mapper's outcome on it; a raised request, a 4xx/5xx status or undecodable JSON is an error |
| Orchestrator.FetchContentBySearchResult | search/search.py:164-180 | only `content` may change. A fetch or completion that raises leaves the result unchanged. Otherwise `content` is the completion's reply, whatever the fetch record's `error` says |
| Orchestrator.FetchContent | search/search.py:182-189 | if the gather raises, the block is empty; otherwise enrichment keeps length and order, changes at most `content`, and leaves unchanged the results whose fetch raises past the fetcher |
| Orchestrator.Block | search/search.py:144-150 | an engine that raises contributes nothing. Otherwise its block has as many results as it returned, numbered `Some(0)`..`Some(k-1)` in provider order, with title, link, snippet and tag kept. Without enrichment content is kept; with it, each numbered result is enriched on its own, so a fetch that raises past the fetcher, or a completion that raises, leaves it as numbered |
| Orchestrator.FailedPageStillSummarised | search/search.py:164-176 | with main.py's `RequestsHtmlFetcher`, a page whose request fails is still sent to the completion as empty text and gets its reply as `content`, because the fetcher catches the exception (search/fetcher.py:84-85); only a raising completion leaves the result unchanged |
| Orchestrator.Numbered | search/search.py:146-147 | the definition of the numbering: result `i` of a block gets index `i`; `NumberResults` and `Block` state it |
| Orchestrator.FanOut | search/search.py:141-153 | the definition of the combined list: the engines' blocks concatenated in registry order; its properties are the `FanOut...` lemmas below |
| Orchestrator.FanOutAppend | search/search.py:141-153 | the combined list of two groups of engines is the first group's list followed by the second's |
| Orchestrator.FanOutBlocks | search/search.py:143-150 | blocks appear in registry order: what the engines before `k` contribute, then `k`'s block, then what the engines after `k` contribute |
| Orchestrator.FailedEngineIsolated | search/search.py:144-152 | replacing any engine's outcome by an exception removes exactly its block; the other blocks keep their contents and order |
| Orchestrator.FanOutLength | search/search.py:143-153 | unless an enrichment gather raised, the combined length is the sum of the successful engines' result counts |
| Orchestrator.FanOutContentUnset | search/search.py:143-153 | without enrichment, no combined result has content when the engines set none |
| Orchestrator.FanOutStep | search/search.py:143-150 | the list after engine `k` is the list before it plus `k`'s block |
| Orchestrator.NumberResults | search/search.py:146-147 | the in-place numbering loop yields the numbered block |
| Orchestrator.OmniSearchService.constructor | search/search.py:132-135 | an empty registry holding the given fetcher and completion client |
| Orchestrator.OmniSearchService.AddEngine | search/search.py:137-138 | the engine map gets the name bound to the engine. A new name is appended to the order; an existing name keeps its position. The registry stays duplicate-free |
| Orchestrator.OmniSearchService.Search | search/search.py:140-153 | the loop over the registry returns exactly the fan-out of the engines' outcomes in registry order, so the fan-out lemmas hold of it |
| Orchestrator.OmniSearchService.SearchByEngine | search/search.py:155-162 | an unregistered name raises "Engine <name> not configured". Otherwise the engine's outcome is propagated. Without enrichment its results are returned exactly as the engine gave them; with enrichment they are the enriched block of `_fetch_content`, so every field but content is kept |
| Orchestrator.OmniSearchService.SearchByEngineAsWritten | search/search.py:155-162 | as written, an unregistered name still raises, and no call returns a non-empty list |
| Orchestrator.SearchByEngineLosesResults | search/search.py:159 | for an engine that returns results, the code as written hands the caller none of them, while the awaited version returns all of them |
| Api.Auth | main.py:24-33 | "/" and "/v1/health" always pass, and everything passes while `API_KEY` is unset or empty. Otherwise a request passes exactly when the scheme is "Bearer" and the credentials equal the key; anything else gets 403 "Forbidden" |
| Api.RegisteredNames | main.py:78-95 | the registry built from the requested names holds only "google" and "duckduckgo", each once, and exactly those of them that were requested ("bing" and others are ignored) |
| Api.RegisteredInFirstRequestOrder | main.py:78-95 | registered names stand in the order of their first request |
| Api.GoogleConfig | main.py:80-83 | the Google configuration: `GOOGLE_API_KEY` as the key, no endpoint override, `cx` from `GOOGLE_CX` or `None` |
| Api.RegisteredEngine | main.py:79-90 | "google" gets a Google adapter with that configuration, "duckduckgo" a DuckDuckGo adapter with region "cn-zh" |
| Api.RegistryMap | main.py:78-90 | the registry's engines for the registered names: defined exactly on those names |
| Api.BuildService | main.py:76-95 | the loop fails exactly when "google" is requested without `GOOGLE_API_KEY`. Otherwise it yields a fresh, valid service whose order is the registered names and whose engines are the Google or DuckDuckGo configurations main.py builds |
| Api.KeyText | main.py:69 | the key text as written: stripped query, `str(max_results)`, `str(fetch_content)` and `str(search_engines)` run together |
| Api.KeyTextCollides | main.py:69 | the plain concatenation gives the query "weather1" with `max_results` 0 the same key text as "weather" with 10 |
| Api.CacheKey | main.py:70 | the as-written cache key: the prefix "search_api.search." before the digest of the key text |
| Api.CollidingRequestsShareEntry | main.py:69-71 | whatever the digest, the colliding requests get one cache key, so the second is answered from the first's entry |
| Api.DelimitedKeyTextInjective | main.py:69-70 | equal delimited keys mean equal stripped query, `max_results`, enrichment flag and engine-list text |
| Api.DelimitedCacheKeySeparates | main.py:69-70 | with a collision-free digest, the delimited key gives the colliding requests different cache keys |
| Api.WhitespaceVariantsAgree | main.py:69-100 | requests that differ only in white space around the query share the key text (as written and delimited), the cache key and the miss results |
| Api.MissResults | main.py:76-100 | what a miss computes: a validation error when "google" is requested without `GOOGLE_API_KEY`, otherwise the fan-out of the stripped query, with the request's options, over the registry built from the requested names |
| Api.Cache.constructor | main.py:18 | an empty store |
| Api.Cache.Get | main.py:71 | finds a value exactly when the key is stored, and returns its data |
| Api.Cache.SetEx | main.py:106 | stores or replaces the entry under the key |
| Api.HandleSearch | main.py:66-107 | with the as-written key (`CacheKey`), a hit returns the cached data with code 0 and "success", and leaves the cache alone; no engine is consulted. A miss without a Google key fails without writing. Otherwise the miss returns the fan-out of the stripped query over the built registry with code 0 and "success", and writes it with TTL `SEARCH_TTL` (default 30) only when it is non-empty |
| Api.SingleDuckDuckGoExample | main.py:78-100 | one DuckDuckGo engine whose library call yields one item, without enrichment: one result, numbered 0, tagged "DuckDuckGo", without content |

## Left out

- Network, library and model calls: `requests.get`, `HTMLSession`, `DDGS` and the OpenAI client. Each is an outcome supplied as a function parameter or field. The model assumes each one gives the same outcome for the same arguments within one request.
- Redis is the `Cache` class, a map from keys to entries. An entry records its TTL, but entries never expire in the model: expiry after `SEARCH_TTL` seconds is left to the environment between requests, so a hit in the model means the entry is still live.
- Concurrency: `asyncio.gather` and `asyncio.to_thread` are modelled as an order-preserving sequential map. A failure of the gather itself is an input flag per engine (`gatherRaised`).
- Aliasing: results are values. The in-place `r.index = i` and `r.content = ...` become updates of copies. A result object shared between two engines' lists is not modelled.
- `HTTPBearer`'s own rejection of a missing or malformed `Authorization` header, which runs before `auth`. FastAPI routing, the process-time middleware, timing and logging are also left out.
- MD5 and JSON: the digest is a function parameter. Cached data is stored as the result list itself rather than its JSON text.
- Api.ListText: Python's `repr` of a list is modelled without the escaping of quotes and backslashes inside names.
- `int(os.environ.get("SEARCH_TTL", 30))`: the environment holds the already parsed integer. A non-numeric value, and Redis's rejection of a non-positive TTL, are not modelled.
- The steps of `_clean_text` before line 62 (encoding detection, BeautifulSoup parsing, tag removal, `get_text`): they are an input function of `SimpleFetch`. `response.html.text` and rendering are input outcomes of `RequestsHtmlFetch`, either of which may raise.
- Engines.DuckDuckGoResult: the UTF-8 encode/decode with `errors='ignore'` before stripping drops only lone surrogates, which Dafny's `char` cannot hold, so only the strip is modelled.
- Engines.Item: provider items are maps from field names to strings. Non-string JSON values, which pydantic would reject, are not modelled.
- `session.close()` in `RequestsHtmlFetcher.fetch`, and the `print`/`logger` calls.
- The Bing branch of the registry loop is commented out in main.py, so Bing engines are never registered there; the Bing adapter itself is modelled.
- search/llm.py and cache/redis.py are thin client wrappers and are not part of this model.

## Findings

| source | as written | input that shows it | evidently intended | confidence | as-written member | corrected member |
|---|---|---|---|---|---|---|
| search/search.py:159 | `self.engines[engine_name].search(query, **kwargs)` is not awaited, so the caller gets a coroutine. With `fetch_content` set, `_fetch_content` cannot iterate it and returns `[]` | any registered engine that returns results | await the engine's search and return its results, enriched when asked | high; not executed | Orchestrator.OmniSearchService.SearchByEngineAsWritten, Orchestrator.SearchByEngineLosesResults | Orchestrator.OmniSearchService.SearchByEngine |
| main.py:69 | the key text is a plain concatenation of the stripped query, `max_results`, the flag and the engine list, so different requests share a cache entry | query "weather1" with `max_results` 0 and query "weather" with `max_results` 10 (both "weather10False['duckduckgo']") | a key that tells requests apart; the corrected key puts the query's length in front and ':' after `max_results`. The handler keeps the as-written key | high; not executed | Api.KeyText, Api.CacheKey, Api.KeyTextCollides, Api.CollidingRequestsShareEntry | Api.DelimitedKeyText, Api.DelimitedCacheKey, Api.DelimitedKeyTextInjective, Api.DelimitedCacheKeySeparates |
