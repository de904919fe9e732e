/**
 * search/search.py, `OmniSearchService`: the ordered registry of named
 * engines, the fan-out of one query to every registered engine with
 * per-engine failure isolation and engine-local numbering, and the optional
 * enrichment of each result with a summary of its page.
 */
module Orchestrator {
  import opened Wrappers
  import opened Fetcher
  import opened Engines

  /** One chat message for the completion client. */
  datatype Message = Message(role: string, content: string)

  /** The fixed system instruction: tidy the useful information of the HTML text, or answer None. */
  const SystemInstruction: string :=
    "你是一个 HTML 数据清理员，请整理我提供的 HTML 文本中的有效信息，如果没有则返回 None"

  /** The two messages sent for one page: the instruction, then the page text. */
  function Prompt(pageText: string): seq<Message> {
    [Message("system", SystemInstruction), Message("user", pageText)]
  }

  /** `fetcher.fetch(url)` run in a worker thread: the record it returns, or what it raised. */
  type PageFetcher = string -> Result<FetchedContent>

  /**
   * `llm_cli.completion(messages)` followed by `.choices[0].message.content`,
   * which may be `None`; or what either raised.
   */
  type CompletionClient = seq<Message> -> Result<Option<string>>

  /** The keyword arguments `search` passes on to every engine. */
  datatype SearchOptions = SearchOptions(maxResults: Option<int>, fetchContent: bool)

  /**
   * What one engine's turn of the fan-out meets: the results its `search`
   * returned or the exception it raised, and whether waiting for that
   * block's enrichment tasks raised.
   */
  datatype EngineRun = EngineRun(reply: Result<seq<SearchResult>>, gatherRaised: bool)

  /**
   * The engine calls of one search, as an input: what the engine registered
   * under a name meets for a query and options.
   */
  type EngineCall = (string, Engine, string, SearchOptions) -> EngineRun

  /** `b` is `a` with at most its `content` changed. */
  predicate SameExceptContent(b: SearchResult, a: SearchResult) {
    && b.title == a.title
    && b.link == a.link
    && b.snippet == a.snippet
    && b.sourceEngine == a.sourceEngine
    && b.index == a.index
  }

  /**
   * `_fetch_content_by_search_result`: fetch the page, ask for a summary of
   * its clean text, store the reply as `content`. The fetch record's `error`
   * is not looked at; a fetch or completion that raises leaves the result
   * as it was.
   */
  function FetchContentBySearchResult(fetcher: PageFetcher, llm: CompletionClient, r: SearchResult)
    : (e: SearchResult)
    ensures SameExceptContent(e, r)
    ensures fetcher(r.link).Err? ==> e == r
    ensures fetcher(r.link).Ok? && llm(Prompt(fetcher(r.link).value.cleanText)).Err? ==> e == r
    ensures fetcher(r.link).Ok? && llm(Prompt(fetcher(r.link).value.cleanText)).Ok? ==>
              e.content == llm(Prompt(fetcher(r.link).value.cleanText)).value
  {
    match fetcher(r.link)
    case Err(_) => r
    case Ok(page) =>
      match llm(Prompt(page.cleanText))
      case Err(_) => r
      case Ok(reply) => r.(content := reply)
  }

  /**
   * `_fetch_content`: enrich every result of a block, keeping the block's
   * length and order; if waiting for the tasks raises, the block is lost.
   */
  function FetchContent(fetcher: PageFetcher, llm: CompletionClient, results: seq<SearchResult>, gatherRaised: bool)
    : (out: seq<SearchResult>)
    ensures gatherRaised ==> out == []
    ensures !gatherRaised ==> |out| == |results|
    ensures !gatherRaised ==> forall i :: 0 <= i < |results| ==>
              && SameExceptContent(out[i], results[i])
              && (fetcher(results[i].link).Err? ==> out[i] == results[i])
              && out[i] == FetchContentBySearchResult(fetcher, llm, results[i])
  {
    if gatherRaised then []
    else seq(|results|, i requires 0 <= i < |results| => FetchContentBySearchResult(fetcher, llm, results[i]))
  }

  /**
   * Both fetchers catch their own exceptions, so with the fetcher main.py
   * installs a page that cannot be fetched still goes to the completion,
   * as empty text, and gets its reply as `content`: only a fetch that
   * raises past the fetcher, or a completion that raises, leaves a result
   * unchanged.
   */
  lemma FailedPageStillSummarised(net: string -> Result<HtmlResponse>, render: bool, llm: CompletionClient, r: SearchResult)
    requires net(r.link).Err?
    ensures var e := FetchContentBySearchResult(url => Ok(RequestsHtmlFetch(url, render, net(url))), llm, r);
            && SameExceptContent(e, r)
            && (llm(Prompt("")).Ok? ==> e.content == llm(Prompt("")).value)
            && (llm(Prompt("")).Err? ==> e == r)
  {
  }

  /** The block after `for i, r in enumerate(results): r.index = i`. */
  function Numbered(results: seq<SearchResult>): seq<SearchResult> {
    seq(|results|, i requires 0 <= i < |results| => results[i].(index := Some(i)))
  }

  /**
   * What one engine adds to the combined list: nothing if it raised;
   * otherwise its results numbered 0..k-1 in the order it returned them,
   * then enriched when asked.
   */
  function Block(fetcher: PageFetcher, llm: CompletionClient, run: EngineRun, fetchContent: bool)
    : (b: seq<SearchResult>)
    ensures run.reply.Err? ==> b == []
    ensures run.reply.Ok? && fetchContent && run.gatherRaised ==> b == []
    ensures run.reply.Ok? && !(fetchContent && run.gatherRaised) ==>
              && |b| == |run.reply.value|
              && forall i :: 0 <= i < |b| ==>
                   && b[i].index == Some(i)
                   && b[i].title == run.reply.value[i].title
                   && b[i].link == run.reply.value[i].link
                   && b[i].snippet == run.reply.value[i].snippet
                   && b[i].sourceEngine == run.reply.value[i].sourceEngine
                   && (!fetchContent ==> b[i].content == run.reply.value[i].content)
    ensures run.reply.Ok? && fetchContent && !run.gatherRaised ==>
              forall i :: 0 <= i < |b| ==>
                b[i] == FetchContentBySearchResult(fetcher, llm, run.reply.value[i].(index := Some(i)))
  {
    match run.reply
    case Err(_) => []
    case Ok(results) =>
      var numbered := Numbered(results);
      if fetchContent then FetchContent(fetcher, llm, numbered, run.gatherRaised) else numbered
  }

  /** The combined list of `search`: the blocks of the engines, in registry order. */
  function FanOut(fetcher: PageFetcher, llm: CompletionClient, runs: seq<EngineRun>, fetchContent: bool)
    : seq<SearchResult>
  {
    if runs == [] then []
    else FanOut(fetcher, llm, runs[..|runs| - 1], fetchContent) + Block(fetcher, llm, runs[|runs| - 1], fetchContent)
  }

  /** The number of results the engines that did not raise returned. */
  function SuccessCount(runs: seq<EngineRun>): nat {
    if runs == [] then 0
    else
      var last := runs[|runs| - 1];
      SuccessCount(runs[..|runs| - 1]) + (if last.reply.Ok? then |last.reply.value| else 0)
  }

  /** The engine calls of one search, one per registered name, in registry order. */
  function Runs(order: seq<string>, engines: map<string, Engine>, call: EngineCall, query: string, opts: SearchOptions)
    : seq<EngineRun>
    requires forall name :: name in order ==> name in engines
  {
    seq(|order|, k requires 0 <= k < |order| => call(order[k], engines[order[k]], query, opts))
  }

  /** The combined list of two groups of engines is the first group's list followed by the second's. */
  lemma {:induction false} FanOutAppend(fetcher: PageFetcher, llm: CompletionClient, a: seq<EngineRun>, b: seq<EngineRun>, fetchContent: bool)
    ensures FanOut(fetcher, llm, a + b, fetchContent) == FanOut(fetcher, llm, a, fetchContent) + FanOut(fetcher, llm, b, fetchContent)
  {
    if b == [] {
      assert a + b == a;
    } else {
      var n := |b|;
      var front, last := b[..n - 1], b[n - 1];
      assert (a + b)[..|a + b| - 1] == a + front;
      assert (a + b)[|a + b| - 1] == last;
      var block := Block(fetcher, llm, last, fetchContent);
      FanOutAppend(fetcher, llm, a, front, fetchContent);
      calc {
        FanOut(fetcher, llm, a + b, fetchContent);
        FanOut(fetcher, llm, a + front, fetchContent) + block;
        (FanOut(fetcher, llm, a, fetchContent) + FanOut(fetcher, llm, front, fetchContent)) + block;
        FanOut(fetcher, llm, a, fetchContent) + (FanOut(fetcher, llm, front, fetchContent) + block);
        FanOut(fetcher, llm, a, fetchContent) + FanOut(fetcher, llm, b, fetchContent);
      }
    }
  }

  /**
   * The blocks stand in registry order: the combined list is what the
   * engines before engine `k` contribute, then engine `k`'s own block, then
   * what the engines after it contribute.
   */
  lemma FanOutBlocks(fetcher: PageFetcher, llm: CompletionClient, runs: seq<EngineRun>, fetchContent: bool, k: nat)
    requires k < |runs|
    ensures FanOut(fetcher, llm, runs, fetchContent)
            == FanOut(fetcher, llm, runs[..k], fetchContent)
               + Block(fetcher, llm, runs[k], fetchContent)
               + FanOut(fetcher, llm, runs[k + 1..], fetchContent)
  {
    assert runs == runs[..k] + ([runs[k]] + runs[k + 1..]);
    FanOutAppend(fetcher, llm, runs[..k], [runs[k]] + runs[k + 1..], fetchContent);
    FanOutAppend(fetcher, llm, [runs[k]], runs[k + 1..], fetchContent);
    assert FanOut(fetcher, llm, [runs[k]], fetchContent) == Block(fetcher, llm, runs[k], fetchContent) by {
      assert [runs[k]][..0] == [];
    }
  }

  /**
   * An engine that raises contributes nothing, and the others contribute
   * exactly what they would without it, in the same order.
   */
  lemma FailedEngineIsolated(fetcher: PageFetcher, llm: CompletionClient, runs: seq<EngineRun>, fetchContent: bool, k: nat, failure: EngineRun)
    requires k < |runs|
    requires failure.reply.Err?
    ensures FanOut(fetcher, llm, runs[k := failure], fetchContent)
            == FanOut(fetcher, llm, runs[..k], fetchContent) + FanOut(fetcher, llm, runs[k + 1..], fetchContent)
  {
    var failed := runs[k := failure];
    assert failed[k] == failure;
    assert Block(fetcher, llm, failure, fetchContent) == [];
    assert failed[..k] == runs[..k];
    assert failed[k + 1..] == runs[k + 1..];
    FanOutBlocks(fetcher, llm, failed, fetchContent, k);
  }

  /**
   * Unless an enrichment wait raised, the combined list has as many
   * results as the engines that did not raise returned, all together.
   */
  lemma {:induction false} FanOutLength(fetcher: PageFetcher, llm: CompletionClient, runs: seq<EngineRun>, fetchContent: bool)
    requires forall k :: 0 <= k < |runs| ==> !(fetchContent && runs[k].gatherRaised)
    ensures |FanOut(fetcher, llm, runs, fetchContent)| == SuccessCount(runs)
  {
    if runs != [] {
      FanOutLength(fetcher, llm, runs[..|runs| - 1], fetchContent);
    }
  }

  /**
   * Without enrichment the `content` of every combined result is the one
   * its engine gave it: unset when the engines leave it unset.
   */
  lemma {:induction false} FanOutContentUnset(fetcher: PageFetcher, llm: CompletionClient, runs: seq<EngineRun>)
    requires forall k :: 0 <= k < |runs| && runs[k].reply.Ok? ==>
               forall x :: x in runs[k].reply.value ==> x.content.None?
    ensures forall x :: x in FanOut(fetcher, llm, runs, false) ==> x.content.None?
  {
    if runs != [] {
      var last := runs[|runs| - 1];
      FanOutContentUnset(fetcher, llm, runs[..|runs| - 1]);
      var b := Block(fetcher, llm, last, false);
      forall x | x in b
        ensures x.content.None?
      {
        var i :| 0 <= i < |b| && b[i] == x;
        assert last.reply.value[i] in last.reply.value;
      }
    }
  }

  lemma FanOutStep(fetcher: PageFetcher, llm: CompletionClient, runs: seq<EngineRun>, fetchContent: bool, k: nat)
    requires k < |runs|
    ensures FanOut(fetcher, llm, runs[..k + 1], fetchContent)
            == FanOut(fetcher, llm, runs[..k], fetchContent) + Block(fetcher, llm, runs[k], fetchContent)
  {
    assert runs[..k + 1][..k] == runs[..k];
  }

  /** `for i, r in enumerate(results): r.index = i`, one result at a time. */
  method NumberResults(found: seq<SearchResult>) returns (results: seq<SearchResult>)
    ensures results == Numbered(found)
  {
    results := found;
    var i := 0;
    while i < |results|
      invariant 0 <= i <= |results| == |found|
      invariant forall j :: 0 <= j < i ==> results[j] == found[j].(index := Some(j))
      invariant forall j :: i <= j < |results| ==> results[j] == found[j]
    {
      results := results[i := results[i].(index := Some(i))];
      i := i + 1;
    }
  }

  /** The outcome of `search_by_engine` as written (see the class). */
  datatype ByEngineAsWritten =
    | NotConfigured(message: string)
    | Unawaited(engineName: string)
    | Returned(results: seq<SearchResult>)

  class OmniSearchService {
    /** The registry's names in insertion order (the order of the Python dict). */
    var order: seq<string>
    /** The engine registered under each name. */
    var engines: map<string, Engine>
    const fetcher: PageFetcher
    const llm: CompletionClient

    /** The registry holds each name once, and exactly the names in `order`. */
    ghost predicate Valid()
      reads this
    {
      && (forall i, j :: 0 <= i < j < |order| ==> order[i] != order[j])
      && (forall name :: name in engines <==> name in order)
    }

    /** `OmniSearchService(fetcher, llm_cli)`: an empty registry. */
    constructor (fetcher: PageFetcher, llm: CompletionClient)
      ensures Valid()
      ensures order == [] && engines == map[]
      ensures this.fetcher == fetcher && this.llm == llm
    {
      order := [];
      engines := map[];
      this.fetcher := fetcher;
      this.llm := llm;
    }

    /**
     * `add_engine`: a new name goes last; an existing name keeps its
     * position and gets the new engine.
     */
    method AddEngine(name: string, engine: Engine)
      requires Valid()
      modifies this
      ensures Valid()
      ensures engines == old(engines)[name := engine]
      ensures order == if name in old(order) then old(order) else old(order) + [name]
    {
      if name !in engines {
        order := order + [name];
      }
      engines := engines[name := engine];
    }

    /**
     * `search`: each registered engine in turn, its failure caught; its
     * results numbered from 0 in place, enriched when asked, appended.
     */
    method Search(query: string, opts: SearchOptions, call: EngineCall) returns (all: seq<SearchResult>)
      requires Valid()
      ensures all == FanOut(fetcher, llm, Runs(order, engines, call, query, opts), opts.fetchContent)
    {
      ghost var runs := Runs(order, engines, call, query, opts);
      all := [];
      var k := 0;
      while k < |order|
        invariant 0 <= k <= |order|
        invariant all == FanOut(fetcher, llm, runs[..k], opts.fetchContent)
      {
        var name := order[k];
        var run := call(name, engines[name], query, opts);
        assert run == runs[k];
        ghost var block := Block(fetcher, llm, run, opts.fetchContent);
        match run.reply {
          case Err(_) =>
            assert block == [];
          case Ok(found) =>
            var results := NumberResults(found);
            if opts.fetchContent {
              results := FetchContent(fetcher, llm, results, run.gatherRaised);
            }
            assert results == block;
            all := all + results;
        }
        FanOutStep(fetcher, llm, runs, opts.fetchContent, k);
        k := k + 1;
      }
      assert runs[..|order|] == runs;
    }

    /**
     * `search_by_engine` as it is meant to work: an unregistered name raises
     * `ValueError`; otherwise the engine's results (or its exception) are
     * returned, enriched when asked, without numbering.
     */
    function SearchByEngine(name: string, query: string, opts: SearchOptions, call: EngineCall)
      : (r: Result<seq<SearchResult>>)
      reads this
      ensures name !in engines ==> r == Err("Engine " + name + " not configured")
      ensures name in engines ==> (r.Ok? <==> call(name, engines[name], query, opts).reply.Ok?)
      ensures name in engines && r.Ok? && !(opts.fetchContent && call(name, engines[name], query, opts).gatherRaised) ==>
                var found := call(name, engines[name], query, opts).reply.value;
                |r.value| == |found| && forall i :: 0 <= i < |found| ==> SameExceptContent(r.value[i], found[i])
      ensures name in engines && r.Ok? && !opts.fetchContent ==>
                r.value == call(name, engines[name], query, opts).reply.value
      ensures name in engines && r.Ok? && opts.fetchContent ==>
                var run := call(name, engines[name], query, opts);
                r.value == FetchContent(fetcher, llm, run.reply.value, run.gatherRaised)
    {
      if name !in engines then Err("Engine " + name + " not configured")
      else
        var run := call(name, engines[name], query, opts);
        match run.reply
        case Err(e) => Err(e)
        case Ok(found) =>
          Ok(if opts.fetchContent then FetchContent(fetcher, llm, found, run.gatherRaised) else found)
    }

    /**
     * `search_by_engine` as written: the engine's coroutine is never
     * awaited, so without enrichment the caller receives the coroutine
     * itself, and with enrichment `_fetch_content` fails to iterate it,
     * catches the `TypeError` and returns an empty list.
     */
    function SearchByEngineAsWritten(name: string, opts: SearchOptions): (r: ByEngineAsWritten)
      reads this
      ensures r.NotConfigured? <==> name !in engines
      ensures r.Returned? ==> r.results == []
    {
      if name !in engines then NotConfigured("Engine " + name + " not configured")
      else if opts.fetchContent then Returned([])
      else Unawaited(name)
    }
  }

  /**
   * The missing `await` loses every result: for a registered engine that
   * returns results, the code as written yields no list holding them,
   * while the intended version returns all of them.
   */
  lemma SearchByEngineLosesResults(s: OmniSearchService, name: string, query: string, opts: SearchOptions, call: EngineCall)
    requires name in s.engines
    requires call(name, s.engines[name], query, opts).reply.Ok?
    requires |call(name, s.engines[name], query, opts).reply.value| > 0
    requires !call(name, s.engines[name], query, opts).gatherRaised
    ensures !(s.SearchByEngineAsWritten(name, opts).Returned? &&
              |s.SearchByEngineAsWritten(name, opts).results| > 0)
    ensures s.SearchByEngine(name, query, opts, call).Ok?
    ensures |s.SearchByEngine(name, query, opts, call).value| == |call(name, s.engines[name], query, opts).reply.value|
  {
  }
}
