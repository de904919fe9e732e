/**
 * search/fetcher.py: the record a content fetcher returns for a page and
 * the final line clean-up of `SimpleFetcher._clean_text`.
 */
module Fetcher {
  import opened Wrappers
  import opened Text

  /** `FetchedContent`: a fetch reports failure through a non-empty `error`. */
  datatype FetchedContent = FetchedContent(
    url: string,
    rawContent: string,
    cleanText: string,
    statusCode: int,
    error: string)

  /** `FetchedContent(url=url, error=str(e))`: every other field keeps its default. */
  function ErrorRecord(url: string, message: string): (f: FetchedContent)
    ensures IsErrorShape(f) && f.url == url && f.error == message
  {
    FetchedContent(url, "", "", 0, message)
  }

  /** The shape of a failed fetch: no page text and status code 0. */
  predicate IsErrorShape(f: FetchedContent) {
    f.rawContent == "" && f.cleanText == "" && f.statusCode == 0
  }

  /** The lines `_clean_text` keeps: each stripped, the blank ones dropped, in order. */
  function CleanedLines(lines: seq<string>): (r: seq<string>)
    ensures |r| <= |lines|
    ensures forall line :: line in r ==> line != "" && Strip(line) == line
  {
    if lines == [] then []
    else
      var s := Strip(lines[0]);
      StripIdempotent(lines[0]);
      var rest := CleanedLines(lines[1..]);
      var r := (if s == "" then [] else [s]) + rest;
      assert forall line :: line in r ==> line == s || line in rest;
      r
  }

  /** A line is kept exactly when some input line strips to it and it is not empty. */
  lemma {:induction false} CleanedLinesMembers(lines: seq<string>, line: string)
    ensures line in CleanedLines(lines) <==> line != "" && exists l :: l in lines && Strip(l) == line
  {
    if lines != [] {
      CleanedLinesMembers(lines[1..], line);
      if line != "" && Strip(lines[0]) != line {
        if l :| l in lines && Strip(l) == line {
          assert l in lines[1..];
        }
      }
      if line in CleanedLines(lines[1..]) {
        var l :| l in lines[1..] && Strip(l) == line;
        assert l in lines;
      }
    }
  }

  /** No cleaned line holds a character that no input line holds. */
  lemma {:induction false} CleanedLinesAvoid(lines: seq<string>, c: char)
    requires forall l :: l in lines ==> c !in l
    ensures forall line :: line in CleanedLines(lines) ==> c !in line
  {
    if lines != [] {
      assert lines[0] in lines;
      assert forall l :: l in lines[1..] ==> l in lines;
      CleanedLinesAvoid(lines[1..], c);
    }
  }

  /** Cleaning works line by line: the lines of a concatenation clean to the concatenation of the cleaned parts. */
  lemma {:induction false} CleanedLinesAppend(a: seq<string>, b: seq<string>)
    ensures CleanedLines(a + b) == CleanedLines(a) + CleanedLines(b)
  {
    if a != [] {
      assert (a + b)[0] == a[0];
      assert (a + b)[1..] == a[1..] + b;
      CleanedLinesAppend(a[1..], b);
    } else {
      assert a + b == b;
    }
  }

  /** Lines that are already stripped and non-blank are kept as they are. */
  lemma {:induction false} CleanedLinesOfClean(lines: seq<string>)
    requires forall line :: line in lines ==> line != "" && Strip(line) == line
    ensures CleanedLines(lines) == lines
  {
    if lines != [] {
      assert lines[0] in lines;
      assert forall line :: line in lines[1..] ==> line in lines;
      CleanedLinesOfClean(lines[1..]);
    }
  }

  /** Line 62 of `_clean_text`: `'\n'.join(line.strip() for line in text.split('\n') if line.strip())`. */
  function CleanText(text: string): string {
    Join(CleanedLines(Split(text, '\n')), '\n')
  }

  /**
   * The lines of the cleaned text are exactly the non-blank lines of the
   * input, stripped, in the same order; the cleaned text is empty exactly
   * when every input line is blank.
   */
  lemma CleanTextLines(text: string)
    ensures CleanText(text) == "" <==> CleanedLines(Split(text, '\n')) == []
    ensures CleanText(text) != "" ==> Split(CleanText(text), '\n') == CleanedLines(Split(text, '\n'))
  {
    var lines := CleanedLines(Split(text, '\n'));
    if lines != [] {
      assert lines[0] in lines;
      assert Join(lines, '\n')[..|lines[0]|] == lines[0];
      CleanedLinesAvoid(Split(text, '\n'), '\n');
      SplitJoin(lines, '\n');
    }
  }

  /** The cleaned text holds no empty line. */
  lemma CleanTextNoBlankLines(text: string)
    ensures CleanText(text) == "" || forall line :: line in Split(CleanText(text), '\n') ==> line != ""
  {
    CleanTextLines(text);
  }

  /** No line of the cleaned text starts or ends with white space. */
  lemma CleanTextStrippedLines(text: string)
    ensures forall line :: line in Split(CleanText(text), '\n') ==> Strip(line) == line
  {
    CleanTextLines(text);
  }

  /** Cleaning an already cleaned text changes nothing. */
  lemma CleanTextIdempotent(text: string)
    ensures CleanText(CleanText(text)) == CleanText(text)
  {
    CleanTextLines(text);
    var once := CleanText(text);
    if once == "" {
      assert Split(once, '\n') == [""];
      assert CleanedLines([""]) == [];
    } else {
      CleanedLinesOfClean(Split(once, '\n'));
    }
  }

  /** What `requests.get` answered: the body text and the status code. */
  datatype HttpResponse = HttpResponse(text: string, statusCode: int)

  /**
   * `SimpleFetcher.fetch`. `response` is what `requests.get` returned or
   * raised; `extract` stands for the steps of `_clean_text` before its last
   * line (encoding guess, HTML parse, tag removal, `get_text`), which may
   * raise too. Any exception yields the error record.
   */
  function SimpleFetch(url: string, response: Result<HttpResponse>, extract: string -> Result<string>)
    : (f: FetchedContent)
    ensures f.url == url
    ensures IsErrorShape(f) || f.error == ""
    ensures response.Err? ==> f == ErrorRecord(url, response.message)
    ensures response.Ok? && extract(response.value.text).Err? ==>
              f == ErrorRecord(url, extract(response.value.text).message)
    ensures response.Ok? && extract(response.value.text).Ok? ==>
              && f.error == ""
              && f.rawContent == response.value.text
              && f.statusCode == response.value.statusCode
              && f.cleanText == CleanText(extract(response.value.text).value)
    ensures f.error == "" && f.cleanText != "" ==>
              forall line :: line in Split(f.cleanText, '\n') ==> line != "" && Strip(line) == line
  {
    match response
    case Err(e) => ErrorRecord(url, e)
    case Ok(page) =>
      match extract(page.text)
      case Err(e) => ErrorRecord(url, e)
      case Ok(text) =>
        CleanTextNoBlankLines(text);
        CleanTextStrippedLines(text);
        FetchedContent(url, page.text, CleanText(text), page.statusCode, "")
  }

  /**
   * What `HTMLSession.get` answered: the body text, the status code, the
   * outcome of reading the page's own text (`response.html.text`, which may
   * raise) and the outcome of rendering the page (`response.html.render`)
   * and then reading its text, which replaces the unrendered text.
   */
  datatype HtmlResponse = HtmlResponse(text: string, statusCode: int, htmlText: Result<string>, rendered: Result<string>)

  /**
   * `RequestsHtmlFetcher.fetch`: the page text is taken as it is, without
   * the line clean-up; with `render` set it is the rendered text. A failed
   * render, or a page text that cannot be read, is a failed fetch.
   */
  function RequestsHtmlFetch(url: string, render: bool, response: Result<HtmlResponse>): (f: FetchedContent)
    ensures f.url == url
    ensures IsErrorShape(f) || f.error == ""
    ensures response.Err? ==> f == ErrorRecord(url, response.message)
    ensures response.Ok? && render && response.value.rendered.Err? ==>
              f == ErrorRecord(url, response.value.rendered.message)
    ensures response.Ok? && !render && response.value.htmlText.Err? ==>
              f == ErrorRecord(url, response.value.htmlText.message)
    ensures response.Ok? && (if render then response.value.rendered.Ok? else response.value.htmlText.Ok?) ==>
              && f.error == ""
              && f.rawContent == response.value.text
              && f.statusCode == response.value.statusCode
              && f.cleanText == (if render then response.value.rendered.value else response.value.htmlText.value)
  {
    match response
    case Err(e) => ErrorRecord(url, e)
    case Ok(page) =>
      if render then
        match page.rendered
        case Err(e) => ErrorRecord(url, e)
        case Ok(text) => FetchedContent(url, page.text, text, page.statusCode, "")
      else
        match page.htmlText
        case Err(e) => ErrorRecord(url, e)
        case Ok(text) => FetchedContent(url, page.text, text, page.statusCode, "")
  }
}
