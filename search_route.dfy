/** The search endpoint (app/api/search/route.ts): validate the query, fetch search
    results, build the prompt, ask the language model, keep the text of its reply and
    answer with that text and one citation per result, or with a single error object.
    The search provider and the language model are function parameters; the handler
    also returns the list of calls it made to them, in order. */
module SearchRoute {
  import opened Wrappers
  import opened SearchTypes
  import opened SearchProvider
  import AppSearch

  /** The request body: one the handler cannot destructure (not JSON, or JSON `null`), or an
      object whose `query` may be absent. */
  datatype RequestBody = Unparsable(message: string) | Json(query: Option<string>)

  /** A content block of the model's reply: a block of type 'text', or a block of any other
      type, whose fields the handler never reads. */
  datatype ContentBlock = TextBlock(text: string) | OtherBlock

  /** One call to the language model with a single user message holding the prompt. */
  datatype ModelRequest = ModelRequest(model: string, maxTokens: nat, temperature: real, system: string, prompt: string)

  /** The model call either fails with an error message or yields a message's content blocks. */
  datatype ModelReply = ModelFailed(message: string) | Message(content: seq<ContentBlock>)

  datatype ResponseBody = ErrorBody(error: string) | AnswerBody(response: AIResponse)

  datatype HttpResponse = HttpResponse(status: int, body: ResponseBody)

  /** A call the handler made to a service outside the model. */
  datatype UpstreamCall = SearchCall(params: SearchParams) | ModelCall(request: ModelRequest)

  const QueryRequired := "Query is required"
  const FallbackMessage := "An error occurred"

  const ModelName := "claude-3-opus-20240229"
  const MaxTokens := 2000
  const Temperature := 0.7
  const SystemInstruction := "You are a helpful AI assistant that provides accurate, well-cited answers based on search results. Use clear citations and maintain a neutral, informative tone."

  // ---------------------------------------------------------------- validation

  /** The handler's `!query` test: only an absent or empty query is refused. */
  predicate Present(query: Option<string>)
  {
    query.Some? && query.value != ""
  }

  // ---------------------------------------------------------------- prompt

  /** The template text before the query. */
  const QueryLead := "\n      Based on the following search results, please provide a comprehensive answer to the query: \""

  /** The template text between the query and the results section. */
  const ResultsLead := "\"\n      \n      Search Results:\n      "

  /** The template text after the results section. */
  const Footer := "\n      \n      Please provide a well-structured answer that:\n      1. Synthesizes information from multiple sources\n      2. Cites specific sources using [1], [2], etc.\n      3. Maintains accuracy and relevance to the query\n      4. Provides a balanced perspective when applicable\n    "

  function Header(query: string): string
  {
    QueryLead + query + ResultsLead
  }

  /** The block one search result contributes to the prompt, ending in a `---` line. */
  function ResultBlock(r: SearchResult): string
  {
    "\n        Title: " + r.title + "\n        URL: " + r.link + "\n        Snippet: " + r.snippet + "\n        ---\n      "
  }

  function Blocks(results: seq<SearchResult>): seq<string>
  {
    seq(|results|, i requires 0 <= i < |results| => ResultBlock(results[i]))
  }

  /** The parts with `sep` between neighbours, as an array's `join` does. */
  function Join(parts: seq<string>, sep: string): string
  {
    if |parts| == 0 then ""
    else if |parts| == 1 then parts[0]
    else parts[0] + sep + Join(parts[1..], sep)
  }

  /** Where part i starts in `Join(parts, sep)`. */
  function Offset(parts: seq<string>, sep: string, i: nat): nat
    requires i <= |parts|
  {
    if i == 0 then 0 else |parts[0]| + |sep| + Offset(parts[1..], sep, i - 1)
  }

  function BuildPrompt(query: string, results: seq<SearchResult>): string
  {
    Header(query) + Join(Blocks(results), "\n") + Footer
  }

  /** Part i of a join sits at its offset, and the next part starts one separator after it. */
  lemma {:induction false} JoinAt(parts: seq<string>, sep: string, i: nat)
    requires i < |parts|
    ensures Offset(parts, sep, i) + |parts[i]| <= |Join(parts, sep)|
    ensures Join(parts, sep)[Offset(parts, sep, i)..Offset(parts, sep, i) + |parts[i]|] == parts[i]
    ensures i + 1 < |parts| ==> Offset(parts, sep, i + 1) == Offset(parts, sep, i) + |parts[i]| + |sep|
  {
    if |parts| == 1 {
    } else {
      var head := parts[0] + sep;
      var rest := Join(parts[1..], sep);
      assert Join(parts, sep) == head + rest;
      if i == 0 {
        SliceLeft(parts[0], sep + rest, |parts[0]|);
        assert head + rest == parts[0] + (sep + rest);
      } else {
        JoinAt(parts[1..], sep, i - 1);
        var o := Offset(parts[1..], sep, i - 1);
        SliceRight(head, rest, o, o + |parts[i]|);
      }
    }
  }

  lemma SliceLeft(a: string, b: string, y: nat)
    requires y <= |a|
    ensures (a + b)[..y] == a[..y]
  {
  }

  lemma SliceRight(a: string, b: string, x: nat, y: nat)
    requires x <= y <= |b|
    ensures (a + b)[|a| + x..|a| + y] == b[x..y]
  {
  }

  /** Between part i and part i + 1 of a join stands exactly the separator. */
  lemma {:induction false} JoinGap(parts: seq<string>, sep: string, i: nat)
    requires i + 1 < |parts|
    ensures Offset(parts, sep, i + 1) == Offset(parts, sep, i) + |parts[i]| + |sep|
    ensures Offset(parts, sep, i + 1) <= |Join(parts, sep)|
    ensures Join(parts, sep)[Offset(parts, sep, i) + |parts[i]|..Offset(parts, sep, i + 1)] == sep
  {
    var head := parts[0] + sep;
    var rest := Join(parts[1..], sep);
    assert Join(parts, sep) == head + rest;
    if i == 0 {
      SliceLeft(head, rest, |head|);
      SliceRight(parts[0], sep, 0, |sep|);
      assert (head + rest)[|parts[0]|..|head|] == head[|parts[0]|..];
    } else {
      JoinGap(parts[1..], sep, i - 1);
      var o := Offset(parts[1..], sep, i - 1) + |parts[i]|;
      SliceRight(head, rest, o, o + |sep|);
    }
  }

  /** A join ends with its last part: nothing follows it. */
  lemma {:induction false} JoinLength(parts: seq<string>, sep: string)
    requires |parts| > 0
    ensures |Join(parts, sep)| == Offset(parts, sep, |parts| - 1) + |parts[|parts| - 1]|
  {
    if |parts| > 1 {
      var n := |parts|;
      JoinLength(parts[1..], sep);
      assert Join(parts, sep) == parts[0] + sep + Join(parts[1..], sep);
      assert parts[n - 1] == parts[1..][n - 2];
      assert Offset(parts, sep, n - 1) == |parts[0]| + |sep| + Offset(parts[1..], sep, n - 2);
    }
  }

  /** The middle piece of a three-part string is found again by slicing at the lengths. */
  lemma SliceMiddle(a: string, b: string, c: string)
    ensures (a + b + c)[|a|..|a| + |b|] == b
  {
    assert (a + b + c)[|a|..|a| + |b|] == (a + b + c)[..|a| + |b|][|a|..];
    assert (a + b + c)[..|a| + |b|] == a + b;
  }

  lemma Regroup(x: string, r: string, j: string, f: string)
    ensures x + r + j + f == x + (r + j + f)
  {
  }

  /** The prompt quotes the query verbatim right after the opening instruction. */
  lemma PromptEmbedsQuery(query: string, results: seq<SearchResult>)
    ensures |QueryLead| + |query| <= |BuildPrompt(query, results)|
    ensures BuildPrompt(query, results)[|QueryLead|..|QueryLead| + |query|] == query
  {
    var j := Join(Blocks(results), "\n");
    Regroup(QueryLead + query, ResultsLead, j, Footer);
    SliceMiddle(QueryLead, query, ResultsLead + j + Footer);
  }

  /** Without results the results section is empty: the template closes right after it opens. */
  lemma PromptWithoutResults(query: string)
    ensures BuildPrompt(query, []) == QueryLead + query + ResultsLead + Footer
  {
  }

  /** Result i's block appears in the prompt at a fixed place after the header, and the
      block of result i + 1 starts after it, one newline later: the results are listed
      in order, so the citation number i + 1 names result i. */
  lemma PromptListsResultsInOrder(query: string, results: seq<SearchResult>, i: nat)
    requires i < |results|
    ensures var at := |Header(query)| + Offset(Blocks(results), "\n", i);
      && at + |ResultBlock(results[i])| <= |BuildPrompt(query, results)|
      && BuildPrompt(query, results)[at..at + |ResultBlock(results[i])|] == ResultBlock(results[i])
      && (i + 1 < |results| ==>
            Offset(Blocks(results), "\n", i + 1) == Offset(Blocks(results), "\n", i) + |ResultBlock(results[i])| + 1)
  {
    JoinAt(Blocks(results), "\n", i);
    JoinedSectionAt(Header(query), Blocks(results), "\n", Footer, i);
  }

  lemma SliceAt(a: string, b: string, c: string, x: nat, y: nat)
    requires x <= y <= |b|
    ensures (a + b + c)[|a| + x..|a| + y] == b[x..y]
  {
    assert (a + b + c)[|a| + x..|a| + y] == (a + b + c)[..|a| + |b|][|a| + x..|a| + y];
    assert (a + b + c)[..|a| + |b|] == a + b;
  }

  lemma Suffix(a: string, b: string, c: string)
    ensures (a + b + c)[|a| + |b|..] == c
  {
  }

  /** In `h + Join(parts, sep) + f`, part i stands right after `h` at its join offset. */
  lemma JoinedSectionAt(h: string, parts: seq<string>, sep: string, f: string, i: nat)
    requires i < |parts|
    ensures |h| + Offset(parts, sep, i) + |parts[i]| <= |h + Join(parts, sep) + f|
    ensures (h + Join(parts, sep) + f)[|h| + Offset(parts, sep, i)..|h| + Offset(parts, sep, i) + |parts[i]|] == parts[i]
  {
    JoinAt(parts, sep, i);
    var o := Offset(parts, sep, i);
    SliceAt(h, Join(parts, sep), f, o, o + |parts[i]|);
  }

  /** In `h + Join(parts, "\n") + f`, one newline follows every part but the last, and `f`
      follows the last. */
  lemma {:induction false} JoinedSectionBounds(h: string, parts: seq<string>, f: string, i: nat)
    requires i < |parts|
    ensures var whole, end := h + Join(parts, "\n") + f, |h| + Offset(parts, "\n", i) + |parts[i]|;
      && end <= |whole|
      && (i + 1 < |parts| ==> end + 1 <= |whole| && whole[end..end + 1] == "\n")
      && (i + 1 == |parts| ==> whole[end..] == f)
  {
    var j := Join(parts, "\n");
    var o := Offset(parts, "\n", i) + |parts[i]|;
    JoinAt(parts, "\n", i);
    if i + 1 < |parts| {
      JoinGap(parts, "\n", i);
      SliceAt(h, j, f, o, o + 1);
    } else {
      JoinLength(parts, "\n");
      Suffix(h, j, f);
    }
  }

  /** Neighbouring result blocks are separated by exactly one newline, and the closing
      instructions follow the last block directly: the results section is the blocks joined
      by newlines and nothing else. */
  lemma PromptSeparatesBlocks(query: string, results: seq<SearchResult>, i: nat)
    requires i < |results|
    ensures var blocks := Blocks(results);
      var end := |Header(query)| + Offset(blocks, "\n", i) + |blocks[i]|;
      && end <= |BuildPrompt(query, results)|
      && (i + 1 < |results| ==>
            end + 1 <= |BuildPrompt(query, results)| && BuildPrompt(query, results)[end..end + 1] == "\n")
      && (i + 1 == |results| ==> BuildPrompt(query, results)[end..] == Footer)
  {
    JoinedSectionBounds(Header(query), Blocks(results), Footer, i);
  }

  // ---------------------------------------------------------------- answer

  /** The texts of the text blocks, in order. */
  function Texts(content: seq<ContentBlock>): seq<string>
  {
    if content == [] then []
    else (if content[0].TextBlock? then [content[0].text] else []) + Texts(content[1..])
  }

  function Concat(parts: seq<string>): string
  {
    if parts == [] then "" else parts[0] + Concat(parts[1..])
  }

  /** The answer a reply's content yields: its text blocks' texts, concatenated in order. */
  function AnswerText(content: seq<ContentBlock>): string
  {
    Concat(Texts(content))
  }

  lemma {:induction false} TextsAppend(a: seq<ContentBlock>, b: seq<ContentBlock>)
    ensures Texts(a + b) == Texts(a) + Texts(b)
  {
    if a == [] {
      assert a + b == b;
    } else {
      assert (a + b)[0] == a[0];
      assert (a + b)[1..] == a[1..] + b;
      TextsAppend(a[1..], b);
    }
  }

  lemma {:induction false} ConcatAppend(a: seq<string>, b: seq<string>)
    ensures Concat(a + b) == Concat(a) + Concat(b)
  {
    if a == [] {
      assert a + b == b;
    } else {
      assert (a + b)[0] == a[0];
      assert (a + b)[1..] == a[1..] + b;
      ConcatAppend(a[1..], b);
    }
  }

  /** The answer of two pieces of content is the first's answer followed by the second's. */
  lemma AnswerTextAppend(a: seq<ContentBlock>, b: seq<ContentBlock>)
    ensures AnswerText(a + b) == AnswerText(a) + AnswerText(b)
  {
    TextsAppend(a, b);
    ConcatAppend(Texts(a), Texts(b));
  }

  /** A reply with no text block yields the empty answer rather than an error. */
  lemma {:induction false} NonTextContentYieldsEmptyAnswer(content: seq<ContentBlock>)
    requires forall i :: 0 <= i < |content| ==> content[i].OtherBlock?
    ensures AnswerText(content) == ""
  {
    if content != [] {
      NonTextContentYieldsEmptyAnswer(content[1..]);
      assert Texts(content) == Texts(content[1..]);
    }
  }

  /** The loop over the reply's content that appends every text block's text. */
  method AssembleAnswer(content: seq<ContentBlock>) returns (answer: string)
    ensures answer == AnswerText(content)
  {
    answer := "";
    var i := 0;
    while i < |content|
      invariant 0 <= i <= |content|
      invariant answer == AnswerText(content[..i])
    {
      var block := content[i];
      if block.TextBlock? {
        answer := answer + block.text;
      }
      AnswerTextAppend(content[..i], [block]);
      assert Texts([block]) == (if block.TextBlock? then [block.text] else []) + Texts([]);
      assert content[..i + 1] == content[..i] + [block];
      i := i + 1;
    }
    assert content[..i] == content;
  }

  // ---------------------------------------------------------------- citations

  function Cite(r: SearchResult): Citation
  {
    Citation(r.title, r.link, r.snippet)
  }

  /** One citation per search result, in the same order, without the rank. */
  function Citations(results: seq<SearchResult>): (cs: seq<Citation>)
    ensures |cs| == |results|
    ensures forall i :: 0 <= i < |cs| ==>
      cs[i].title == results[i].title && cs[i].link == results[i].link && cs[i].snippet == results[i].snippet
  {
    seq(|results|, i requires 0 <= i < |results| => Cite(results[i]))
  }

  /** Citing normalised results gives back the provider's entries in the provider's order,
      and the citation at index i is the source whose rank is i + 1. */
  lemma CitationNumbering(organic: seq<OrganicResult>)
    ensures |Citations(AppSearch.Normalise(organic))| == |organic|
    ensures forall i :: 0 <= i < |organic| ==>
      && Citations(AppSearch.Normalise(organic))[i] == Citation(organic[i].title, organic[i].link, organic[i].snippet)
      && AppSearch.Normalise(organic)[i].position == i + 1
  {
  }

  // ---------------------------------------------------------------- handler

  /** The model call the handler makes for a prompt. */
  function ModelRequestFor(prompt: string): ModelRequest
  {
    ModelRequest(ModelName, MaxTokens, Temperature, SystemInstruction, prompt)
  }

  /** The 500 response the catch block sends: the error's message, or a generic one when it has none. */
  function ServerError(message: string): (r: HttpResponse)
    ensures r.status == 500 && r.body.ErrorBody? && r.body.error != ""
    ensures message != "" ==> r.body.error == message
    ensures message == "" ==> r.body.error == FallbackMessage
  {
    HttpResponse(500, ErrorBody(if message == "" then FallbackMessage else message))
  }

  method Post(body: RequestBody, provider: SearchParams -> ProviderReply, model: ModelRequest -> ModelReply)
    returns (response: HttpResponse, calls: seq<UpstreamCall>)
    // the only statuses
    ensures response.status == 200 || response.status == 400 || response.status == 500
    // all or nothing: an answer only on 200, and then without an error field
    ensures response.status == 200 <==> response.body.AnswerBody?
    ensures response.body.AnswerBody? ==> response.body.response.error.None?
    // a body that cannot be parsed is a server error, before any upstream call
    ensures body.Unparsable? ==> response == ServerError(body.message) && calls == []
    // only a missing or empty query is refused, before any upstream call
    ensures response.status == 400 <==> body.Json? && !Present(body.query)
    ensures response.status == 400 ==> response.body == ErrorBody(QueryRequired) && calls == []
    // a rejected search is a 500 with the provider's message, and the model is never called
    ensures body.Json? && Present(body.query) ==>
      var query := body.query.value;
      var reply := provider(AppSearch.RequestParams(query));
      reply.error != "" ==>
        && calls == [SearchCall(AppSearch.RequestParams(query))]
        && response == HttpResponse(500, ErrorBody(reply.error))
    // otherwise the model gets the prompt of the results, and its reply decides the response
    ensures body.Json? && Present(body.query) ==>
      var query := body.query.value;
      var found := AppSearch.GetSearchResults(query, provider);
      found.Ok? ==>
        var request := ModelRequestFor(BuildPrompt(query, found.value));
        && calls == [SearchCall(AppSearch.RequestParams(query)), ModelCall(request)]
        && response == match model(request)
             case ModelFailed(message) => ServerError(message)
             case Message(content) =>
               HttpResponse(200, AnswerBody(AIResponse(AnswerText(content), Citations(found.value), None)))
  {
    calls := [];
    match body {
      case Unparsable(message) =>
        response := ServerError(message);
      case Json(query) =>
        if !Present(query) {
          response := HttpResponse(400, ErrorBody(QueryRequired));
          return;
        }
        var q := query.value;
        var params := AppSearch.RequestParams(q);
        calls := calls + [SearchCall(params)];
        var found := AppSearch.GetSearchResults(q, provider);
        if found.Err? {
          response := ServerError(found.error);
          return;
        }
        var results := found.value;
        var request := ModelRequestFor(BuildPrompt(q, results));
        calls := calls + [ModelCall(request)];
        match model(request) {
          case ModelFailed(message) =>
            response := ServerError(message);
          case Message(content) =>
            var answer := AssembleAnswer(content);
            var citations := Citations(results);
            response := HttpResponse(200, AnswerBody(AIResponse(answer, citations, None)));
        }
    }
  }
}
