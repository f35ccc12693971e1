# Perplexity clone: the data layer between the upstream services

This project models, in Dafny, the part of the AI search application that is its own
logic rather than a call into someone else's service:

- the **search client** (`app/lib/search.ts` and its copy `lib/search.ts`): ask the
  keyword-search provider for a query in the `en`/`us` locale; a reply with an `error`
  field rejects with that message; otherwise the `organic_results` become search results
  ranked 1..n in the provider's order, and a reply without them yields no results;
- the **search endpoint** (`POST` in `app/api/search/route.ts`): refuse a missing or empty
  query with 400, fetch the results, build the prompt from its template, call the language
  model, concatenate the text blocks of its reply into the answer, project the results
  into citations, and turn any failure into one 500 error object;
- the **stock ticker endpoint** (`app/api/stocks/route.ts`): build a quote or nothing for
  each of the five fixed symbols, drop the failures while keeping symbol order, and fail
  with 500 only when every symbol failed.

The search provider, the language model and the quote service are parameters: functions
from the request the application sends to the reply it gets back (`SearchParams ->
ProviderReply`, `ModelRequest -> ModelReply`, `string -> QuoteReply`). The search handler
also returns the list of calls it made to them, so that "the model is never called when the
search fails" and "no call is made for a refused query" are postconditions.

Modules: `Wrappers` (Option, Result), `SearchTypes` (the records of `app/types/search.ts`),
`SearchProvider` (the fields of the provider's request and reply), `AppSearch`,
`LibSearch`, `SearchRoute`, `StocksRoute`. The answer-assembly loop of the search handler
is a method proved against the function `AnswerText`; everything else is pure.

Two behaviours of the code look unintended; the model follows the code in both:
- a query made only of whitespace passes the handler's `!query` test and is searched for,
  although the page refuses such a query by trimming it first (`app/page.tsx:18`), which
  suggests it was meant to be refused;
- a model reply without any text block gives a 200 response with an empty answer rather
  than an error, so the page shows an empty answer beside the sources.

## Model

| member | source | states |
|---|---|---|
| AppSearch.RequestParams | app/lib/search.ts:12-16 | the provider is asked for the query verbatim, with `hl = "en"` and `gl = "us"` |
| AppSearch.GetSearchResults | app/lib/search.ts:18-31 | the call rejects exactly when the reply has a non-empty `error`, with that message; an absent `organic_results` gives `[]`; otherwise one result per provider entry, same title/link/snippet in the same order, result i ranked i + 1 |
| AppSearch.Normalise | app/lib/search.ts:24-29 | the `organic_results` map; its meaning is stated by NormalisedPositionsAreRanks (ranks 1..n), StripNormalise and NormaliseStrip (a round trip with the provider's entries) and NormalisePrefix (ranks do not depend on later entries) |
| AppSearch.NormalisedPositionsAreRanks | app/lib/search.ts:24-29 | the positions of the normalised results are exactly 1, 2, ..., n in increasing order |
| AppSearch.StripNormalise | app/lib/search.ts:24-29 | normalising loses nothing: forgetting the ranks gives back the provider's entries |
| AppSearch.NormaliseStrip | app/lib/search.ts:24-29 | conversely, any result list ranked 1..n is the normalisation of its own entries |
| AppSearch.NormalisePrefix | app/lib/search.ts:24-28 | an entry's result and rank do not depend on the entries after it |
| LibSearch.RequestParams | lib/search.ts:8-12 | the copy also sends `q = query`, `hl = "en"`, `gl = "us"` |
| LibSearch.GetSearchResults | lib/search.ts:14-27 | the copy rejects with the reply's `error`, yields `[]` without `organic_results`, and otherwise copies every entry in order with rank i + 1 |
| LibSearch.AgreesWithAppSearch | lib/search.ts:6-30 | the two copies send the same request and settle the same way for every query and provider |
| SearchRoute.BuildPrompt | app/api/search/route.ts:29-45 | the prompt template; stated by PromptEmbedsQuery (the query verbatim), PromptWithoutResults (an empty results section) and PromptListsResultsInOrder (one block per result, in order) and PromptSeparatesBlocks (newlines between blocks, the closing text right after the last) |
| SearchRoute.PromptEmbedsQuery | app/api/search/route.ts:29-30 | the prompt quotes the query verbatim right after the fixed opening instruction |
| SearchRoute.PromptWithoutResults | app/api/search/route.ts:29-45 | with no results the results section is empty and the template closes right after it |
| SearchRoute.Join | app/api/search/route.ts:38 | `join('\n')`: no parts give "", one part is itself, otherwise neighbours are separated; where each part lands is stated by JoinAt, what lies between neighbours by JoinGap, and where the join ends by JoinLength |
| SearchRoute.JoinAt | app/api/search/route.ts:38 | in a newline join, part i is found at its offset and part i + 1 starts one separator after it |
| SearchRoute.JoinGap | app/api/search/route.ts:38 | between part i and part i + 1 of a join stands exactly the separator |
| SearchRoute.JoinLength | app/api/search/route.ts:38 | a join ends with its last part: nothing follows it |
| SearchRoute.PromptListsResultsInOrder | app/api/search/route.ts:33-38 | the Title/URL/Snippet/`---` block of result i stands at a fixed place in the prompt, before the block of result i + 1, so source numbers follow result order |
| SearchRoute.PromptSeparatesBlocks | app/api/search/route.ts:33-45 | one newline follows every result block but the last, and the closing instructions follow the last block directly, so the results section is the blocks joined by newlines and nothing else |
| SearchRoute.AnswerTextAppend | app/api/search/route.ts:61-66 | the answer of two runs of content blocks is the first's answer followed by the second's |
| SearchRoute.NonTextContentYieldsEmptyAnswer | app/api/search/route.ts:61-66 | content with no text block gives the empty answer |
| SearchRoute.AssembleAnswer | app/api/search/route.ts:61-66 | the loop returns the texts of the text blocks, concatenated in order, and nothing from other blocks |
| SearchRoute.Citations | app/api/search/route.ts:69-73 | one citation per result, same order, each with its result's title, link and snippet |
| SearchRoute.CitationNumbering | app/api/search/route.ts:69-73 | the citations of a normalised reply are the provider's entries in order, and citation i belongs to the result ranked i + 1 |
| SearchRoute.Present | app/api/search/route.ts:18 | the `!query` test: a query passes exactly when it is a non-empty string, so a whitespace-only query passes; its effect is stated by Post's 400 clause |
| SearchRoute.ModelRequestFor | app/api/search/route.ts:47-58 | the model call: fixed model name, token limit, temperature and system instruction, with the prompt as the one user message; Post states that it is made only after a successful search, with the prompt of the results |
| SearchRoute.ServerError | app/api/search/route.ts:81-86 | a failure is a 500 with the error's message, or exactly "An error occurred" when the message is empty; never an empty error |
| SearchRoute.Post | app/api/search/route.ts:14-88 | 400 "Query is required" exactly for a missing or empty query, with no upstream call; a rejected search is a 500 with the provider's message and the model is never called; otherwise one search call then one model call with the prompt of the results, and a 200 whose body holds the assembled answer, the citations and no error field, or a 500 if the model call fails; an answer only ever comes with 200 |
| StocksRoute.RemoveFirst | app/api/stocks/route.ts:26 | removing `%` deletes its first occurrence only, and leaves a string without one unchanged |
| StocksRoute.RemoveFirstKeepsRest | app/api/stocks/route.ts:26 | everything after the first `%` is kept, later `%` signs included |
| StocksRoute.RemoveFirstCount | app/api/stocks/route.ts:26 | exactly one `%` is removed when there is one, and no other character changes count |
| StocksRoute.GetStockQuote | app/api/stocks/route.ts:5-32 | a quote exists exactly when the fetch succeeded, the body is JSON with a `Global Quote` holding a non-empty price and a change percent; it carries the requested symbol, the price and change fields, and the change percent without its first `%` |
| StocksRoute.Somes | app/api/stocks/route.ts:40 | filtering out nulls keeps at most as many entries and yields none exactly when all are null |
| StocksRoute.SomesSource | app/api/stocks/route.ts:40 | every kept value is the value of an entry of the input: the k-th value comes from the entry at SomesSource(k) |
| StocksRoute.SomesSourceIncreasing | app/api/stocks/route.ts:40 | later kept values come from later entries: the filter keeps order |
| StocksRoute.SomesComplete | app/api/stocks/route.ts:40 | every non-null entry is kept, at the rank it has among the non-null entries |
| StocksRoute.FetchAll | app/api/stocks/route.ts:36-38 | one quote-or-null per symbol, in `STOCK_SYMBOLS` order, each from that symbol's own reply |
| StocksRoute.Get | app/api/stocks/route.ts:34-54 | 500 "Could not fetch stock data" exactly when every symbol failed; otherwise 200 whose quotes are exactly the non-null quotes of FetchAll in order (so the Somes lemmas apply to the response), between 1 and 5 of them, all of listed symbols |
| StocksRoute.ListedQuoteIsItsSymbolsQuote | app/api/stocks/route.ts:22-23 | every listed quote, including a single one, carries a symbol of `STOCK_SYMBOLS` and is the quote built from that symbol's own reply |
| StocksRoute.QuotesFollowSymbolOrder | app/api/stocks/route.ts:36-40 | for any two listed quotes, the earlier one comes from an earlier symbol of `STOCK_SYMBOLS`, and each is its own symbol's quote |
| StocksRoute.ValidQuoteIsListed | app/api/stocks/route.ts:36-46 | a symbol with a valid quote is listed, whatever the other symbols' replies, and the response is then 200 |

## Left out

- The start-up checks for the search and model API keys (`app/lib/search.ts:4-6`,
  `app/api/search/route.ts:6-8`): process start-up, not request handling.
- The search provider client, the language-model SDK and `fetch`: opaque services, given to
  the model as functions. A provider callback that never fires (the request hangs) and the
  missing cancellation are not modelled.
- `parseFloat(...).toFixed(2)` for the price and the change (`app/api/stocks/route.ts:24-25`):
  floating point; kept as the symbolic value `Fixed2(source)`.
- The concurrency of `Promise.all` in the stock endpoint: modelled as a sequential,
  order-preserving map, which gives the same result because each fetch is independent.
- JavaScript values of unexpected types: a non-string `query` or `error`, an
  `organic_results` that is not an array, entries without a title, link or snippet, or
  quote fields that are not strings. The model takes every such field as a string.
- The model request's `messages` array is modelled as its one user prompt; the model name,
  token limit, temperature and system instruction are constants.
- `console.error` logging, the Next.js response objects beyond status and JSON body, the
  React page (`app/page.tsx`) and the weather endpoint (`app/api/weather/route.ts`).
