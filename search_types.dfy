/** The records exchanged by the search client, the search route and the page
    (app/types/search.ts). */
module SearchTypes {
  import opened Wrappers

  /** One normalised search hit; `position` is its 1-based rank in the provider's order. */
  datatype SearchResult = SearchResult(title: string, link: string, snippet: string, position: int)

  /** What the page shows for a source: a search result without its rank. */
  datatype Citation = Citation(title: string, link: string, snippet: string)

  /** The body of a successful search response; `error` is the optional field of the interface. */
  datatype AIResponse = AIResponse(answer: string, citations: seq<Citation>, error: Option<string>)
}
