/** The part of the keyword-search client that the application sees: the parameters it
    sends and the fields of the reply it reads. The client itself is outside the model;
    callers receive it as a function from parameters to reply. */
module SearchProvider {
  import opened Wrappers

  /** The query parameters of one search: the query, the interface language and the country. */
  datatype SearchParams = SearchParams(q: string, hl: string, gl: string)

  /** One entry of the reply's `organic_results`, as far as the application reads it. */
  datatype OrganicResult = OrganicResult(title: string, link: string, snippet: string)

  /** A reply. `error` is "" when the reply has no error field (or a falsy one);
      `organicResults` is None when the reply has no `organic_results` field. */
  datatype ProviderReply = ProviderReply(error: string, organicResults: Option<seq<OrganicResult>>)
}
