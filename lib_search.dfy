/** The second copy of the search client (lib/search.ts). It is the same code as
    app/lib/search.ts except that it does not check for the provider key at start-up,
    which is not part of this model. */
module LibSearch {
  import opened Wrappers
  import opened SearchTypes
  import opened SearchProvider
  import AppSearch

  function RequestParams(query: string): (p: SearchParams)
    ensures p.q == query && p.hl == "en" && p.gl == "us"
  {
    SearchParams(query, "en", "us")
  }

  function GetSearchResults(query: string, provider: SearchParams -> ProviderReply)
    : (r: Result<seq<SearchResult>, string>)
    ensures var reply := provider(RequestParams(query));
      && (reply.error != "" <==> r.Err?)
      && (r.Err? ==> r.error == reply.error)
      && (r.Ok? && reply.organicResults.None? ==> r.value == [])
      && (r.Ok? && reply.organicResults.Some? ==>
            var organic := reply.organicResults.value;
            && |r.value| == |organic|
            && forall i :: 0 <= i < |r.value| ==>
                 && r.value[i].title == organic[i].title
                 && r.value[i].link == organic[i].link
                 && r.value[i].snippet == organic[i].snippet
                 && r.value[i].position == i + 1)
  {
    var reply := provider(RequestParams(query));
    if reply.error != "" then Err(reply.error)
    else match reply.organicResults
      case None => Ok([])
      case Some(organic) =>
        Ok(seq(|organic|, i requires 0 <= i < |organic| =>
          SearchResult(organic[i].title, organic[i].link, organic[i].snippet, i + 1)))
  }

  /** The two copies of the client send the same request and settle the same way. */
  lemma AgreesWithAppSearch(query: string, provider: SearchParams -> ProviderReply)
    ensures RequestParams(query) == AppSearch.RequestParams(query)
    ensures GetSearchResults(query, provider) == AppSearch.GetSearchResults(query, provider)
  {
  }
}
