/** The search client of the application (app/lib/search.ts): it asks the provider for
    one query in a fixed locale and turns the reply into ranked search results, or into
    a rejection carrying the provider's error message. */
module AppSearch {
  import opened Wrappers
  import opened SearchTypes
  import opened SearchProvider

  /** The parameters of the provider call: the query as given, English, United States. */
  function RequestParams(query: string): (p: SearchParams)
    ensures p.q == query && p.hl == "en" && p.gl == "us"
  {
    SearchParams(query, "en", "us")
  }

  /** The `organic_results` map: every entry keeps its fields and gets its 1-based rank. */
  function Normalise(organic: seq<OrganicResult>): seq<SearchResult>
  {
    seq(|organic|, i requires 0 <= i < |organic| =>
      SearchResult(organic[i].title, organic[i].link, organic[i].snippet, i + 1))
  }

  /** What the returned promise settles to once the provider has replied. */
  function GetSearchResults(query: string, provider: SearchParams -> ProviderReply)
    : (r: Result<seq<SearchResult>, string>)
    ensures var reply := provider(RequestParams(query));
      && (reply.error != "" <==> r.Err?)
      && (r.Err? ==> r.error == reply.error)
      && (r.Ok? && reply.organicResults.None? ==> r.value == [])
      && (r.Ok? && reply.organicResults.Some? ==>
            var organic := reply.organicResults.value;
            && |r.value| == |organic|
            && forall i :: 0 <= i < |r.value| ==>
                 && r.value[i].title == organic[i].title
                 && r.value[i].link == organic[i].link
                 && r.value[i].snippet == organic[i].snippet
                 && r.value[i].position == i + 1)
  {
    var reply := provider(RequestParams(query));
    if reply.error != "" then Err(reply.error)
    else match reply.organicResults
      case None => Ok([])
      case Some(organic) => Ok(Normalise(organic))
  }

  /** The ranks 1, 2, ..., n in increasing order. */
  function Ranks(n: nat): seq<int>
  {
    if n == 0 then [] else Ranks(n - 1) + [n]
  }

  function Positions(results: seq<SearchResult>): seq<int>
  {
    seq(|results|, i requires 0 <= i < |results| => results[i].position)
  }

  /** Forgets the ranks: the provider entries a list of search results was made from. */
  function Strip(results: seq<SearchResult>): seq<OrganicResult>
  {
    seq(|results|, i requires 0 <= i < |results| =>
      OrganicResult(results[i].title, results[i].link, results[i].snippet))
  }

  lemma {:induction false} RanksAt(n: nat, i: nat)
    requires i < n
    ensures |Ranks(n)| == n && Ranks(n)[i] == i + 1
  {
    if i < n - 1 {
      RanksAt(n - 1, i);
    } else {
      RanksLength(n - 1);
    }
  }

  lemma {:induction false} RanksLength(n: nat)
    ensures |Ranks(n)| == n
  {
    if n > 0 {
      RanksLength(n - 1);
    }
  }

  /** The positions of normalised results are exactly 1..n, in order. */
  lemma NormalisedPositionsAreRanks(organic: seq<OrganicResult>)
    ensures Positions(Normalise(organic)) == Ranks(|organic|)
  {
    var n := |organic|;
    RanksLength(n);
    forall i | 0 <= i < n
      ensures Positions(Normalise(organic))[i] == Ranks(n)[i]
    {
      RanksAt(n, i);
    }
  }

  /** Normalising loses nothing: dropping the ranks gives back the provider's entries. */
  lemma StripNormalise(organic: seq<OrganicResult>)
    ensures Strip(Normalise(organic)) == organic
  {
  }

  /** Conversely, results ranked 1..n are exactly the normalisation of their own entries. */
  lemma NormaliseStrip(results: seq<SearchResult>)
    requires Positions(results) == Ranks(|results|)
    ensures Normalise(Strip(results)) == results
  {
    forall i | 0 <= i < |results|
      ensures Normalise(Strip(results))[i] == results[i]
    {
      RanksAt(|results|, i);
      assert Positions(results)[i] == results[i].position;
    }
  }

  /** A result's rank does not depend on what the provider lists after it. */
  lemma NormalisePrefix(organic: seq<OrganicResult>, more: seq<OrganicResult>)
    ensures Normalise(organic + more)[..|organic|] == Normalise(organic)
  {
  }
}
