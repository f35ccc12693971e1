/** The stock ticker endpoint (app/api/stocks/route.ts): fetch a quote for each of five
    fixed symbols, turn each reply into a quote or into nothing, and answer with the
    quotes that survived, in symbol order, or with an error when none did. Fetching is a
    function parameter; the five fetches run concurrently in the source, which does not
    change the result because each one is independent and the results keep their order. */
module StocksRoute {
  import opened Wrappers

  const StockSymbols: seq<string> := ["AAPL", "GOOGL", "MSFT", "AMZN", "NVDA"]

  const PriceKey := "05. price"
  const ChangeKey := "09. change"
  const ChangePercentKey := "10. change percent"
  const NoStockData := "Could not fetch stock data"

  /** The fields of a `Global Quote` object. */
  type GlobalQuote = map<string, string>

  /** What fetching one symbol produced: a failed or non-OK response, a body that is not
      JSON, or JSON whose `Global Quote` may be absent. */
  datatype QuoteReply = HttpFailed | BadJson | QuoteJson(globalQuote: Option<GlobalQuote>)

  /** The string `parseFloat(source).toFixed(2)`, kept symbolic; `source` is None for an absent field. */
  datatype Fixed2 = Fixed2(source: Option<string>)

  datatype StockQuote = StockQuote(symbol: string, price: Fixed2, change: Fixed2, changePercent: string)

  datatype StocksBody = Quotes(quotes: seq<StockQuote>) | StocksError(error: string)

  datatype StocksResponse = StocksResponse(status: int, body: StocksBody)

  function Field(quote: GlobalQuote, key: string): Option<string>
  {
    if key in quote then Some(quote[key]) else None
  }

  // ---------------------------------------------------------------- one quote

  /** Where the first `c` stands in `s`. */
  function FirstIndex(s: string, c: char): (i: nat)
    requires c in s
    ensures i < |s| && s[i] == c && c !in s[..i]
  {
    if s[0] == c then 0
    else
      assert c in s[1..];
      1 + FirstIndex(s[1..], c)
  }

  /** `s.replace(c, '')` for a one-character string pattern: only the first `c` goes. */
  function RemoveFirst(s: string, c: char): (r: string)
    ensures c !in s ==> r == s
    ensures c in s ==> r == s[..FirstIndex(s, c)] + s[FirstIndex(s, c) + 1..]
  {
    if s == [] then []
    else if s[0] == c then s[1..]
    else
      var rest := RemoveFirst(s[1..], c);
      SkipHead(s, c);
      [s[0]] + rest
  }

  /** When `s` does not start with `c`, its first `c` is one place after that of its tail. */
  lemma SkipHead(s: string, c: char)
    requires s != [] && s[0] != c
    ensures s == [s[0]] + s[1..]
    ensures c in s <==> c in s[1..]
    ensures c in s ==>
      var k := FirstIndex(s[1..], c);
      && FirstIndex(s, c) == k + 1
      && s[..k + 1] == [s[0]] + s[1..][..k]
      && s[k + 2..] == s[1..][k + 1..]
  {
    assert s == [s[0]] + s[1..];
  }

  /** Exactly one `c` goes when there is one, and no other character changes count. */
  lemma {:induction false} RemoveFirstCount(s: string, c: char)
    ensures c in s ==> multiset(RemoveFirst(s, c)) + multiset{c} == multiset(s)
    ensures c !in s ==> multiset(RemoveFirst(s, c)) == multiset(s)
  {
    if s != [] {
      var rest := s[1..];
      assert s == [s[0]] + rest;
      if s[0] != c {
        RemoveFirstCount(rest, c);
        assert RemoveFirst(s, c) == [s[0]] + RemoveFirst(rest, c);
        assert c in s ==> c in rest;
      }
    }
  }

  /** Whatever follows the first `c` is left alone, further `c`s included:
      `"1.25%%"` becomes `"1.25%"`. */
  lemma RemoveFirstKeepsRest(s: string, c: char, t: string)
    requires c !in s
    ensures RemoveFirst(s + [c] + t, c) == s + t
  {
    var x := s + [c] + t;
    assert x[|s|] == c;
    var i := FirstIndex(x, c);
    assert forall j :: 0 <= j < |s| ==> x[j] == s[j];
    assert forall j :: 0 <= j < i ==> x[..i][j] == x[j];
    assert i == |s|;
    assert x[..i] == s;
    assert x[i + 1..] == t;
  }

  /** The quote for `symbol`, or None where the source returns null: a failed fetch, an
      unreadable body, no `Global Quote`, no or an empty price, or no change percent
      (calling `replace` on the absent field throws, and the catch returns null). */
  function GetStockQuote(symbol: string, reply: QuoteReply): (r: Option<StockQuote>)
    ensures r.Some? <==>
      && reply.QuoteJson? && reply.globalQuote.Some?
      && Field(reply.globalQuote.value, PriceKey).Some?
      && Field(reply.globalQuote.value, PriceKey).value != ""
      && ChangePercentKey in reply.globalQuote.value
    ensures r.Some? ==>
      var quote := reply.globalQuote.value;
      && r.value.symbol == symbol
      && r.value.price == Fixed2(Some(quote[PriceKey]))
      && r.value.change == Fixed2(Field(quote, ChangeKey))
      && r.value.changePercent == RemoveFirst(quote[ChangePercentKey], '%')
  {
    match reply
    case HttpFailed => None
    case BadJson => None
    case QuoteJson(globalQuote) =>
      if globalQuote.None? then None
      else
        var quote := globalQuote.value;
        var price := Field(quote, PriceKey);
        if price.None? || price.value == "" then None
        else if ChangePercentKey !in quote then None
        else Some(StockQuote(symbol, Fixed2(price), Fixed2(Field(quote, ChangeKey)),
                             RemoveFirst(quote[ChangePercentKey], '%')))
  }

  // ---------------------------------------------------------------- dropping the nulls

  /** The values of the present entries, in order: `filter(quote => quote !== null)`. */
  function Somes<T>(xs: seq<Option<T>>): (r: seq<T>)
    ensures |r| <= |xs|
    ensures |r| == 0 <==> forall i :: 0 <= i < |xs| ==> xs[i].None?
  {
    if xs == [] then []
    else
      var rest := Somes(xs[1..]);
      assert forall i :: 1 <= i < |xs| ==> xs[i] == xs[1..][i - 1];
      (if xs[0].Some? then [xs[0].value] else []) + rest
  }

  /** How many entries are present. */
  function CountSome<T>(xs: seq<Option<T>>): nat
  {
    if xs == [] then 0 else (if xs[0].Some? then 1 else 0) + CountSome(xs[1..])
  }

  /** The index in `xs` of the entry that became the k-th value of `Somes(xs)`. */
  function SomesSource<T>(xs: seq<Option<T>>, k: nat): (i: nat)
    requires k < |Somes(xs)|
    ensures i < |xs| && xs[i] == Some(Somes(xs)[k])
  {
    if xs[0].Some? then
      if k == 0 then 0 else 1 + SomesSource(xs[1..], k - 1)
    else 1 + SomesSource(xs[1..], k)
  }

  /** Later values come from later entries: the filter keeps the order. */
  lemma {:induction false} SomesSourceIncreasing<T>(xs: seq<Option<T>>, k: nat, l: nat)
    requires k < l < |Somes(xs)|
    ensures SomesSource(xs, k) < SomesSource(xs, l)
  {
    assert |Somes(xs)| == (if xs[0].Some? then 1 else 0) + |Somes(xs[1..])|;
    if xs[0].Some? {
      if k > 0 {
        SomesSourceIncreasing(xs[1..], k - 1, l - 1);
      }
    } else {
      SomesSourceIncreasing(xs[1..], k, l);
    }
  }

  /** Every present entry is kept: entry i is value number CountSome(xs[..i]) of the result. */
  lemma {:induction false} SomesComplete<T>(xs: seq<Option<T>>, i: nat)
    requires i < |xs| && xs[i].Some?
    ensures CountSome(xs[..i]) < |Somes(xs)|
    ensures SomesSource(xs, CountSome(xs[..i])) == i
    ensures Somes(xs)[CountSome(xs[..i])] == xs[i].value
  {
    if i > 0 {
      SomesComplete(xs[1..], i - 1);
      assert xs[..i][1..] == xs[1..][..i - 1];
    }
  }

  // ---------------------------------------------------------------- the handler

  /** The quote or null for every symbol, in `StockSymbols` order. */
  function FetchAll(fetchQuote: string -> QuoteReply): (quotes: seq<Option<StockQuote>>)
    ensures |quotes| == |StockSymbols|
    ensures forall i :: 0 <= i < |quotes| ==> quotes[i] == GetStockQuote(StockSymbols[i], fetchQuote(StockSymbols[i]))
  {
    seq(|StockSymbols|, i requires 0 <= i < |StockSymbols| =>
      GetStockQuote(StockSymbols[i], fetchQuote(StockSymbols[i])))
  }

  function Get(fetchQuote: string -> QuoteReply): (r: StocksResponse)
    ensures r.status == 200 || r.status == 500
    ensures r.status == 500 <==>
      forall i :: 0 <= i < |StockSymbols| ==> GetStockQuote(StockSymbols[i], fetchQuote(StockSymbols[i])).None?
    ensures r.status == 500 ==> r.body == StocksError(NoStockData)
    ensures r.status == 200 ==> r.body.Quotes? && 1 <= |r.body.quotes| <= |StockSymbols|
    ensures r.status == 200 ==> r.body.quotes == Somes(FetchAll(fetchQuote))
    ensures r.body.Quotes? ==> forall k :: 0 <= k < |r.body.quotes| ==> r.body.quotes[k].symbol in StockSymbols
  {
    var quotes := FetchAll(fetchQuote);
    var valid := Somes(quotes);
    if |valid| == 0 then StocksResponse(500, StocksError(NoStockData))
    else
      assert forall k :: 0 <= k < |valid| ==> valid[k].symbol == StockSymbols[SomesSource(quotes, k)];
      StocksResponse(200, Quotes(valid))
  }

  /** Every listed quote is the quote of one symbol, built from that symbol's own reply. */
  lemma ListedQuoteIsItsSymbolsQuote(fetchQuote: string -> QuoteReply, k: nat)
    requires Get(fetchQuote).body.Quotes?
    requires k < |Get(fetchQuote).body.quotes|
    ensures var quotes := Get(fetchQuote).body.quotes;
      var i := SomesSource(FetchAll(fetchQuote), k);
      && i < |StockSymbols|
      && quotes[k].symbol == StockSymbols[i]
      && Some(quotes[k]) == GetStockQuote(StockSymbols[i], fetchQuote(StockSymbols[i]))
  {
  }

  /** The listed quotes follow `StockSymbols` order: a later quote comes from a later symbol. */
  lemma QuotesFollowSymbolOrder(fetchQuote: string -> QuoteReply, k: nat, l: nat)
    requires Get(fetchQuote).body.Quotes?
    requires k < l < |Get(fetchQuote).body.quotes|
    ensures var quotes := Get(fetchQuote).body.quotes;
      var i, j := SomesSource(FetchAll(fetchQuote), k), SomesSource(FetchAll(fetchQuote), l);
      && i < j < |StockSymbols|
      && quotes[k].symbol == StockSymbols[i]
      && quotes[l].symbol == StockSymbols[j]
      && Some(quotes[k]) == GetStockQuote(StockSymbols[i], fetchQuote(StockSymbols[i]))
      && Some(quotes[l]) == GetStockQuote(StockSymbols[j], fetchQuote(StockSymbols[j]))
  {
    SomesSourceIncreasing(FetchAll(fetchQuote), k, l);
  }

  /** A symbol whose quote is valid is never dropped, whatever happens to the others. */
  lemma ValidQuoteIsListed(fetchQuote: string -> QuoteReply, i: nat)
    requires i < |StockSymbols|
    requires GetStockQuote(StockSymbols[i], fetchQuote(StockSymbols[i])).Some?
    ensures Get(fetchQuote).status == 200
    ensures var quotes := FetchAll(fetchQuote);
      && CountSome(quotes[..i]) < |Get(fetchQuote).body.quotes|
      && Get(fetchQuote).body.quotes[CountSome(quotes[..i])]
           == GetStockQuote(StockSymbols[i], fetchQuote(StockSymbols[i])).value
  {
    SomesComplete(FetchAll(fetchQuote), i);
  }
}
