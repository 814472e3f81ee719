/** Shaping the requests to the remote quote service: the comma-joined symbol
    list, the single-quote and batch URLs, and the sentinel quote returned when
    a single-quote call fails. */
module QuoteRemoteCall {
  import opened Domain

  const Separator := ','
  const QuotePath := "/quote/"
  const BatchPath := "/v1/quotes?q="

  /** The symbols separated by single commas, with none before the first or
      after the last. */
  function Join(symbols: seq<string>): string
  {
    if |symbols| == 0 then ""
    else if |symbols| == 1 then symbols[0]
    else symbols[0] + [Separator] + Join(symbols[1..])
  }

  /** The position of the first comma in `s`, or |s| when there is none. */
  function IndexOfSeparator(s: string): (k: nat)
    ensures k <= |s|
    ensures k < |s| ==> s[k] == Separator
    ensures forall j :: 0 <= j < k ==> s[j] != Separator
  {
    if s == [] || s[0] == Separator then 0 else 1 + IndexOfSeparator(s[1..])
  }

  /** The pieces of `s` between commas, the partner of `Join`. */
  function Split(s: string): (pieces: seq<string>)
    ensures |pieces| >= 1
    decreases |s|
  {
    var k := IndexOfSeparator(s);
    if k == |s| then [s] else [s[..k]] + Split(s[k + 1..])
  }

  ghost predicate NoSeparator(symbols: seq<string>)
  {
    forall i :: 0 <= i < |symbols| ==> Separator !in symbols[i]
  }

  function TotalLength(symbols: seq<string>): nat
  {
    if symbols == [] then 0 else |symbols[0]| + TotalLength(symbols[1..])
  }

  function CountSeparators(s: string): nat
  {
    if s == [] then 0 else (if s[0] == Separator then 1 else 0) + CountSeparators(s[1..])
  }

  /** The edge cases: nothing joins to the empty string, one symbol joins to
      itself. */
  lemma JoinEdgeCases(symbol: string)
    ensures Join([]) == ""
    ensures Join([symbol]) == symbol
  {
  }

  /** Appending a symbol appends a comma and the symbol; this is what each
      round of the builder loop does. */
  lemma {:induction false} JoinSnoc(symbols: seq<string>, x: string)
    requires |symbols| >= 1
    ensures Join(symbols + [x]) == Join(symbols) + [Separator] + x
  {
    if |symbols| > 1 {
      assert (symbols + [x])[1..] == symbols[1..] + [x];
      JoinSnoc(symbols[1..], x);
    } else {
      assert (symbols + [x])[1..] == [x];
    }
  }

  /** For n >= 1 symbols the joined string is as long as the symbols together
      plus n - 1 separators. */
  lemma {:induction false} JoinLength(symbols: seq<string>)
    requires |symbols| >= 1
    ensures |Join(symbols)| == TotalLength(symbols) + |symbols| - 1
  {
    if |symbols| > 1 {
      JoinLength(symbols[1..]);
    }
  }

  lemma {:induction false} CountSeparatorsAppend(a: string, b: string)
    ensures CountSeparators(a + b) == CountSeparators(a) + CountSeparators(b)
  {
    if a != [] {
      assert (a + b)[0] == a[0] && (a + b)[1..] == a[1..] + b;
      CountSeparatorsAppend(a[1..], b);
    } else {
      assert a + b == b;
    }
  }

  lemma {:induction false} CountSeparatorsNone(s: string)
    requires Separator !in s
    ensures CountSeparators(s) == 0
  {
    if s != [] {
      CountSeparatorsNone(s[1..]);
    }
  }

  /** When no symbol contains a comma, the joined string of n >= 1 symbols
      holds exactly n - 1 commas. */
  lemma {:induction false} JoinSeparatorCount(symbols: seq<string>)
    requires |symbols| >= 1 && NoSeparator(symbols)
    ensures CountSeparators(Join(symbols)) == |symbols| - 1
  {
    CountSeparatorsNone(symbols[0]);
    if |symbols| > 1 {
      CountSeparatorsAppend(symbols[0], [Separator]);
      CountSeparatorsAppend(symbols[0] + [Separator], Join(symbols[1..]));
      JoinSeparatorCount(symbols[1..]);
    }
  }

  lemma IndexOfSeparatorAt(a: string, b: string)
    requires Separator !in a
    ensures IndexOfSeparator(a + [Separator] + b) == |a|
  {
    var s := a + [Separator] + b;
    assert s[|a|] == Separator;
    assert forall j :: 0 <= j < |a| ==> s[j] == a[j];
  }

  lemma IndexOfSeparatorNone(a: string)
    requires Separator !in a
    ensures IndexOfSeparator(a) == |a|
  {
  }

  /** Round trip: when no symbol contains a comma, splitting the joined string
      on commas gives back the symbols, in order. */
  lemma {:induction false} SplitJoin(symbols: seq<string>)
    requires |symbols| >= 1 && NoSeparator(symbols)
    ensures Split(Join(symbols)) == symbols
  {
    if |symbols| == 1 {
      IndexOfSeparatorNone(symbols[0]);
    } else {
      var s := Join(symbols);
      IndexOfSeparatorAt(symbols[0], Join(symbols[1..]));
      assert s[..|symbols[0]|] == symbols[0];
      assert s[|symbols[0]| + 1..] == Join(symbols[1..]);
      SplitJoin(symbols[1..]);
    }
  }

  /** The sentinel quote for `symbol`: status FAILED and no price. */
  function FallbackQuote(symbol: string): Quote
  {
    Quote(symbol, None, StatusFailed)
  }

  /** The fallback names the requested symbol, is marked FAILED and carries no
      price, so it is never read as a price of zero. */
  lemma FallbackQuoteFields(symbol: string)
    ensures FallbackQuote(symbol).symbol == symbol
    ensures FallbackQuote(symbol).status == "FAILED"
    ensures FallbackQuote(symbol).lastPrice.None?
  {
  }

  /** The client of the remote quote service, addressed by its logical name. */
  class QuoteRemoteCallService {
    const quotesService: string

    constructor (quotesService: string)
      ensures this.quotesService == quotesService
    {
      this.quotesService := quotesService;
    }

    function QuoteUrl(symbol: string): string
    {
      "//" + quotesService + QuotePath + symbol
    }

    function MultipleQuotesUrl(symbols: string): string
    {
      "//" + quotesService + BatchPath + symbols
    }

    /** The length of the fixed part in front of the symbol in a quote URL. */
    function QuoteUrlPrefixLength(): nat
    {
      2 + |quotesService| + |QuotePath|
    }

    function MultipleQuotesUrlPrefixLength(): nat
    {
      2 + |quotesService| + |BatchPath|
    }

    /** A single-quote URL is the service's address, the path `/quote/`
        and the symbol; the symbol is recovered from the URL's tail. */
    lemma QuoteUrlShape(symbol: string)
      ensures |QuoteUrl(symbol)| == QuoteUrlPrefixLength() + |symbol|
      ensures QuoteUrl(symbol)[..QuoteUrlPrefixLength()] == "//" + quotesService + "/quote/"
      ensures QuoteUrl(symbol)[QuoteUrlPrefixLength()..] == symbol
    {
    }

    /** Distinct symbols are asked for at distinct URLs. */
    lemma QuoteUrlInjective(a: string, b: string)
      requires QuoteUrl(a) == QuoteUrl(b)
      ensures a == b
    {
      QuoteUrlShape(a);
      QuoteUrlShape(b);
    }

    /** Round trip through the batch URL: when no symbol contains a comma,
        splitting the query part of the URL gives back the symbols. */
    lemma MultipleQuotesUrlRoundTrip(symbols: seq<string>)
      requires |symbols| >= 1 && NoSeparator(symbols)
      ensures MultipleQuotesUrl(Join(symbols))[..MultipleQuotesUrlPrefixLength()]
              == "//" + quotesService + "/v1/quotes?q="
      ensures Split(MultipleQuotesUrl(Join(symbols))[MultipleQuotesUrlPrefixLength()..]) == symbols
    {
      var url := MultipleQuotesUrl(Join(symbols));
      assert url[MultipleQuotesUrlPrefixLength()..] == Join(symbols);
      SplitJoin(symbols);
    }

    /** Fetches one quote. `remote` is the pricing service's answer to a GET
        of the URL: `None` when the call fails or the circuit breaker is
        open, in which case the fallback quote is returned. */
    method GetQuote(symbol: string, remote: string -> Option<Quote>) returns (url: string, quote: Quote)
      ensures url == QuoteUrl(symbol)
      ensures remote(url).Some? ==> quote == remote(url).value
      ensures remote(url).None? ==> quote.symbol == symbol && quote.status == StatusFailed
                                    && quote.lastPrice.None?
    {
      url := "//" + quotesService + QuotePath + symbol;
      var reply := remote(url);
      if reply.Some? {
        quote := reply.value;
      } else {
        quote := FallbackQuote(symbol);
      }
    }

    /** Fetches several quotes in one batched call: the symbols, in iteration
        order, are joined with commas by a builder loop and sent as the query
        of one GET; `remote` is the service's answer to it. */
    method GetMultipleQuotes(symbols: seq<string>, remote: string -> seq<Quote>)
      returns (url: string, quotes: seq<Quote>)
      ensures url == MultipleQuotesUrl(Join(symbols))
      ensures quotes == remote(url)
    {
      var builder := "";
      var i := 0;
      while i < |symbols|
        invariant 0 <= i <= |symbols|
        invariant builder == Join(symbols[..i]) + (if 0 < i < |symbols| then [Separator] else "")
      {
        if i > 0 {
          JoinSnoc(symbols[..i], symbols[i]);
        }
        assert symbols[..i + 1] == symbols[..i] + [symbols[i]];
        builder := builder + symbols[i];
        if i + 1 < |symbols| {
          builder := builder + [Separator];
        }
        i := i + 1;
      }
      assert symbols[..i] == symbols;
      url := "//" + quotesService + BatchPath + builder;
      quotes := remote(url);
    }
  }
}
