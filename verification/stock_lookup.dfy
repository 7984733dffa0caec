/** Looking up one stock: the layered choice of a basic-information record
    among the records several data sources stored for the same code, and the
    translation of the Malaysian provider's answer into the service's record
    shapes. */
module StockLookup {
  import opened Wrappers
  import opened Text
  import opened Documents
  import opened Store
  import opened MyProvider

  // ---------------------------------------------------------------------
  // Records from the store

  /** The record of the first source in `priority` that has one for `code`. */
  function FirstBySource(docs: seq<Doc>, code: string, priority: seq<Value>): Option<Doc>
    decreases |priority|
  {
    if priority == [] then None
    else match FindOne(docs, code, Some(priority[0]))
         case Some(d) => Some(d)
         case None => FirstBySource(docs, code, priority[1..])
  }

  /** `get_stock_info` on a market's basic-information collection: an
      explicit source is the only one asked; otherwise the sources in
      priority order, and then any record of the code. */
  function StoredInfo(docs: seq<Doc>, code: string, source: Option<string>,
                      priority: seq<Value>): Option<Doc>
  {
    if Truthy(source) then FindOne(docs, code, Some(Str(source.value)))
    else match FirstBySource(docs, code, priority)
         case Some(d) => Some(d)
         case None => FindOne(docs, code, None)
  }

  /** The record search of `get_stock_info`, with its loop over the priority
      list that stops at the first source with a record. */
  method FindStockInfo(docs: seq<Doc>, code: string, source: Option<string>,
                       priority: seq<Value>) returns (doc: Option<Doc>)
    ensures doc == StoredInfo(docs, code, source, priority)
  {
    if source.Some? && source.value != "" {
      doc := FindOne(docs, code, Some(Str(source.value)));
    } else {
      doc := None;
      var i := 0;
      while i < |priority|
        invariant 0 <= i <= |priority|
        invariant doc.None?
        invariant FirstBySource(docs, code, priority) == FirstBySource(docs, code, priority[i..])
      {
        assert priority[i..][0] == priority[i] && priority[i..][1..] == priority[i + 1..];
        doc := FindOne(docs, code, Some(priority[i]));
        if doc.Some? {
          break;
        }
        i := i + 1;
      }
      if doc.None? {
        doc := FindOne(docs, code, None);
      }
    }
  }

  /** The first source in the list that has a record for the code wins:
      `FirstBySource` finds nothing exactly when no listed source has one,
      and otherwise the record of a source all earlier ones lack. */
  lemma {:induction false} FirstBySourceEarliest(docs: seq<Doc>, code: string, priority: seq<Value>)
    ensures var r := FirstBySource(docs, code, priority);
            && (r.None? <==> forall k :: 0 <= k < |priority| ==> FindOne(docs, code, Some(priority[k])).None?)
            && (r.Some? ==> exists k :: 0 <= k < |priority| && r == FindOne(docs, code, Some(priority[k]))
                                        && forall j :: 0 <= j < k ==> FindOne(docs, code, Some(priority[j])).None?)
    decreases |priority|
  {
    if priority != [] && FindOne(docs, code, Some(priority[0])).None? {
      FirstBySourceEarliest(docs, code, priority[1..]);
      assert forall k :: 1 <= k < |priority| ==> priority[k] == priority[1..][k - 1];
      var r := FirstBySource(docs, code, priority);
      if r.Some? {
        var k :| 0 <= k < |priority[1..]| && r == FindOne(docs, code, Some(priority[1..][k]))
                 && forall j :: 0 <= j < k ==> FindOne(docs, code, Some(priority[1..][j])).None?;
        assert r == FindOne(docs, code, Some(priority[k + 1]));
      }
    }
  }

  /** An explicit source is never second-guessed: the result is that
      source's record for the code, or nothing, whatever the priority list
      and whatever other sources hold. */
  lemma ExplicitSourceOnly(docs: seq<Doc>, code: string, source: Option<string>,
                           priority: seq<Value>, other: seq<Value>)
    requires Truthy(source)
    ensures var r := StoredInfo(docs, code, source, priority);
            && (r.None? <==> forall i :: 0 <= i < |docs| ==> !MatchesKey(docs[i], code, Some(Str(source.value))))
            && (r.Some? ==> HasStr(r.value, Code, code) && HasStr(r.value, Source, source.value))
            && r == StoredInfo(docs, code, source, other)
  {
    FindOneFacts(docs, code, Some(Str(source.value)));
    if StoredInfo(docs, code, source, priority).Some? {
      FoundMatches(docs, code, Some(Str(source.value)));
    }
  }

  /** Without a source, when some listed source has a record for the code,
      the result is the record of the earliest such source. */
  lemma PriorityPrecedence(docs: seq<Doc>, code: string, source: Option<string>,
                           priority: seq<Value>, k: nat)
    requires !Truthy(source)
    requires k < |priority| && exists i :: 0 <= i < |docs| && MatchesKey(docs[i], code, Some(priority[k]))
    ensures var r := StoredInfo(docs, code, source, priority);
            exists m :: 0 <= m <= k && r == FindOne(docs, code, Some(priority[m])) && r.Some?
                        && Get(r.value, Source) == priority[m]
                        && forall j, i :: 0 <= j < m && 0 <= i < |docs| ==> !MatchesKey(docs[i], code, Some(priority[j]))
  {
    FirstBySourceEarliest(docs, code, priority);
    var r := StoredInfo(docs, code, source, priority);
    FindOneFacts(docs, code, Some(priority[k]));
    assert FindOne(docs, code, Some(priority[k])).Some?;
    var m :| 0 <= m < |priority| && r == FindOne(docs, code, Some(priority[m]))
             && forall j :: 0 <= j < m ==> FindOne(docs, code, Some(priority[j])).None?;
    FoundMatches(docs, code, Some(priority[m]));
    forall j | 0 <= j < m
      ensures forall i :: 0 <= i < |docs| ==> !MatchesKey(docs[i], code, Some(priority[j]))
    {
      FindOneFacts(docs, code, Some(priority[j]));
    }
  }

  /** Without a source, when no listed source has a record for the code,
      the result is the first record of the code from any source, if any. */
  lemma CodeOnlyFallback(docs: seq<Doc>, code: string, source: Option<string>, priority: seq<Value>)
    requires !Truthy(source)
    requires forall k, i :: 0 <= k < |priority| && 0 <= i < |docs| ==> !MatchesKey(docs[i], code, Some(priority[k]))
    ensures var r := StoredInfo(docs, code, source, priority);
            && r == FindOne(docs, code, None)
            && (r.Some? <==> exists i :: 0 <= i < |docs| && HasStr(docs[i], Code, code))
  {
    forall k | 0 <= k < |priority| ensures FindOne(docs, code, Some(priority[k])).None? {
      FindOneFacts(docs, code, Some(priority[k]));
    }
    FirstBySourceEarliest(docs, code, priority);
    FindOneFacts(docs, code, None);
  }

  // ---------------------------------------------------------------------
  // Malaysian records

  /** `_get_my_stock_info`'s translation of the provider's information
      dictionary; an empty dictionary gives nothing. */
  function MyInfoRecord(info: Doc, code: string): (r: Option<Doc>)
    ensures r.None? <==> info == map[]
    ensures r.Some? ==>
              && Get(r.value, Code) == GetOr(info, Symbol, Str(code))
              && Get(r.value, Name) == GetOr(info, Name, Str(""))
              && Get(r.value, NameEn) == Get(r.value, Name)
              && Get(r.value, Market) == Str("MY") && Get(r.value, Source) == Str("yfinance")
              && Get(r.value, Currency) == GetOr(info, Currency, Str("MYR"))
              && Get(r.value, Exchange) == GetOr(info, Exchange, Str("KLS"))
              && Get(r.value, TotalMv) == Get(info, MarketCap)
              && Get(r.value, Pe) == Get(info, PeRatio) && Get(r.value, Pb) == Get(info, PbRatio)
              && Get(r.value, CurrentPrice) == Get(info, CurrentPrice)
              && Get(r.value, PreviousClose) == Get(info, PreviousClose)
              && Get(r.value, FiftyTwoWeekHigh) == Get(info, FiftyTwoWeekHigh)
              && Get(r.value, FiftyTwoWeekLow) == Get(info, FiftyTwoWeekLow)
              && r.value.Keys == {Code, Name, NameEn, Market, Source, Currency, Exchange, TotalMv, Pe, Pb,
                                  CurrentPrice, PreviousClose, FiftyTwoWeekHigh, FiftyTwoWeekLow}
  {
    if info == map[] then None
    else
      var name := GetOr(info, Name, Str(""));
      Some(map[CurrentPrice := Get(info, CurrentPrice),
               PreviousClose := Get(info, PreviousClose),
               FiftyTwoWeekHigh := Get(info, FiftyTwoWeekHigh),
               FiftyTwoWeekLow := Get(info, FiftyTwoWeekLow),
               Exchange := GetOr(info, Exchange, Str("KLS")),
               TotalMv := Get(info, MarketCap),
               Pe := Get(info, PeRatio),
               Pb := Get(info, PbRatio),
               Currency := GetOr(info, Currency, Str("MYR")),
               Source := Str("yfinance"),
               Market := Str("MY"),
               NameEn := name,
               Name := name,
               Code := GetOr(info, Symbol, Str(code))])
  }

  /** `_get_my_stock_quote`'s translation of the provider's information
      dictionary into a quote; an empty dictionary gives nothing. */
  function MyQuoteRecord(info: Doc, code: string): (r: Option<Doc>)
    ensures r.None? <==> info == map[]
    ensures r.Some? ==>
              && Get(r.value, Code) == GetOr(info, Symbol, Str(code))
              && Get(r.value, Name) == GetOr(info, Name, Str(""))
              && Get(r.value, Market) == Str("MY") && Get(r.value, Source) == Str("yfinance")
              && Get(r.value, Currency) == GetOr(info, Currency, Str("MYR"))
              && Get(r.value, Close) == Get(info, CurrentPrice)
              && Get(r.value, PreClose) == Get(info, PreviousClose)
              && Get(r.value, High) == Get(info, DayHigh) && Get(r.value, Low) == Get(info, DayLow)
              && Get(r.value, Open) == Get(info, Open) && Get(r.value, Volume) == Get(info, Volume)
              && r.value.Keys == {Code, Name, Market, Source, Currency, Close, PreClose, High, Low, Open, Volume}
  {
    if info == map[] then None
    else
      Some(map[Open := Get(info, Open),
               Volume := Get(info, Volume),
               High := Get(info, DayHigh),
               Low := Get(info, DayLow),
               PreClose := Get(info, PreviousClose),
               Close := Get(info, CurrentPrice),
               Currency := GetOr(info, Currency, Str("MYR")),
               Source := Str("yfinance"),
               Market := Str("MY"),
               Name := GetOr(info, Name, Str("")),
               Code := GetOr(info, Symbol, Str(code))])
  }

  /** Whatever the library answers, the Malaysian information record exists
      and carries the normalised symbol as its code, the ringgit, the KLS
      exchange and the provider's name in both name fields, text while the
      cache and the library hold text names; it is tagged 'yfinance'
      even when the provider reported an error. On success the valuation
      figures are the library's. */
  lemma MyInfoOfProvider(names: seq<(string, string)>,
                         cache: map<string, CacheEntry>, lastRequestTime: real,
                         ttl: int, spacing: int, symbol: string, now: real,
                         shortName: Option<Value>, ticker: TickerReply)
    ensures var info := StockInfoStep(names, cache, lastRequestTime, ttl, spacing, symbol, now, shortName, ticker).info;
            var r := MyInfoRecord(info, symbol);
            && r.Some?
            && Get(r.value, Code) == Str(NormalizeSymbol(symbol))
            && Get(r.value, Currency) == Str("MYR") && Get(r.value, Exchange) == Str("KLS")
            && Get(r.value, Name) == Get(info, Name) && Get(r.value, NameEn) == Get(r.value, Name)
            && (TextCache(cache) && TextAnswer(shortName) ==> Get(r.value, Name).Str?)
            && Get(r.value, Source) == Str("yfinance")
            && (ticker.TickerInfo? ==>
                  && Get(r.value, TotalMv) == ticker.marketCap
                  && Get(r.value, Pe) == ticker.trailingPE && Get(r.value, Pb) == ticker.priceToBook)
  {
    StockInfoIdentified(names, cache, lastRequestTime, ttl, spacing, symbol, now, shortName, ticker);
    StockInfoFigures(names, cache, lastRequestTime, ttl, spacing, symbol, now, shortName, ticker);
    if TextCache(cache) && TextAnswer(shortName) {
      StockInfoNameText(names, cache, lastRequestTime, ttl, spacing, symbol, now, shortName, ticker);
    }
    var step := StockInfoStep(names, cache, lastRequestTime, ttl, spacing, symbol, now, shortName, ticker);
    assert Symbol in step.info;
  }

  /** Whatever the library answers, the Malaysian quote exists with the
      normalised symbol as its code and the ringgit; on success its prices
      are the library's, on failure there are none. */
  lemma MyQuoteOfProvider(names: seq<(string, string)>,
                          cache: map<string, CacheEntry>, lastRequestTime: real,
                          ttl: int, spacing: int, symbol: string, now: real,
                          shortName: Option<Value>, ticker: TickerReply)
    ensures var info := StockInfoStep(names, cache, lastRequestTime, ttl, spacing, symbol, now, shortName, ticker).info;
            var r := MyQuoteRecord(info, symbol);
            && r.Some?
            && Get(r.value, Code) == Str(NormalizeSymbol(symbol))
            && Get(r.value, Currency) == Str("MYR")
            && Get(r.value, Close) == (if ticker.TickerInfo? then ticker.currentPrice else Null)
            && Get(r.value, PreClose) == (if ticker.TickerInfo? then ticker.previousClose else Null)
  {
    StockInfoIdentified(names, cache, lastRequestTime, ttl, spacing, symbol, now, shortName, ticker);
    StockInfoFigures(names, cache, lastRequestTime, ttl, spacing, symbol, now, shortName, ticker);
    var step := StockInfoStep(names, cache, lastRequestTime, ttl, spacing, symbol, now, shortName, ticker);
    assert Symbol in step.info;
  }
}
