/** The unified stock service: one entry point per query that routes the
    Malaysian market to the provider and its name table, and every other
    market to that market's collections in the store. */
module UnifiedService {
  import opened Wrappers
  import opened Documents
  import opened Markets
  import SourcePriority
  import opened Store
  import opened StockLookup
  import opened StockSearch
  import opened DailyQuotes
  import opened MyProvider

  /** The `KeyError` that `collection_map[market]` raises for a market code
      the service does not know. */
  datatype ServiceError = UnknownMarket(market: string)

  /** The store half of `get_stock_info`. */
  function StoreInfo(db: Database, market: string, code: string, source: Option<string>)
    : Result<Option<Doc>, ServiceError>
  {
    match ParseMarket(market)
    case None => Err(UnknownMarket(market))
    case Some(m) =>
      Ok(StoredInfo(Collection(db, CollectionName(m, BasicInfo)), code, source,
                    SourcePriority.SourcePriority(db.groupings, market)))
  }

  /** The store half of `get_stock_quote`. */
  function StoreQuote(db: Database, market: string, code: string): Result<Option<Doc>, ServiceError> {
    match ParseMarket(market)
    case None => Err(UnknownMarket(market))
    case Some(m) => Ok(FindOne(Collection(db, CollectionName(m, Quotes)), code, None))
  }

  /** The store half of `search_stocks`. */
  function StoreSearch(db: Database, market: string, query: string, limit: int)
    : Result<seq<Doc>, ServiceError>
  {
    match ParseMarket(market)
    case None => Err(UnknownMarket(market))
    case Some(m) =>
      Ok(SearchResult(Collection(db, CollectionName(m, BasicInfo)), query, limit,
                      SourcePriority.SourcePriority(db.groupings, market)))
  }

  /** The store half of `get_daily_quotes`. */
  function StoreDaily(db: Database, market: string, code: string,
                      start: Option<string>, end: Option<string>, limit: int)
    : Result<seq<Doc>, ServiceError>
    requires ParseMarket(market).Some? ==> limit > 0
  {
    match ParseMarket(market)
    case None => Err(UnknownMarket(market))
    case Some(m) =>
      Ok(StoredDaily(Collection(db, CollectionName(m, Daily)), BuildDailyQuery(code, start, end), limit))
  }

  /** A market the service does not know fails every store query, and a
      known one answers each of them. */
  lemma StoreQueriesFailExactlyForUnknownMarkets(db: Database, market: string, code: string,
                                                 source: Option<string>, query: string, limit: int)
    ensures StoreInfo(db, market, code, source).Err? <==> forall m: Market :: MarketCode(m) != market
    ensures StoreQuote(db, market, code).Err? <==> forall m: Market :: MarketCode(m) != market
    ensures StoreSearch(db, market, query, limit).Err? <==> forall m: Market :: MarketCode(m) != market
  {
    match ParseMarket(market)
    case None =>
    case Some(m) => assert MarketCode(m) == market;
  }

  /** With a source given, the store answers only with a record of that
      code and that source, from the market's own collection, and with
      nothing exactly when that collection has no such record. */
  lemma StoreInfoWithSource(db: Database, m: Market, code: string, source: string)
    requires source != ""
    ensures var docs := Collection(db, CollectionName(m, BasicInfo));
            var r := StoreInfo(db, MarketCode(m), code, Some(source));
            && r.Ok?
            && (r.value.None? <==> forall i :: 0 <= i < |docs| ==> !MatchesKey(docs[i], code, Some(Str(source))))
            && (r.value.Some? ==> HasStr(r.value.value, Code, code) && HasStr(r.value.value, Source, source))
  {
    ParseMarketCode(m);
    var docs := Collection(db, CollectionName(m, BasicInfo));
    var priority := SourcePriority.SourcePriority(db.groupings, MarketCode(m));
    ExplicitSourceOnly(docs, code, Some(source), priority, priority);
  }

  /** `UnifiedStockService`: the database handle it was built with. The
      Malaysian paths use the provider, a process-wide object passed in
      here, `null` when importing the provider package or creating the
      provider raised; `now`, the library's short name and its ticker reply
      stand for the clock and the market-data library. */
  class UnifiedStockService {
    const db: Database

    constructor (db: Database)
      ensures this.db == db
    {
      this.db := db;
    }

    /** `get_stock_info`: the provider's record, translated, for 'MY', or
        nothing when there is no provider; otherwise the record of the
        market's basic-information collection that the source or the
        priority list picks. */
    method GetStockInfo(market: string, code: string, source: Option<string>,
                        provider: MyStockProvider?, now: real, shortName: Option<Value>,
                        ticker: TickerReply)
      returns (r: Result<Option<Doc>, ServiceError>)
      modifies provider
      ensures market == "MY" && provider == null ==> r == Ok(None)
      ensures market == "MY" && provider != null ==>
                var step := StockInfoStep(provider.names, old(provider.cache), old(provider.lastRequestTime),
                                          provider.cacheTtl, provider.rateLimitWait, code, now, shortName, ticker);
                && r == Ok(MyInfoRecord(step.info, code))
                && provider.cache == step.cache && provider.lastRequestTime == step.lastRequestTime
      ensures market != "MY" ==> (provider != null ==> unchanged(provider)) && r == StoreInfo(db, market, code, source)
    {
      if market == "MY" {
        if provider == null {
          return Ok(None);
        }
        var info := provider.GetStockInfo(code, now, shortName, ticker);
        return Ok(MyInfoRecord(info, code));
      }
      var m := ParseMarket(market);
      if m.None? {
        return Err(UnknownMarket(market));
      }
      var docs := Collection(db, CollectionName(m.value, BasicInfo));
      var doc := FindStockInfo(docs, code, source, SourcePriority.SourcePriority(db.groupings, market));
      r := Ok(doc);
    }

    /** `get_stock_quote`: the provider's record, translated, for 'MY', or
        nothing when there is no provider; otherwise the first record of the
        code in the market's quotes collection. */
    method GetStockQuote(market: string, code: string,
                         provider: MyStockProvider?, now: real, shortName: Option<Value>,
                         ticker: TickerReply)
      returns (r: Result<Option<Doc>, ServiceError>)
      modifies provider
      ensures market == "MY" && provider == null ==> r == Ok(None)
      ensures market == "MY" && provider != null ==>
                var step := StockInfoStep(provider.names, old(provider.cache), old(provider.lastRequestTime),
                                          provider.cacheTtl, provider.rateLimitWait, code, now, shortName, ticker);
                && r == Ok(MyQuoteRecord(step.info, code))
                && provider.cache == step.cache && provider.lastRequestTime == step.lastRequestTime
      ensures market != "MY" ==> (provider != null ==> unchanged(provider)) && r == StoreQuote(db, market, code)
    {
      if market == "MY" {
        if provider == null {
          return Ok(None);
        }
        var info := provider.GetStockInfo(code, now, shortName, ticker);
        return Ok(MyQuoteRecord(info, code));
      }
      var m := ParseMarket(market);
      if m.None? {
        return Err(UnknownMarket(market));
      }
      r := Ok(FindOne(Collection(db, CollectionName(m.value, Quotes)), code, None));
    }

    /** `search_stocks`: the provider's name table for 'MY', or nothing when
        there is no provider; otherwise the market's basic-information
        collection, one record per code. */
    method SearchStocks(market: string, query: string, limit: int, provider: MyStockProvider?)
      returns (r: Result<seq<Doc>, ServiceError>)
      ensures market == "MY" && provider == null ==> r == Ok([])
      ensures market == "MY" && provider != null ==> r == Ok(MySearchResult(provider.names, query, limit))
      ensures market != "MY" ==> r == StoreSearch(db, market, query, limit)
    {
      if market == "MY" {
        if provider == null {
          return Ok([]);
        }
        var results := SearchMyStocks(provider.names, query, limit);
        return Ok(results);
      }
      var m := ParseMarket(market);
      if m.None? {
        return Err(UnknownMarket(market));
      }
      var docs := Collection(db, CollectionName(m.value, BasicInfo));
      var results := SearchStoredStocks(docs, query, limit, SourcePriority.SourcePriority(db.groupings, market));
      r := Ok(results);
    }

    /** `get_daily_quotes`: for 'MY', the bars of the history table the
        provider returned; otherwise the market's daily collection. */
    method GetDailyQuotes(market: string, code: string, start: Option<string>, end: Option<string>,
                          limit: int, bars: seq<Bar>)
      returns (r: Result<seq<Doc>, ServiceError>)
      requires market != "MY" && ParseMarket(market).Some? ==> limit > 0
      ensures market == "MY" ==> r == Ok(MyDailyResult(bars, code, limit))
      ensures market != "MY" ==> r == StoreDaily(db, market, code, start, end, limit)
    {
      if market == "MY" {
        var quotes := MyDailyQuotes(bars, code, limit);
        return Ok(quotes);
      }
      var m := ParseMarket(market);
      if m.None? {
        return Err(UnknownMarket(market));
      }
      var docs := Collection(db, CollectionName(m.value, Daily));
      r := Ok(StoredDaily(docs, BuildDailyQuery(code, start, end), limit));
    }
  }
}
