# Unified stock data service and Malaysian market provider

This project models the core of the cross-market stock data service of
TradingAgents-CN in Dafny, and proves what the service promises its
callers.

The service answers four kinds of query for four markets: mainland China
(CN), Hong Kong (HK), the United States (US) and Malaysia (MY). The four
queries are stock information, the latest quote, a search by code or name,
and the daily bars.

- For CN, HK and US, every answer comes from that market's collections in
  the document store. Several data sources may hold a record for the same
  stock. The service picks one in the priority order of the market's
  enabled data-source groupings, and falls back to a fixed default order.
- For MY, every answer comes from the Malaysian provider, with no store
  involved:
  - stock information and quotes from the provider's information
    dictionary;
  - searches from its built-in table of 46 symbols and company names;
  - daily bars from the history table the provider fetched.

The provider is an object with state. It owns a name cache with a
time-to-live and the time of its last request to the market-data library,
which it uses to space requests out. It normalises Bursa Malaysia symbols
(`5347` → `5347.KL`, `66` → `0066.KL`). It finds company names in four
tiers: cache, built-in table, library, default name.

The model is organised as follows.

| file | module | what it holds |
|---|---|---|
| `markets.dfy` | `Markets` | the markets, the collection table, the published market list |
| `source_priority.dfy` | `SourcePriority` | the priority list of the data sources |
| `store.dfy` | `Store` | the store's collections and `find_one` |
| `stock_lookup.dfy` | `StockLookup` | the layered record choice of `get_stock_info`; the translation of the provider's dictionary into an information record and a quote |
| `stock_search.dfy` | `StockSearch` | the store search with one record per code; the Malaysian table search |
| `daily_quotes.dfy` | `DailyQuotes` | the store's daily query; the Malaysian daily bars |
| `unified_service.dfy` | `UnifiedService` | the service class, routing each query to the store or to the provider |
| `my_provider.dfy` | `MyProvider` | the built-in name table, the symbol normaliser, the name and information steps as functions, and the `MyStockProvider` class whose methods update the cache and the last-request time |
| `documents.dfy`, `text.dfy`, `lists.dfy`, `sorting.dfy`, `wrappers.dfy` | | documents, Python string and list operations, a stable descending sort, `Option` and `Result` |

Records are modelled as follows:

- A record is a map from field name to value. A missing field reads as
  `None`, as `dict.get` does.
- Store collections are sequences in their natural order.
- The loops and in-place updates of the source are methods with loop
  invariants:
  - the priority loop of `get_stock_info`;
  - the deduplication loop of `search_stocks`;
  - the append-and-break loop of the Malaysian search;
  - the record-building loop of the Malaysian daily bars.
- Each method is proved equal to a specification function. The lemmas
  state their properties about that function.

The clock, the library's answers and the history table are parameters:

- `now` is the clock reading when a call starts.
- After a rate-limit sleep, the clock reads `now + wait`.
- `shortName` is the library's `shortName` value for the symbol, as it is
  (`None` included), or nothing when the library failed or had no such key.
- `ticker` is its information reply: the fields, the failure it raised, or
  the failure of importing the library at all.
- The provider handed to the service is `null` when importing the provider
  package or creating the provider raised.
- `bars` is the provider's history table, with its dates already written
  as text.

## Model

| member | source | states |
|---|---|---|
| Markets.ParseMarket | app/services/unified_stock_service.py:32-61 | only the four keys of the collection table name a market; the market found has exactly the code given, and no market has the code of a rejected one |
| Markets.ParseMarketCode | app/services/unified_stock_service.py:32-61 | every market's code is accepted and gives that market back |
| Markets.CollectionName | app/services/unified_stock_service.py:32-61 | the collection table: the base name of the kind of data, followed by the market's suffix (none for CN); its properties are the two lemmas below |
| Markets.CollectionNameDecodes | app/services/unified_stock_service.py:32-61 | each collection name of the table determines its market and its kind of data |
| Markets.CollectionNamesDistinct | app/services/unified_stock_service.py:32-61 | the twenty collection names are pairwise distinct, so no two markets or kinds share a collection |
| Markets.SupportedMarkets | app/services/unified_stock_service.py:433-469 | the published market list, entry by entry; its properties are stated by `SupportedMarketsAreAllMarkets` |
| Markets.SupportedMarketsAreAllMarkets | app/services/unified_stock_service.py:433-469 | the published list has four entries, CN, HK, US and MY in that order, with distinct codes that are exactly the markets the service routes; the Malaysian entry trades in MYR |
| SourcePriority.DefaultPriority | app/services/unified_stock_service.py:181-190 | the default list is non-empty exactly for the four known markets and never repeats a source |
| SourcePriority.CategoryOf | app/services/unified_stock_service.py:158-165 | `market_category_map.get(market)`: a category exactly for the four codes the collection table accepts, `None` for any other market |
| SourcePriority.CategoryDetermines | app/services/unified_stock_service.py:158-165 | no two market codes share a category, so the groupings query of one market never selects another market's groupings |
| SourcePriority.SourcePriority | app/services/unified_stock_service.py:148-190 | `_get_source_priority`: the names of the enabled groupings of the market's category, highest priority first, or the default list when the query raises, finds nothing or meets a grouping without the name field; specified by the four lemmas below |
| SourcePriority.EnabledGroupings | app/services/unified_stock_service.py:168-172 | the groupings query: the enabled groupings of the category, sorted by priority, highest first; its properties are stated by `EnabledGroupingsFacts` |
| SourcePriority.EnabledGroupingsFacts | app/services/unified_stock_service.py:168-172 | the groupings query returns exactly the enabled groupings of the market's category, as a multiset, ordered by non-increasing priority |
| SourcePriority.PriorityFromGroupings | app/services/unified_stock_service.py:174-177 | when the query returns groupings that all have the name field, the priority list is their names, a null name as `None`, one per grouping, highest priority first |
| SourcePriority.PriorityFallback | app/services/unified_stock_service.py:178-190 | a failing store, an empty answer or a grouping lacking the name field (the `KeyError` of the comprehension) gives the market's default list, so the lookup never fails |
| SourcePriority.UnknownMarketPriority | app/services/unified_stock_service.py:158-190 | a market without a category gets an empty list, from a failing store too, when no enabled grouping lacks a category |
| Store.FindOne | app/services/unified_stock_service.py:98-107 | `find_one` with the `_id` projection: the first record with the code (and the source value, `None` matching a null or missing source), without its id; specified by the three lemmas below |
| Store.FindOneNone | app/services/unified_stock_service.py:207-209 | `find_one` finds nothing exactly when no record has the code (and the source) |
| Store.FindOneFirst | app/services/unified_stock_service.py:207-209 | what `find_one` finds is the first matching record, without its id |
| Store.FoundMatches | app/services/unified_stock_service.py:87-93 | a found record carries the requested code and, when one is asked for, the requested source value, and no id |
| StockLookup.FirstBySource | app/services/unified_stock_service.py:94-103 | the walk over the priority list: the record of the first listed source that has one; specified by `FirstBySourceEarliest` |
| StockLookup.StoredInfo | app/services/unified_stock_service.py:84-111 | the store half of `get_stock_info`: a given (non-empty) source alone, or the priority walk and then a code-only lookup; specified by the lemmas below |
| StockLookup.FindStockInfo | app/services/unified_stock_service.py:84-111 | the lookup loop, which stops at the first source with a record and otherwise falls back to a code-only lookup, computes `StoredInfo` |
| StockLookup.FirstBySourceEarliest | app/services/unified_stock_service.py:94-103 | the priority walk finds nothing exactly when no listed source has a record; otherwise it returns the record of a listed source that all earlier ones lack |
| StockLookup.ExplicitSourceOnly | app/services/unified_stock_service.py:87-93 | with a source given, the answer is that source's record for the code or nothing, whatever the priority list is and whatever other sources hold |
| StockLookup.PriorityPrecedence | app/services/unified_stock_service.py:94-103 | without a source, when the `k`th listed source has a record, the answer is the record of the earliest listed source that has one, at or before `k` |
| StockLookup.CodeOnlyFallback | app/services/unified_stock_service.py:105-109 | without a source, when no listed source has a record, the answer is the first record of the code from any source, and it exists exactly when some record has the code |
| StockLookup.MyInfoRecord | app/services/unified_stock_service.py:123-146 | the information record made from the provider's dictionary exists exactly when the dictionary is non-empty. It has exactly the fourteen fields of the source: the symbol (default: the code) and the name (default empty, copied to `name_en`), market MY and source yfinance, the MYR and KLS defaults, market_cap, pe_ratio and pb_ratio as total_mv, pe and pb, and current_price, previous_close and the 52-week high and low as given |
| StockLookup.MyQuoteRecord | app/services/unified_stock_service.py:221-240 | the quote made from the dictionary exists exactly when it is non-empty; it has exactly the eleven fields of the source, applies the same defaults, maps current_price, previous_close, day_high and day_low to close, pre_close, high and low, and copies open and volume |
| StockLookup.MyInfoOfProvider | app/services/unified_stock_service.py:113-146 | whatever the library answers, the Malaysian record exists. It carries the normalised symbol, MYR, KLS, the provider's name in both name fields (text while the cache and the library hold text names) and the tag yfinance, even when the provider reported an error. On success the valuation figures are the library's |
| StockLookup.MyQuoteOfProvider | app/services/unified_stock_service.py:211-240 | whatever the library answers, the Malaysian quote exists with the normalised symbol and MYR; its close and previous close are the library's on success and `None` on either failure |
| StockSearch.Rank | app/services/unified_stock_service.py:296-297 | a record's rank is the position of its source value (`None` when missing) in the priority list, below the list's length exactly when that value is listed, and then the list holds it at that position |
| StockSearch.Keep | app/services/unified_stock_service.py:286-301 | one pass of the deduplication loop: a new code is added, a known one replaced only by a record whose listed source comes strictly earlier; its properties are `BestKeptNext`, `KeepConsistent` and `KeepFirstSeenOrder` |
| StockSearch.Dedup | app/services/unified_stock_service.py:284-301 | the dictionary after the loop; specified by `DedupConsistent`, `DedupKeepsBest` and `DedupFirstSeenOrder` |
| StockSearch.DedupBySource | app/services/unified_stock_service.py:282-304 | the dictionary loop computes the values of `Dedup`, in key insertion order |
| StockSearch.DedupConsistent | app/services/unified_stock_service.py:282-301 | after the loop, every code seen is a key exactly once, and the record kept under it is one of the records with that code |
| StockSearch.BestKeptNext | app/services/unified_stock_service.py:294-298 | one step of the loop keeps the priority rule's pick: the new record replaces the kept one only when both sources are ranked and the new one is strictly earlier |
| StockSearch.DedupKeepsBest | app/services/unified_stock_service.py:286-301 | the record kept for a code is the rule's pick among that code's records: the first record if its source is unranked; otherwise the earliest record of best rank |
| StockSearch.DedupFirstSeenOrder | app/services/unified_stock_service.py:284-304 | the codes come out in the order of their first occurrence among the matching records |
| StockSearch.SearchResult | app/services/unified_stock_service.py:263-306 | the store search: the matching records, deduplicated by code, cut to `limit`; specified by `SearchResultFacts` and `SearchKeepsBest` |
| StockSearch.FieldContains | app/services/unified_stock_service.py:267-273 | one `$regex` condition with option `i`: the field is present, is text, and contains the query when case is ignored |
| StockSearch.SearchMatch | app/services/unified_stock_service.py:267-273 | the `$or` filter: a case-insensitive substring test on the text fields code, name or name_en |
| StockSearch.SearchResultFacts | app/services/unified_stock_service.py:263-306 | the search gives `[]` when nothing matches and at least one record for a positive limit otherwise. It never exceeds a non-negative limit, returns only matching records of the collection, never two with one code, and cuts only after deduplicating |
| StockSearch.SearchKeepsBest | app/services/unified_stock_service.py:282-304 | each returned record is the priority rule's pick among the matching records of its code |
| StockSearch.SearchStoredStocks | app/services/unified_stock_service.py:263-306 | the store search computes `SearchResult` |
| StockSearch.MyMatches | app/services/unified_stock_service.py:327-335 | the records of the matching table entries, in table order; specified by the three lemmas below |
| StockSearch.MyEntryMatches | app/services/unified_stock_service.py:328 | a table entry matches when the lower-cased query is in its lower-cased symbol or its lower-cased name |
| StockSearch.MyRecord | app/services/unified_stock_service.py:329-335 | the result dict of one table entry: its symbol as code, its name as name and name_en, market MY, source yfinance; stated of each result by `MySearchEntries` |
| StockSearch.MyMatchesFacts | app/services/unified_stock_service.py:323-337 | there are no more matches than table entries; there are none exactly when no entry contains the lower-cased query in its lower-cased symbol or name; each match is the record of a matching entry |
| StockSearch.MyMatchesInOrder | app/services/unified_stock_service.py:327-335 | the matches come from strictly increasing table positions, each a matching entry, so they keep table order |
| StockSearch.MyMatchesComplete | app/services/unified_stock_service.py:327-335 | every matching entry's record is among the matches |
| StockSearch.MySearchResult | app/services/unified_stock_service.py:323-337 | the first `max(limit, 1)` matches; specified by `MySearchSize` and `MySearchEntries` |
| StockSearch.SearchMyStocks | app/services/unified_stock_service.py:308-343 | the loop that stops once it holds `limit` results computes `MySearchResult` |
| StockSearch.MySearchSize | app/services/unified_stock_service.py:323-337 | the Malaysian search returns at most `max(limit, 1)` results: exactly one for a non-positive limit when anything matches, none exactly when nothing matches, and always a prefix of all matches in table order |
| StockSearch.MySearchEntries | app/services/unified_stock_service.py:327-335 | each Malaysian result is a matching table entry, with market MY, source yfinance, and its name in both name fields |
| DailyQuotes.BuildDailyQuery | app/services/unified_stock_service.py:373-379 | the query has a date condition exactly when a start or an end date is given; `$gte` exactly for a start date and `$lte` exactly for an end date, each bound being the given date |
| DailyQuotes.InRange | app/services/unified_stock_service.py:375-379 | the `trade_date` condition: a text `trade_date` no earlier than a `$gte` bound and no later than an `$lte` bound, each when present |
| DailyQuotes.MatchesDaily | app/services/unified_stock_service.py:373-381 | the daily query's selection: the record has the code and, when the query has a date condition, meets it; stated in terms of the caller's dates by `DailyQuerySelects` |
| DailyQuotes.DailyQuerySelects | app/services/unified_stock_service.py:373-381 | the query selects exactly the stock's records dated no earlier than the start and no later than the end, where given |
| DailyQuotes.StoredDaily | app/services/unified_stock_service.py:381-382 | the matching records without their id, latest trade date first, cut to `limit`; specified by the three lemmas below |
| DailyQuotes.StoredDailyOrder | app/services/unified_stock_service.py:381-382 | the store returns as many matching records as there are, up to `limit`, latest trade date first |
| DailyQuotes.StoredDailyFrom | app/services/unified_stock_service.py:381-382 | each returned record is a matching record of the collection, without its id |
| DailyQuotes.StoredDailyLatest | app/services/unified_stock_service.py:381-382 | the store returns a sub-multiset of the matches, and no match left out has a later trade date than one returned |
| DailyQuotes.BarRecord | app/services/unified_stock_service.py:411-424 | the record of one row of the history table; its properties are stated by `MyDailyFrom` |
| DailyQuotes.MyDailyResult | app/services/unified_stock_service.py:407-428 | the records of the table's last `limit` rows, latest date first, cut to `limit`; specified by the three lemmas below |
| DailyQuotes.MyDailyQuotes | app/services/unified_stock_service.py:403-431 | the record-building loop, the sort and the cut compute `MyDailyResult` |
| DailyQuotes.MyDailySize | app/services/unified_stock_service.py:407-428 | an empty table gives `[]`; for a non-negative limit there are at most `limit` records, exactly the records of the table's last `limit` rows |
| DailyQuotes.MyDailyFrom | app/services/unified_stock_service.py:411-424 | each Malaysian daily record is one of the table's rows, tagged with the caller's code, market MY and source yfinance, with a text trade date |
| DailyQuotes.MyDailyOrder | app/services/unified_stock_service.py:426-428 | the Malaysian daily records have non-increasing trade dates |
| UnifiedService.StoreInfo | app/services/unified_stock_service.py:84-111 | the store half of `get_stock_info` for a market code; specified by the two lemmas below |
| UnifiedService.StoreQuote | app/services/unified_stock_service.py:207-209 | the store half of `get_stock_quote`: the first record of the code in the market's quotes collection, or `UnknownMarket` |
| UnifiedService.StoreSearch | app/services/unified_stock_service.py:263-306 | the store half of `search_stocks`, or `UnknownMarket` |
| UnifiedService.StoreDaily | app/services/unified_stock_service.py:370-382 | the store half of `get_daily_quotes`, or `UnknownMarket` |
| UnifiedService.StoreQueriesFailExactlyForUnknownMarkets | app/services/unified_stock_service.py:84-85 | a store query fails exactly for a market code outside the collection table |
| UnifiedService.StoreInfoWithSource | app/services/unified_stock_service.py:84-93 | for a known market and a given source, the answer comes from that market's basic-information collection. It is nothing exactly when no record has that code and source, and otherwise carries both |
| UnifiedService.UnifiedStockService.constructor | app/services/unified_stock_service.py:28-29 | the service keeps the database handle it is given |
| UnifiedService.UnifiedStockService.GetStockInfo | app/services/unified_stock_service.py:63-146 | MY is answered by the provider's `get_stock_info`, translated, and the provider's new state is that call's; without a provider the answer is `None`. Any other market leaves the provider untouched and gets the store's answer |
| UnifiedService.UnifiedStockService.GetStockQuote | app/services/unified_stock_service.py:192-240 | MY is answered by the provider's information, translated into a quote, with the provider's state updated by that call; without a provider the answer is `None`. Any other market gets the first record of the code from its quotes collection |
| UnifiedService.UnifiedStockService.SearchStocks | app/services/unified_stock_service.py:242-343 | MY is searched in the provider's name table, `[]` without a provider; any other market in its basic-information collection, one record per code |
| UnifiedService.UnifiedStockService.GetDailyQuotes | app/services/unified_stock_service.py:345-382 | MY gets the bars of the provider's history table; any other market gets the store's daily query |
| MyProvider.NormalizeSymbol | tradingagents/dataflows/providers/my/yfinance_my.py:160-187 | `_normalize_my_symbol`; specified by the three lemmas below |
| MyProvider.NormalizeCases | tradingagents/dataflows/providers/my/yfinance_my.py:160-187 | the empty symbol is returned as it is. A symbol that, after trimming and upper-casing, ends in `.KL` is kept. Four digits get `.KL`. Fewer digits are zero-padded to four first. Anything else, longer digit strings included, is returned trimmed and upper-cased |
| MyProvider.NormalFormIsFixed | tradingagents/dataflows/providers/my/yfinance_my.py:173-187 | a trimmed, upper-case symbol ending in `.KL`, or one that is not a short digit string, is left unchanged |
| MyProvider.NormalizeIdempotent | tradingagents/dataflows/providers/my/yfinance_my.py:160-187 | normalising twice is normalising once |
| MyProvider.StockNames | tradingagents/dataflows/providers/my/yfinance_my.py:38-101 | `MY_STOCK_NAMES`: the 46 (symbol, name) pairs in source order, sector by sector |
| MyProvider.StockNamesKeys | tradingagents/dataflows/providers/my/yfinance_my.py:38-101 | the table's symbols are pairwise distinct, as a dict's keys are, and each is four digits followed by `.KL`, a fixed point of the normaliser |
| MyProvider.BuiltinName | tradingagents/dataflows/providers/my/yfinance_my.py:207-210 | `MY_STOCK_NAMES.get(symbol)` on the built-in table |
| MyProvider.BuiltinNameFirst | tradingagents/dataflows/providers/my/yfinance_my.py:210-211 | the lookup answers exactly when some entry has the symbol, and then with the name of the first such entry |
| MyProvider.BuiltinNameOfEntry | tradingagents/dataflows/providers/my/yfinance_my.py:210-211 | every table entry is found by its symbol, normalised or not, and the lookup gives that entry's name |
| MyProvider.DefaultName | tradingagents/dataflows/providers/my/yfinance_my.py:249-251 | the default name: the fixed prefix and the normalised symbol with `.KL` removed; `DefaultNameOfPadded` states its value on short digit symbols |
| MyProvider.DefaultNameOfPadded | tradingagents/dataflows/providers/my/yfinance_my.py:249-251 | the default name of a short digit symbol is the fixed prefix followed by its four zero-padded digits |
| MyProvider.EntryValidity | tradingagents/dataflows/providers/my/yfinance_my.py:140-146 | `_is_cache_valid` on a present entry raises exactly when the entry is no dictionary or its timestamp is present and no number |
| MyProvider.CacheKey | tradingagents/dataflows/providers/my/yfinance_my.py:201 | the cache key `name_` followed by the symbol as given, not normalised |
| MyProvider.CacheKeyInjective | tradingagents/dataflows/providers/my/yfinance_my.py:201 | different spellings of a symbol have different cache keys |
| MyProvider.EntryValid | tradingagents/dataflows/providers/my/yfinance_my.py:140-146 | the entry passes `_is_cache_valid`; `ValidityEndsOnce` and `IsCacheValid` state what that means |
| MyProvider.ValidityEndsOnce | tradingagents/dataflows/providers/my/yfinance_my.py:140-146 | an entry valid now was valid at every earlier time |
| MyProvider.WaitTime | tradingagents/dataflows/providers/my/yfinance_my.py:148-158 | the wait is never negative; the request goes out no earlier than the last one plus the spacing, and, when the provider waits, exactly then |
| MyProvider.CompanyNameStep | tradingagents/dataflows/providers/my/yfinance_my.py:189-267 | a name lookup changes at most the symbol's own cache entry, which then is a dictionary holding the returned name. The last-request time either stays as it was or moves to the finish time, at least one spacing later |
| MyProvider.CachedNameReturned | tradingagents/dataflows/providers/my/yfinance_my.py:199-205 | a valid cached name is returned as it is, `None` included, with nothing changed and the library not asked |
| MyProvider.BrokenEntryDefault | tradingagents/dataflows/providers/my/yfinance_my.py:197-267 | a cache entry that is no dictionary or whose timestamp is no number, or a valid one without `data`, makes the lookup raise into its outer `except`: the default name, with nothing cached and no wait |
| MyProvider.BuiltinNameCached | tradingagents/dataflows/providers/my/yfinance_my.py:207-222 | on a cache miss, a symbol the table knows gets the table's name, cached under the raw symbol with the current time and the tag builtin_mapping |
| MyProvider.LibraryNameCached | tradingagents/dataflows/providers/my/yfinance_my.py:224-242 | on a cache miss for a symbol the table does not know, the library's short name is returned and cached as it is, `None` included, stamped with the clock after the rate-limit wait, with the tag yahoo_finance |
| MyProvider.DefaultNameValidHalfHour | tradingagents/dataflows/providers/my/yfinance_my.py:249-262 | when nothing knows the symbol, the default name is returned and cached with the tag default, and that entry stays valid for exactly 1800 seconds after the call finishes |
| MyProvider.NameStableWhileCached | tradingagents/dataflows/providers/my/yfinance_my.py:199-205 | while the entry a lookup left stays valid, a second lookup returns the same name and changes nothing, whatever the library would answer |
| MyProvider.CompanyNameText | tradingagents/dataflows/providers/my/yfinance_my.py:189-267 | while the cache holds only text names and the library answers with text, the name returned is text and the cache keeps holding only text |
| MyProvider.InfoDict | tradingagents/dataflows/providers/my/yfinance_my.py:356-388 | the information dictionary names the normalised symbol, the name, MYR and KLS; its source is yahoo_finance on success and error on either failure; it carries an error text exactly on failure |
| MyProvider.InfoDictFigures | tradingagents/dataflows/providers/my/yfinance_my.py:356-375 | on success the current price, previous close and market cap are the library's, and there is no error text |
| MyProvider.InfoDictRatios | tradingagents/dataflows/providers/my/yfinance_my.py:370-371 | on success `trailingPE` is reported as pe_ratio and `priceToBook` as pb_ratio |
| MyProvider.InfoDictError | tradingagents/dataflows/providers/my/yfinance_my.py:377-388 | on either failure the dictionary holds the error text and no prices |
| MyProvider.StockInfoStep | tradingagents/dataflows/providers/my/yfinance_my.py:332-388 | `get_stock_info` on the provider's state; specified by the lemmas below |
| MyProvider.InfoAfterName | tradingagents/dataflows/providers/my/yfinance_my.py:349-388 | `get_stock_info` after the first name lookup; `InfoAfterNameCases` states its two cases |
| MyProvider.InfoAfterNameCases | tradingagents/dataflows/providers/my/yfinance_my.py:349-388 | after the first lookup and the rate-limit wait: the figures with the first name on success, otherwise the `except` path at the clock after the wait |
| MyProvider.ErrorInfo | tradingagents/dataflows/providers/my/yfinance_my.py:377-388 | the `except` path of `get_stock_info`: a second name lookup and the error dictionary; `ErrorInfoText` and `StockInfoFigures` state its properties |
| MyProvider.ErrorInfoText | tradingagents/dataflows/providers/my/yfinance_my.py:377-388 | the `except` path keeps names text |
| MyProvider.InfoAfterNameText | tradingagents/dataflows/providers/my/yfinance_my.py:349-388 | the rest of `get_stock_info` after a text name keeps names text |
| MyProvider.StockInfoIdentified | tradingagents/dataflows/providers/my/yfinance_my.py:332-388 | whatever the library does, the information names the normalised symbol, MYR and KLS and carries a name; on success, that of the first lookup. It is tagged error exactly on failure, and unless the library cannot be imported the request goes out after the rate-limit wait |
| MyProvider.LibraryMissingInfo | tradingagents/dataflows/providers/my/yfinance_my.py:342-388 | when `import yfinance` fails, the name is looked up once, at the clock of the call, as with no short name; the provider waits at most once, inside that lookup, and not at all for a symbol of the table; the error text is reported |
| MyProvider.StockInfoNameText | tradingagents/dataflows/providers/my/yfinance_my.py:332-388 | while the cache holds only text names and the library answers with text, the information's name is text and the cache stays so |
| MyProvider.StockInfoFigures | tradingagents/dataflows/providers/my/yfinance_my.py:356-388 | on success the information carries the library's figures; on either failure the error text and no figures |
| MyProvider.MyStockProvider.constructor | tradingagents/dataflows/providers/my/yfinance_my.py:104-116 | a new provider has the built-in table, the two settings or their defaults of 3600 and 2 seconds, the loaded cache, and a last-request time of 0 |
| MyProvider.MyStockProvider.IsCacheValid | tradingagents/dataflows/providers/my/yfinance_my.py:140-146 | an absent key is never valid; otherwise an entry is valid while its age (a missing timestamp read as 0) is below the time-to-live, and the check raises on an entry that is no dictionary or a timestamp that is no number |
| MyProvider.MyStockProvider.RateLimit | tradingagents/dataflows/providers/my/yfinance_my.py:148-158 | the wait is `WaitTime`, the new last-request time is the clock after the wait, and it is at least one spacing after the previous one |
| MyProvider.MyStockProvider.GetCompanyName | tradingagents/dataflows/providers/my/yfinance_my.py:189-267 | the name returned and the new cache and last-request time are those of `CompanyNameStep` |
| MyProvider.MyStockProvider.LookUpName | tradingagents/dataflows/providers/my/yfinance_my.py:207-262 | after a cache miss: the table's name, cached with the tag builtin_mapping and no request; else the library's short name as it is (tag yahoo_finance) or the default name (tag default, back-dated), after the rate-limit wait |
| MyProvider.MyStockProvider.AskLibraryForName | tradingagents/dataflows/providers/my/yfinance_my.py:224-262 | the library tier waits out the rate limit, then caches the short name as it is, stamped with the clock after the wait, or else the default name back-dated by the time-to-live less 1800 seconds |
| MyProvider.MyStockProvider.GetStockInfo | tradingagents/dataflows/providers/my/yfinance_my.py:332-388 | the returned dictionary and the new cache and last-request time are those of `StockInfoStep`, the import failure included |
| MyProvider.MyStockProvider.FinishStockInfo | tradingagents/dataflows/providers/my/yfinance_my.py:349-388 | after the name lookup, the method waits out the rate limit and asks the library; the outcome is `InfoAfterName` |
| MyProvider.MyStockProvider.AskLibraryForInfo | tradingagents/dataflows/providers/my/yfinance_my.py:353-388 | after the wait: the figures on success, the error path on failure, as `InfoAfterName` says |
| MyProvider.MyStockProvider.InfoAfterFailure | tradingagents/dataflows/providers/my/yfinance_my.py:377-388 | the `except` path looks the name up again at the clock it is entered at, and reports the error with that name, as `ErrorInfo` says |

## Left out

- The asynchronous Mongo driver: each query is modelled as a function of the store's contents at the time of the call. Store failures other than the groupings query's are not modelled.
- Mongo's `$regex` with `$options: "i"`: read as a literal substring test that ignores case. Regular-expression metacharacters in a query are not modelled.
- Case mapping, whitespace and digits: the model covers ASCII only. Python's `lower`, `upper`, `strip` and `isdigit` also act on the rest of Unicode.
- The store's order among records with the same `trade_date` (or the same `priority`): modelled as storage order, that is, a stable sort. Strings compare by code point.
- Values are `None`, numbers and strings. JSON booleans, lists and nested objects in a record, a grouping or a cache entry are not modelled; a boolean timestamp, which Python would subtract as 0 or 1, is among them.
- DailyQuotes.StoredDaily: requires `limit > 0`. A zero or negative `limit` means something else to `cursor.limit` and `to_list`, and that is not modelled.
- UnifiedService.StoreDaily: requires `limit > 0` for a known market, for the reason given for `StoredDaily`.
- UnifiedService.UnifiedStockService.GetDailyQuotes: requires `limit > 0` on the store path (markets other than MY), for the reason given for `StoredDaily`.
- UnifiedService.StoreQueriesFailExactlyForUnknownMarkets: the `KeyError` that `collection_map[market]` raises for an unknown market is modelled as the error value `UnknownMarket`, not as an exception.
- The `except` paths of `_get_my_stock_info`, `_get_my_stock_quote` and `_search_my_stocks` are modelled for a failing import of the provider package and for a provider whose creation raised (`get_cache_dir`, the cache directory or a setting, lines 104-116 of the provider): the service is then given no provider and answers `None` or `[]`. A failure while translating the provider's dictionary cannot happen, since that dictionary is a plain map.
- DailyQuotes.MyDailyQuotes: a failing import or provider creation on the daily path is the input `bars = []`, which gives `[]` as the `except` path does.
- A groupings document whose `enabled` field is not the boolean `true` counts as disabled. The query's match on a null versus a missing category is modelled as one case, `None`.
- Search results keep the store's `_id` field, as in the source; nothing in the model reads it.
- `get_stock_data` is not part of this model. The Malaysian daily path takes the table it returns (empty on any failure) as the input `bars`, with dates already as text. Its rate-limit update of `last_request_time` and the `strftime` formatting of dates are not modelled.
- `format_stock_data` and `get_my_stock_data`: text formatting of the history table; not part of this model.
- Prices and volumes are opaque values: floating-point arithmetic is never performed on them.
- The JSON cache file: `_load_cache` is the constructor's `loaded` argument, a map from key to entry. A file whose top level is not a dictionary is not modelled, and neither is `_save_cache` (a write with no effect on results). The `source` tag of an entry is recorded but never read.
- The settings store, logging, `time.sleep` and `time.time`: the clock is the parameter `now`, and a sleep advances it by the wait. A setting is the constructor's `Option<int>` argument.
- The process-wide provider singleton and its unsynchronised creation: the provider object (or its absence) is passed to the service methods.
- MyProvider.MyStockProvider.InfoAfterFailure: the second name lookup on the error path is given the same library short-name answer as the first. A library that answers differently the second time is not modelled.
- The outer `except` of `get_company_name` is modelled for every cause the model can express: a cache entry that is no dictionary, a timestamp that is `null` or text, and a valid entry without `data`. Failures of the logger, of `time.time` or of string formatting are not modelled.
- The library's success reply lacking an information dictionary (`ticker.info or {}`) is modelled as a reply whose fields are all `None`.
- The command-line script `scripts/add_anthropicglm_model_glm5.py` and the package's `__init__.py` are not part of this model.
