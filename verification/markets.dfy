/** The four markets the unified stock service serves, the collection each
    kind of data lives in per market, and the market list it publishes. */
module Markets {
  import opened Wrappers

  datatype Market = CN | HK | US | MY

  /** The markets in the order the service lists them. */
  const AllMarkets: seq<Market> := [CN, HK, US, MY]

  /** The code callers use for a market. */
  function MarketCode(m: Market): string {
    match m
    case CN => "CN"
    case HK => "HK"
    case US => "US"
    case MY => "MY"
  }

  /** The market a caller's code names, if any: the keys of the service's
      collection table. */
  function ParseMarket(code: string): (m: Option<Market>)
    ensures m.Some? ==> MarketCode(m.value) == code
    ensures m.None? ==> forall k: Market :: MarketCode(k) != code
  {
    if code == "CN" then Some(CN)
    else if code == "HK" then Some(HK)
    else if code == "US" then Some(US)
    else if code == "MY" then Some(MY)
    else None
  }

  /** Reading a market's own code gives the market back. */
  lemma ParseMarketCode(m: Market)
    ensures ParseMarket(MarketCode(m)) == Some(m)
  {
    var r := ParseMarket(MarketCode(m));
    assert r.Some?;
    match m
    case CN =>
    case HK =>
    case US =>
    case MY =>
  }

  /** The kinds of data the service keeps per market. */
  datatype Kind = BasicInfo | Quotes | Daily | Financial | News

  /** The mainland collection of each kind of data. */
  function BaseName(k: Kind): string {
    match k
    case BasicInfo => "stock_basic_info"
    case Quotes => "market_quotes"
    case Daily => "stock_daily_quotes"
    case Financial => "stock_financial_data"
    case News => "stock_news"
  }

  /** The suffix of a market's collections. */
  function Suffix(m: Market): string {
    match m
    case CN => ""
    case HK => "_hk"
    case US => "_us"
    case MY => "_my"
  }

  /** `collection_map[market][kind]`. */
  function CollectionName(m: Market, k: Kind): string {
    BaseName(k) + Suffix(m)
  }

  /** The market a collection name belongs to, read off its last three
      characters. */
  function MarketOfCollection(c: string): Market {
    if |c| >= 3 && c[|c| - 3..] == "_hk" then HK
    else if |c| >= 3 && c[|c| - 3..] == "_us" then US
    else if |c| >= 3 && c[|c| - 3..] == "_my" then MY
    else CN
  }

  /** The kind of data a collection name holds, read off the length of its
      mainland part. */
  function KindOfCollection(c: string): Kind {
    var n := |c| - |Suffix(MarketOfCollection(c))|;
    if n == 16 then BasicInfo
    else if n == 13 then Quotes
    else if n == 18 then Daily
    else if n == 20 then Financial
    else News
  }

  /** A mainland name ends in none of the market suffixes. */
  lemma MainlandNameDecodes(k: Kind)
    ensures MarketOfCollection(CollectionName(CN, k)) == CN
  {
    var c := CollectionName(CN, k);
    assert c == BaseName(k);
    var tail := match k
                case BasicInfo => "nfo"
                case Quotes => "tes"
                case Daily => "tes"
                case Financial => "ata"
                case News => "ews";
    assert c[|c| - 3..] == tail;
  }

  /** Every collection name can be read back: its market and kind are the
      ones it was made from. */
  lemma CollectionNameDecodes(m: Market, k: Kind)
    ensures MarketOfCollection(CollectionName(m, k)) == m
    ensures KindOfCollection(CollectionName(m, k)) == k
  {
    var c := CollectionName(m, k);
    if m == CN {
      MainlandNameDecodes(k);
    } else {
      assert c[|c| - 3..] == Suffix(m);
    }
  }

  /** No two markets, and no two kinds of data, share a collection. */
  lemma CollectionNamesDistinct(m1: Market, k1: Kind, m2: Market, k2: Kind)
    requires (m1, k1) != (m2, k2)
    ensures CollectionName(m1, k1) != CollectionName(m2, k2)
  {
    CollectionNameDecodes(m1, k1);
    CollectionNameDecodes(m2, k2);
  }

  /** One entry of `get_supported_markets`. */
  datatype MarketInfo = MarketInfo(code: string, name: string, nameEn: string,
                                   currency: string, timezone: string)

  /** `get_supported_markets`. */
  function SupportedMarkets(): seq<MarketInfo> {
    [ MarketInfo("CN", "A股", "China A-Share", "CNY", "Asia/Shanghai"),
      MarketInfo("HK", "港股", "Hong Kong Stock", "HKD", "Asia/Hong_Kong"),
      MarketInfo("US", "美股", "US Stock", "USD", "America/New_York"),
      MarketInfo("MY", "马股", "Malaysia Stock", "MYR", "Asia/Kuala_Lumpur") ]
  }

  /** The published list holds exactly the four markets the service routes,
      once each and in the order CN, HK, US, MY; the Malaysian entry trades
      in ringgit. */
  lemma SupportedMarketsAreAllMarkets()
    ensures |SupportedMarkets()| == |AllMarkets| == 4
    ensures forall i :: 0 <= i < 4 ==> ParseMarket(SupportedMarkets()[i].code) == Some(AllMarkets[i])
    ensures forall m: Market :: m in AllMarkets
    ensures forall i, j :: 0 <= i < j < 4 ==> SupportedMarkets()[i].code != SupportedMarkets()[j].code
    ensures SupportedMarkets()[3].currency == "MYR"
  {
    var s := SupportedMarkets();
    forall i | 0 <= i < 4 ensures ParseMarket(s[i].code) == Some(AllMarkets[i]) {
      ParseMarketCode(AllMarkets[i]);
    }
    forall m: Market ensures m in AllMarkets {
      match m
      case CN => assert AllMarkets[0] == m;
      case HK => assert AllMarkets[1] == m;
      case US => assert AllMarkets[2] == m;
      case MY => assert AllMarkets[3] == m;
    }
  }
}
