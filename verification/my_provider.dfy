/** The Malaysia (Bursa Malaysia, exchange KLS) market-data provider: a
    built-in symbol-to-name table, the symbol normaliser, and a provider object
    that owns a name cache with a time-to-live and a last-request timestamp for
    its courtesy rate limit. The clock and the market-data library are inputs:
    `now` is the clock reading at the start of a call, and the library's
    answers are passed in as values. */
module MyProvider {
  import opened Wrappers
  import opened Text
  import opened Lists
  import opened Documents

  /** The table's banks entries. */
  const Banks: seq<(string, string)> := [
    ("1155.KL", "Maybank (马来亚银行)"),
    ("1066.KL", "CIMB (联昌银行)"),
    ("5234.KL", "Public Bank (大众银行)"),
    ("1295.KL", "AmBank (大马银行)"),
    ("6888.KL", "RHB Bank (兴业银行)"),
    ("2488.KL", "Hong Leong Bank (丰隆银行)")
  ]

  /** The table's utilities entries. */
  const Utilities: seq<(string, string)> := [
    ("5347.KL", "Tenaga Nasional (国家能源)"),
    ("6947.KL", "Telekom Malaysia (马电讯)"),
    ("6742.KL", "Maxis (明讯)"),
    ("5398.KL", "CelcomDigi"),
    ("6793.KL", "Gas Malaysia (马天然气)")
  ]

  /** The table's oil and gas entries. */
  const OilAndGas: seq<(string, string)> := [
    ("5181.KL", "Petronas Gas (国油气体)"),
    ("5681.KL", "Petronas Dagangan (国油贸易)"),
    ("4481.KL", "MRCB"),
    ("5227.KL", "Petronas Chemicals (国油化学)")
  ]

  /** The table's plantations entries. */
  const Plantations: seq<(string, string)> := [
    ("4545.KL", "IOI Corporation (IOI集团)"),
    ("5285.KL", "KLK (吉隆坡甲洞)"),
    ("5027.KL", "Sime Darby Plantation (森那美种植)"),
    ("1961.KL", "Hap Seng Plantations"),
    ("2525.KL", "Boustead Plantation")
  ]

  /** The table's consumer goods entries. */
  const Consumer: seq<(string, string)> := [
    ("4707.KL", "Nestle (雀巢)"),
    ("1817.KL", "F&N (花莎尼)"),
    ("5099.KL", "Genting (云顶)"),
    ("4715.KL", "Genting Malaysia (云顶大马)"),
    ("5348.KL", "QL Resources"),
    ("7081.KL", "Hup Seng Industries"),
    ("2828.KL", "Power Root")
  ]

  /** The table's technology entries. */
  const Technology: seq<(string, string)> := [
    ("7113.KL", "Inari Amertron"),
    ("7089.KL", "Unisem (友尼森)"),
    ("7204.KL", "Vitrox (伟特)"),
    ("0166.KL", "Notion VTec"),
    ("7277.KL", "Globetronics Technology"),
    ("5284.KL", "Penta Ocean")
  ]

  /** The table's construction entries. */
  const Construction: seq<(string, string)> := [
    ("3239.KL", "Gamuda (金务大)"),
    ("5819.KL", "Hong Leong Industries"),
    ("6801.KL", "IJM Corporation"),
    ("5081.KL", "Sunway Construction")
  ]

  /** The table's property entries. */
  const Property: seq<(string, string)> := [
    ("5223.KL", "SP Setia (实达集团)"),
    ("5168.KL", "UMW Holdings"),
    ("1783.KL", "Top Glove (顶级手套)"),
    ("7106.KL", "Hartalega")
  ]

  /** The table's other sectors entries. */
  const Others: seq<(string, string)> := [
    ("5216.KL", "IHH Healthcare (IHH医疗保健)"),
    ("6012.KL", "Maxis"),
    ("5274.KL", "MISC (马国际船务)"),
    ("5288.KL", "Hong Leong Financial Group"),
    ("1082.KL", "Malayan Flour Mills")
  ]

  /** The built-in table of Malaysian symbols and company names, sector by
      sector in its source order (search results follow this order). */
  function StockNames(): (r: seq<(string, string)>)
    ensures |r| == 46
  {
    Banks + Utilities + OilAndGas + Plantations + Consumer + Technology + Construction + Property + Others
  }

  /** `MY_STOCK_NAMES.get(symbol)` on a table of that shape. */
  function BuiltinName(names: seq<(string, string)>, symbol: string): Option<string>
    decreases |names|
  {
    if names == [] then None
    else if names[0].0 == symbol then Some(names[0].1)
    else BuiltinName(names[1..], symbol)
  }

  /** `dict.get` on the table: an answer exactly when some entry has the
      symbol, and then the name of the first such entry. */
  lemma {:induction false} BuiltinNameFirst(names: seq<(string, string)>, symbol: string)
    ensures BuiltinName(names, symbol).Some? <==> exists i :: 0 <= i < |names| && names[i].0 == symbol
    ensures BuiltinName(names, symbol).Some? ==>
              exists i :: && 0 <= i < |names| && names[i].0 == symbol
                          && BuiltinName(names, symbol) == Some(names[i].1)
                          && forall j :: 0 <= j < i ==> names[j].0 != symbol
    decreases |names|
  {
    if names != [] && names[0].0 != symbol {
      BuiltinNameFirst(names[1..], symbol);
      assert forall i :: 0 < i < |names| ==> names[1..][i - 1] == names[i];
    }
  }

  // ---------------------------------------------------------------------
  // Symbol normalisation

  /** `s.endswith(".KL")`, spelt out character by character. */
  predicate EndsWithKL(s: string)
    ensures EndsWithKL(s) <==> EndsWith(s, ".KL")
  {
    |s| >= 3 && s[|s| - 3] == '.' && s[|s| - 2] == 'K' && s[|s| - 1] == 'L'
  }

  /** `_normalize_my_symbol`: trim and upper-case; keep a symbol that already
      ends in ".KL"; give an all-digit symbol of at most four digits the
      ".KL" suffix, zero-padded to four digits; leave anything else as it is.
      An empty symbol is returned unchanged. */
  function NormalizeSymbol(symbol: string): string {
    if symbol == "" then symbol
    else
      var s := Upper(Strip(symbol));
      if EndsWithKL(s) then s
      else if IsDigits(s) && |s| == 4 then s + ".KL"
      else if IsDigits(s) && |s| < 4 then ZFill(s, 4) + ".KL"
      else s
  }

  /** The cleaned symbol `symbol.strip().upper()`: trimmed and without a
      lower-case letter. */
  lemma CleanedForm(symbol: string)
    ensures Trimmed(Upper(Strip(symbol))) && NoLower(Upper(Strip(symbol)))
  {
    StripTrims(symbol);
    UpperFacts(Strip(symbol));
  }

  /** The cases of the normaliser, on the cleaned symbol `s`: a ".KL" symbol
      is kept; four digits get the suffix; fewer digits are zero-padded to
      four first; anything else, more digits included, is `s` unchanged; the
      empty symbol stays empty. */
  lemma NormalizeCases(symbol: string)
    ensures symbol == "" ==> NormalizeSymbol(symbol) == ""
    ensures var s := Upper(Strip(symbol));
            && (EndsWithKL(s) ==> NormalizeSymbol(symbol) == s)
            && (IsDigits(s) && |s| == 4 ==> NormalizeSymbol(symbol) == s + ".KL")
            && (IsDigits(s) && |s| < 4 ==> NormalizeSymbol(symbol) == Zeros(4 - |s|) + s + ".KL")
            && (!EndsWithKL(s) && !(IsDigits(s) && |s| <= 4) ==> NormalizeSymbol(symbol) == s)
  {
    var s := Upper(Strip(symbol));
    if IsDigits(s) {
      DigitsLackSuffix(s, ".KL");
    }
  }

  /** A trimmed, upper-case, non-empty string that ends in ".KL" or is not a
      short digit string is a fixed point of the normaliser. */
  lemma NormalFormIsFixed(r: string)
    requires r != "" && Trimmed(r) && NoLower(r)
    requires EndsWithKL(r) || !(IsDigits(r) && |r| <= 4)
    ensures NormalizeSymbol(r) == r
  {
    StripTrims(r);
    UpperFacts(r);
  }

  /** Padding at most four digits to width four gives four digits. */
  lemma PaddedDigits(s: string)
    requires IsDigits(s) && |s| <= 4
    ensures var d := ZFill(s, 4);
            |d| == 4 && forall i :: 0 <= i < 4 ==> IsDigit(d[i])
  {
    var d := ZFill(s, 4);
    ZFillFacts(s, 4);
    forall i | 0 <= i < 4 ensures IsDigit(d[i]) {
      if i >= 4 - |s| { assert d[i] == d[4 - |s|..][i - (4 - |s|)]; }
    }
  }

  /** Four digits followed by ".KL" are a normal form. */
  lemma SuffixedDigitsNormal(d: string)
    requires |d| == 4 && forall i :: 0 <= i < 4 ==> IsDigit(d[i])
    ensures NormalizeSymbol(d + ".KL") == d + ".KL"
  {
    var r := d + ".KL";
    forall i | 0 <= i < |r| ensures !('a' <= r[i] <= 'z') {
      if i < 4 { assert r[i] == d[i]; } else { assert r[i] == ".KL"[i - 4]; }
    }
    assert r[0] == d[0] && r[|r| - 1] == 'L';
    NormalFormIsFixed(r);
  }

  /** Normalising twice is normalising once. */
  lemma NormalizeIdempotent(symbol: string)
    ensures NormalizeSymbol(NormalizeSymbol(symbol)) == NormalizeSymbol(symbol)
  {
    if symbol != "" {
      var s := Upper(Strip(symbol));
      CleanedForm(symbol);
      NormalizeCases(symbol);
      if !EndsWithKL(s) && IsDigits(s) && |s| <= 4 {
        var d := ZFill(s, 4);
        PaddedDigits(s);
        assert NormalizeSymbol(symbol) == d + ".KL";
        SuffixedDigitsNormal(d);
      } else if s != "" {
        NormalFormIsFixed(s);
      }
    }
  }

  // ---------------------------------------------------------------------
  // Facts about the built-in table

  /** The position of a symbol in the table, -1 for one not in it. */
  ghost function TablePosition(symbol: string): int {
    match symbol
    case "1155.KL" => 0
    case "1066.KL" => 1
    case "5234.KL" => 2
    case "1295.KL" => 3
    case "6888.KL" => 4
    case "2488.KL" => 5
    case "5347.KL" => 6
    case "6947.KL" => 7
    case "6742.KL" => 8
    case "5398.KL" => 9
    case "6793.KL" => 10
    case "5181.KL" => 11
    case "5681.KL" => 12
    case "4481.KL" => 13
    case "5227.KL" => 14
    case "4545.KL" => 15
    case "5285.KL" => 16
    case "5027.KL" => 17
    case "1961.KL" => 18
    case "2525.KL" => 19
    case "4707.KL" => 20
    case "1817.KL" => 21
    case "5099.KL" => 22
    case "4715.KL" => 23
    case "5348.KL" => 24
    case "7081.KL" => 25
    case "2828.KL" => 26
    case "7113.KL" => 27
    case "7089.KL" => 28
    case "7204.KL" => 29
    case "0166.KL" => 30
    case "7277.KL" => 31
    case "5284.KL" => 32
    case "3239.KL" => 33
    case "5819.KL" => 34
    case "6801.KL" => 35
    case "5081.KL" => 36
    case "5223.KL" => 37
    case "5168.KL" => 38
    case "1783.KL" => 39
    case "7106.KL" => 40
    case "5216.KL" => 41
    case "6012.KL" => 42
    case "5274.KL" => 43
    case "5288.KL" => 44
    case "1082.KL" => 45
    case _ => -1
  }

  /** A symbol of the table's form: four digits followed by ".KL". */
  predicate SuffixedCode(k: string) {
    && |k| == 7 && IsDigit(k[0]) && IsDigit(k[1]) && IsDigit(k[2]) && IsDigit(k[3])
    && k[4] == '.' && k[5] == 'K' && k[6] == 'L'
  }

  /** Within one sector starting at `offset`, each symbol has its own
      table position and the table's form. */
  ghost predicate SectorIndexed(sector: seq<(string, string)>, offset: int) {
    forall i :: 0 <= i < |sector| ==> TablePosition(sector[i].0) == i + offset && SuffixedCode(sector[i].0)
  }

  lemma BanksIndexed()
    ensures SectorIndexed(Banks, 0)
  {
  }

  lemma UtilitiesIndexed()
    ensures SectorIndexed(Utilities, 6)
  {
  }

  lemma OilAndGasIndexed()
    ensures SectorIndexed(OilAndGas, 11)
  {
  }

  lemma PlantationsIndexed()
    ensures SectorIndexed(Plantations, 15)
  {
  }

  lemma ConsumerIndexed()
    ensures SectorIndexed(Consumer, 20)
  {
  }

  lemma TechnologyIndexed()
    ensures SectorIndexed(Technology, 27)
  {
  }

  lemma ConstructionIndexed()
    ensures SectorIndexed(Construction, 33)
  {
  }

  lemma PropertyIndexed()
    ensures SectorIndexed(Property, 37)
  {
  }

  lemma OthersIndexed()
    ensures SectorIndexed(Others, 41)
  {
  }


  /** Each entry's symbol sits at its own position and has the table's form. */
  lemma StockNamesIndexed()
    ensures forall i :: 0 <= i < |StockNames()| ==>
              TablePosition(StockNames()[i].0) == i && SuffixedCode(StockNames()[i].0)
  {
    BanksIndexed();
    UtilitiesIndexed();
    OilAndGasIndexed();
    PlantationsIndexed();
    ConsumerIndexed();
    TechnologyIndexed();
    ConstructionIndexed();
    PropertyIndexed();
    OthersIndexed();
  }

  /** A symbol of the table's form is a normal form of the normaliser. */
  lemma SuffixedCodeNormal(k: string)
    requires SuffixedCode(k)
    ensures NormalizeSymbol(k) == k
  {
    assert k == k[..4] + ".KL";
    SuffixedDigitsNormal(k[..4]);
  }

  /** The table's symbols are pairwise distinct, as the keys of a dictionary
      are, and each is a normal form of the normaliser. */
  lemma StockNamesKeys()
    ensures forall i, j :: 0 <= i < j < |StockNames()| ==> StockNames()[i].0 != StockNames()[j].0
    ensures forall i :: 0 <= i < |StockNames()| ==> NormalizeSymbol(StockNames()[i].0) == StockNames()[i].0
  {
    StockNamesIndexed();
    forall i | 0 <= i < |StockNames()| ensures NormalizeSymbol(StockNames()[i].0) == StockNames()[i].0 {
      SuffixedCodeNormal(StockNames()[i].0);
    }
  }

  /** Looking up an entry's symbol, normalised or not, gives that entry's
      name. */
  lemma BuiltinNameOfEntry(i: int)
    requires 0 <= i < |StockNames()|
    ensures BuiltinName(StockNames(), StockNames()[i].0) == Some(StockNames()[i].1)
    ensures BuiltinName(StockNames(), NormalizeSymbol(StockNames()[i].0)) == Some(StockNames()[i].1)
  {
    StockNamesKeys();
    BuiltinNameFirst(StockNames(), StockNames()[i].0);
  }

  // ---------------------------------------------------------------------
  // The name cache and the rate limit

  /** One cache entry, as read back from the JSON cache file. A dictionary
      holds the value under 'data' and the 'timestamp' (`None` when the key is
      absent; a file written by hand may also hold `null` or text there) and
      the 'source' tag; anything else the file holds under a key is
      `NotADict`. */
  datatype CacheEntry =
    | Entry(data: Option<Value>, timestamp: Option<Value>, source: string)
    | NotADict

  /** The cache key of a company name: the symbol as given, not normalised. */
  function CacheKey(symbol: string): string {
    "name_" + symbol
  }

  /** Different spellings of a symbol have different cache entries: the key
      gives back the symbol it was made from. */
  lemma CacheKeyInjective(a: string, b: string)
    requires CacheKey(a) == CacheKey(b)
    ensures a == b
  {
    assert a == CacheKey(a)[5..];
    assert b == CacheKey(b)[5..];
  }

  /** `_is_cache_valid` on a present entry: whether it is younger than the
      time-to-live, a missing timestamp read as 0; `None` where the check
      raises, because the entry is no dictionary or its timestamp is no
      number. */
  function EntryValidity(e: CacheEntry, ttl: int, now: real): (r: Option<bool>)
    ensures r.None? <==> e.NotADict? || (e.timestamp.Some? && !e.timestamp.value.Num?)
  {
    match e
    case NotADict => None
    case Entry(_, timestamp, _) =>
      match timestamp
      case None => Some(now < ttl as real)
      case Some(Num(t)) => Some(now - t < ttl as real)
      case Some(_) => None
  }

  /** The entry passes `_is_cache_valid`. */
  predicate EntryValid(e: CacheEntry, ttl: int, now: real) {
    EntryValidity(e, ttl, now) == Some(true)
  }

  /** `_is_cache_valid(key)` returns false: the key is absent or its entry
      has expired. */
  predicate CacheMiss(cache: map<string, CacheEntry>, key: string, ttl: int, now: real) {
    key !in cache || EntryValidity(cache[key], ttl, now) == Some(false)
  }

  /** An entry valid now was valid at every earlier time: validity ends once
      and for all. */
  lemma ValidityEndsOnce(e: CacheEntry, ttl: int, earlier: real, now: real)
    requires earlier <= now && EntryValid(e, ttl, now)
    ensures EntryValid(e, ttl, earlier)
  {
  }

  /** `_rate_limit`'s sleep: what remains of the required spacing since the
      last request, or nothing if it has passed. The request then goes out
      no earlier than `last + spacing`, and no later than needed. */
  function WaitTime(now: real, last: real, spacing: int): (w: real)
    ensures w >= 0.0
    ensures now + w >= last + spacing as real
    ensures w > 0.0 ==> now + w == last + spacing as real
  {
    var elapsed := now - last;
    if elapsed < spacing as real then spacing as real - elapsed else 0.0
  }

  /** The name reported when neither the table nor the market-data library
      knows the symbol: a fixed prefix and the normalised symbol with every
      ".KL" removed. */
  function DefaultName(normalized: string): string {
    "马来西亚股票" + RemoveAll(normalized, ".KL")
  }

  lemma DefaultNameOfPadded(symbol: string)
    requires IsDigits(Upper(Strip(symbol))) && |Upper(Strip(symbol))| <= 4
    ensures DefaultName(NormalizeSymbol(symbol)) == "马来西亚股票" + ZFill(Upper(Strip(symbol)), 4)
  {
    var s := Upper(Strip(symbol));
    assert symbol != "";
    NormalizeCases(symbol);
    var d := ZFill(s, 4);
    PaddedDigits(s);
    assert NormalizeSymbol(symbol) == d + ".KL";
    RemoveAllAfterDigits(d, ".KL");
  }

  /** What one `get_company_name` call returns and leaves behind. The name is
      a value: the library's `shortName` and a cached 'data' are returned as
      they are, `None` included. */
  datatype NameOutcome = NameOutcome(
    name: Value,
    cache: map<string, CacheEntry>,
    lastRequestTime: real,
    finishedAt: real)

  /** `get_company_name` as a function of the provider's state, the clock at
      the call and the library's answer: `shortName` is `Some(v)` when the
      library returned a non-empty information dictionary holding the key
      'shortName' with value `v`, and `None` when it failed or had no such
      key. A valid cache entry comes first, then the built-in table, then the
      library, then the default name. The library is only asked after the
      rate-limit wait, so the last two tiers stamp their entries with the
      clock after that wait. A cache entry that makes the validity check
      raise, or a valid one without 'data', ends in the outer `except`: the
      default name, with nothing cached and no wait. */
  function CompanyNameStep(names: seq<(string, string)>,
                           cache: map<string, CacheEntry>, lastRequestTime: real,
                           ttl: int, spacing: int,
                           symbol: string, now: real, shortName: Option<Value>): (r: NameOutcome)
    ensures r.finishedAt >= now
    ensures forall k :: k != CacheKey(symbol) ==>
              (k in r.cache <==> k in cache) && (k in cache ==> r.cache[k] == cache[k])
    ensures r.cache != cache ==> CacheKey(symbol) in r.cache && r.cache[CacheKey(symbol)].Entry?
                                 && r.cache[CacheKey(symbol)].data == Some(r.name)
    ensures r.lastRequestTime == lastRequestTime
            || (r.lastRequestTime == r.finishedAt && r.lastRequestTime >= lastRequestTime + spacing as real)
  {
    var key := CacheKey(symbol);
    var normalized := NormalizeSymbol(symbol);
    var valid := if key in cache then EntryValidity(cache[key], ttl, now) else Some(false);
    if valid == Some(true) && cache[key].data.Some? then
      NameOutcome(cache[key].data.value, cache, lastRequestTime, now)
    else if valid != Some(false) then
      NameOutcome(Str(DefaultName(normalized)), cache, lastRequestTime, now)
    else
      match BuiltinName(names, normalized)
      case Some(n) =>
        NameOutcome(Str(n), cache[key := Entry(Some(Str(n)), Some(Num(now)), "builtin_mapping")], lastRequestTime, now)
      case None =>
        var t := now + WaitTime(now, lastRequestTime, spacing);
        match shortName
        case Some(a) =>
          NameOutcome(a, cache[key := Entry(Some(a), Some(Num(t)), "yahoo_finance")], t, t)
        case None =>
          var d := DefaultName(normalized);
          NameOutcome(Str(d), cache[key := Entry(Some(Str(d)), Some(Num(t - ttl as real + 1800.0)), "default")], t, t)
  }

  /** A valid cached name is returned as it is, `None` included; nothing
      changes and the library is not asked. */
  lemma CachedNameReturned(names: seq<(string, string)>, cache: map<string, CacheEntry>, last: real, ttl: int, spacing: int,
                           symbol: string, now: real, shortName: Option<Value>)
    requires CacheKey(symbol) in cache && EntryValid(cache[CacheKey(symbol)], ttl, now)
    requires cache[CacheKey(symbol)].data.Some?
    ensures CompanyNameStep(names, cache, last, ttl, spacing, symbol, now, shortName)
            == NameOutcome(cache[CacheKey(symbol)].data.value, cache, last, now)
  {
  }

  /** A cache entry that is no dictionary or whose timestamp is no number
      makes the validity check raise, and so does reading a valid entry that
      lacks 'data': the outer `except` answers with the default name, caches
      nothing and does not wait. */
  lemma BrokenEntryDefault(names: seq<(string, string)>, cache: map<string, CacheEntry>, last: real, ttl: int, spacing: int,
                           symbol: string, now: real, shortName: Option<Value>)
    requires CacheKey(symbol) in cache
    requires var e := cache[CacheKey(symbol)];
             e.NotADict? || (e.timestamp.Some? && !e.timestamp.value.Num?)
             || (EntryValid(e, ttl, now) && e.data.None?)
    ensures CompanyNameStep(names, cache, last, ttl, spacing, symbol, now, shortName)
            == NameOutcome(Str(DefaultName(NormalizeSymbol(symbol))), cache, last, now)
  {
  }

  /** On a cache miss, a symbol the table knows (after normalising) gets the
      table's name, stored under the raw symbol's key with the current time
      and the source tag 'builtin_mapping'. */
  lemma BuiltinNameCached(names: seq<(string, string)>, cache: map<string, CacheEntry>, last: real, ttl: int, spacing: int,
                          symbol: string, now: real, shortName: Option<Value>)
    requires CacheMiss(cache, CacheKey(symbol), ttl, now)
    requires BuiltinName(names, NormalizeSymbol(symbol)).Some?
    ensures var n := BuiltinName(names, NormalizeSymbol(symbol)).value;
            CompanyNameStep(names, cache, last, ttl, spacing, symbol, now, shortName)
            == NameOutcome(Str(n), cache[CacheKey(symbol) := Entry(Some(Str(n)), Some(Num(now)), "builtin_mapping")], last, now)
  {
  }

  /** On a cache miss for a symbol the table does not know, the library's
      short name is returned and cached as it is, `None` included, stamped
      with the clock after the rate-limit wait. */
  lemma LibraryNameCached(names: seq<(string, string)>, cache: map<string, CacheEntry>, last: real, ttl: int, spacing: int,
                          symbol: string, now: real, shortName: Option<Value>)
    requires CacheMiss(cache, CacheKey(symbol), ttl, now)
    requires BuiltinName(names, NormalizeSymbol(symbol)).None? && shortName.Some?
    ensures var r := CompanyNameStep(names, cache, last, ttl, spacing, symbol, now, shortName);
            && r.name == shortName.value
            && r.finishedAt == r.lastRequestTime == now + WaitTime(now, last, spacing)
            && r.cache == cache[CacheKey(symbol) := Entry(shortName, Some(Num(r.finishedAt)), "yahoo_finance")]
  {
  }

  /** When nothing knows the symbol, the default name is returned and cached
      with the tag 'default' and a back-dated timestamp, so that the entry
      stays valid for exactly 1800 seconds after the call finishes. */
  lemma DefaultNameValidHalfHour(names: seq<(string, string)>, cache: map<string, CacheEntry>, last: real, ttl: int, spacing: int,
                                 symbol: string, now: real, later: real)
    requires CacheMiss(cache, CacheKey(symbol), ttl, now)
    requires BuiltinName(names, NormalizeSymbol(symbol)).None?
    ensures var r := CompanyNameStep(names, cache, last, ttl, spacing, symbol, now, None);
            && r.name == Str("马来西亚股票" + RemoveAll(NormalizeSymbol(symbol), ".KL"))
            && r.cache[CacheKey(symbol)].source == "default"
            && r.finishedAt == now + WaitTime(now, last, spacing)
            && (EntryValid(r.cache[CacheKey(symbol)], ttl, later) <==> later - r.finishedAt < 1800.0)
  {
  }

  /** Asking again for the same symbol while the entry the first call left is
      still valid gives the same name, changes nothing and does not reach the
      library, whatever the library would now answer. */
  lemma NameStableWhileCached(names: seq<(string, string)>, cache: map<string, CacheEntry>, last: real, ttl: int, spacing: int,
                              symbol: string, now: real, shortName: Option<Value>,
                              later: real, shortName2: Option<Value>)
    requires var r := CompanyNameStep(names, cache, last, ttl, spacing, symbol, now, shortName);
             CacheKey(symbol) in r.cache && EntryValid(r.cache[CacheKey(symbol)], ttl, later)
    ensures var r := CompanyNameStep(names, cache, last, ttl, spacing, symbol, now, shortName);
            CompanyNameStep(names, r.cache, r.lastRequestTime, ttl, spacing, symbol, later, shortName2)
            == NameOutcome(r.name, r.cache, r.lastRequestTime, later)
  {
  }

  /** Every name the cache holds under 'data' is text. */
  predicate TextCache(cache: map<string, CacheEntry>) {
    forall k :: k in cache && cache[k].Entry? && cache[k].data.Some? ==> cache[k].data.value.Str?
  }

  /** The library gave no short name, or a text one. */
  predicate TextAnswer(shortName: Option<Value>) {
    shortName.None? || shortName.value.Str?
  }

  /** While the cache holds only text names and the library answers with
      text, the name returned is text and the cache keeps holding only text. */
  lemma CompanyNameText(names: seq<(string, string)>, cache: map<string, CacheEntry>, last: real, ttl: int, spacing: int,
                        symbol: string, now: real, shortName: Option<Value>)
    requires TextCache(cache) && TextAnswer(shortName)
    ensures var r := CompanyNameStep(names, cache, last, ttl, spacing, symbol, now, shortName);
            r.name.Str? && TextCache(r.cache)
  {
    var r := CompanyNameStep(names, cache, last, ttl, spacing, symbol, now, shortName);
    var key := CacheKey(symbol);
    if key in cache && cache[key].Entry? && cache[key].data.Some? {
      assert cache[key].data.value.Str?;
    }
    if r.cache != cache {
      forall k | k in r.cache && r.cache[k].Entry? && r.cache[k].data.Some?
        ensures r.cache[k].data.value.Str?
      {
        if k != key {
          assert cache[k] == r.cache[k];
        }
      }
    }
  }

  // ---------------------------------------------------------------------
  // Stock information

  /** The market-data library's answer to a request for `Ticker(symbol).info`:
      the fields the provider reads from it (`Null` where the library gave
      none, or gave no dictionary at all), the failure it raised, or the
      failure of `import yfinance` itself. */
  datatype TickerReply =
    | TickerInfo(currentPrice: Value, previousClose: Value, open: Value,
                 dayHigh: Value, dayLow: Value, volume: Value, marketCap: Value,
                 trailingPE: Value, priceToBook: Value, dividendYield: Value,
                 fiftyTwoWeekHigh: Value, fiftyTwoWeekLow: Value)
    | TickerFailure(message: string)
    | LibraryMissing(message: string)

  /** The dictionary `get_stock_info` returns, given the normalised symbol, the
      company name and the library's answer: the fixed identification fields,
      and either the library's figures under the provider's own names or the
      error text. */
  function InfoDict(normalized: string, name: Value, ticker: TickerReply): (r: Doc)
    ensures Get(r, Symbol) == Str(normalized) && Get(r, Name) == name && Name in r
    ensures Get(r, Currency) == Str("MYR") && Get(r, Exchange) == Str("KLS")
    ensures Get(r, Source) == if ticker.TickerInfo? then Str("yahoo_finance") else Str("error")
    ensures ErrorText in r <==> !ticker.TickerInfo?
  {
    var details :=
      match ticker
      case TickerInfo(_, _, _, _, _, _, _, _, _, _, _, _) =>
        map[Open := ticker.open,
            DayHigh := ticker.dayHigh,
            DayLow := ticker.dayLow,
            Volume := ticker.volume,
            DividendYield := ticker.dividendYield,
            FiftyTwoWeekHigh := ticker.fiftyTwoWeekHigh,
            FiftyTwoWeekLow := ticker.fiftyTwoWeekLow,
            PbRatio := ticker.priceToBook,
            PeRatio := ticker.trailingPE,
            MarketCap := ticker.marketCap,
            PreviousClose := ticker.previousClose,
            CurrentPrice := ticker.currentPrice]
      case _ => map[ErrorText := Str(ticker.message)];
    details[Market := Str("马来西亚股市")]
           [Source := if ticker.TickerInfo? then Str("yahoo_finance") else Str("error")]
           [Exchange := Str("KLS")]
           [Currency := Str("MYR")]
           [Name := name]
           [Symbol := Str(normalized)]
  }

  /** On success the library's prices are reported, and no error text. */
  lemma InfoDictFigures(normalized: string, name: Value, ticker: TickerReply)
    requires ticker.TickerInfo?
    ensures var r := InfoDict(normalized, name, ticker);
            && Get(r, CurrentPrice) == ticker.currentPrice
            && Get(r, PreviousClose) == ticker.previousClose
            && Get(r, MarketCap) == ticker.marketCap
            && ErrorText !in r
  {
  }

  /** On success the valuation ratios are reported too, `trailingPE` as
      `pe_ratio` and `priceToBook` as `pb_ratio`. */
  lemma InfoDictRatios(normalized: string, name: Value, ticker: TickerReply)
    requires ticker.TickerInfo?
    ensures var r := InfoDict(normalized, name, ticker);
            && Get(r, PeRatio) == ticker.trailingPE
            && Get(r, PbRatio) == ticker.priceToBook
  {
  }

  /** On either failure there are no figures, only the error text. */
  lemma InfoDictError(normalized: string, name: Value, ticker: TickerReply)
    requires !ticker.TickerInfo?
    ensures var r := InfoDict(normalized, name, ticker);
            && Get(r, ErrorText) == Str(ticker.message)
            && CurrentPrice !in r && PreviousClose !in r && MarketCap !in r
  {
  }

  datatype InfoOutcome = InfoOutcome(info: Doc, cache: map<string, CacheEntry>, lastRequestTime: real)

  /** `get_stock_info` as a function of the provider's state: look the name
      up, wait out the rate limit, ask the library; on failure look the name
      up once more (at the clock after the wait) and report the error. When
      `import yfinance` fails, nothing but the error path runs: one lookup at
      the clock of the call, whose library tier fails the same way. */
  function StockInfoStep(names: seq<(string, string)>,
                         cache: map<string, CacheEntry>, lastRequestTime: real,
                         ttl: int, spacing: int, symbol: string, now: real,
                         shortName: Option<Value>, ticker: TickerReply): InfoOutcome
  {
    if ticker.LibraryMissing? then
      ErrorInfo(names, cache, lastRequestTime, now, ttl, spacing, symbol, None, ticker)
    else
      var first := CompanyNameStep(names, cache, lastRequestTime, ttl, spacing, symbol, now, shortName);
      InfoAfterName(names, first, ttl, spacing, symbol, shortName, ticker)
  }

  /** The rest of `get_stock_info` once the first name lookup is done. */
  function InfoAfterName(names: seq<(string, string)>, first: NameOutcome,
                         ttl: int, spacing: int, symbol: string,
                         shortName: Option<Value>, ticker: TickerReply): InfoOutcome
  {
    var t := first.finishedAt + WaitTime(first.finishedAt, first.lastRequestTime, spacing);
    if ticker.TickerInfo? then InfoOutcome(InfoDict(NormalizeSymbol(symbol), first.name, ticker), first.cache, t)
    else ErrorInfo(names, first.cache, t, t, ttl, spacing, symbol, shortName, ticker)
  }

  /** The two ways `get_stock_info` goes on after the first name lookup. */
  lemma InfoAfterNameCases(names: seq<(string, string)>, first: NameOutcome,
                           ttl: int, spacing: int, symbol: string,
                           shortName: Option<Value>, ticker: TickerReply)
    ensures var t := first.finishedAt + WaitTime(first.finishedAt, first.lastRequestTime, spacing);
            var rest := InfoAfterName(names, first, ttl, spacing, symbol, shortName, ticker);
            && (ticker.TickerInfo? ==> rest == InfoOutcome(InfoDict(NormalizeSymbol(symbol), first.name, ticker), first.cache, t))
            && (!ticker.TickerInfo? ==> rest == ErrorInfo(names, first.cache, t, t, ttl, spacing, symbol, shortName, ticker))
  {
  }

  /** The `except` path of `get_stock_info`, entered at clock `now`: the name
      is looked up once more, at `now`, and the error reported. */
  function ErrorInfo(names: seq<(string, string)>,
                     cache: map<string, CacheEntry>, lastRequestTime: real, now: real,
                     ttl: int, spacing: int, symbol: string,
                     shortName: Option<Value>, ticker: TickerReply): InfoOutcome
  {
    var second := CompanyNameStep(names, cache, lastRequestTime, ttl, spacing, symbol, now, shortName);
    InfoOutcome(InfoDict(NormalizeSymbol(symbol), second.name, ticker), second.cache, second.lastRequestTime)
  }

  /** Whatever the library does, the information names the normalised
      symbol, the ringgit and the KLS exchange, and carries a name: on
      success the name of the first lookup. Unless the library cannot be
      imported, the request to it goes out after the rate-limit wait. */
  lemma StockInfoIdentified(names: seq<(string, string)>,
                            cache: map<string, CacheEntry>, lastRequestTime: real,
                            ttl: int, spacing: int, symbol: string, now: real,
                            shortName: Option<Value>, ticker: TickerReply)
    ensures var r := StockInfoStep(names, cache, lastRequestTime, ttl, spacing, symbol, now, shortName, ticker);
            && Get(r.info, Symbol) == Str(NormalizeSymbol(symbol))
            && Get(r.info, Currency) == Str("MYR") && Get(r.info, Exchange) == Str("KLS")
            && Name in r.info
            && (ticker.TickerInfo? ==>
                  Get(r.info, Name) == CompanyNameStep(names, cache, lastRequestTime, ttl, spacing, symbol, now, shortName).name)
            && (Get(r.info, Source) == Str("error") <==> !ticker.TickerInfo?)
            && (!ticker.LibraryMissing? ==>
                  && r.lastRequestTime >= now
                  && (spacing >= 0 ==> r.lastRequestTime >= lastRequestTime + spacing as real))
  {
  }

  /** When the library cannot be imported, the name is looked up once, at
      the clock of the call, as if the library had no short name; the
      provider waits at most once, inside that lookup, and only when the
      lookup reaches the library tier. */
  lemma LibraryMissingInfo(names: seq<(string, string)>,
                           cache: map<string, CacheEntry>, lastRequestTime: real,
                           ttl: int, spacing: int, symbol: string, now: real,
                           shortName: Option<Value>, ticker: TickerReply)
    requires ticker.LibraryMissing?
    ensures var r := StockInfoStep(names, cache, lastRequestTime, ttl, spacing, symbol, now, shortName, ticker);
            var only := CompanyNameStep(names, cache, lastRequestTime, ttl, spacing, symbol, now, None);
            && Get(r.info, Name) == only.name && r.cache == only.cache
            && Get(r.info, ErrorText) == Str(ticker.message)
            && (r.lastRequestTime == lastRequestTime || r.lastRequestTime == now + WaitTime(now, lastRequestTime, spacing))
            && (BuiltinName(names, NormalizeSymbol(symbol)).Some? ==> r.lastRequestTime == lastRequestTime)
  {
    InfoDictError(NormalizeSymbol(symbol), CompanyNameStep(names, cache, lastRequestTime, ttl, spacing, symbol, now, None).name, ticker);
  }

  /** The `except` path keeps names text. */
  lemma ErrorInfoText(names: seq<(string, string)>,
                      cache: map<string, CacheEntry>, lastRequestTime: real, now: real,
                      ttl: int, spacing: int, symbol: string,
                      shortName: Option<Value>, ticker: TickerReply)
    requires TextCache(cache) && TextAnswer(shortName)
    ensures var r := ErrorInfo(names, cache, lastRequestTime, now, ttl, spacing, symbol, shortName, ticker);
            Get(r.info, Name).Str? && TextCache(r.cache)
  {
    CompanyNameText(names, cache, lastRequestTime, ttl, spacing, symbol, now, shortName);
  }

  /** The rest of `get_stock_info` after a text name keeps names text. */
  lemma InfoAfterNameText(names: seq<(string, string)>, first: NameOutcome,
                          ttl: int, spacing: int, symbol: string,
                          shortName: Option<Value>, ticker: TickerReply)
    requires TextCache(first.cache) && first.name.Str? && TextAnswer(shortName)
    ensures var r := InfoAfterName(names, first, ttl, spacing, symbol, shortName, ticker);
            Get(r.info, Name).Str? && TextCache(r.cache)
  {
    if !ticker.TickerInfo? {
      var t := first.finishedAt + WaitTime(first.finishedAt, first.lastRequestTime, spacing);
      ErrorInfoText(names, first.cache, t, t, ttl, spacing, symbol, shortName, ticker);
    }
  }

  /** While the cache holds only text names and the library answers with
      text, the information's name is text and the cache stays so. */
  lemma StockInfoNameText(names: seq<(string, string)>,
                          cache: map<string, CacheEntry>, lastRequestTime: real,
                          ttl: int, spacing: int, symbol: string, now: real,
                          shortName: Option<Value>, ticker: TickerReply)
    requires TextCache(cache) && TextAnswer(shortName)
    ensures var r := StockInfoStep(names, cache, lastRequestTime, ttl, spacing, symbol, now, shortName, ticker);
            Get(r.info, Name).Str? && TextCache(r.cache)
  {
    if ticker.LibraryMissing? {
      ErrorInfoText(names, cache, lastRequestTime, now, ttl, spacing, symbol, None, ticker);
    } else {
      CompanyNameText(names, cache, lastRequestTime, ttl, spacing, symbol, now, shortName);
      var first := CompanyNameStep(names, cache, lastRequestTime, ttl, spacing, symbol, now, shortName);
      InfoAfterNameText(names, first, ttl, spacing, symbol, shortName, ticker);
    }
  }

  /** On success the information carries the library's figures; on either
      failure it carries the error text and no figures. */
  lemma StockInfoFigures(names: seq<(string, string)>,
                         cache: map<string, CacheEntry>, lastRequestTime: real,
                         ttl: int, spacing: int, symbol: string, now: real,
                         shortName: Option<Value>, ticker: TickerReply)
    ensures var r := StockInfoStep(names, cache, lastRequestTime, ttl, spacing, symbol, now, shortName, ticker);
            && (ticker.TickerInfo? ==>
                  && Get(r.info, CurrentPrice) == ticker.currentPrice
                  && Get(r.info, PreviousClose) == ticker.previousClose
                  && Get(r.info, MarketCap) == ticker.marketCap
                  && Get(r.info, PeRatio) == ticker.trailingPE
                  && Get(r.info, PbRatio) == ticker.priceToBook
                  && ErrorText !in r.info)
            && (!ticker.TickerInfo? ==>
                  && Get(r.info, ErrorText) == Str(ticker.message)
                  && CurrentPrice !in r.info && PreviousClose !in r.info && MarketCap !in r.info)
  {
    var normalized := NormalizeSymbol(symbol);
    if ticker.LibraryMissing? {
      var only := CompanyNameStep(names, cache, lastRequestTime, ttl, spacing, symbol, now, None);
      InfoDictError(normalized, only.name, ticker);
    } else {
      var first := CompanyNameStep(names, cache, lastRequestTime, ttl, spacing, symbol, now, shortName);
      var t := first.finishedAt + WaitTime(first.finishedAt, first.lastRequestTime, spacing);
      if ticker.TickerInfo? {
        InfoDictFigures(normalized, first.name, ticker);
        InfoDictRatios(normalized, first.name, ticker);
      } else {
        var second := CompanyNameStep(names, first.cache, t, ttl, spacing, symbol, t, shortName);
        InfoDictError(normalized, second.name, ticker);
      }
    }
  }

  // ---------------------------------------------------------------------
  // The provider object

  /** The settings' defaults: names are cached for an hour, and requests to
      the library are spaced two seconds apart. */
  const DefaultCacheTtl: int := 3600
  const DefaultRateLimitWait: int := 2

  /** `MYStockProvider`: the settings read at construction, the name cache
      and the time of the last request to the library. */
  class MyStockProvider {
    const names: seq<(string, string)>
    const cacheTtl: int
    const rateLimitWait: int
    var cache: map<string, CacheEntry>
    var lastRequestTime: real

    /** `cacheTtl` and `rateLimitWait` are what the two settings hold (`None`
        when unset, so that the defaults apply); `loaded` is what the cache
        file held (empty when it is missing or unreadable). */
    constructor (cacheTtl: Option<int>, rateLimitWait: Option<int>, loaded: map<string, CacheEntry>)
      ensures names == StockNames()
      ensures this.cacheTtl == cacheTtl.GetOr(DefaultCacheTtl)
      ensures this.rateLimitWait == rateLimitWait.GetOr(DefaultRateLimitWait)
      ensures cache == loaded && lastRequestTime == 0.0
    {
      names := StockNames();
      this.cacheTtl := cacheTtl.GetOr(DefaultCacheTtl);
      this.rateLimitWait := rateLimitWait.GetOr(DefaultRateLimitWait);
      cache := loaded;
      lastRequestTime := 0.0;
    }

    /** `_is_cache_valid`: false for an absent key; otherwise whether the
        entry is younger than the time-to-live, a missing timestamp read as 0;
        `None` where it raises on an entry that is no dictionary or a
        timestamp that is no number. */
    function IsCacheValid(key: string, now: real): (r: Option<bool>)
      reads this
      ensures key !in cache ==> r == Some(false)
      ensures key in cache && cache[key].NotADict? ==> r.None?
      ensures key in cache && cache[key].Entry? && cache[key].timestamp.None? ==> r == Some(now < cacheTtl as real)
      ensures key in cache && cache[key].Entry? && cache[key].timestamp.Some? ==>
                match cache[key].timestamp.value
                case Num(t) => r == Some(now - t < cacheTtl as real)
                case _ => r.None?
    {
      if key in cache then EntryValidity(cache[key], cacheTtl, now) else Some(false)
    }

    /** `_rate_limit`: returns how long it sleeps instead of sleeping, and
        records the clock after the sleep as the time of this request. */
    method RateLimit(now: real) returns (wait: real)
      modifies this`lastRequestTime
      ensures wait == WaitTime(now, old(lastRequestTime), rateLimitWait)
      ensures lastRequestTime == now + wait
      ensures lastRequestTime >= old(lastRequestTime) + rateLimitWait as real
    {
      var elapsed := now - lastRequestTime;
      wait := 0.0;
      if elapsed < rateLimitWait as real {
        wait := rateLimitWait as real - elapsed;
      }
      lastRequestTime := now + wait;
    }

    /** `get_company_name`; also returns the clock when it finishes. */
    method GetCompanyName(symbol: string, now: real, shortName: Option<Value>)
      returns (name: Value, finishedAt: real)
      modifies this
      ensures NameOutcome(name, cache, lastRequestTime, finishedAt)
              == CompanyNameStep(names, old(cache), old(lastRequestTime), cacheTtl, rateLimitWait, symbol, now, shortName)
    {
      var key := CacheKey(symbol);
      var normalized := NormalizeSymbol(symbol);
      var valid := IsCacheValid(key, now);
      if valid == Some(true) && cache[key].data.Some? {
        name, finishedAt := cache[key].data.value, now;
      } else if valid != Some(false) {
        // The check raised, or the valid entry has no 'data': the outer
        // `except` answers with the default name.
        name, finishedAt := Str(DefaultName(normalized)), now;
      } else {
        name, finishedAt := LookUpName(key, normalized, now, shortName);
      }
    }

    /** The tiers of `get_company_name` after a cache miss: the built-in
        table, then the library. */
    method LookUpName(key: string, normalized: string, now: real, shortName: Option<Value>)
      returns (name: Value, finishedAt: real)
      modifies this
      ensures BuiltinName(names, normalized).Some? ==>
                && name == Str(BuiltinName(names, normalized).value) && finishedAt == now
                && cache == old(cache)[key := Entry(Some(name), Some(Num(now)), "builtin_mapping")]
                && lastRequestTime == old(lastRequestTime)
      ensures BuiltinName(names, normalized).None? ==>
                && finishedAt == lastRequestTime == now + WaitTime(now, old(lastRequestTime), rateLimitWait)
                && name == (if shortName.Some? then shortName.value else Str(DefaultName(normalized)))
                && cache == old(cache)[key := if shortName.Some?
                                              then Entry(shortName, Some(Num(finishedAt)), "yahoo_finance")
                                              else Entry(Some(name), Some(Num(finishedAt - cacheTtl as real + 1800.0)), "default")]
    {
      var builtin := BuiltinName(names, normalized);
      if builtin.Some? {
        name, finishedAt := Str(builtin.value), now;
        cache := cache[key := Entry(Some(name), Some(Num(now)), "builtin_mapping")];
      } else {
        name, finishedAt := AskLibraryForName(key, normalized, now, shortName);
      }
    }

    /** The last two tiers of `get_company_name`: wait out the rate limit,
        then cache the library's short name as it is, or else the default
        name with the back-dated timestamp. */
    method AskLibraryForName(key: string, normalized: string, now: real, shortName: Option<Value>)
      returns (name: Value, finishedAt: real)
      modifies this
      ensures finishedAt == lastRequestTime == now + WaitTime(now, old(lastRequestTime), rateLimitWait)
      ensures name == if shortName.Some? then shortName.value else Str(DefaultName(normalized))
      ensures cache == old(cache)[key := if shortName.Some?
                                          then Entry(shortName, Some(Num(finishedAt)), "yahoo_finance")
                                          else Entry(Some(name), Some(Num(finishedAt - cacheTtl as real + 1800.0)), "default")]
    {
      var _ := RateLimit(now);
      finishedAt := lastRequestTime;
      if shortName.Some? {
        name := shortName.value;
        cache := cache[key := Entry(shortName, Some(Num(finishedAt)), "yahoo_finance")];
      } else {
        name := Str(DefaultName(normalized));
        cache := cache[key := Entry(Some(name), Some(Num(finishedAt - cacheTtl as real + 1800.0)), "default")];
      }
    }

    /** `get_stock_info`. */
    method GetStockInfo(symbol: string, now: real, shortName: Option<Value>, ticker: TickerReply)
      returns (info: Doc)
      modifies this
      ensures InfoOutcome(info, cache, lastRequestTime)
              == StockInfoStep(names, old(cache), old(lastRequestTime), cacheTtl, rateLimitWait, symbol, now, shortName, ticker)
    {
      if ticker.LibraryMissing? {
        info := InfoAfterFailure(symbol, now, None, ticker);
      } else {
        var name, finishedAt := GetCompanyName(symbol, now, shortName);
        info := FinishStockInfo(symbol, name, finishedAt, shortName, ticker);
      }
    }

    /** `get_stock_info` after the first name lookup returned `name` at
        clock `finishedAt`. */
    method FinishStockInfo(symbol: string, name: Value, finishedAt: real,
                           shortName: Option<Value>, ticker: TickerReply)
      returns (info: Doc)
      modifies this
      ensures InfoOutcome(info, cache, lastRequestTime)
              == InfoAfterName(names, NameOutcome(name, old(cache), old(lastRequestTime), finishedAt),
                               cacheTtl, rateLimitWait, symbol, shortName, ticker)
    {
      var first := NameOutcome(name, cache, lastRequestTime, finishedAt);
      var _ := RateLimit(finishedAt);
      info := AskLibraryForInfo(symbol, shortName, ticker, first);
    }

    /** The request for the ticker's information, right after the rate-limit
        wait that followed the name lookup `first`: the figures on success,
        the error path on failure. */
    method AskLibraryForInfo(symbol: string, shortName: Option<Value>, ticker: TickerReply,
                             first: NameOutcome)
      returns (info: Doc)
      requires cache == first.cache
      requires lastRequestTime == first.finishedAt + WaitTime(first.finishedAt, first.lastRequestTime, rateLimitWait)
      modifies this
      ensures InfoOutcome(info, cache, lastRequestTime)
              == InfoAfterName(names, first, cacheTtl, rateLimitWait, symbol, shortName, ticker)
    {
      InfoAfterNameCases(names, first, cacheTtl, rateLimitWait, symbol, shortName, ticker);
      if ticker.TickerInfo? {
        info := InfoDict(NormalizeSymbol(symbol), first.name, ticker);
      } else {
        info := InfoAfterFailure(symbol, lastRequestTime, shortName, ticker);
      }
    }

    /** The `except` path of `get_stock_info`, entered at clock `now`. */
    method InfoAfterFailure(symbol: string, now: real, shortName: Option<Value>, ticker: TickerReply)
      returns (info: Doc)
      modifies this
      ensures InfoOutcome(info, cache, lastRequestTime)
              == ErrorInfo(names, old(cache), old(lastRequestTime), now, cacheTtl, rateLimitWait, symbol, shortName, ticker)
    {
      var retried, _ := GetCompanyName(symbol, now, shortName);
      info := InfoDict(NormalizeSymbol(symbol), retried, ticker);
    }
  }
}
