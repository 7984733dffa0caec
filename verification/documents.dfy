/** Documents as the store and the Python dicts hold them: a map from field
    name to value, where a missing field reads as `None`. The field names the
    core reads or writes are constructors of `Field`; any other name a stored
    document carries is an `Other`. */
module Documents {
  import opened Wrappers
  import opened Text
  import Sorting

  /** A field value: `None`, a number or a string. */
  datatype Value = Null | Num(x: real) | Str(s: string)

  /** Field names: `_id`, `code`, `symbol`, `name`, `name_en`, `market`,
      `source`, `currency`, `exchange`, `trade_date`, the price and volume
      fields of quotes and bars (`open`, `high`, `low`, `close`, `volume`,
      `pre_close`), those of the provider's information dictionary
      (`current_price`, `previous_close`, `day_high`, `day_low`, `market_cap`,
      `pe_ratio`, `pb_ratio`, `dividend_yield`, `fifty_two_week_high`,
      `fifty_two_week_low`, `error`), and those of the unified information
      record (`total_mv`, `pe`, `pb`). */
  datatype Field =
    | Id | Code | Symbol | Name | NameEn | Market | Source | Currency | Exchange
    | TradeDate | Open | High | Low | Close | Volume | PreClose
    | CurrentPrice | PreviousClose | DayHigh | DayLow | MarketCap | PeRatio | PbRatio
    | DividendYield | FiftyTwoWeekHigh | FiftyTwoWeekLow | ErrorText
    | TotalMv | Pe | Pb
    | Other(name: string)

  type Doc = map<Field, Value>

  /** `d.get(key)`. */
  function Get(d: Doc, key: Field): Value {
    if key in d then d[key] else Null
  }

  /** `d.get(key, default)`. */
  function GetOr(d: Doc, key: Field, default: Value): Value {
    if key in d then d[key] else default
  }

  /** The store's equality match `{key: s}` on a string. */
  predicate HasStr(d: Doc, key: Field, s: string) {
    key in d && d[key] == Str(s)
  }

  /** The projection `{Id: 0}`: every field but the store's own id. */
  function WithoutId(d: Doc): (r: Doc)
    ensures Id !in r
    ensures forall k :: k != Id ==> (k in r <==> k in d) && Get(r, k) == Get(d, k)
  {
    d - {Id}
  }

  /** The store's sort order on values of different kinds: `None` (and a
      missing field) before numbers, numbers before strings. */
  predicate ValueLe(a: Value, b: Value) {
    match (a, b)
    case (Null, _) => true
    case (Num(x), Num(y)) => x <= y
    case (Num(_), Str(_)) => true
    case (Str(s), Str(t)) => StrLe(s, t)
    case _ => false
  }

  lemma ValueLeTotalPreorder()
    ensures forall a, b :: ValueLe(a, b) || ValueLe(b, a)
    ensures forall a, b, c :: ValueLe(a, b) && ValueLe(b, c) ==> ValueLe(a, c)
  {
    forall a, b ensures ValueLe(a, b) || ValueLe(b, a) {
      if a.Str? && b.Str? { StrLeTotal(a.s, b.s); }
    }
    forall a, b, c | ValueLe(a, b) && ValueLe(b, c) ensures ValueLe(a, c) {
      if a.Str? && b.Str? && c.Str? { StrLeTransitive(a.s, b.s, c.s); }
    }
  }

  /** "`a` sorts no later than `b`" under `sort("trade_date", -1)`. */
  function LaterTradeDate(): (geq: (Doc, Doc) -> bool)
    ensures Sorting.TotalPreorder(geq)
  {
    ValueLeTotalPreorder();
    (a: Doc, b: Doc) => ValueLe(Get(b, TradeDate), Get(a, TradeDate))
  }
}
