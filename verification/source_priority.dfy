/** The order in which the service consults the data sources of a market:
    the enabled data-source groupings of the market's category, highest
    priority first, or a fixed default list when the groupings cannot be
    read or give nothing usable. */
module SourcePriority {
  import opened Wrappers
  import opened Lists
  import opened Documents
  import Sorting
  import Markets

  /** One document of the `datasource_groupings` collection, as far as the
      lookup reads it: `market_category_id` (`None` where the field is
      missing or null, which the query treats alike), `enabled` (false unless
      it is the boolean true), `priority`, and `data_source_name` (`None`
      where the field is missing, `Some(Null)` where it is null). */
  datatype Grouping = Grouping(categoryId: Option<string>, enabled: bool,
                               priority: Value, sourceName: Option<Value>)

  /** `market_category_map.get(market)`: a category exactly for the codes
      of the four markets. */
  function CategoryOf(market: string): (r: Option<string>)
    ensures r.Some? <==> Markets.ParseMarket(market).Some?
  {
    if market == "CN" then Some("a_shares")
    else if market == "HK" then Some("hk_stocks")
    else if market == "US" then Some("us_stocks")
    else if market == "MY" then Some("my_stocks")
    else None
  }

  /** No two markets share a category. */
  lemma CategoryDetermines(a: string, b: string)
    requires CategoryOf(a).Some? && CategoryOf(a) == CategoryOf(b)
    ensures a == b
  {
  }

  /** `default_priority.get(market, [])`. Each known market has a non-empty
      list of source names without repetitions; any other market has none. */
  function DefaultPriority(market: string): (r: seq<Value>)
    ensures r != [] <==> CategoryOf(market).Some?
    ensures forall i :: 0 <= i < |r| ==> r[i].Str?
    ensures forall i, j :: 0 <= i < j < |r| ==> r[i] != r[j]
  {
    if market == "CN" then [Str("tushare"), Str("akshare"), Str("baostock")]
    else if market == "HK" then [Str("yfinance_hk"), Str("akshare_hk")]
    else if market == "US" then [Str("yfinance_us")]
    else if market == "MY" then [Str("yfinance_my")]
    else []
  }

  /** The query `{"market_category_id": category, "enabled": True}`; a
      `None` category matches groupings whose category is missing or null. */
  predicate Selected(g: Grouping, category: Option<string>) {
    g.enabled && g.categoryId == category
  }

  /** "`a` comes no later than `b`" under `sort("priority", -1)`. */
  function HigherPriority(): (geq: (Grouping, Grouping) -> bool)
    ensures Sorting.TotalPreorder(geq)
  {
    ValueLeTotalPreorder();
    (a: Grouping, b: Grouping) => ValueLe(b.priority, a.priority)
  }

  /** The groupings the query returns, in the order the sort gives them. */
  function EnabledGroupings(groupings: seq<Grouping>, category: Option<string>): seq<Grouping> {
    Sorting.SortDescending(Filter(groupings, g => Selected(g, category)), HigherPriority())
  }

  predicate AllNamed(gs: seq<Grouping>) {
    forall i :: 0 <= i < |gs| ==> gs[i].sourceName.Some?
  }

  /** `[g["data_source_name"] for g in groupings]` when every grouping has
      the field; a null name is `None` in the list. */
  function SourceNames(gs: seq<Grouping>): (r: seq<Value>)
    requires AllNamed(gs)
    ensures |r| == |gs| && forall i :: 0 <= i < |gs| ==> gs[i].sourceName == Some(r[i])
  {
    seq(|gs|, i requires 0 <= i < |gs| => gs[i].sourceName.value)
  }

  /** `_get_source_priority`. `store` is what the groupings query returns,
      `None` when it raises. A grouping without the `data_source_name` field
      makes the list comprehension raise `KeyError`; every failure ends in
      the default list, so the lookup itself never fails. */
  function SourcePriority(store: Option<seq<Grouping>>, market: string): seq<Value> {
    match store
    case None => DefaultPriority(market)
    case Some(groupings) =>
      var found := EnabledGroupings(groupings, CategoryOf(market));
      if found != [] && AllNamed(found) then SourceNames(found) else DefaultPriority(market)
  }

  /** The query answers exactly the enabled groupings of the category, each
      once, highest priority first. */
  lemma EnabledGroupingsFacts(groupings: seq<Grouping>, category: Option<string>)
    ensures var found := EnabledGroupings(groupings, category);
            && (forall i, j :: 0 <= i < j < |found| ==> ValueLe(found[j].priority, found[i].priority))
            && multiset(found) == multiset(Filter(groupings, g => Selected(g, category)))
            && (forall i :: 0 <= i < |found| ==> found[i] in groupings && Selected(found[i], category))
  {
    var selected := Filter(groupings, g => Selected(g, category));
    var found := EnabledGroupings(groupings, category);
    Sorting.SortDescendingSorted(selected, HigherPriority());
    forall i | 0 <= i < |found| ensures found[i] in groupings && Selected(found[i], category) {
      assert found[i] in multiset(selected);
    }
  }

  /** When the store answers with enabled groupings of the market's category,
      all of them with the name field, the priority list is their names (a
      null name as `None`), highest priority first: one name per grouping,
      the groupings being exactly the enabled ones of that category. */
  lemma PriorityFromGroupings(groupings: seq<Grouping>, market: string)
    requires var found := EnabledGroupings(groupings, CategoryOf(market));
             found != [] && AllNamed(found)
    ensures var found := EnabledGroupings(groupings, CategoryOf(market));
            var r := SourcePriority(Some(groupings), market);
            && |r| == |found|
            && (forall i :: 0 <= i < |r| ==> found[i].sourceName == Some(r[i]))
            && (forall i, j :: 0 <= i < j < |found| ==> ValueLe(found[j].priority, found[i].priority))
            && multiset(found) == multiset(Filter(groupings, g => Selected(g, CategoryOf(market))))
            && (forall i :: 0 <= i < |r| ==> found[i] in groupings && Selected(found[i], CategoryOf(market)))
  {
    EnabledGroupingsFacts(groupings, CategoryOf(market));
  }

  /** When the store fails, or has no enabled grouping of the market's
      category, or one of them lacks the name field, the default list is
      used. */
  lemma PriorityFallback(store: Option<seq<Grouping>>, market: string)
    requires store.None?
             || EnabledGroupings(store.value, CategoryOf(market)) == []
             || !AllNamed(EnabledGroupings(store.value, CategoryOf(market)))
    ensures SourcePriority(store, market) == DefaultPriority(market)
  {
  }

  /** A market without a category finds only groupings without one; with no
      such grouping enabled, or a failing store, its list is empty. */
  lemma UnknownMarketPriority(store: Option<seq<Grouping>>, market: string)
    requires CategoryOf(market).None?
    requires store.Some? ==> forall g :: g in store.value && g.enabled ==> g.categoryId.Some?
    ensures SourcePriority(store, market) == []
  {
    if store.Some? {
      FilterNone(store.value, g => Selected(g, CategoryOf(market)));
    }
  }
}
