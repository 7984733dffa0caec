/** Daily bars of one stock: the store query of the mainland, Hong Kong and
    US markets, and the Malaysian bars built from the provider's history. */
module DailyQuotes {
  import opened Wrappers
  import opened Text
  import opened Lists
  import opened Documents
  import Sorting

  // ---------------------------------------------------------------------
  // The store query

  /** The `trade_date` condition: `$gte` and `$lte` bounds, each present or
      not. */
  datatype DateRange = DateRange(gte: Option<string>, lte: Option<string>)

  /** The query document `{"code": code, "trade_date": {...}}`, the date
      condition being absent when neither bound was given. */
  datatype DailyQuery = DailyQuery(code: string, range: Option<DateRange>)

  /** The query `get_daily_quotes` builds: a date condition only when a start
      or an end date is given, and in it a lower bound exactly for a start
      date and an upper bound exactly for an end date (an empty string counts
      as not given). */
  function BuildDailyQuery(code: string, start: Option<string>, end: Option<string>): (q: DailyQuery)
    ensures q.code == code
    ensures q.range.Some? <==> Truthy(start) || Truthy(end)
    ensures q.range.Some? ==> && (q.range.value.gte.Some? <==> Truthy(start))
                              && (q.range.value.lte.Some? <==> Truthy(end))
                              && (q.range.value.gte.Some? ==> q.range.value.gte == start)
                              && (q.range.value.lte.Some? ==> q.range.value.lte == end)
  {
    if Truthy(start) || Truthy(end) then
      DailyQuery(code, Some(DateRange(if Truthy(start) then start else None,
                                      if Truthy(end) then end else None)))
    else DailyQuery(code, None)
  }

  /** A string bound only matches a string `trade_date`, compared character
      by character; a missing field matches neither bound. */
  predicate InRange(d: Doc, r: DateRange) {
    && (r.gte.Some? ==> Get(d, TradeDate).Str? && StrLe(r.gte.value, Get(d, TradeDate).s))
    && (r.lte.Some? ==> Get(d, TradeDate).Str? && StrLe(Get(d, TradeDate).s, r.lte.value))
  }

  predicate MatchesDaily(d: Doc, q: DailyQuery) {
    HasStr(d, Code, q.code) && (q.range.None? || InRange(d, q.range.value))
  }

  /** What the built query selects: the stock's bars, no earlier than a given
      start date and no later than a given end date, and with no date
      condition at all when neither is given. */
  lemma DailyQuerySelects(d: Doc, code: string, start: Option<string>, end: Option<string>)
    ensures MatchesDaily(d, BuildDailyQuery(code, start, end)) <==>
              && HasStr(d, Code, code)
              && (Truthy(start) ==> Get(d, TradeDate).Str? && StrLe(start.value, Get(d, TradeDate).s))
              && (Truthy(end) ==> Get(d, TradeDate).Str? && StrLe(Get(d, TradeDate).s, end.value))
  {
  }

  /** The records the projection `{"_id": 0}` gives back. */
  function Projected(docs: seq<Doc>): (r: seq<Doc>)
    ensures |r| == |docs| && forall i :: 0 <= i < |docs| ==> r[i] == WithoutId(docs[i])
  {
    seq(|docs|, i requires 0 <= i < |docs| => WithoutId(docs[i]))
  }

  /** The matching records, without their ids, latest trade date first. */
  function SortedDaily(docs: seq<Doc>, q: DailyQuery): seq<Doc> {
    Sorting.SortDescending(Projected(Filter(docs, d => MatchesDaily(d, q))), LaterTradeDate())
  }

  /** `find(query, {"_id": 0}).sort("trade_date", -1).limit(limit)` read to a
      list of at most `limit` records. */
  function StoredDaily(docs: seq<Doc>, q: DailyQuery, limit: int): seq<Doc>
    requires limit > 0
  {
    PySlice(SortedDaily(docs, q), limit)
  }

  /** The store query returns at most `limit` records, as many as match up
      to that bound, latest trade date first. */
  lemma StoredDailyOrder(docs: seq<Doc>, q: DailyQuery, limit: int)
    requires limit > 0
    ensures var r := StoredDaily(docs, q, limit);
            var found := Filter(docs, d => MatchesDaily(d, q));
            && |r| == (if limit < |found| then limit else |found|)
            && Sorting.Descending(r, LaterTradeDate())
  {
    var p := Projected(Filter(docs, d => MatchesDaily(d, q)));
    Sorting.SortDescendingKeeps(p, LaterTradeDate());
    SortedSliceDescending(p, LaterTradeDate(), limit);
  }

  /** The `i`th record the store query returns is the `j`th record of the
      collection, which matches, without its id. */
  lemma StoredDailyRecordFrom(docs: seq<Doc>, q: DailyQuery, limit: int, i: nat) returns (j: nat)
    requires limit > 0 && i < |StoredDaily(docs, q, limit)|
    ensures j < |docs| && MatchesDaily(docs[j], q) && StoredDaily(docs, q, limit)[i] == WithoutId(docs[j])
  {
    var found := Filter(docs, d => MatchesDaily(d, q));
    var p := Projected(found);
    assert StoredDaily(docs, q, limit)[i] == SortedDaily(docs, q)[i];
    Sorting.SortedElement(p, LaterTradeDate(), i);
    var k :| 0 <= k < |p| && p[k] == SortedDaily(docs, q)[i];
    assert found[k] in docs;
    j :| 0 <= j < |docs| && docs[j] == found[k];
  }

  /** Each record the store query returns is a matching record of the
      collection, without its id. */
  lemma StoredDailyFrom(docs: seq<Doc>, q: DailyQuery, limit: int)
    requires limit > 0
    ensures var r := StoredDaily(docs, q, limit);
            forall i :: 0 <= i < |r| ==>
              Id !in r[i] && exists j :: 0 <= j < |docs| && MatchesDaily(docs[j], q) && r[i] == WithoutId(docs[j])
  {
    var r := StoredDaily(docs, q, limit);
    forall i | 0 <= i < |r|
      ensures Id !in r[i] && exists j :: 0 <= j < |docs| && MatchesDaily(docs[j], q) && r[i] == WithoutId(docs[j])
    {
      var j := StoredDailyRecordFrom(docs, q, limit, i);
    }
  }

  /** Cutting a descending sort leaves it descending. */
  lemma SortedSliceDescending<T(!new)>(p: seq<T>, geq: (T, T) -> bool, limit: int)
    requires Sorting.TotalPreorder(geq)
    ensures Sorting.Descending(PySlice(Sorting.SortDescending(p, geq), limit), geq)
  {
    var w := Sorting.SortDescending(p, geq);
    var r := PySlice(w, limit);
    Sorting.SortDescendingSorted(p, geq);
    assert r == w[..|r|];
    Sorting.DescendingPrefix(w, |r|, geq);
  }

  /** The first `limit` of a descending sort are taken from the input and
      rank at least as high as everything they leave out. */
  lemma TopOfSorted<T(!new)>(p: seq<T>, geq: (T, T) -> bool, limit: int)
    requires Sorting.TotalPreorder(geq) && limit > 0
    ensures var r := PySlice(Sorting.SortDescending(p, geq), limit);
            && multiset(r) <= multiset(p)
            && forall i, x :: 0 <= i < |r| && x in multiset(p) - multiset(r) ==> geq(r[i], x)
  {
    var w := Sorting.SortDescending(p, geq);
    var r := PySlice(w, limit);
    Sorting.SortDescendingSorted(p, geq);
    assert r == w[..|r|];
    Sorting.TopOfDescending(w, |r|, geq);
    PrefixMultiset(w, |r|);
  }

  lemma PrefixMultiset<T>(w: seq<T>, k: nat)
    requires k <= |w|
    ensures multiset(w[..k]) <= multiset(w)
  {
    assert w == w[..k] + w[k..];
  }

  /** The store query returns the latest matching records: no matching
      record it leaves out has a later trade date than one it returns. */
  lemma StoredDailyLatest(docs: seq<Doc>, q: DailyQuery, limit: int)
    requires limit > 0
    ensures var r := StoredDaily(docs, q, limit);
            var p := Projected(Filter(docs, d => MatchesDaily(d, q)));
            && multiset(r) <= multiset(p)
            && forall i, x :: 0 <= i < |r| && x in multiset(p) - multiset(r) ==>
                 ValueLe(Get(x, TradeDate), Get(r[i], TradeDate))
  {
    var p := Projected(Filter(docs, d => MatchesDaily(d, q)));
    TopOfSorted(p, LaterTradeDate(), limit);
  }

  // ---------------------------------------------------------------------
  // The Malaysian bars

  /** One row of the provider's history table: its date, already written as
      text, and the price and volume columns. */
  datatype Bar = Bar(date: string, open: Value, high: Value, low: Value, close: Value, volume: Value)

  /** The record `_get_my_daily_quotes` makes of a row, tagged with the code
      as the caller gave it. */
  function BarRecord(b: Bar, code: string): Doc {
    map[Volume := b.volume,
        Close := b.close,
        Low := b.low,
        High := b.high,
        Open := b.open,
        Source := Str("yfinance"),
        Market := Str("MY"),
        Code := Str(code),
        TradeDate := Str(b.date)]
  }

  function Records(rows: seq<Bar>, code: string): (r: seq<Doc>)
    ensures |r| == |rows| && forall i :: 0 <= i < |rows| ==> r[i] == BarRecord(rows[i], code)
  {
    seq(|rows|, i requires 0 <= i < |rows| => BarRecord(rows[i], code))
  }

  /** `_get_my_daily_quotes` as a value: the records of the last `limit` rows,
      latest date first, cut to `limit`; nothing for an empty table. */
  function MyDailyResult(bars: seq<Bar>, code: string, limit: int): seq<Doc> {
    if bars == [] then []
    else PySlice(Sorting.SortDescending(Records(PyTail(bars, limit), code), LaterTradeDate()), limit)
  }

  /** `_get_my_daily_quotes` over the history table the provider returned:
      build a record per row of the tail, sort them, cut to `limit`. */
  method MyDailyQuotes(bars: seq<Bar>, code: string, limit: int) returns (quotes: seq<Doc>)
    ensures quotes == MyDailyResult(bars, code, limit)
  {
    if bars == [] {
      return [];
    }
    var rows := PyTail(bars, limit);
    quotes := [];
    for i := 0 to |rows|
      invariant quotes == Records(rows[..i], code)
    {
      quotes := quotes + [BarRecord(rows[i], code)];
    }
    assert rows[..|rows|] == rows;
    quotes := Sorting.SortDescending(quotes, LaterTradeDate());
    quotes := PySlice(quotes, limit);
  }

  /** How much the Malaysian daily query returns: nothing for an empty
      table, and for a non-negative `limit` exactly the records of the last
      `limit` rows. */
  lemma MyDailySize(bars: seq<Bar>, code: string, limit: int)
    ensures var r := MyDailyResult(bars, code, limit);
            && (bars == [] ==> r == [])
            && (limit >= 0 ==> |r| <= limit && multiset(r) == multiset(Records(PyTail(bars, limit), code)))
  {
    if bars != [] && limit >= 0 {
      var recs := Records(PyTail(bars, limit), code);
      var w := Sorting.SortDescending(recs, LaterTradeDate());
      Sorting.SortDescendingKeeps(recs, LaterTradeDate());
      assert MyDailyResult(bars, code, limit) == w;
    }
  }

  /** The `i`th record of the Malaysian daily query is one of the table's
      rows. */
  lemma MyDailyRecordFrom(bars: seq<Bar>, code: string, limit: int, i: nat) returns (b: Bar)
    requires i < |MyDailyResult(bars, code, limit)|
    ensures b in bars && MyDailyResult(bars, code, limit)[i] == BarRecord(b, code)
  {
    var rows := PyTail(bars, limit);
    var recs := Records(rows, code);
    var w := Sorting.SortDescending(recs, LaterTradeDate());
    assert MyDailyResult(bars, code, limit)[i] == w[i];
    Sorting.SortedElement(recs, LaterTradeDate(), i);
    var k :| 0 <= k < |recs| && recs[k] == w[i];
    PyTailMember(bars, limit, k);
    b := rows[k];
  }

  /** Every record of the Malaysian daily query is one of the table's rows,
      tagged with the caller's code, market 'MY' and source 'yfinance'. */
  lemma MyDailyFrom(bars: seq<Bar>, code: string, limit: int)
    ensures var r := MyDailyResult(bars, code, limit);
            forall i :: 0 <= i < |r| ==>
              && Get(r[i], Code) == Str(code) && Get(r[i], Market) == Str("MY")
              && Get(r[i], Source) == Str("yfinance") && Get(r[i], TradeDate).Str?
              && exists b :: b in bars && r[i] == BarRecord(b, code)
  {
    var r := MyDailyResult(bars, code, limit);
    forall i | 0 <= i < |r|
      ensures && Get(r[i], Code) == Str(code) && Get(r[i], Market) == Str("MY")
              && Get(r[i], Source) == Str("yfinance") && Get(r[i], TradeDate).Str?
              && exists b :: b in bars && r[i] == BarRecord(b, code)
    {
      var b := MyDailyRecordFrom(bars, code, limit, i);
      assert r[i] == BarRecord(b, code);
    }
  }

  /** The Malaysian daily records come latest date first. */
  lemma MyDailyOrder(bars: seq<Bar>, code: string, limit: int)
    ensures var r := MyDailyResult(bars, code, limit);
            forall i, j :: 0 <= i < j < |r| ==>
              Get(r[i], TradeDate).Str? && Get(r[j], TradeDate).Str?
              && StrLe(Get(r[j], TradeDate).s, Get(r[i], TradeDate).s)
  {
    if bars != [] {
      SortedSliceDescending(Records(PyTail(bars, limit), code), LaterTradeDate(), limit);
      MyDailyFrom(bars, code, limit);
      TextDatesDescending(MyDailyResult(bars, code, limit));
    }
  }

  /** Records with text dates that sort latest first have non-increasing
      dates. */
  lemma TextDatesDescending(r: seq<Doc>)
    requires Sorting.Descending(r, LaterTradeDate())
    requires forall i :: 0 <= i < |r| ==> Get(r[i], TradeDate).Str?
    ensures forall i, j :: 0 <= i < j < |r| ==>
              Get(r[i], TradeDate).Str? && Get(r[j], TradeDate).Str?
              && StrLe(Get(r[j], TradeDate).s, Get(r[i], TradeDate).s)
  {
    forall i, j | 0 <= i < j < |r|
      ensures StrLe(Get(r[j], TradeDate).s, Get(r[i], TradeDate).s)
    {
      assert LaterTradeDate()(r[i], r[j]);
    }
  }
}
