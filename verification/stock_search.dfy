/** Searching a market's stocks: the store search that keeps one record per
    code, preferring the record of the higher-priority source, and the
    Malaysian search over the provider's built-in name table. */
module StockSearch {
  import opened Wrappers
  import opened Text
  import opened Lists
  import opened Documents

  // ---------------------------------------------------------------------
  // Matching

  /** `{field: {"$regex": query, "$options": "i"}}` on one field, read as a
      literal substring test that ignores case; a missing or non-string
      field does not match. */
  predicate FieldContains(d: Doc, f: Field, query: string) {
    f in d && d[f].Str? && Contains(Lower(d[f].s), Lower(query))
  }

  /** The `$or` of the three field tests of `search_stocks`. */
  predicate SearchMatch(d: Doc, query: string) {
    FieldContains(d, Code, query) || FieldContains(d, Name, query) || FieldContains(d, NameEn, query)
  }

  // ---------------------------------------------------------------------
  // One record per code

  /** `source_priority.index(doc.get("source"))`: the position of a record's
      source in the priority list, or the length of the list for a source
      that is not in it (the `ValueError` the guard avoids). A missing source
      reads as `None`, which matches a null entry of the list. */
  function Rank(priority: seq<Value>, d: Doc): (r: nat)
    ensures r <= |priority|
    ensures r < |priority| <==> Get(d, Source) in priority
    ensures r < |priority| ==> priority[r] == Get(d, Source)
  {
    IndexOf(priority, Get(d, Source))
  }

  /** The dictionary `unique_results`: its keys in insertion order, and the
      record kept under each. */
  datatype Table = Table(order: seq<Value>, chosen: map<Value, Doc>)

  /** One pass of the deduplication loop: a new code is added with its
      record; a known code's record is replaced only when both sources are in
      the priority list and the new one comes strictly earlier. */
  function Keep(t: Table, doc: Doc, priority: seq<Value>): Table {
    var code := Get(doc, Code);
    if code !in t.chosen then Table(t.order + [code], t.chosen[code := doc])
    else
      var current := t.chosen[code];
      if Rank(priority, doc) < |priority| && Rank(priority, current) < |priority|
         && Rank(priority, doc) < Rank(priority, current)
      then Table(t.order, t.chosen[code := doc])
      else t
  }

  /** The dictionary after the loop has seen `docs`. */
  function Dedup(docs: seq<Doc>, priority: seq<Value>): Table
    decreases |docs|
  {
    if docs == [] then Table([], map[])
    else Keep(Dedup(docs[..|docs| - 1], priority), docs[|docs| - 1], priority)
  }

  /** The record kept under a key. */
  function Lookup(t: Table, k: Value): Doc {
    if k in t.chosen then t.chosen[k] else map[]
  }

  /** `list(unique_results.values())`. */
  function Values(t: Table): (r: seq<Doc>)
    ensures |r| == |t.order| && forall i :: 0 <= i < |r| ==> r[i] == Lookup(t, t.order[i])
  {
    seq(|t.order|, i requires 0 <= i < |t.order| => Lookup(t, t.order[i]))
  }

  /** The deduplication loop of `search_stocks`. */
  method DedupBySource(docs: seq<Doc>, priority: seq<Value>) returns (unique: seq<Doc>)
    ensures unique == Values(Dedup(docs, priority))
  {
    var order: seq<Value> := [];
    var chosen: map<Value, Doc> := map[];
    for i := 0 to |docs|
      invariant Table(order, chosen) == Dedup(docs[..i], priority)
    {
      assert docs[..i + 1][..i] == docs[..i];
      var doc := docs[i];
      var code := Get(doc, Code);
      var source := Get(doc, Source);
      if code !in chosen {
        order := order + [code];
        chosen := chosen[code := doc];
      } else {
        var currentSource := Get(chosen[code], Source);
        if source in priority && currentSource in priority {
          if IndexOf(priority, source) < IndexOf(priority, currentSource) {
            chosen := chosen[code := doc];
          }
        }
      }
    }
    assert docs[..|docs|] == docs;
    unique := Values(Table(order, chosen));
  }

  /** What the loop keeps true of the dictionary after seeing `docs`: every
      code seen is a key, exactly once in the key order, and the record under
      it is one of the records with that code. */
  predicate Consistent(t: Table, docs: seq<Doc>) {
    && (forall i :: 0 <= i < |t.order| ==> t.order[i] in t.chosen)
    && (forall k :: k in t.chosen ==> k in t.order)
    && (forall i, j :: 0 <= i < j < |t.order| ==> t.order[i] != t.order[j])
    && (forall k :: k in t.chosen ==> t.chosen[k] in docs && Get(t.chosen[k], Code) == k)
    && (forall i :: 0 <= i < |docs| ==> Get(docs[i], Code) in t.chosen)
  }

  /** A new code is appended with its record. */
  lemma AddConsistent(t: Table, docs: seq<Doc>, d: Doc)
    requires Consistent(t, docs) && Get(d, Code) !in t.chosen
    ensures Consistent(Table(t.order + [Get(d, Code)], t.chosen[Get(d, Code) := d]), docs + [d])
  {
    var all := docs + [d];
    forall i | 0 <= i < |all| ensures Get(all[i], Code) in t.chosen[Get(d, Code) := d] {
      if i < |docs| { assert all[i] == docs[i]; }
    }
  }

  /** A known code may have its record replaced by the new one. */
  lemma ReplaceConsistent(t: Table, docs: seq<Doc>, d: Doc)
    requires Consistent(t, docs) && Get(d, Code) in t.chosen
    ensures Consistent(Table(t.order, t.chosen[Get(d, Code) := d]), docs + [d])
  {
    var all := docs + [d];
    forall i | 0 <= i < |all| ensures Get(all[i], Code) in t.chosen {
      if i < |docs| { assert all[i] == docs[i]; }
    }
  }

  /** Or the table stays as it is. */
  lemma SameConsistent(t: Table, docs: seq<Doc>, d: Doc)
    requires Consistent(t, docs) && Get(d, Code) in t.chosen
    ensures Consistent(t, docs + [d])
  {
    var all := docs + [d];
    forall i | 0 <= i < |all| ensures Get(all[i], Code) in t.chosen {
      if i < |docs| { assert all[i] == docs[i]; }
    }
  }

  lemma KeepConsistent(t: Table, docs: seq<Doc>, d: Doc, priority: seq<Value>)
    requires Consistent(t, docs)
    ensures Consistent(Keep(t, d, priority), docs + [d])
  {
    var kd := Get(d, Code);
    if kd !in t.chosen {
      AddConsistent(t, docs, d);
    } else if Keep(t, d, priority) == t {
      SameConsistent(t, docs, d);
    } else {
      ReplaceConsistent(t, docs, d);
    }
  }

  lemma {:induction false} DedupConsistent(docs: seq<Doc>, priority: seq<Value>)
    ensures Consistent(Dedup(docs, priority), docs)
    decreases |docs|
  {
    if docs != [] {
      var init := docs[..|docs| - 1];
      DedupConsistent(init, priority);
      assert init + [docs[|docs| - 1]] == docs;
      KeepConsistent(Dedup(init, priority), init, docs[|docs| - 1], priority);
    }
  }

  /** The records of `docs` that carry code `k`, in their order. */
  function WithCode(docs: seq<Doc>, k: Value): seq<Doc>
    decreases |docs|
  {
    if docs == [] then []
    else
      var rest := WithCode(docs[..|docs| - 1], k);
      if Get(docs[|docs| - 1], Code) == k then rest + [docs[|docs| - 1]] else rest
  }

  /** `c` is the record the priority rule picks from `g`, the records of one
      code in order: the first one when its source is outside the priority
      list; otherwise one of best rank, the earliest of them. */
  predicate BestKept(c: Doc, g: seq<Doc>, priority: seq<Value>) {
    && g != []
    && (Rank(priority, g[0]) == |priority| ==> c == g[0])
    && (Rank(priority, g[0]) < |priority| ==>
          && (forall i :: 0 <= i < |g| ==> Rank(priority, c) <= Rank(priority, g[i]))
          && exists j :: 0 <= j < |g| && g[j] == c
                         && forall i :: 0 <= i < j ==> Rank(priority, g[i]) > Rank(priority, c))
  }

  lemma {:induction false} WithCodeAbsent(docs: seq<Doc>, k: Value)
    requires forall i :: 0 <= i < |docs| ==> Get(docs[i], Code) != k
    ensures WithCode(docs, k) == []
    decreases |docs|
  {
    if docs != [] {
      WithCodeAbsent(docs[..|docs| - 1], k);
    }
  }

  /** A code seen for the first time keeps its record. */
  lemma BestKeptNew(docs: seq<Doc>, d: Doc, priority: seq<Value>)
    requires forall i :: 0 <= i < |docs| ==> Get(docs[i], Code) != Get(d, Code)
    ensures BestKept(d, WithCode(docs + [d], Get(d, Code)), priority)
  {
    WithCodeAbsent(docs, Get(d, Code));
    assert (docs + [d])[..|docs|] == docs;
  }

  /** A later record of a known code changes the pick as the rule says. */
  lemma BestKeptNext(c: Doc, g: seq<Doc>, d: Doc, priority: seq<Value>)
    requires BestKept(c, g, priority)
    ensures var c' := if Rank(priority, d) < |priority| && Rank(priority, c) < |priority|
                         && Rank(priority, d) < Rank(priority, c) then d else c;
            BestKept(c', g + [d], priority)
  {
    var h := g + [d];
    if Rank(priority, g[0]) < |priority| {
      var j :| 0 <= j < |g| && g[j] == c && forall i :: 0 <= i < j ==> Rank(priority, g[i]) > Rank(priority, c);
      assert h[j] == c;
      assert h[|h| - 1] == d;
    }
  }

  /** The record kept for a code is the one the priority rule picks among
      that code's records. */
  lemma {:induction false} DedupKeepsBest(docs: seq<Doc>, priority: seq<Value>, k: Value)
    requires k in Dedup(docs, priority).chosen
    ensures BestKept(Dedup(docs, priority).chosen[k], WithCode(docs, k), priority)
    decreases |docs|
  {
    var init := docs[..|docs| - 1];
    var d := docs[|docs| - 1];
    var t0 := Dedup(init, priority);
    assert Dedup(docs, priority) == Keep(t0, d, priority);
    assert WithCode(docs, k) == if Get(d, Code) == k then WithCode(init, k) + [d] else WithCode(init, k);
    if Get(d, Code) != k {
      DedupKeepsBest(init, priority, k);
    } else if k !in t0.chosen {
      DedupConsistent(init, priority);
      BestKeptNew(init, d, priority);
    } else {
      DedupKeepsBest(init, priority, k);
      BestKeptNext(t0.chosen[k], WithCode(init, k), d, priority);
    }
  }

  /** The codes of `docs`, in order. */
  function Codes(docs: seq<Doc>): (r: seq<Value>)
    ensures |r| == |docs| && forall i :: 0 <= i < |docs| ==> r[i] == Get(docs[i], Code)
  {
    seq(|docs|, i requires 0 <= i < |docs| => Get(docs[i], Code))
  }

  /** Keys in the order of their first occurrence in `codes`. */
  predicate FirstOccurrenceOrder(order: seq<Value>, codes: seq<Value>) {
    forall a, b :: 0 <= a < b < |order| ==> IndexOf(codes, order[a]) < IndexOf(codes, order[b])
  }

  /** Keys in the order their codes first occur in `docs`. */
  predicate FirstSeenOrder(order: seq<Value>, docs: seq<Doc>) {
    FirstOccurrenceOrder(order, Codes(docs))
  }

  /** Seeing one more code keeps the order of the keys already seen, and a
      code not seen before comes after all of them. */
  lemma AppendKeepsOrder(order: seq<Value>, codes: seq<Value>, k: Value)
    requires forall a :: 0 <= a < |order| ==> order[a] in codes
    requires FirstOccurrenceOrder(order, codes)
    ensures FirstOccurrenceOrder(order, codes + [k])
    ensures k !in codes ==> FirstOccurrenceOrder(order + [k], codes + [k])
  {
    forall a | 0 <= a < |order| ensures IndexOf(codes + [k], order[a]) == IndexOf(codes, order[a]) < |codes| {
      IndexOfAppend(codes, k, order[a]);
    }
    if k !in codes {
      IndexOfAppend(codes, k, k);
      var o := order + [k];
      forall a, b | 0 <= a < b < |o| ensures IndexOf(codes + [k], o[a]) < IndexOf(codes + [k], o[b]) {
        if b < |order| {
          assert o[a] == order[a] && o[b] == order[b];
        }
      }
    }
  }

  lemma KeepFirstSeenOrder(t: Table, docs: seq<Doc>, d: Doc, priority: seq<Value>)
    requires Consistent(t, docs) && FirstSeenOrder(t.order, docs)
    ensures FirstSeenOrder(Keep(t, d, priority).order, docs + [d])
  {
    var codes := Codes(docs);
    var kd := Get(d, Code);
    assert Codes(docs + [d]) == codes + [kd];
    forall a | 0 <= a < |t.order| ensures t.order[a] in codes {
      var x := t.order[a];
      var m :| 0 <= m < |docs| && docs[m] == t.chosen[x];
      assert codes[m] == x;
    }
    AppendKeepsOrder(t.order, codes, kd);
    if kd !in t.chosen {
      assert kd !in codes;
      assert Keep(t, d, priority).order == t.order + [kd];
    } else {
      assert Keep(t, d, priority).order == t.order;
    }
  }

  /** The keys are in the order their codes first occur. */
  lemma {:induction false} DedupFirstSeenOrder(docs: seq<Doc>, priority: seq<Value>)
    ensures FirstSeenOrder(Dedup(docs, priority).order, docs)
    decreases |docs|
  {
    if docs != [] {
      var init := docs[..|docs| - 1];
      DedupFirstSeenOrder(init, priority);
      DedupConsistent(init, priority);
      assert init + [docs[|docs| - 1]] == docs;
      KeepFirstSeenOrder(Dedup(init, priority), init, docs[|docs| - 1], priority);
    }
  }

  /** `search_stocks` on a market's basic-information collection: the
      records that match, one per code, cut to `limit`. */
  function SearchResult(docs: seq<Doc>, query: string, limit: int, priority: seq<Value>): seq<Doc> {
    var matched := Filter(docs, d => SearchMatch(d, query));
    if matched == [] then [] else PySlice(Values(Dedup(matched, priority)), limit)
  }

  /** What a store search returns: nothing when nothing matches, and
      otherwise at least one record for a positive `limit`; never more than a
      non-negative `limit`; only matching records of the collection; no two
      records with the same code; and the deduplicated list cut to `limit`,
      so that the cut comes after the deduplication. */
  lemma SearchResultFacts(docs: seq<Doc>, query: string, limit: int, priority: seq<Value>)
    ensures var r := SearchResult(docs, query, limit, priority);
            var matched := Filter(docs, d => SearchMatch(d, query));
            && (matched == [] ==> r == [])
            && (matched != [] && limit > 0 ==> r != [])
            && (limit >= 0 ==> |r| <= limit)
            && (forall i :: 0 <= i < |r| ==> r[i] in docs && SearchMatch(r[i], query))
            && (forall i, j :: 0 <= i < j < |r| ==> Get(r[i], Code) != Get(r[j], Code))
            && (matched != [] ==> r == PySlice(Values(Dedup(matched, priority)), limit))
  {
    var matched := Filter(docs, d => SearchMatch(d, query));
    if matched != [] {
      var t := Dedup(matched, priority);
      DedupConsistent(matched, priority);
      var all := Values(t);
      var r := PySlice(all, limit);
      assert Get(matched[0], Code) in t.chosen;
      forall i | 0 <= i < |r| ensures r[i] in docs && SearchMatch(r[i], query) && Get(r[i], Code) == t.order[i] {
        assert r[i] == all[i] == t.chosen[t.order[i]];
        assert r[i] in matched;
      }
    }
  }

  /** The record kept for each returned code is the one the priority rule
      picks among that code's matching records. */
  lemma SearchKeepsBest(docs: seq<Doc>, query: string, limit: int, priority: seq<Value>, i: nat)
    requires i < |SearchResult(docs, query, limit, priority)|
    ensures var r := SearchResult(docs, query, limit, priority)[i];
            BestKept(r, WithCode(Filter(docs, d => SearchMatch(d, query)), Get(r, Code)), priority)
  {
    var matched := Filter(docs, d => SearchMatch(d, query));
    var t := Dedup(matched, priority);
    DedupConsistent(matched, priority);
    var k := t.order[i];
    assert SearchResult(docs, query, limit, priority)[i] == Values(t)[i] == t.chosen[k];
    DedupKeepsBest(matched, priority, k);
  }

  /** The store search of `search_stocks`: find the matching records; if
      there are any, take the market's priority list and keep one record per
      code, then cut to `limit`. */
  method SearchStoredStocks(docs: seq<Doc>, query: string, limit: int, priority: seq<Value>)
    returns (results: seq<Doc>)
    ensures results == SearchResult(docs, query, limit, priority)
  {
    var matched := Filter(docs, d => SearchMatch(d, query));
    if matched == [] {
      return [];
    }
    var unique := DedupBySource(matched, priority);
    results := PySlice(unique, limit);
  }

  // ---------------------------------------------------------------------
  // The Malaysian search

  /** The search result made of one entry of the provider's name table. */
  function MyRecord(entry: (string, string)): Doc {
    map[NameEn := Str(entry.1),
        Source := Str("yfinance"),
        Market := Str("MY"),
        Name := Str(entry.1),
        Code := Str(entry.0)]
  }

  /** `query_lower in symbol.lower() or query_lower in name.lower()`. */
  predicate MyEntryMatches(entry: (string, string), query: string) {
    Contains(Lower(entry.0), Lower(query)) || Contains(Lower(entry.1), Lower(query))
  }

  /** The records of every matching entry of the table, in table order. */
  function MyMatches(names: seq<(string, string)>, query: string): seq<Doc>
    decreases |names|
  {
    if names == [] then []
    else
      var last := names[|names| - 1];
      var rest := MyMatches(names[..|names| - 1], query);
      if MyEntryMatches(last, query) then rest + [MyRecord(last)] else rest
  }

  /** The matches are no more than the entries, none exactly when no entry
      matches, and each the record of a matching entry. */
  lemma {:induction false} MyMatchesFacts(names: seq<(string, string)>, query: string)
    ensures var r := MyMatches(names, query);
            && |r| <= |names|
            && (r == [] <==> forall j :: 0 <= j < |names| ==> !MyEntryMatches(names[j], query))
            && forall i :: 0 <= i < |r| ==>
                 exists j :: 0 <= j < |names| && MyEntryMatches(names[j], query) && r[i] == MyRecord(names[j])
    decreases |names|
  {
    if names != [] {
      var init := names[..|names| - 1];
      var last := names[|names| - 1];
      MyMatchesFacts(init, query);
      assert forall j :: 0 <= j < |init| ==> init[j] == names[j];
    }
  }

  /** The matches keep table order: the returned positions pick out, one by
      one and strictly increasing, the matching entries each match was made
      from. */
  lemma {:induction false} MyMatchesInOrder(names: seq<(string, string)>, query: string)
    returns (positions: seq<int>)
    ensures var r := MyMatches(names, query);
            && |positions| == |r|
            && (forall i :: 0 <= i < |positions| ==>
                  && 0 <= positions[i] < |names| && MyEntryMatches(names[positions[i]], query)
                  && r[i] == MyRecord(names[positions[i]]))
            && (forall i, k :: 0 <= i < k < |positions| ==> positions[i] < positions[k])
    decreases |names|
  {
    if names == [] {
      positions := [];
    } else {
      var init := names[..|names| - 1];
      var rest := MyMatches(init, query);
      var before := MyMatchesInOrder(init, query);
      assert forall j :: 0 <= j < |init| ==> init[j] == names[j];
      if MyEntryMatches(names[|names| - 1], query) {
        positions := before + [|names| - 1];
        assert MyMatches(names, query) == rest + [MyRecord(names[|names| - 1])];
      } else {
        positions := before;
      }
    }
  }

  /** No matching entry is left out. */
  lemma {:induction false} MyMatchesComplete(names: seq<(string, string)>, query: string, j: int)
    requires 0 <= j < |names| && MyEntryMatches(names[j], query)
    ensures MyRecord(names[j]) in MyMatches(names, query)
    decreases |names|
  {
    var init := names[..|names| - 1];
    if j < |init| {
      assert init[j] == names[j];
      MyMatchesComplete(init, query, j);
    }
  }

  /** The matches of a prefix of the table are a prefix of all matches. */
  lemma {:induction false} MyMatchesPrefix(names: seq<(string, string)>, n: nat, query: string)
    requires n <= |names|
    ensures MyMatches(names[..n], query) <= MyMatches(names, query)
    decreases |names| - n
  {
    if n < |names| {
      MyMatchesPrefix(names[..|names| - 1], n, query);
      assert names[..|names| - 1][..n] == names[..n];
    } else {
      assert names[..n] == names;
    }
  }

  /** `_search_my_stocks` as a value: the first matches in table order, as
      many as `limit` but at least one, since the loop only checks the limit
      after taking a match. */
  function MySearchResult(names: seq<(string, string)>, query: string, limit: int): seq<Doc> {
    var matches := MyMatches(names, query);
    var cap := if limit < 1 then 1 else limit;
    if |matches| <= cap then matches else matches[..cap]
  }

  /** `_search_my_stocks`: the loop over the name table that stops once it
      holds `limit` results. */
  method SearchMyStocks(names: seq<(string, string)>, query: string, limit: int)
    returns (results: seq<Doc>)
    ensures results == MySearchResult(names, query, limit)
  {
    results := [];
    var queryLower := Lower(query);
    var i := 0;
    while i < |names|
      invariant 0 <= i <= |names|
      invariant results == MyMatches(names[..i], query)
      invariant |results| < (if limit < 1 then 1 else limit)
    {
      assert names[..i + 1][..i] == names[..i];
      var (symbol, name) := names[i];
      if Contains(Lower(symbol), queryLower) || Contains(Lower(name), queryLower) {
        results := results + [MyRecord((symbol, name))];
        if |results| >= limit {
          MyMatchesPrefix(names, i + 1, query);
          break;
        }
      }
      i := i + 1;
    }
    assert i == |names| ==> names[..i] == names;
  }

  /** How many results the Malaysian search returns: at most `limit`, but one
      for a non-positive `limit` when anything matches; nothing exactly when
      no entry matches; and the matches in table order, from the first. */
  lemma MySearchSize(names: seq<(string, string)>, query: string, limit: int)
    ensures var r := MySearchResult(names, query, limit);
            && |r| <= (if limit < 1 then 1 else limit)
            && (r == [] <==> forall j :: 0 <= j < |names| ==> !MyEntryMatches(names[j], query))
            && (limit <= 0 && (exists j :: 0 <= j < |names| && MyEntryMatches(names[j], query)) ==> |r| == 1)
            && r <= MyMatches(names, query)
  {
    MyMatchesFacts(names, query);
  }

  /** Each result of the Malaysian search is a matching entry of the table,
      tagged with market 'MY' and source 'yfinance' and with its name in both
      name fields. */
  lemma MySearchEntries(names: seq<(string, string)>, query: string, limit: int)
    ensures var r := MySearchResult(names, query, limit);
            forall i :: 0 <= i < |r| ==>
              && Get(r[i], Market) == Str("MY") && Get(r[i], Source) == Str("yfinance")
              && Get(r[i], NameEn) == Get(r[i], Name)
              && exists j :: 0 <= j < |names| && MyEntryMatches(names[j], query)
                             && Get(r[i], Code) == Str(names[j].0) && Get(r[i], Name) == Str(names[j].1)
  {
    var m := MyMatches(names, query);
    var r := MySearchResult(names, query, limit);
    MyMatchesFacts(names, query);
    forall i | 0 <= i < |r|
      ensures && Get(r[i], Market) == Str("MY") && Get(r[i], Source) == Str("yfinance")
              && Get(r[i], NameEn) == Get(r[i], Name)
              && exists j :: 0 <= j < |names| && MyEntryMatches(names[j], query)
                             && Get(r[i], Code) == Str(names[j].0) && Get(r[i], Name) == Str(names[j].1)
    {
      assert r[i] == m[i];
      var j :| 0 <= j < |names| && MyEntryMatches(names[j], query) && m[i] == MyRecord(names[j]);
    }
  }
}
