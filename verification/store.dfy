/** The document store as the service sees it: named collections of
    documents in their natural order, and the data-source groupings. */
module Store {
  import opened Wrappers
  import opened Documents
  import opened SourcePriority

  /** The database handle: every collection's documents, and what the
      groupings query answers (`None` when it raises). */
  datatype Database = Database(collections: map<string, seq<Doc>>,
                               groupings: Option<seq<Grouping>>)

  /** `db[name]`: a collection that was never written is empty. */
  function Collection(db: Database, name: string): seq<Doc> {
    if name in db.collections then db.collections[name] else []
  }

  /** The equality filter `{"code": code}`, or `{"code": code, "source": s}`
      when a source value is given; `{"source": None}` matches a record whose
      source is null or missing, which is what `Get` reads as `Null`. */
  predicate MatchesKey(d: Doc, code: string, source: Option<Value>) {
    HasStr(d, Code, code) && (source.None? || Get(d, Source) == source.value)
  }

  /** `find_one(filter, {"_id": 0})`: the first matching document without its
      id, or `None`. */
  function FindOne(docs: seq<Doc>, code: string, source: Option<Value>): Option<Doc>
    decreases |docs|
  {
    if docs == [] then None
    else if MatchesKey(docs[0], code, source) then Some(WithoutId(docs[0]))
    else FindOne(docs[1..], code, source)
  }

  /** `find_one` finds nothing exactly when no document matches. */
  lemma {:induction false} FindOneNone(docs: seq<Doc>, code: string, source: Option<Value>)
    ensures FindOne(docs, code, source).None? <==> forall i :: 0 <= i < |docs| ==> !MatchesKey(docs[i], code, source)
    decreases |docs|
  {
    if docs != [] && !MatchesKey(docs[0], code, source) {
      var tail := docs[1..];
      FindOneNone(tail, code, source);
      assert forall i :: 1 <= i < |docs| ==> docs[i] == tail[i - 1];
    }
  }

  /** What `find_one` finds is the first matching document, without its id;
      `i` is its position. */
  lemma {:induction false} FindOneFirst(docs: seq<Doc>, code: string, source: Option<Value>)
    returns (i: nat)
    requires FindOne(docs, code, source).Some?
    ensures i < |docs| && MatchesKey(docs[i], code, source)
    ensures FindOne(docs, code, source).value == WithoutId(docs[i])
    ensures forall j :: 0 <= j < i ==> !MatchesKey(docs[j], code, source)
    decreases |docs|
  {
    if MatchesKey(docs[0], code, source) {
      i := 0;
    } else {
      var tail := docs[1..];
      var k := FindOneFirst(tail, code, source);
      i := k + 1;
      assert docs[i] == tail[k];
      forall j | 0 <= j < i ensures !MatchesKey(docs[j], code, source) {
        if j > 0 { assert docs[j] == tail[j - 1]; }
      }
    }
  }

  /** Both of the above. */
  lemma FindOneFacts(docs: seq<Doc>, code: string, source: Option<Value>)
    ensures var r := FindOne(docs, code, source);
            && (r.None? <==> forall i :: 0 <= i < |docs| ==> !MatchesKey(docs[i], code, source))
            && (r.Some? ==> exists i :: 0 <= i < |docs| && MatchesKey(docs[i], code, source)
                                        && r.value == WithoutId(docs[i])
                                        && forall j :: 0 <= j < i ==> !MatchesKey(docs[j], code, source))
  {
    FindOneNone(docs, code, source);
    if FindOne(docs, code, source).Some? {
      var i := FindOneFirst(docs, code, source);
    }
  }

  /** A document `find_one` returns carries the code (and source) it was
      asked for, and no id. */
  lemma FoundMatches(docs: seq<Doc>, code: string, source: Option<Value>)
    requires FindOne(docs, code, source).Some?
    ensures var d := FindOne(docs, code, source).value;
            && HasStr(d, Code, code)
            && (source.Some? ==> Get(d, Source) == source.value)
            && Id !in d
  {
    FindOneFacts(docs, code, source);
  }
}
