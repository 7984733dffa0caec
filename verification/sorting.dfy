/** A stable sort into descending order, as Python's `list.sort(reverse=True)`
    does it and as the model reads Mongo's `sort(field, -1)`. The order is
    given by `geq(a, b)`, "a ranks at least as high as b", a total preorder. */
module Sorting {

  ghost predicate TotalPreorder<T(!new)>(geq: (T, T) -> bool) {
    && (forall a, b :: geq(a, b) || geq(b, a))
    && (forall a, b, c :: geq(a, b) && geq(b, c) ==> geq(a, c))
  }

  /** Every element ranks at least as high as every later one. */
  ghost predicate Descending<T>(s: seq<T>, geq: (T, T) -> bool) {
    forall i, j :: 0 <= i < j < |s| ==> geq(s[i], s[j])
  }

  /** Inserts `x` after every element that ranks at least as high, so that
      among equals the element inserted later stays later. */
  function Insert<T>(x: T, s: seq<T>, geq: (T, T) -> bool): (r: seq<T>)
    ensures multiset(r) == multiset(s) + multiset{x}
    decreases |s|
  {
    if s == [] then [x]
    else if geq(s[0], x) then
      assert s == [s[0]] + s[1..];
      [s[0]] + Insert(x, s[1..], geq)
    else [x] + s
  }

  /** Insertion sort, inserting the elements in their original order. */
  function SortDescending<T>(s: seq<T>, geq: (T, T) -> bool): (r: seq<T>)
    ensures multiset(r) == multiset(s)
    decreases |s|
  {
    if s == [] then []
    else
      assert s == s[..|s| - 1] + [s[|s| - 1]];
      Insert(s[|s| - 1], SortDescending(s[..|s| - 1], geq), geq)
  }

  lemma {:induction false} InsertDescending<T(!new)>(x: T, s: seq<T>, geq: (T, T) -> bool)
    requires TotalPreorder(geq)
    requires Descending(s, geq)
    ensures Descending(Insert(x, s, geq), geq)
    decreases |s|
  {
    if s != [] {
      if geq(s[0], x) {
        InsertDescending(x, s[1..], geq);
        var rest := Insert(x, s[1..], geq);
        forall k | 0 <= k < |rest| ensures geq(s[0], rest[k]) {
          assert rest[k] in multiset(rest);
          assert rest[k] == x || rest[k] in multiset(s[1..]);
          if rest[k] != x {
            var m :| 0 <= m < |s[1..]| && s[1..][m] == rest[k];
            assert s[1 + m] == rest[k];
          }
        }
      } else {
        assert geq(x, s[0]);
        forall k | 0 <= k < |s| ensures geq(x, s[k]) {
          if k > 0 { assert geq(s[0], s[k]); }
        }
      }
    }
  }

  lemma {:induction false} SortDescendingSorted<T(!new)>(s: seq<T>, geq: (T, T) -> bool)
    requires TotalPreorder(geq)
    ensures Descending(SortDescending(s, geq), geq)
    decreases |s|
  {
    if s != [] {
      SortDescendingSorted(s[..|s| - 1], geq);
      InsertDescending(s[|s| - 1], SortDescending(s[..|s| - 1], geq), geq);
    }
  }

  /** The first `k` elements of a descending permutation of `s` rank at least
      as high as every element of `s` left out of them: a top-`k` selection. */
  lemma TopOfDescending<T(!new)>(w: seq<T>, k: nat, geq: (T, T) -> bool)
    requires Descending(w, geq) && k <= |w|
    ensures forall i, x :: 0 <= i < k && x in multiset(w) - multiset(w[..k]) ==> geq(w[i], x)
  {
    assert w == w[..k] + w[k..];
    assert multiset(w) - multiset(w[..k]) == multiset(w[k..]);
    forall i, x | 0 <= i < k && x in multiset(w) - multiset(w[..k]) ensures geq(w[i], x) {
      assert x in w[k..];
      var m :| 0 <= m < |w[k..]| && w[k..][m] == x;
      assert w[k + m] == x;
    }
  }

  /** Sorting keeps the length and the elements. */
  lemma SortDescendingKeeps<T>(s: seq<T>, geq: (T, T) -> bool)
    ensures var r := SortDescending(s, geq);
            |r| == |s| && forall x :: x in r <==> x in s
  {
    var r := SortDescending(s, geq);
    assert |multiset(r)| == |multiset(s)|;
    forall x ensures x in r <==> x in s {
      assert x in r <==> x in multiset(r);
    }
  }

  /** A prefix of a descending sequence is descending. */
  lemma DescendingPrefix<T>(w: seq<T>, k: nat, geq: (T, T) -> bool)
    requires Descending(w, geq) && k <= |w|
    ensures Descending(w[..k], geq)
  {
    forall i, j | 0 <= i < j < k ensures geq(w[..k][i], w[..k][j]) {
      assert w[..k][i] == w[i] && w[..k][j] == w[j];
    }
  }

  /** Each element of the sorted sequence comes from the input. */
  lemma SortedElement<T>(s: seq<T>, geq: (T, T) -> bool, i: nat)
    requires i < |SortDescending(s, geq)|
    ensures SortDescending(s, geq)[i] in s
  {
    var r := SortDescending(s, geq);
    assert r[i] in multiset(r);
  }
}
