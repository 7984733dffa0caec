/** List operations of Python and pandas as the core uses them: a filter
    (Mongo `find`), the slice `xs[:n]`, `DataFrame.tail(n)` and
    `list.index`. */
module Lists {

  /** The elements of `s` that satisfy `p`, in their order in `s`. */
  function Filter<T>(s: seq<T>, p: T -> bool): (r: seq<T>)
    ensures |r| <= |s|
    ensures forall i :: 0 <= i < |r| ==> p(r[i]) && r[i] in s
    ensures forall x :: x in s && p(x) ==> x in r
    decreases |s|
  {
    if s == [] then []
    else
      var rest := Filter(s[..|s| - 1], p);
      assert forall x :: x in s[..|s| - 1] ==> x in s;
      assert forall x :: x in s ==> x in s[..|s| - 1] || x == s[|s| - 1];
      if p(s[|s| - 1]) then rest + [s[|s| - 1]] else rest
  }

  /** Nothing passes a filter that no element satisfies. */
  lemma FilterNone<T>(s: seq<T>, p: T -> bool)
    requires forall x :: x in s ==> !p(x)
    ensures Filter(s, p) == []
  {
  }

  /** Python's `s[:n]`: a negative `n` counts from the end. */
  function PySlice<T>(s: seq<T>, n: int): (r: seq<T>)
    ensures r <= s
    ensures n >= 0 ==> |r| == if n < |s| then n else |s|
    ensures n < 0 ==> |r| == if -n < |s| then |s| + n else 0
  {
    if n >= 0 then (if n < |s| then s[..n] else s)
    else (if -n < |s| then s[..|s| + n] else [])
  }

  /** pandas `DataFrame.tail(n)`: the last `n` rows; a negative `n` drops the
      first `-n` rows instead. */
  function PyTail<T>(s: seq<T>, n: int): (r: seq<T>)
    ensures n >= 0 ==> |r| == (if n < |s| then n else |s|) && r == s[|s| - |r|..]
    ensures n < 0 ==> r == s[if -n < |s| then -n else |s|..]
  {
    if n >= 0 then (if n < |s| then s[|s| - n..] else s)
    else (if -n < |s| then s[-n..] else [])
  }

  /** Every row of the tail is a row of the table. */
  lemma PyTailMember<T>(s: seq<T>, n: int, k: nat)
    requires k < |PyTail(s, n)|
    ensures PyTail(s, n)[k] in s
  {
    var r := PyTail(s, n);
    var off := |s| - |r|;
    assert r == s[off..];
    assert r[k] == s[off + k];
  }

  /** The position of the first occurrence of `x` in `s`, or `|s|`
      (Python's `list.index`, with `|s|` standing for the ValueError). */
  function IndexOf<T(==)>(s: seq<T>, x: T): (i: nat)
    ensures i <= |s|
    ensures i < |s| <==> x in s
    ensures i < |s| ==> s[i] == x
    ensures forall j :: 0 <= j < i ==> s[j] != x
    decreases |s|
  {
    if s == [] then 0 else if s[0] == x then 0 else 1 + IndexOf(s[1..], x)
  }

  /** Appending an element leaves the position of an earlier element alone
      and puts a new element at the end. */
  lemma IndexOfAppend<T>(s: seq<T>, y: T, x: T)
    ensures x in s ==> IndexOf(s + [y], x) == IndexOf(s, x)
    ensures x !in s && x == y ==> IndexOf(s + [y], x) == |s|
  {
    var i, k := IndexOf(s + [y], x), IndexOf(s, x);
    if x in s {
      assert (s + [y])[k] == x;
    } else if x == y {
      assert (s + [y])[|s|] == x;
    }
  }
}
