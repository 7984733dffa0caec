/** Python `str` operations the core relies on: strip, upper, lower, isdigit,
    zfill, endswith, `in` (substring), replace-by-empty and the `<` order on
    strings. Case mapping, whitespace and digits are those of the ASCII range. */
module Text {
  import opened Wrappers

  /** `str.isspace` restricted to ASCII: space, \t \n \v \f \r and the four
      separators U+001C..U+001F. */
  predicate IsSpace(c: char) {
    c == ' ' || 9 <= c as int <= 13 || 28 <= c as int <= 31
  }

  /** Python's `if s:` on an optional string: present and non-empty. */
  predicate Truthy(s: Option<string>) {
    s.Some? && s.value != ""
  }

  predicate IsDigit(c: char) {
    '0' <= c <= '9'
  }

  /** `str.isdigit`: non-empty, and every character a digit. */
  predicate IsDigits(s: string) {
    |s| > 0 && forall i :: 0 <= i < |s| ==> IsDigit(s[i])
  }

  function UpperChar(c: char): char {
    if 'a' <= c <= 'z' then (c as int - 32) as char else c
  }

  function LowerChar(c: char): char {
    if 'A' <= c <= 'Z' then (c as int + 32) as char else c
  }

  /** `str.upper`. */
  function Upper(s: string): string {
    seq(|s|, i requires 0 <= i < |s| => UpperChar(s[i]))
  }

  /** `str.lower`. */
  function Lower(s: string): string {
    seq(|s|, i requires 0 <= i < |s| => LowerChar(s[i]))
  }

  /** Leading whitespace removed. */
  function StripLeft(s: string): string
    decreases |s|
  {
    if |s| > 0 && IsSpace(s[0]) then StripLeft(s[1..]) else s
  }

  /** Trailing whitespace removed. */
  function StripRight(s: string): string
    decreases |s|
  {
    if |s| > 0 && IsSpace(s[|s| - 1]) then StripRight(s[..|s| - 1]) else s
  }

  /** Neither end of `s` is whitespace. */
  predicate Trimmed(s: string) {
    s == [] || (!IsSpace(s[0]) && !IsSpace(s[|s| - 1]))
  }

  /** `str.strip()`. */
  function Strip(s: string): string {
    StripRight(StripLeft(s))
  }

  predicate StartsWith(s: string, prefix: string) {
    |prefix| <= |s| && s[..|prefix|] == prefix
  }

  /** `str.endswith`. */
  predicate EndsWith(s: string, suffix: string) {
    |suffix| <= |s| && s[|s| - |suffix|..] == suffix
  }

  /** Python's `needle in haystack` on strings: a contiguous occurrence. */
  predicate Contains(haystack: string, needle: string)
    decreases |haystack|
  {
    StartsWith(haystack, needle) || (|haystack| > 0 && Contains(haystack[1..], needle))
  }

  function Zeros(n: nat): string {
    seq(n, i => '0')
  }

  /** `str.zfill(width)` for a string without a sign character. */
  function ZFill(s: string, width: nat): string {
    if |s| < width then Zeros(width - |s|) + s else s
  }

  /** `s.replace(pattern, "")`: every non-overlapping occurrence, scanned
      from the left, removed. */
  function RemoveAll(s: string, pattern: string): (r: string)
    requires |pattern| > 0
    ensures |r| <= |s|
    decreases |s|
  {
    if |s| == 0 then []
    else if StartsWith(s, pattern) then RemoveAll(s[|pattern|..], pattern)
    else [s[0]] + RemoveAll(s[1..], pattern)
  }

  /** Python's `a <= b` on strings: lexicographic by code point, a proper
      prefix before the longer string. */
  predicate StrLe(a: string, b: string)
    decreases |a|
  {
    |a| == 0 || (|b| > 0 && (a[0] < b[0] || (a[0] == b[0] && StrLe(a[1..], b[1..]))))
  }

  /** Leading whitespace removed: a suffix of `s` that is empty or starts
      with a non-space. */
  lemma {:induction false} StripLeftSuffix(s: string)
    ensures var r := StripLeft(s);
            |r| <= |s| && r == s[|s| - |r|..] && (r == [] || !IsSpace(r[0]))
    decreases |s|
  {
    if |s| > 0 && IsSpace(s[0]) {
      StripLeftSuffix(s[1..]);
    }
  }

  /** Trailing whitespace removed: a prefix of `s` that is empty or ends
      with a non-space. */
  lemma {:induction false} StripRightPrefix(s: string)
    ensures var r := StripRight(s);
            |r| <= |s| && r == s[..|r|] && (r == [] || !IsSpace(r[|r| - 1]))
    decreases |s|
  {
    if |s| > 0 && IsSpace(s[|s| - 1]) {
      StripRightPrefix(s[..|s| - 1]);
    }
  }

  /** `str.strip()` leaves neither end whitespace, and changes nothing that
      is already so. */
  lemma StripTrims(s: string)
    ensures Trimmed(Strip(s))
    ensures Trimmed(s) ==> Strip(s) == s
  {
    var l := StripLeft(s);
    StripLeftSuffix(s);
    StripRightPrefix(l);
    var r := StripRight(l);
    assert r != [] ==> r[0] == l[0];
    if Trimmed(s) {
      assert StripLeft(s) == s;
      assert StripRight(s) == s;
    }
  }

  /** No ASCII lower-case letter in `s`: what `str.upper` produces. */
  predicate NoLower(s: string) {
    forall i :: 0 <= i < |s| ==> !('a' <= s[i] <= 'z')
  }

  /** Upper-casing changes exactly the lower-case letters, keeps the length
      and keeps which characters are whitespace, so a trimmed string stays
      trimmed. */
  lemma UpperFacts(s: string)
    ensures |Upper(s)| == |s|
    ensures NoLower(Upper(s))
    ensures NoLower(s) ==> Upper(s) == s
    ensures forall i :: 0 <= i < |s| ==> IsSpace(Upper(s)[i]) == IsSpace(s[i])
    ensures Trimmed(s) ==> Trimmed(Upper(s))
  {
  }

  /** `zfill` pads with zeros on the left up to the width. */
  lemma ZFillFacts(s: string, width: nat)
    ensures var r := ZFill(s, width);
            && |r| == (if |s| < width then width else |s|)
            && r[|r| - |s|..] == s
            && forall i :: 0 <= i < |r| - |s| ==> r[i] == '0'
  {
    var r := ZFill(s, width);
    if |s| < width {
      assert r == Zeros(width - |s|) + s;
    }
  }

  /** No digit string contains `pattern` when `pattern` starts with a
      non-digit, so removing it from `d + pattern` leaves `d`. */
  lemma {:induction false} RemoveAllAfterDigits(d: string, pattern: string)
    requires |pattern| > 0 && !IsDigit(pattern[0])
    requires forall i :: 0 <= i < |d| ==> IsDigit(d[i])
    ensures RemoveAll(d + pattern, pattern) == d
    decreases |d|
  {
    var s := d + pattern;
    if |d| == 0 {
      assert s == pattern && StartsWith(s, pattern);
      assert s[|pattern|..] == [];
    } else {
      assert s[0] == d[0];
      assert !StartsWith(s, pattern);
      assert s[1..] == d[1..] + pattern;
      RemoveAllAfterDigits(d[1..], pattern);
      assert [d[0]] + d[1..] == d;
    }
  }

  /** A digit string does not end with a suffix whose last character is not
      a digit. */
  lemma DigitsLackSuffix(s: string, suffix: string)
    requires forall i :: 0 <= i < |s| ==> IsDigit(s[i])
    requires |suffix| > 0 && !IsDigit(suffix[|suffix| - 1])
    ensures !EndsWith(s, suffix)
  {
    if |suffix| <= |s| {
      assert s[|s| - |suffix|..][|suffix| - 1] == s[|s| - 1];
    }
  }

  lemma {:induction false} StrLeTotal(a: string, b: string)
    ensures StrLe(a, b) || StrLe(b, a)
    decreases |a|
  {
    if |a| > 0 && |b| > 0 && a[0] == b[0] {
      StrLeTotal(a[1..], b[1..]);
    }
  }

  lemma {:induction false} StrLeTransitive(a: string, b: string, c: string)
    requires StrLe(a, b) && StrLe(b, c)
    ensures StrLe(a, c)
    decreases |a|
  {
    if |a| > 0 && a[0] == b[0] && b[0] == c[0] {
      StrLeTransitive(a[1..], b[1..], c[1..]);
    }
  }
}
