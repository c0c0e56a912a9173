/**
 * Character classes and string helpers shared by the core: JavaScript's
 * whitespace (used by `String.prototype.trim` and by the regex class `\s`),
 * `trim`, the ASCII letter and digit classes of the source's regular
 * expressions, and ASCII lower-casing.
 */
module Text {

  /** ECMAScript WhiteSpace and LineTerminator code points. */
  predicate IsSpace(c: char) {
    var n := c as int;
    || n == 0x09 || n == 0x0A || n == 0x0B || n == 0x0C || n == 0x0D || n == 0x20
    || n == 0xA0 || n == 0x1680 || (0x2000 <= n <= 0x200A)
    || n == 0x2028 || n == 0x2029 || n == 0x202F || n == 0x205F || n == 0x3000 || n == 0xFEFF
  }

  predicate AllSpace(s: string) {
    forall i :: 0 <= i < |s| ==> IsSpace(s[i])
  }

  predicate IsAsciiLower(c: char) { 'a' <= c <= 'z' }
  predicate IsAsciiUpper(c: char) { 'A' <= c <= 'Z' }
  predicate IsAsciiDigit(c: char) { '0' <= c <= '9' }
  predicate IsAsciiAlnum(c: char) { IsAsciiLower(c) || IsAsciiUpper(c) || IsAsciiDigit(c) }

  predicate AllAlnum(s: string) {
    forall i :: 0 <= i < |s| ==> IsAsciiAlnum(s[i])
  }

  /** The length of the longest whitespace prefix of `s`. */
  function LeadingSpaceCount(s: string): (n: nat)
    ensures n <= |s| && AllSpace(s[..n])
    ensures n == |s| || !IsSpace(s[n])
  {
    if s == [] || !IsSpace(s[0]) then 0
    else
      var n := LeadingSpaceCount(s[1..]);
      assert s[..n + 1] == [s[0]] + s[1..][..n];
      n + 1
  }

  /** The length of the longest whitespace suffix of `s`. */
  function TrailingSpaceCount(s: string): (n: nat)
    ensures n <= |s| && AllSpace(s[|s| - n..])
    ensures n == |s| || !IsSpace(s[|s| - n - 1])
  {
    if s == [] || !IsSpace(s[|s| - 1]) then 0
    else
      var n := TrailingSpaceCount(s[..|s| - 1]);
      assert s[|s| - (n + 1)..] == s[..|s| - 1][|s| - 1 - n..] + [s[|s| - 1]];
      n + 1
  }

  /** `String.prototype.trimStart`. */
  function TrimStart(s: string): string {
    s[LeadingSpaceCount(s)..]
  }

  /** `String.prototype.trimEnd`. */
  function TrimEnd(s: string): string {
    s[..|s| - TrailingSpaceCount(s)]
  }

  /** `String.prototype.trim`. */
  function Trim(s: string): string {
    TrimEnd(TrimStart(s))
  }

  /** A string with no whitespace at either end (the shape `trim` produces). */
  predicate Trimmed(m: string) {
    m == [] || (!IsSpace(m[0]) && !IsSpace(m[|m| - 1]))
  }

  lemma {:induction false} LeadingSpaceOfPadded(a: string, t: string)
    requires AllSpace(a)
    requires t == [] || !IsSpace(t[0])
    ensures LeadingSpaceCount(a + t) == |a|
  {
    if a != [] {
      assert (a + t)[1..] == a[1..] + t;
      LeadingSpaceOfPadded(a[1..], t);
    } else {
      assert a + t == t;
    }
  }

  lemma {:induction false} TrailingSpaceOfPadded(t: string, b: string)
    requires AllSpace(b)
    requires t == [] || !IsSpace(t[|t| - 1])
    ensures TrailingSpaceCount(t + b) == |b|
  {
    if b != [] {
      assert (t + b)[..|t + b| - 1] == t + b[..|b| - 1];
      TrailingSpaceOfPadded(t, b[..|b| - 1]);
    } else {
      assert t + b == t;
    }
  }

  /** `trim` finds exactly the core of a string padded with whitespace on both sides. */
  lemma TrimOfPadded(a: string, m: string, b: string)
    requires AllSpace(a) && AllSpace(b) && Trimmed(m)
    ensures Trim(a + m + b) == m
  {
    if m == [] {
      assert a + m + b == (a + b) + [];
      LeadingSpaceOfPadded(a + b, []);
    } else {
      assert a + m + b == a + (m + b);
      LeadingSpaceOfPadded(a, m + b);
      assert TrimStart(a + m + b) == m + b;
      TrailingSpaceOfPadded(m, b);
    }
  }

  /** `trim` leaves a string without whitespace at its ends as it is. */
  lemma TrimOfTrimmed(m: string)
    requires Trimmed(m)
    ensures Trim(m) == m
  {
    assert [] + m + [] == m;
    TrimOfPadded([], m, []);
  }

  /** The whitespace `trim` removes from the front of `s`. */
  function LeadingSpace(s: string): string {
    s[..LeadingSpaceCount(s)]
  }

  /** The whitespace `trim` removes from the back of `s`. */
  function TrailingSpace(s: string): string {
    var u := TrimStart(s);
    u[|u| - TrailingSpaceCount(u)..]
  }

  /** What `trim` returns has no whitespace at either end. */
  lemma TrimIsTrimmed(s: string)
    ensures Trimmed(Trim(s))
  {
    var u := TrimStart(s);
    var m := Trim(s);
    assert m == u[..|u| - TrailingSpaceCount(u)];
    if m != [] {
      assert m[0] == s[LeadingSpaceCount(s)];
      assert m[|m| - 1] == u[|u| - TrailingSpaceCount(u) - 1];
    }
  }

  /** Every string is its trimmed core padded with whitespace. */
  lemma TrimSplits(s: string)
    ensures Trimmed(Trim(s))
    ensures AllSpace(LeadingSpace(s)) && AllSpace(TrailingSpace(s))
    ensures s == LeadingSpace(s) + Trim(s) + TrailingSpace(s)
  {
    TrimIsTrimmed(s);
    var u := TrimStart(s);
    assert u == Trim(s) + TrailingSpace(s);
    assert s == LeadingSpace(s) + u;
  }

  /** `trim` adds no character: one absent from `s` is absent from its trimmed form. */
  lemma TrimKeepsAbsent(s: string, c: char)
    requires c !in s
    ensures c !in Trim(s)
  {
    TrimSplits(s);
    var a, m := LeadingSpace(s), Trim(s);
    forall k | 0 <= k < |m|
      ensures m[k] != c
    {
      assert m[k] == s[|a| + k];
    }
  }

  /** Whitespace added at either end of a string does not change its trimmed form. */
  lemma TrimIgnoresPadding(w1: string, s: string, w2: string)
    requires AllSpace(w1) && AllSpace(w2)
    ensures Trim(w1 + s + w2) == Trim(s)
  {
    TrimSplits(s);
    var a, b := LeadingSpace(s), TrailingSpace(s);
    assert w1 + s + w2 == (w1 + a) + Trim(s) + (b + w2);
    assert AllSpace(w1 + a) && AllSpace(b + w2);
    TrimOfPadded(w1 + a, Trim(s), b + w2);
  }

  /** `trim` is idempotent. */
  lemma TrimIdempotent(s: string)
    ensures Trim(Trim(s)) == Trim(s)
  {
    TrimSplits(s);
    assert Trim(s) == [] + Trim(s) + [];
    TrimOfPadded([], Trim(s), []);
  }

  /** ASCII `toLowerCase`, exact on the alphanumeric strings it is applied to. */
  function LowerChar(c: char): (r: char)
    ensures IsAsciiUpper(c) ==> r as int == c as int + 32
    ensures !IsAsciiUpper(c) ==> r == c
  {
    if IsAsciiUpper(c) then (c as int + 32) as char else c
  }

  function Lower(s: string): (r: string)
    ensures |r| == |s|
    ensures forall i :: 0 <= i < |s| ==> r[i] == LowerChar(s[i])
  {
    seq(|s|, i requires 0 <= i < |s| => LowerChar(s[i]))
  }

  predicate StartsWith(s: string, prefix: string) {
    |prefix| <= |s| && s[..|prefix|] == prefix
  }

  predicate EndsWith(s: string, suffix: string) {
    |suffix| <= |s| && s[|s| - |suffix|..] == suffix
  }

  predicate OccursAt(s: string, sub: string, k: int) {
    0 <= k <= |s| - |sub| && s[k..k + |sub|] == sub
  }

  /** `items.join(sep)`. */
  function Join(items: seq<string>, sep: string): string {
    if items == [] then ""
    else if |items| == 1 then items[0]
    else items[0] + sep + Join(items[1..], sep)
  }

  /** The joined string is as long as its parts plus one separator between each pair. */
  lemma {:induction false} JoinLength(items: seq<string>, sep: string, bound: nat)
    requires forall i :: 0 <= i < |items| ==> |items[i]| <= bound
    ensures |Join(items, sep)| <= |items| * (bound + |sep|)
  {
    if |items| > 1 {
      JoinLength(items[1..], sep, bound);
    }
  }

  /** Where `items[k]` starts in `Join(items, sep)`. */
  function JoinOffset(items: seq<string>, sep: string, k: nat): nat
    requires k < |items|
  {
    if k == 0 then 0 else |items[0]| + |sep| + JoinOffset(items[1..], sep, k - 1)
  }

  /** Every item appears in the joined string, at its offset. */
  lemma {:induction false} JoinHoldsItems(items: seq<string>, sep: string, k: nat)
    requires k < |items|
    ensures OccursAt(Join(items, sep), items[k], JoinOffset(items, sep, k))
  {
    var j := Join(items, sep);
    if |items| > 1 {
      assert j == items[0] + sep + Join(items[1..], sep);
      if k > 0 {
        JoinHoldsItems(items[1..], sep, k - 1);
        var off := |items[0]| + |sep|;
        var inner := JoinOffset(items[1..], sep, k - 1);
        assert j[off + inner..off + inner + |items[k]|] == Join(items[1..], sep)[inner..inner + |items[k]|];
      } else {
        assert j[..|items[0]|] == items[0];
      }
    }
  }
}
