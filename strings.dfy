/** String helpers mirroring the Python `str` operations the core uses. */
module Strings {

  /** `s.startswith(prefix)` */
  predicate StartsWith(s: string, prefix: string) {
    |prefix| <= |s| && s[..|prefix|] == prefix
  }

  /** `s.endswith(suffix)` */
  predicate EndsWith(s: string, suffix: string) {
    |suffix| <= |s| && s[|s| - |suffix|..] == suffix
  }

  /** `sub` occurs in `s` starting at index `i`. */
  predicate OccursAt(s: string, sub: string, i: int) {
    0 <= i <= |s| - |sub| && s[i..i + |sub|] == sub
  }

  /** `sub in s` */
  predicate Contains(s: string, sub: string) {
    exists i | 0 <= i <= |s| :: OccursAt(s, sub, i)
  }

  /** `s[:n]` for a non-negative n: the first n characters, or all of s when it is shorter. */
  function Take(s: string, n: nat): (r: string)
    ensures |r| == if |s| <= n then |s| else n
    ensures StartsWith(s, r)
  {
    if |s| <= n then s else s[..n]
  }

  /** ASCII lower-casing of one character (the part of `str.lower` the model keeps). */
  function LowerChar(c: char): char {
    if 'A' <= c <= 'Z' then (c as int + 32) as char else c
  }

  /** `s.lower()`, restricted to ASCII letters. */
  function Lower(s: string): (r: string)
    ensures |r| == |s|
    ensures forall i :: 0 <= i < |s| ==> r[i] == LowerChar(s[i])
  {
    seq(|s|, i requires 0 <= i < |s| => LowerChar(s[i]))
  }

  /** Index of the first occurrence of `c` in `s`, or `|s|` when `c` does not occur. */
  function Find(s: string, c: char): (i: nat)
    ensures i <= |s|
    ensures i < |s| ==> s[i] == c
    ensures forall j :: 0 <= j < i ==> s[j] != c
  {
    if |s| == 0 then 0
    else if s[0] == c then 0
    else 1 + Find(s[1..], c)
  }

  /** `s.split(c, 1)` when `c in s`: the text before the first `c` and the text after it. */
  function SplitFirst(s: string, c: char): (parts: (string, string))
    requires c in s
    ensures s == parts.0 + [c] + parts.1
    ensures c !in parts.0
  {
    var i := Find(s, c);
    assert s == s[..i] + [c] + s[i + 1..];
    (s[..i], s[i + 1..])
  }

  /** A character of `sub` that `s` lacks rules out every occurrence of `sub` in `s`. */
  lemma MissingChar(s: string, sub: string, c: char)
    requires c in sub && c !in s
    ensures !Contains(s, sub)
  {
    var k :| 0 <= k < |sub| && sub[k] == c;
    forall i | 0 <= i <= |s|
      ensures !OccursAt(s, sub, i)
    {
      if i <= |s| - |sub| {
        assert s[i..i + |sub|][k] == s[i + k] != c;
      }
    }
  }

  lemma StartsWithPrepend(p: string, s: string)
    ensures StartsWith(p + s, p)
  {
    assert (p + s)[..|p|] == p;
  }

  lemma EndsWithPrepend(p: string, s: string)
    ensures EndsWith(p + s, s)
  {
    assert (p + s)[|p|..] == s;
  }

  lemma ContainsMiddle(p: string, x: string, q: string)
    ensures Contains(p + x + q, x)
  {
    assert (p + x + q)[|p|..|p| + |x|] == x;
    assert OccursAt(p + x + q, x, |p|);
  }

  /** A text framed by fixed pieces starts with its first piece, contains both inserted parts and ends with its last piece. */
  lemma Framed(h: string, a: string, x: string, b: string, y: string, c: string)
    ensures var r := h + a + x + b + y + c;
      StartsWith(r, h) && Contains(r, x) && Contains(r, y) && EndsWith(r, c)
  {
    var r := h + a + x + b + y + c;
    assert r == h + (a + x + b + y + c);
    StartsWithPrepend(h, a + x + b + y + c);
    assert r == (h + a) + x + (b + y + c);
    ContainsMiddle(h + a, x, b + y + c);
    ContainsMiddle(h + a + x + b, y, c);
    EndsWithPrepend(h + a + x + b + y, c);
  }

  lemma EndsWithTrans(a: string, b: string, c: string)
    requires EndsWith(a, b) && EndsWith(b, c)
    ensures EndsWith(a, c)
  {
    assert a[|a| - |c|..] == a[|a| - |b|..][|b| - |c|..];
  }

  /** Splitting `a + [c] + b` at its first `c` gives back `(a, b)` exactly when `c` does not occur in `a`. */
  lemma {:induction false} SplitFirstJoin(a: string, c: char, b: string)
    ensures c in a + [c] + b
    ensures SplitFirst(a + [c] + b, c) == (a, b) <==> c !in a
  {
    var s := a + [c] + b;
    assert s[|a|] == c;
    var i := Find(s, c);
    if c !in a {
      assert forall j :: 0 <= j < |a| ==> s[j] != c by {
        forall j | 0 <= j < |a| ensures s[j] != c { assert s[j] == a[j]; }
      }
      assert i == |a|;
      assert s[..i] == a;
      assert s[i + 1..] == b;
    } else {
      var k :| 0 <= k < |a| && a[k] == c;
      assert s[k] == c;
      assert i <= k;
      assert |SplitFirst(s, c).0| < |a|;
    }
  }
}
