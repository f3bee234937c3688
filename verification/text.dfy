/** String helpers the bot relies on: Python's `str.startswith`, `str()` on a
    non-negative int, and a separator lemma used to show that links built by
    plain concatenation can be taken apart again. */
module Text {

  /** Python's `s.startswith(prefix)`. */
  predicate StartsWith(s: string, prefix: string) {
    |prefix| <= |s| && s[..|prefix|] == prefix
  }

  /** `s` ends with `suffix`. */
  predicate EndsWith(s: string, suffix: string) {
    |suffix| <= |s| && s[|s| - |suffix|..] == suffix
  }

  /** The three parts of `head + middle + tail` can be read off where they were put. */
  lemma ConcatParts(head: string, middle: string, tail: string)
    ensures StartsWith(head + middle + tail, head)
    ensures StartsWith((head + middle + tail)[|head|..], middle)
    ensures EndsWith(head + middle + tail, tail)
  {
    var s := head + middle + tail;
    assert s[..|head|] == head;
    assert s[|head|..] == middle + tail;
    assert (middle + tail)[..|middle|] == middle;
    assert s[|s| - |tail|..] == tail;
  }

  /** A joined string starts with its head and ends with its tail. */
  lemma Joined(head: string, tail: string)
    ensures StartsWith(head + tail, head) && EndsWith(head + tail, tail)
  {
    assert (head + tail)[..|head|] == head;
    assert (head + tail)[|head|..] == tail;
  }

  /** The pieces of `p + x + a + y + b + z` can be read off where they were put. */
  lemma SplicedShape(p: string, x: string, a: string, y: string, b: string, z: string)
    ensures StartsWith(p + x + a + y + b + z, p)
    ensures StartsWith(p + x + a + y + b + z, p + x + a)
    ensures EndsWith(p + x + a + y + b + z, y + b + z)
    ensures |p + x + a + y + b + z| == |p| + |x| + |a| + |y| + |b| + |z|
  {
    var u := p + x + a + y + b + z;
    assert u == (p + x + a) + (y + b + z);
    Joined(p + x + a, y + b + z);
    assert u == p + (x + a + y + b + z);
    Joined(p, x + a + y + b + z);
  }

  /** Strings that start with prefixes differing at some position differ. */
  lemma PrefixesDiffer(u: string, v: string, p: string, q: string, i: nat)
    requires StartsWith(u, p) && StartsWith(v, q)
    requires i < |p| && i < |q| && p[i] != q[i]
    ensures u != v
  {
    assert u[i] == p[i] && v[i] == q[i];
  }

  /** A string built as `prefix + x + a + y + b + z` determines `x`, `y` and
      `z` when the separators' first characters occur in neither `x` nor `y`. */
  lemma {:induction false} TemplateDetermines(prefix: string, a: string, b: string,
                                              x1: string, y1: string, z1: string,
                                              x2: string, y2: string, z2: string)
    requires |a| >= 1 && |b| >= 1
    requires a[0] !in x1 && a[0] !in x2 && b[0] !in y1 && b[0] !in y2
    requires prefix + x1 + a + y1 + b + z1 == prefix + x2 + a + y2 + b + z2
    ensures x1 == x2 && y1 == y2 && z1 == z2
  {
    var s := prefix + x1 + a + y1 + b + z1;
    var t := prefix + x2 + a + y2 + b + z2;
    var u1, u2 := a[1..] + y1 + b + z1, a[1..] + y2 + b + z2;
    assert s[|prefix|..] == x1 + [a[0]] + u1;
    assert t[|prefix|..] == x2 + [a[0]] + u2;
    SplitAtSeparatorUnique(x1, u1, x2, u2, a[0]);
    var w1, w2 := b[1..] + z1, b[1..] + z2;
    assert u1[|a| - 1..] == y1 + [b[0]] + w1;
    assert u2[|a| - 1..] == y2 + [b[0]] + w2;
    SplitAtSeparatorUnique(y1, w1, y2, w2, b[0]);
    assert z1 == w1[|b| - 1..];
    assert z2 == w2[|b| - 1..];
  }

  predicate IsDigit(c: char) {
    '0' <= c <= '9'
  }

  predicate AllDigits(s: string) {
    forall i :: 0 <= i < |s| ==> IsDigit(s[i])
  }

  function DigitChar(d: nat): (c: char)
    requires d < 10
    ensures IsDigit(c) && c as int - '0' as int == d
  {
    ('0' as int + d) as char
  }

  /** Python's `str(n)` for a non-negative int: decimal digits, no leading zero. */
  function NatToString(n: nat): (s: string)
    ensures |s| >= 1 && AllDigits(s)
    ensures s[0] == '0' ==> n == 0
    decreases n
  {
    if n < 10 then [DigitChar(n)] else NatToString(n / 10) + [DigitChar(n % 10)]
  }

  /** The number a string of decimal digits denotes. */
  function DigitsValue(s: string): nat
    requires AllDigits(s)
  {
    if s == [] then 0 else DigitsValue(s[..|s| - 1]) * 10 + (s[|s| - 1] as int - '0' as int)
  }

  /** Reading back what `str(n)` wrote gives `n`. */
  lemma {:induction false} NatToStringRoundTrip(n: nat)
    ensures DigitsValue(NatToString(n)) == n
    decreases n
  {
    if n >= 10 {
      var p := NatToString(n / 10);
      var s := p + [DigitChar(n % 10)];
      assert s[..|s| - 1] == p;
      NatToStringRoundTrip(n / 10);
    }
  }

  /** Different numbers are printed differently. */
  lemma NatToStringInjective(m: nat, n: nat)
    ensures NatToString(m) == NatToString(n) ==> m == n
  {
    NatToStringRoundTrip(m);
    NatToStringRoundTrip(n);
  }

  /** Index of the first `c` in `s`, or `|s|` when there is none. */
  function FirstIndexOf(s: string, c: char): (k: nat)
    ensures k <= |s|
    ensures forall i :: 0 <= i < k ==> s[i] != c
    ensures k < |s| ==> s[k] == c
  {
    if s == [] then 0 else if s[0] == c then 0 else 1 + FirstIndexOf(s[1..], c)
  }

  /** In `a + [c] + b` with no `c` inside `a`, the first `c` sits right after `a`. */
  lemma {:induction false} FirstIndexAfterHead(a: string, c: char, b: string)
    requires c !in a
    ensures FirstIndexOf(a + [c] + b, c) == |a|
  {
    if a != [] {
      assert (a + [c] + b)[1..] == a[1..] + [c] + b;
      FirstIndexAfterHead(a[1..], c, b);
    }
  }

  /** Joining two parts with a separator that the first part does not contain
      can be undone: the parts are determined by the joined string. */
  lemma SplitAtSeparatorUnique(a: string, b: string, x: string, y: string, c: char)
    requires c !in a && c !in x
    requires a + [c] + b == x + [c] + y
    ensures a == x && b == y
  {
    var s := a + [c] + b;
    FirstIndexAfterHead(a, c, b);
    FirstIndexAfterHead(x, c, y);
    assert |a| == |x|;
    assert a == s[..|a|];
    assert x == s[..|x|];
    assert b == s[|a| + 1..];
    assert y == s[|x| + 1..];
  }
}
