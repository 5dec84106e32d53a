/**
 * Text helpers shared by the loaders and the file sorter: the decimal rendering of an
 * accumulated asset ID (`accumulator + '.'`), decimal parsing (the unary `+` in the sorter),
 * the two `split('.')` idioms, and the string order that stands for `localeCompare`.
 */
module Strings {

  predicate IsDigit(c: char) {
    '0' <= c <= '9'
  }

  predicate AllDigits(s: string) {
    forall i :: 0 <= i < |s| ==> IsDigit(s[i])
  }

  function Digit(d: nat): (c: char)
    requires d < 10
    ensures IsDigit(c) && c as int - '0' as int == d
  {
    ('0' as int + d) as char
  }

  /** The decimal text of `n`, as JavaScript renders a non-negative integer. */
  function NatToString(n: nat): (s: string)
    ensures |s| > 0 && AllDigits(s)
    ensures |s| > 1 ==> s[0] != '0'
  {
    if n < 10 then [Digit(n)] else NatToString(n / 10) + [Digit(n % 10)]
  }

  /** The value of a string of decimal digits (leading zeros allowed, the empty string is 0). */
  function DecimalValue(s: string): nat
    requires AllDigits(s)
  {
    if s == [] then 0 else 10 * DecimalValue(s[..|s| - 1]) + (s[|s| - 1] as int - '0' as int)
  }

  /** Parsing the rendering of a number gives the number back. */
  lemma {:induction false} DecimalRoundTrip(n: nat)
    ensures DecimalValue(NatToString(n)) == n
  {
    if n >= 10 {
      DecimalRoundTrip(n / 10);
      var s := NatToString(n);
      assert s[..|s| - 1] == NatToString(n / 10);
    }
  }

  /** Distinct numbers have distinct renderings. */
  lemma NatToStringInjective(a: nat, b: nat)
    requires NatToString(a) == NatToString(b)
    ensures a == b
  {
    DecimalRoundTrip(a);
    DecimalRoundTrip(b);
  }

  /** `s.split('.').shift()`: the text before the first '.', or all of `s` when it has none. */
  function BeforeFirstDot(s: string): (p: string)
    ensures '.' !in p
    ensures p <= s
    ensures |p| < |s| ==> s[|p|] == '.'
  {
    if s == [] || s[0] == '.' then [] else [s[0]] + BeforeFirstDot(s[1..])
  }

  /** The index just past the last '.' of `s`, or 0 when `s` has none. */
  function LastDotEnd(s: string): (j: nat)
    ensures j <= |s|
    ensures forall i :: j <= i < |s| ==> s[i] != '.'
    ensures j > 0 ==> s[j - 1] == '.'
  {
    if s == [] then 0 else if s[|s| - 1] == '.' then |s| else LastDotEnd(s[..|s| - 1])
  }

  /** `s.split('.').pop()`: the text after the last '.', or all of `s` when it has none. */
  function AfterLastDot(s: string): (x: string)
    ensures '.' !in x
  {
    s[LastDotEnd(s)..]
  }

  /** Decimal digits contain no '.', so a number can head a dotted name. */
  lemma DigitsHaveNoDot(s: string)
    requires AllDigits(s)
    ensures '.' !in s
  {
    forall i | 0 <= i < |s|
      ensures s[i] != '.'
    {
      assert IsDigit(s[i]);
    }
  }

  /** Joining a dot-free head to any tail with '.' and splitting at the first '.' gives the head back. */
  lemma {:induction false} BeforeFirstDotOfJoin(head: string, tail: string)
    requires '.' !in head
    ensures BeforeFirstDot(head + "." + tail) == head
  {
    if head != [] {
      assert (head + "." + tail)[1..] == head[1..] + "." + tail;
      BeforeFirstDotOfJoin(head[1..], tail);
    }
  }

  /** `head + '.' + tail` determines both parts when `head` has no '.'. */
  lemma DotJoinInjective(h1: string, t1: string, h2: string, t2: string)
    requires '.' !in h1 && '.' !in h2
    requires h1 + "." + t1 == h2 + "." + t2
    ensures h1 == h2 && t1 == t2
  {
    BeforeFirstDotOfJoin(h1, t1);
    BeforeFirstDotOfJoin(h2, t2);
    assert t1 == (h1 + "." + t1)[|h1| + 1..];
    assert t2 == (h2 + "." + t2)[|h2| + 1..];
  }

  /**
   * The order used to break ties in the file sorter. The source calls the locale-dependent
   * `localeCompare`; this model uses code-point lexicographic order, and the sort proofs rely
   * only on the three lemmas below (a strict total order).
   */
  predicate LocaleLess(a: string, b: string) {
    if a == [] then b != []
    else if b == [] then false
    else if a[0] != b[0] then a[0] < b[0]
    else LocaleLess(a[1..], b[1..])
  }

  lemma {:induction false} LocaleLessIrreflexive(a: string)
    ensures !LocaleLess(a, a)
  {
    if a != [] {
      LocaleLessIrreflexive(a[1..]);
    }
  }

  lemma {:induction false} LocaleLessTransitive(a: string, b: string, c: string)
    requires LocaleLess(a, b) && LocaleLess(b, c)
    ensures LocaleLess(a, c)
  {
    if a != [] && b != [] && c != [] && a[0] == b[0] && b[0] == c[0] {
      LocaleLessTransitive(a[1..], b[1..], c[1..]);
    }
  }

  lemma {:induction false} LocaleLessTotal(a: string, b: string)
    ensures a == b || LocaleLess(a, b) || LocaleLess(b, a)
  {
    if a != [] && b != [] && a[0] == b[0] {
      LocaleLessTotal(a[1..], b[1..]);
      if a[1..] == b[1..] {
        assert a == [a[0]] + a[1..] && b == [b[0]] + b[1..];
      }
    }
  }

  lemma LocaleLessAsymmetric(a: string, b: string)
    requires LocaleLess(a, b)
    ensures !LocaleLess(b, a)
  {
    if LocaleLess(b, a) {
      LocaleLessTransitive(a, b, a);
      LocaleLessIrreflexive(a);
    }
  }
}
