/**
 * String helpers with JavaScript semantics: decimal rendering of numbers in
 * template literals and `String.prototype.indexOf`.
 */
module Text {

  function Digit(d: nat): (c: char)
    requires d < 10
  {
    (48 + d) as char
  }

  predicate IsDigitChar(c: char) { '0' <= c <= '9' }

  /** Decimal rendering of a non-negative integer, as `${n}` produces it. */
  function NatToString(n: nat): (r: string)
    ensures |r| > 0
    ensures forall i :: 0 <= i < |r| ==> IsDigitChar(r[i])
    ensures n >= 10 <==> |r| >= 2
  {
    if n < 10 then [Digit(n)] else NatToString(n / 10) + [Digit(n % 10)]
  }

  /** Decimal rendering of any integer, with a leading minus sign when negative. */
  function IntToString(i: int): (r: string)
    ensures |r| > 0
    ensures r[0] == '-' <==> i < 0
  {
    if i < 0 then "-" + NatToString(-i) else NatToString(i)
  }

  /** Two different numbers never render alike, so ids built from versions stay distinct. */
  lemma {:induction false} NatToStringInjective(a: nat, b: nat)
    requires NatToString(a) == NatToString(b)
    ensures a == b
  {
    if a >= 10 && b >= 10 {
      var sa, sb := NatToString(a), NatToString(b);
      assert sa[|sa| - 1] == Digit(a % 10) && sb[|sb| - 1] == Digit(b % 10);
      assert NatToString(a / 10) == sa[..|sa| - 1] == sb[..|sb| - 1] == NatToString(b / 10);
      NatToStringInjective(a / 10, b / 10);
    }
  }

  /** In a prefix, "_" and a run of digits, that "_" is the last one. */
  lemma LastSeparator(a: string, d: string)
    requires forall i :: 0 <= i < |d| ==> IsDigitChar(d[i])
    ensures var s := a + "_" + d;
      && s[|s| - |d| - 1] == '_'
      && forall j :: |s| - |d| <= j < |s| ==> s[j] != '_'
  {
    var s := a + "_" + d;
    forall j | |s| - |d| <= j < |s|
      ensures s[j] != '_'
    {
      assert s[j] == d[j - (|s| - |d|)];
    }
  }

  /** A prefix, "_" and a run of digits: the digits and the prefix are recovered uniquely. */
  lemma DigitSuffixUnique(a1: string, d1: string, a2: string, d2: string)
    requires forall i :: 0 <= i < |d1| ==> IsDigitChar(d1[i])
    requires forall i :: 0 <= i < |d2| ==> IsDigitChar(d2[i])
    requires a1 + "_" + d1 == a2 + "_" + d2
    ensures a1 == a2 && d1 == d2
  {
    var s := a1 + "_" + d1;
    var t := a2 + "_" + d2;
    LastSeparator(a1, d1);
    LastSeparator(a2, d2);
    assert |d1| == |d2|;
    assert d1 == s[|s| - |d1|..] == t[|t| - |d2|..] == d2;
    assert a1 == s[..|a1|] == t[..|a2|] == a2;
  }

  /** `sub` occurs in `s` starting at position i. */
  predicate OccursAt(s: string, sub: string, i: nat)
  {
    i + |sub| <= |s| && s[i..i + |sub|] == sub
  }

  predicate Contains(s: string, sub: string)
  {
    exists i: nat | i <= |s| :: OccursAt(s, sub, i)
  }

  /** `s.indexOf(sub, from)`: the first occurrence at or after `from`, or -1. */
  function IndexOfFrom(s: string, sub: string, from: nat): (r: int)
    requires from <= |s|
    ensures r == -1 || (from <= r && OccursAt(s, sub, r))
    ensures r == -1 ==> forall j: nat :: from <= j ==> !OccursAt(s, sub, j)
    ensures r != -1 ==> forall j: nat :: from <= j < r ==> !OccursAt(s, sub, j)
    decreases |s| - from
  {
    if from + |sub| > |s| then -1
    else if s[from..from + |sub|] == sub then from
    else IndexOfFrom(s, sub, from + 1)
  }

  function IndexOf(s: string, sub: string): int
  {
    IndexOfFrom(s, sub, 0)
  }

  /** `indexOf` answers -1 exactly when the substring does not occur. */
  lemma IndexOfFound(s: string, sub: string)
    ensures IndexOf(s, sub) != -1 <==> Contains(s, sub)
  {
    if IndexOf(s, sub) != -1 {
      assert OccursAt(s, sub, IndexOf(s, sub) as nat);
    }
  }

  /** The empty string is found in every body, at position 0. */
  lemma EmptyAlwaysFound(s: string)
    ensures IndexOf(s, "") == 0
  {
  }

  /** A string always contains whatever sits in its middle. */
  lemma ContainsMiddle(a: string, b: string, c: string)
    ensures Contains(a + b + c, b)
  {
    assert (a + b + c)[|a|..|a| + |b|] == b;
    assert OccursAt(a + b + c, b, |a|);
  }

  /** Appending to a string keeps what it contains. */
  lemma ContainsExtend(a: string, b: string, sub: string)
    requires Contains(a, sub)
    ensures Contains(a + b, sub)
  {
    var i: nat :| i <= |a| && OccursAt(a, sub, i);
    assert (a + b)[i..i + |sub|] == a[i..i + |sub|];
    assert OccursAt(a + b, sub, i);
  }

  /** A date and a time as the templates format them ("DD/MM/YYYY", "HH:mm"); the clock is an input. */
  datatype Stamp = Stamp(date: string, time: string)
}
