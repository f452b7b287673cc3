/**
 * Stand-ins for the JavaScript string built-ins the core relies on:
 * `toLowerCase` and `toUpperCase` (ASCII letters only) and the decimal
 * rendering of a non-negative integer inside a template literal.
 */
module Strings {

  function LowerChar(c: char): char {
    if 'A' <= c <= 'Z' then (c as int + 32) as char else c
  }

  function UpperChar(c: char): char {
    if 'a' <= c <= 'z' then (c as int - 32) as char else c
  }

  /** `s.toLowerCase()` on ASCII letters. */
  function ToLower(s: string): (r: string)
    ensures |r| == |s|
    ensures forall i :: 0 <= i < |s| ==> r[i] == LowerChar(s[i])
  {
    if s == [] then [] else [LowerChar(s[0])] + ToLower(s[1..])
  }

  /** `s.toUpperCase()` on ASCII letters. */
  function ToUpper(s: string): (r: string)
    ensures |r| == |s|
    ensures forall i :: 0 <= i < |s| ==> r[i] == UpperChar(s[i])
  {
    if s == [] then [] else [UpperChar(s[0])] + ToUpper(s[1..])
  }

  /** Lower-casing twice is lower-casing once. */
  lemma ToLowerIdempotent(s: string)
    ensures ToLower(ToLower(s)) == ToLower(s)
  {
  }

  predicate IsDigit(c: char) {
    '0' <= c <= '9'
  }

  function DigitChar(d: nat): (c: char)
    requires d < 10
    ensures IsDigit(c)
  {
    ('0' as int + d) as char
  }

  /** The decimal rendering of `n`, as `${n}` produces it for a non-negative integer. */
  function Decimal(n: nat): (r: string)
    ensures |r| >= 1
    ensures n >= 10 ==> |r| >= 2
    ensures forall i :: 0 <= i < |r| ==> IsDigit(r[i])
  {
    if n < 10 then [DigitChar(n)] else Decimal(n / 10) + [DigitChar(n % 10)]
  }

  /** Distinct numbers render to distinct strings. */
  lemma {:induction false} DecimalInjective(a: nat, b: nat)
    requires Decimal(a) == Decimal(b)
    ensures a == b
  {
    if a >= 10 && b >= 10 {
      var da, db := Decimal(a), Decimal(b);
      assert da[..|da| - 1] == Decimal(a / 10);
      assert db[..|db| - 1] == Decimal(b / 10);
      assert DigitChar(a % 10) == da[|da| - 1] == db[|db| - 1] == DigitChar(b % 10);
      DecimalInjective(a / 10, b / 10);
    }
  }

  /** The shape of `p + "-" + d`: a dash at index |p|, and `d` behind it. */
  lemma DashJoinShape(p: string, d: string)
    ensures (p + "-" + d)[|p|] == '-'
    ensures (forall i :: 0 <= i < |d| ==> IsDigit(d[i])) ==>
      forall k :: |p| < k < |p| + 1 + |d| ==> IsDigit((p + "-" + d)[k])
  {
    var s := p + "-" + d;
    forall k | |p| < k < |p| + 1 + |d| ensures s[k] == d[k - |p| - 1] {
    }
  }

  /**
   * A string `p + "-" + d` where `d` is all digits determines `p` and `d`:
   * the last dash separates them.
   */
  lemma DashDigitsSplit(p1: string, d1: string, p2: string, d2: string)
    requires forall i :: 0 <= i < |d1| ==> IsDigit(d1[i])
    requires forall i :: 0 <= i < |d2| ==> IsDigit(d2[i])
    requires p1 + "-" + d1 == p2 + "-" + d2
    ensures p1 == p2 && d1 == d2
  {
    DashJoinShape(p1, d1);
    DashJoinShape(p2, d2);
    var s := p1 + "-" + d1;
    if |d1| == |d2| {
      assert d1 == s[|s| - |d1|..] == d2;
      assert p1 == s[..|p1|] == p2;
    } else {
      assert false;
    }
  }
}
