/**
 * Strings as the source builds them: decimal rendering of integers (what a
 * `stringstream << int` produces), ASCII lower-casing (`::tolower` in the C
 * locale) and substring search (`std::string::find`).
 */
module Text {

  predicate IsDigit(ch: char) { '0' <= ch <= '9' }

  function DigitChar(d: nat): (ch: char)
    requires d < 10
    ensures IsDigit(ch)
  {
    "0123456789"[d]
  }

  /** Decimal rendering of a natural number, most significant digit first. */
  function NatToString(n: nat): (s: string)
    ensures |s| >= 1
    ensures forall i :: 0 <= i < |s| ==> IsDigit(s[i])
    decreases n
  {
    if n < 10 then [DigitChar(n)] else NatToString(n / 10) + [DigitChar(n % 10)]
  }

  /** Decimal rendering of an integer: a leading '-' exactly for negative values. */
  function IntToString(i: int): (s: string)
    ensures |s| >= 1
    ensures (s[0] == '-') <==> i < 0
    ensures i >= 0 ==> s == NatToString(i)
  {
    if i < 0 then "-" + NatToString(-i) else NatToString(i)
  }

  /** `::tolower` on one character: only 'A'..'Z' change. */
  function LowerChar(ch: char): (r: char)
    ensures 'A' <= ch <= 'Z' ==> 'a' <= r <= 'z' && r as int - ch as int == 32
    ensures !('A' <= ch <= 'Z') ==> r == ch
  {
    if 'A' <= ch <= 'Z' then (ch as int + 32) as char else ch
  }

  /** `std::transform(s, ::tolower)`. */
  function Lower(s: string): (r: string)
  {
    if s == [] then [] else [LowerChar(s[0])] + Lower(s[1..])
  }

  lemma {:induction false} LowerAt(s: string, i: nat)
    requires i < |s|
    ensures |Lower(s)| == |s| && Lower(s)[i] == LowerChar(s[i])
  {
    if i > 0 {
      LowerAt(s[1..], i - 1);
    } else if |s| > 1 {
      LowerAt(s[1..], 0);
    }
  }

  lemma {:induction false} LowerLength(s: string)
    ensures |Lower(s)| == |s|
  {
    if s != [] {
      LowerLength(s[1..]);
    }
  }

  /** Lower-casing twice is lower-casing once, so a tag is matched case-insensitively. */
  lemma {:induction false} LowerIdempotent(s: string)
    ensures Lower(Lower(s)) == Lower(s)
  {
    if s != [] {
      LowerIdempotent(s[1..]);
      assert Lower(s) == [LowerChar(s[0])] + Lower(s[1..]);
      assert Lower(s)[1..] == Lower(s[1..]);
    }
  }

  /** `t` occurs in `s` starting at index `i`. */
  predicate OccursAt(s: string, t: string, i: int)
  {
    0 <= i <= |s| - |t| && s[i..i + |t|] == t
  }

  /** `t` occurs in `s` at some position (`s.find(t) != npos`). */
  predicate Contains(s: string, t: string)
  {
    exists i | 0 <= i <= |s| - |t| :: OccursAt(s, t, i)
  }

  lemma ContainsSuffix(s: string, t: string)
    ensures Contains(s + t, t)
  {
    var u := s + t;
    assert u[|s|..|s| + |t|] == t;
    assert OccursAt(u, t, |s|);
  }
  /**
   * A run of digits followed by a non-digit is read back unambiguously: two
   * such splittings of the same string agree.
   */
  lemma DigitPrefixUnique(d1: string, x1: string, d2: string, x2: string)
    requires forall i :: 0 <= i < |d1| ==> IsDigit(d1[i])
    requires forall i :: 0 <= i < |d2| ==> IsDigit(d2[i])
    requires |x1| > 0 && !IsDigit(x1[0]) && |x2| > 0 && !IsDigit(x2[0])
    requires d1 + x1 == d2 + x2
    ensures d1 == d2 && x1 == x2
  {
    if |d1| < |d2| {
      ShorterDigitsDiffer(d1, x1, d2, x2);
      assert false;
    } else if |d2| < |d1| {
      ShorterDigitsDiffer(d2, x2, d1, x1);
      assert false;
    } else {
      assert d1 == (d1 + x1)[..|d1|] && d2 == (d2 + x2)[..|d2|];
      assert x1 == (d1 + x1)[|d1|..] && x2 == (d2 + x2)[|d2|..];
    }
  }

  lemma ShorterDigitsDiffer(d1: string, x1: string, d2: string, x2: string)
    requires |d1| < |d2| && IsDigit(d2[|d1|])
    requires |x1| > 0 && !IsDigit(x1[0])
    ensures d1 + x1 != d2 + x2
  {
    assert (d1 + x1)[|d1|] == x1[0];
    assert (d2 + x2)[|d1|] == d2[|d1|];
  }

  /** Equal strings with a common prefix agree after it. */
  lemma StripPrefix(p: string, a: string, b: string)
    requires p + a == p + b
    ensures a == b
  {
    assert a == (p + a)[|p|..] && b == (p + b)[|p|..];
  }

  lemma DigitCharInjective(a: nat, b: nat)
    requires a < 10 && b < 10 && DigitChar(a) == DigitChar(b)
    ensures a == b
  {
  }

  /** Different numbers render differently. */
  lemma {:induction false} NatToStringInjective(a: nat, b: nat)
    requires NatToString(a) == NatToString(b)
    ensures a == b
    decreases a
  {
    var s := NatToString(a);
    if a < 10 && b < 10 {
      DigitCharInjective(a, b);
    } else if a >= 10 && b >= 10 {
      var pa, pb := NatToString(a / 10), NatToString(b / 10);
      assert s == pa + [DigitChar(a % 10)];
      assert s == pb + [DigitChar(b % 10)];
      assert pa == s[..|s| - 1] == pb;
      assert DigitChar(a % 10) == s[|s| - 1] == DigitChar(b % 10);
      DigitCharInjective(a % 10, b % 10);
      NatToStringInjective(a / 10, b / 10);
    }
  }

  /**
   * An integer rendering followed by a suffix that starts with neither a
   * digit nor '-' is read back unambiguously.
   */
  lemma IntPrefixUnique(i1: int, x1: string, i2: int, x2: string)
    requires |x1| > 0 && !IsDigit(x1[0]) && x1[0] != '-'
    requires |x2| > 0 && !IsDigit(x2[0]) && x2[0] != '-'
    requires IntToString(i1) + x1 == IntToString(i2) + x2
    ensures i1 == i2 && x1 == x2
  {
    var s1, s2 := IntToString(i1), IntToString(i2);
    assert s1[0] == (s1 + x1)[0] == (s2 + x2)[0] == s2[0];
    if i1 < 0 {
      NegativePrefixUnique(-i1, x1, -i2, x2);
    } else {
      DigitPrefixUnique(s1, x1, s2, x2);
      NatToStringInjective(i1, i2);
    }
  }

  /** The negative case of `IntPrefixUnique`: strip the sign, then read the digits. */
  lemma NegativePrefixUnique(n1: nat, x1: string, n2: nat, x2: string)
    requires |x1| > 0 && !IsDigit(x1[0]) && |x2| > 0 && !IsDigit(x2[0])
    requires "-" + NatToString(n1) + x1 == "-" + NatToString(n2) + x2
    ensures n1 == n2 && x1 == x2
  {
    var d1, d2 := NatToString(n1), NatToString(n2);
    assert "-" + d1 + x1 == "-" + (d1 + x1);
    assert "-" + d2 + x2 == "-" + (d2 + x2);
    StripPrefix("-", d1 + x1, d2 + x2);
    DigitPrefixUnique(d1, x1, d2, x2);
    NatToStringInjective(n1, n2);
  }
}
