/** The few JavaScript string operations the application relies on:
    String.prototype.trim, String.prototype.includes, and the decimal
    rendering of an integral Number (as in a template literal). */
module Text {

  /** A code point that String.prototype.trim strips: a WhiteSpace or a
      LineTerminator of ECMAScript (sections 12.2 and 12.3 of ECMA-262),
      that is TAB, VT, FF, SP, NBSP, ZWNBSP, the other members of Unicode
      category Zs, LF, CR, LS and PS. */
  predicate IsTrimmable(c: char) {
    var u := c as int;
    u == 0x09 || u == 0x0A || u == 0x0B || u == 0x0C || u == 0x0D ||
    u == 0x20 || u == 0xA0 || u == 0x1680 || (0x2000 <= u <= 0x200A) ||
    u == 0x2028 || u == 0x2029 || u == 0x202F || u == 0x205F ||
    u == 0x3000 || u == 0xFEFF
  }

  /** Every character of s is stripped by trim. */
  ghost predicate Blank(s: string) {
    forall i :: 0 <= i < |s| ==> IsTrimmable(s[i])
  }

  /** Drops the leading trimmable characters. */
  function TrimStart(s: string): string {
    if s != [] && IsTrimmable(s[0]) then TrimStart(s[1..]) else s
  }

  /** Drops the trailing trimmable characters. */
  function TrimEnd(s: string): string {
    if s != [] && IsTrimmable(s[|s| - 1]) then TrimEnd(s[..|s| - 1]) else s
  }

  /** String.prototype.trim: a piece of s that neither starts nor ends with
      a trimmable character. */
  function Trim(s: string): (r: string)
    ensures |r| <= |s|
    ensures r != [] ==> !IsTrimmable(r[0]) && !IsTrimmable(r[|r| - 1])
  {
    TrimStartKeepsSuffix(s);
    TrimEndKeepsPrefix(TrimStart(s));
    TrimEnd(TrimStart(s))
  }

  /** TrimStart keeps the suffix of s that starts at its first non-trimmable
      character: everything it drops is trimmable, and what it keeps does not
      start with a trimmable character. */
  lemma {:induction false} TrimStartKeepsSuffix(s: string)
    ensures var r := TrimStart(s);
            && |r| <= |s| && r == s[|s| - |r|..]
            && (forall i :: 0 <= i < |s| - |r| ==> IsTrimmable(s[i]))
            && (r != [] ==> !IsTrimmable(r[0]))
  {
    if s != [] && IsTrimmable(s[0]) {
      var t := s[1..];
      TrimStartKeepsSuffix(t);
      var r := TrimStart(t);
      assert TrimStart(s) == r;
      assert t[|t| - |r|..] == s[|s| - |r|..];
      forall i | 1 <= i < |s| - |r| ensures IsTrimmable(s[i]) {
        assert s[i] == t[i - 1];
      }
    }
  }

  /** TrimEnd keeps the prefix of s that ends at its last non-trimmable
      character. */
  lemma {:induction false} TrimEndKeepsPrefix(s: string)
    ensures var r := TrimEnd(s);
            && |r| <= |s| && r == s[..|r|]
            && (forall i :: |r| <= i < |s| ==> IsTrimmable(s[i]))
            && (r != [] ==> !IsTrimmable(r[|r| - 1]))
  {
    if s != [] && IsTrimmable(s[|s| - 1]) {
      var t := s[..|s| - 1];
      TrimEndKeepsPrefix(t);
      var r := TrimEnd(t);
      assert TrimEnd(s) == r;
      assert t[..|r|] == s[..|r|];
      forall i | |r| <= i < |s| - 1 ensures IsTrimmable(s[i]) {
        assert s[i] == t[i];
      }
    }
  }

  /** `s.trim()` is the empty (falsy) string exactly when every character of
      s is whitespace or a line terminator. */
  lemma TrimEmptyIffBlank(s: string)
    ensures Trim(s) == "" <==> Blank(s)
  {
    TrimStartKeepsSuffix(s);
    TrimEndKeepsPrefix(TrimStart(s));
  }

  /** p occurs in s starting at index i. */
  predicate OccursAt(s: string, p: string, i: int) {
    0 <= i && i + |p| <= |s| && s[i..i + |p|] == p
  }

  /** String.prototype.includes: some index of s starts an occurrence of p.
      Case-sensitive; the empty string occurs everywhere. */
  predicate Contains(s: string, p: string)
    ensures Contains(s, p) ==> |p| <= |s|
    ensures p == [] ==> Contains(s, p)
  {
    assert p == [] ==> OccursAt(s, p, 0);
    exists i :: 0 <= i <= |s| - |p| && OccursAt(s, p, i)
  }

  /** The character c appears nowhere in s. */
  predicate Lacks(s: string, c: char) {
    forall i :: 0 <= i < |s| ==> s[i] != c
  }

  /** The characters x and y never appear side by side, in that order, in s. */
  predicate LacksPair(s: string, x: char, y: char) {
    forall i :: 0 <= i < |s| - 1 ==> !(s[i] == x && s[i + 1] == y)
  }

  lemma LacksConcat(a: string, b: string, c: char)
    requires Lacks(a, c) && Lacks(b, c)
    ensures Lacks(a + b, c)
  {
  }

  /** A pair absent from both halves is absent from the whole unless it
      straddles the seam. */
  lemma LacksPairConcat(a: string, b: string, x: char, y: char)
    requires LacksPair(a, x, y) && LacksPair(b, x, y)
    requires a != [] && b != [] ==> !(a[|a| - 1] == x && b[0] == y)
    ensures LacksPair(a + b, x, y)
  {
  }

  /** An occurrence survives appending. */
  lemma OccursBeforeSuffix(a: string, b: string, p: string, i: int)
    requires OccursAt(a, p, i)
    ensures OccursAt(a + b, p, i)
  {
    assert (a + b)[i..i + |p|] == a[i..i + |p|];
  }

  /** A string in which some character of p never appears cannot contain p. */
  lemma AbsentCharExcludes(s: string, p: string, k: nat)
    requires k < |p|
    requires Lacks(s, p[k])
    ensures !Contains(s, p)
  {
    forall i | 0 <= i <= |s| - |p| ensures !OccursAt(s, p, i) {
      assert s[i..i + |p|][k] == s[i + k];
    }
  }

  /** A string in which two consecutive characters of p never appear side by
      side cannot contain p. */
  lemma AbsentPairExcludes(s: string, p: string, k: nat)
    requires k + 1 < |p|
    requires LacksPair(s, p[k], p[k + 1])
    ensures !Contains(s, p)
  {
    forall i | 0 <= i <= |s| - |p| ensures !OccursAt(s, p, i) {
      assert s[i..i + |p|][k] == s[i + k];
      assert s[i..i + |p|][k + 1] == s[i + k + 1];
    }
  }

  predicate IsDigit(c: char) {
    '0' <= c <= '9'
  }

  function DigitChar(d: nat): (c: char)
    requires d < 10
    ensures IsDigit(c)
  {
    ('0' as int + d) as char
  }

  function DigitValue(c: char): (d: nat)
    requires IsDigit(c)
    ensures d < 10
  {
    c as int - '0' as int
  }

  /** The decimal digits of n, most significant first, without leading
      zeros: what JavaScript prints for a non-negative integral Number
      below 10^21 (from 10^21 up it prints exponent form). */
  function NatToDecimal(n: nat): (r: string)
    ensures r != [] && forall i :: 0 <= i < |r| ==> IsDigit(r[i])
    decreases n
  {
    if n < 10 then [DigitChar(n)] else NatToDecimal(n / 10) + [DigitChar(n % 10)]
  }

  /** The value of a string of decimal digits. */
  function DecimalValue(s: string): nat
    requires forall i :: 0 <= i < |s| ==> IsDigit(s[i])
  {
    if s == [] then 0 else DecimalValue(s[..|s| - 1]) * 10 + DigitValue(s[|s| - 1])
  }

  /** Reading back the decimal rendering of n gives n. */
  lemma {:induction false} DecimalRoundTrip(n: nat)
    ensures DecimalValue(NatToDecimal(n)) == n
    decreases n
  {
    var r := NatToDecimal(n);
    if n < 10 {
      assert r[..|r| - 1] == [];
    } else {
      DecimalRoundTrip(n / 10);
      assert r[..|r| - 1] == NatToDecimal(n / 10);
    }
  }

  /** The decimal rendering is one-to-one. */
  lemma DecimalInjective(m: nat, n: nat)
    requires NatToDecimal(m) == NatToDecimal(n)
    ensures m == n
  {
    DecimalRoundTrip(m);
    DecimalRoundTrip(n);
  }

  /** What a template literal prints for an integral Number of magnitude
      below 10^21: a minus sign before the digits of a negative value. */
  function IntToDecimal(i: int): (r: string)
    ensures r != []
    ensures forall k :: 0 <= k < |r| ==> IsDigit(r[k]) || (k == 0 && r[0] == '-' && i < 0)
  {
    if i < 0 then "-" + NatToDecimal(-i) else NatToDecimal(i)
  }
}
