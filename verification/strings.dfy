/** The two pieces of Python string formatting the core relies on:
    `sep.join(parts)` and the decimal rendering of an integer in an f-string. */
module Strings {

  /** `sep.join(parts)`. */
  function Join(parts: seq<string>, sep: string): string
  {
    if |parts| == 0 then ""
    else if |parts| == 1 then parts[0]
    else parts[0] + sep + Join(parts[1..], sep)
  }

  /** The index at which part `k` starts inside `Join(parts, sep)`: every
      earlier part followed by one separator. */
  function PartStart(parts: seq<string>, sep: string, k: nat): nat
    requires k <= |parts|
  {
    if k == 0 then 0 else |parts[0]| + |sep| + PartStart(parts[1..], sep, k - 1)
  }

  /** The joined string is the parts in order with exactly one separator
      between neighbours and nothing before the first or after the last part. */
  lemma {:induction false} JoinLayout(parts: seq<string>, sep: string, k: nat)
    requires k < |parts|
    ensures var j, s := Join(parts, sep), PartStart(parts, sep, k);
      && s + |parts[k]| <= |j|
      && j[s..s + |parts[k]|] == parts[k]
      && (k + 1 < |parts| ==>
            && PartStart(parts, sep, k + 1) == s + |parts[k]| + |sep| <= |j|
            && j[s + |parts[k]|..s + |parts[k]| + |sep|] == sep)
      && (k + 1 == |parts| ==> s + |parts[k]| == |j|)
  {
    if k == 0 {
      if |parts| > 1 {
        assert Join(parts, sep) == parts[0] + sep + Join(parts[1..], sep);
        assert PartStart(parts, sep, 1) == |parts[0]| + |sep|;
      }
    } else {
      var rest := parts[1..];
      JoinLayout(rest, sep, k - 1);
      var j := Join(parts, sep);
      assert j == parts[0] + sep + Join(rest, sep);
      var shift := |parts[0]| + |sep|;
      assert rest[k - 1] == parts[k];
      if k + 1 < |parts| {
        assert PartStart(parts, sep, k + 1) == shift + PartStart(rest, sep, k);
      }
    }
  }

  /** Joining nothing gives the empty string; joining one part gives it back. */
  lemma JoinSmall(sep: string, x: string)
    ensures Join([], sep) == ""
    ensures Join([x], sep) == x
  {
  }

  predicate IsDigit(c: char)
  {
    '0' <= c <= '9'
  }

  function DigitChar(d: nat): (c: char)
    requires d < 10
    ensures IsDigit(c)
  {
    ('0' as int + d) as char
  }

  function DigitValue(c: char): (d: nat)
    requires IsDigit(c)
    ensures d < 10 && DigitChar(d) == c
  {
    c as int - '0' as int
  }

  /** `str(n)` for a natural number: its decimal digits without leading zeros. */
  function NatToString(n: nat): (s: string)
    ensures |s| >= 1
    ensures forall i :: 0 <= i < |s| ==> IsDigit(s[i])
    ensures s[0] == '0' ==> n == 0
    ensures |s| > 1 ==> s[0] != '0'
  {
    if n < 10 then [DigitChar(n)] else NatToString(n / 10) + [DigitChar(n % 10)]
  }

  /** The value of a string of decimal digits (the inverse of NatToString). */
  function ParseNat(s: string): nat
    requires forall i :: 0 <= i < |s| ==> IsDigit(s[i])
  {
    if s == [] then 0 else 10 * ParseNat(s[..|s| - 1]) + DigitValue(s[|s| - 1])
  }

  /** Reading back the decimal rendering gives the number. */
  lemma {:induction false} ParseNatToString(n: nat)
    ensures ParseNat(NatToString(n)) == n
  {
    var s := NatToString(n);
    if n >= 10 {
      ParseNatToString(n / 10);
      assert s[..|s| - 1] == NatToString(n / 10);
    }
  }

  /** Distinct numbers render as distinct strings. */
  lemma NatToStringInjective(m: nat, n: nat)
    requires NatToString(m) == NatToString(n)
    ensures m == n
  {
    ParseNatToString(m);
    ParseNatToString(n);
  }

  /** `str(n)` for any integer: a '-' exactly when it is negative, then
      decimal digits that read back as its magnitude. */
  function IntToString(n: int): (s: string)
    ensures |s| >= 1 && (s[0] == '-' <==> n < 0)
    ensures var d := if n < 0 then s[1..] else s;
      (forall k :: 0 <= k < |d| ==> IsDigit(d[k])) && ParseNat(d) == (if n < 0 then -n else n)
    ensures var d := if n < 0 then s[1..] else s;
      |d| >= 1 && (|d| > 1 ==> d[0] != '0')
  {
    ParseNatToString(if n < 0 then -n else n);
    if n < 0 then "-" + NatToString(-n) else NatToString(n)
  }
}
