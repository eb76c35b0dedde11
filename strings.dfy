/**
 * The JavaScript string built-ins the program relies on: `String.prototype.trim`,
 * the decimal rendering of an integer-valued number in a template literal, and
 * the truthiness test `!x` applied to a `string | undefined`.
 */
module Strings {
  import opened Wrappers

  /** `!x` is false exactly for a defined, non-empty string. */
  predicate Truthy(x: Option<string>)
    ensures x.None? ==> !Truthy(x)
    ensures x == Some("") ==> !Truthy(x)
    ensures x.Some? && |x.value| > 0 ==> Truthy(x)
  {
    x.Some? && x.value != ""
  }

  /** The characters `trim` removes: ECMAScript WhiteSpace and LineTerminator. */
  predicate IsSpace(c: char)
  {
    var n := c as int;
    (0x09 <= n <= 0x0D) || n == 0x20 || n == 0xA0 || n == 0x1680 ||
    (0x2000 <= n <= 0x200A) || n == 0x2028 || n == 0x2029 || n == 0x202F ||
    n == 0x205F || n == 0x3000 || n == 0xFEFF
  }

  /** Neither the first nor the last character is white space. */
  predicate Trimmed(s: string)
  {
    s == [] || (!IsSpace(s[0]) && !IsSpace(s[|s| - 1]))
  }

  /** `s` with its trailing white space removed. */
  function TrimEnd(s: string): (r: string)
    ensures |r| <= |s|
    ensures r == [] || !IsSpace(r[|r| - 1])
  {
    if s != [] && IsSpace(s[|s| - 1]) then TrimEnd(s[..|s| - 1]) else s
  }

  /** `s` with its leading white space removed. */
  function TrimStart(s: string): (r: string)
    ensures |r| <= |s|
    ensures r == [] || !IsSpace(r[0])
  {
    if s != [] && IsSpace(s[0]) then TrimStart(s[1..]) else s
  }

  /** `String.prototype.trim`: white space is removed from both ends. */
  function Trim(s: string): (r: string)
    ensures Trimmed(r)
    ensures |r| <= |s|
  {
    TrimEndDropsSpaces(s);
    TrimStartDropsSpaces(TrimEnd(s));
    TrimStart(TrimEnd(s))
  }

  /**
   * `trim` removes white space at the two ends and nothing else: what it keeps
   * is a contiguous part of `s`, it leaves a trimmed string alone, and it gives
   * the empty string exactly for an all-white-space input.
   */
  lemma TrimKeepsMiddle(s: string)
    ensures var r := Trim(s); var j := |TrimEnd(s)|;
              |r| <= j && r == s[j - |r|..j] &&
              (forall i :: 0 <= i < j - |r| ==> IsSpace(s[i])) &&
              (forall i :: j <= i < |s| ==> IsSpace(s[i]))
    ensures Trimmed(s) ==> Trim(s) == s
    ensures Trim(s) == [] <==> forall i :: 0 <= i < |s| ==> IsSpace(s[i])
  {
    var e := TrimEnd(s);
    var r := TrimStart(e);
    var k := |e| - |r|;
    TrimEndDropsSpaces(s);
    TrimStartDropsSpaces(e);
    assert forall i :: 0 <= i < k ==> IsSpace(s[i]) by {
      forall i | 0 <= i < k ensures IsSpace(s[i]) { assert IsSpace(e[i]); }
    }
    if r == [] {
      NothingLeftOfTrimEnd(e);
    }
  }

  /** Trimming the front of a string with no trailing white space leaves nothing only if it was empty. */
  lemma NothingLeftOfTrimEnd(e: string)
    requires e == [] || !IsSpace(e[|e| - 1])
    requires TrimStart(e) == []
    ensures e == []
  {
    TrimStartDropsSpaces(e);
  }

  /** `TrimEnd` keeps a prefix and drops only white space. */
  lemma {:induction false} TrimEndDropsSpaces(s: string)
    ensures TrimEnd(s) == s[..|TrimEnd(s)|]
    ensures forall i :: |TrimEnd(s)| <= i < |s| ==> IsSpace(s[i])
    decreases |s|
  {
    if s != [] && IsSpace(s[|s| - 1]) {
      TrimEndDropsSpaces(s[..|s| - 1]);
      assert s[..|s| - 1][..|TrimEnd(s)|] == s[..|TrimEnd(s)|];
    }
  }

  /** `TrimStart` keeps a suffix and drops only white space. */
  lemma {:induction false} TrimStartDropsSpaces(s: string)
    ensures TrimStart(s) == s[|s| - |TrimStart(s)|..]
    ensures forall i :: 0 <= i < |s| - |TrimStart(s)| ==> IsSpace(s[i])
    decreases |s|
  {
    if s != [] && IsSpace(s[0]) {
      TrimStartDropsSpaces(s[1..]);
      assert s[1..][|s| - 1 - |TrimStart(s)|..] == s[|s| - |TrimStart(s)|..];
      forall i | 1 <= i < |s| - |TrimStart(s)| ensures IsSpace(s[i]) {
        assert s[i] == s[1..][i - 1];
      }
    }
  }

  /** A trailing white-space character never survives `trim`. */
  lemma TrimDropsTrailingSpace(s: string, c: char)
    requires IsSpace(c)
    ensures Trim(s + [c]) == Trim(s)
  {
    assert (s + [c])[..|s|] == s;
  }

  predicate IsDigit(c: char)
  {
    '0' <= c <= '9'
  }

  function Digit(d: int): (c: char)
    requires 0 <= d < 10
    ensures IsDigit(c)
  {
    ('0' as int + d) as char
  }

  function DigitValue(c: char): (d: int)
    requires IsDigit(c)
    ensures 0 <= d < 10
  {
    c as int - '0' as int
  }

  /** Decimal digits of a natural number, most significant first, without leading zeros. */
  function NatToString(n: nat): (r: string)
    ensures |r| >= 1
    ensures forall i :: 0 <= i < |r| ==> IsDigit(r[i])
    ensures r[0] == '0' <==> n == 0
    ensures n == 0 ==> r == "0"
    decreases n
  {
    if n < 10 then [Digit(n)] else NatToString(n / 10) + [Digit(n % 10)]
  }

  /** How an integer-valued number is rendered in a template literal (`-0` renders as `0`). */
  function IntToString(n: int): (r: string)
    ensures |r| >= 1 && (r[0] == '-' <==> n < 0)
    ensures n < 0 ==> |r| >= 2 && IsDigit(r[1]) && r[1] != '0'
    ensures r[0] == '0' ==> r == "0"
  {
    if n < 0 then "-" + NatToString(-n) else NatToString(n)
  }

  /** The value of a non-empty string of decimal digits. */
  function ParseNat(s: string): (n: nat)
    requires |s| >= 1 && forall i :: 0 <= i < |s| ==> IsDigit(s[i])
    decreases |s|
  {
    if |s| == 1 then DigitValue(s[0])
    else ParseNat(s[..|s| - 1]) * 10 + DigitValue(s[|s| - 1])
  }

  /** Reads an optionally negative decimal numeral; None for anything else. */
  function ParseInt(s: string): (r: Option<int>)
  {
    if |s| >= 1 && forall i :: 0 <= i < |s| ==> IsDigit(s[i]) then Some(ParseNat(s))
    else if |s| >= 2 && s[0] == '-' && forall i :: 1 <= i < |s| ==> IsDigit(s[i]) then var v: int := ParseNat(s[1..]); Some(-v)
    else None
  }

  lemma {:induction false} ParseNatToString(n: nat)
    ensures ParseNat(NatToString(n)) == n
    decreases n
  {
    if n >= 10 {
      var r := NatToString(n);
      ParseNatToString(n / 10);
      assert r[..|r| - 1] == NatToString(n / 10);
    }
  }

  /** Reading back the rendering of an integer gives that integer. */
  lemma IntToStringRoundTrip(n: int)
    ensures ParseInt(IntToString(n)) == Some(n)
  {
    if n < 0 {
      assert IntToString(n) == "-" + NatToString(-n);
      ParseNatToString(-n);
      ParseNegative(NatToString(-n));
    } else {
      assert IntToString(n) == NatToString(n);
      ParseNatToString(n);
    }
  }

  /** A minus sign followed by digits reads as the negated value of the digits. */
  lemma ParseNegative(t: string)
    requires |t| >= 1 && forall i :: 0 <= i < |t| ==> IsDigit(t[i])
    ensures ParseInt("-" + t) == Some(0 - ParseNat(t) as int)
  {
    var s := "-" + t;
    assert s[1..] == t;
    assert !IsDigit(s[0]);
    assert forall i :: 1 <= i < |s| ==> s[i] == t[i - 1];
  }

  /** Every character of a rendered integer is a digit or the minus sign. */
  lemma IntToStringIsNumeral(n: int)
    ensures var r := IntToString(n); |r| >= 1 && forall i :: 0 <= i < |r| ==> r[i] == '-' || IsDigit(r[i])
  {
  }
}
