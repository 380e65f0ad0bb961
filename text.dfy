/** Character classes, decimal notation and ASCII case mapping shared by the
    Java and the JavaScript code. Java's `Integer.toString`, string
    concatenation of an `int`, and JavaScript's `String(n)` for an integral
    number all produce `IntToString`. */
module Text {
  import opened Common

  predicate IsDigit(c: char) { '0' <= c <= '9' }

  predicate AllDigits(s: string) { forall i :: 0 <= i < |s| ==> IsDigit(s[i]) }

  function DigitChar(d: nat): (c: char)
    requires d < 10
    ensures IsDigit(c)
  {
    (48 + d) as char
  }

  function DigitValue(c: char): (d: nat)
    requires IsDigit(c)
    ensures d < 10 && DigitChar(d) == c
  {
    c as int - 48
  }

  /** Decimal notation of `n`, without leading zeros. */
  function NatToString(n: nat): (s: string)
    ensures s != [] && AllDigits(s)
    ensures |s| > 1 ==> s[0] != '0'
    decreases n
  {
    if n < 10 then [DigitChar(n)] else NatToString(n / 10) + [DigitChar(n % 10)]
  }

  /** The number a string of decimal digits denotes; leading zeros are allowed. */
  function DigitsValue(s: string): nat
    requires AllDigits(s)
    decreases |s|
  {
    if s == [] then 0 else 10 * DigitsValue(s[..|s| - 1]) + DigitValue(s[|s| - 1])
  }

  /** Decimal notation of `i`, with a `-` sign when negative. */
  function IntToString(i: int): (s: string)
    ensures s != []
    ensures i < 0 ==> s[0] == '-' && AllDigits(s[1..])
    ensures i >= 0 ==> AllDigits(s)
    ensures forall k :: 1 <= k < |s| ==> IsDigit(s[k])
  {
    if i < 0 then "-" + NatToString(-i) else NatToString(i)
  }

  /** Reads back what `IntToString` writes: an optional `-` and at least one digit. */
  function ParseDecimal(s: string): Option<int>
  {
    if s != [] && s[0] == '-' then
      if |s| > 1 && AllDigits(s[1..]) then Some(-(DigitsValue(s[1..]) as int)) else None
    else if s != [] && AllDigits(s) then Some(DigitsValue(s))
    else None
  }

  lemma {:induction false} NatToStringRoundTrip(n: nat)
    ensures DigitsValue(NatToString(n)) == n
    decreases n
  {
    if n >= 10 {
      NatToStringRoundTrip(n / 10);
      var s := NatToString(n);
      assert s[..|s| - 1] == NatToString(n / 10);
    }
  }

  lemma IntToStringRoundTrip(i: int)
    ensures ParseDecimal(IntToString(i)) == Some(i)
  {
    if i < 0 {
      NatToStringRoundTrip(-i);
      assert IntToString(i)[1..] == NatToString(-i);
    } else {
      NatToStringRoundTrip(i);
    }
  }

  /** The number of digits a string starts with. */
  function LeadingDigits(t: string): (n: nat)
    ensures n <= |t| && AllDigits(t[..n])
    ensures n < |t| ==> !IsDigit(t[n])
  {
    if t != [] && IsDigit(t[0]) then 1 + LeadingDigits(t[1..]) else 0
  }

  /** The length of the signed decimal number a string starts with. */
  function NumberLength(t: string): nat
  {
    if t != [] && t[0] == '-' then 1 + LeadingDigits(t[1..]) else LeadingDigits(t)
  }

  lemma {:induction false} LeadingDigitsOfDigits(s: string, x: string)
    requires AllDigits(s)
    requires x == [] || !IsDigit(x[0])
    ensures LeadingDigits(s + x) == |s|
  {
    if s != [] {
      assert (s + x)[1..] == s[1..] + x;
      LeadingDigitsOfDigits(s[1..], x);
    }
  }

  lemma NumberLengthOfIntToString(a: int, x: string)
    requires x == [] || !IsDigit(x[0])
    ensures NumberLength(IntToString(a) + x) == |IntToString(a)|
  {
    var sa := IntToString(a);
    if a < 0 {
      assert (sa + x)[1..] == sa[1..] + x;
      LeadingDigitsOfDigits(sa[1..], x);
    } else {
      LeadingDigitsOfDigits(sa, x);
    }
  }

  /** No decimal notation is a proper prefix of another one followed by a
      non-digit, so a number can be read back from any text it starts. */
  lemma IntToStringPrefixFree(a: int, b: int, x: string, y: string)
    requires IntToString(a) + x == IntToString(b) + y
    requires x == [] || !IsDigit(x[0])
    requires y == [] || !IsDigit(y[0])
    ensures a == b && x == y
  {
    var sa, sb := IntToString(a), IntToString(b);
    NumberLengthOfIntToString(a, x);
    NumberLengthOfIntToString(b, y);
    assert sa == (sa + x)[..|sa|] == (sb + y)[..|sb|] == sb;
    IntToStringRoundTrip(a);
    IntToStringRoundTrip(b);
  }

  /** Leading zeros do not change the value of a digit string. */
  lemma {:induction false} DigitsValueLeadingZeros(zeros: string, s: string)
    requires forall i :: 0 <= i < |zeros| ==> zeros[i] == '0'
    requires AllDigits(s)
    ensures AllDigits(zeros + s) && DigitsValue(zeros + s) == DigitsValue(s)
    decreases |s| + |zeros|
  {
    var t := zeros + s;
    assert AllDigits(t) by {
      forall i | 0 <= i < |t| ensures IsDigit(t[i]) {
        if i < |zeros| { assert t[i] == zeros[i]; } else { assert t[i] == s[i - |zeros|]; }
      }
    }
    if s == [] {
      if zeros != [] {
        assert t == zeros;
        DigitsValueLeadingZeros(zeros[..|zeros| - 1], []);
        assert zeros[..|zeros| - 1] + [] == t[..|t| - 1];
      }
    } else {
      DigitsValueLeadingZeros(zeros, s[..|s| - 1]);
      assert t[..|t| - 1] == zeros + s[..|s| - 1];
    }
  }

  /** ASCII case mapping of one character: `A`..`Z` to `a`..`z`. */
  function LowerChar(c: char): char
  {
    if 'A' <= c <= 'Z' then (c as int + 32) as char else c
  }

  /** `String.toLowerCase`, restricted to the ASCII letters. */
  function AsciiLower(s: string): (r: string)
    ensures |r| == |s|
    ensures forall i :: 0 <= i < |s| ==> r[i] == LowerChar(s[i])
  {
    if s == [] then [] else [LowerChar(s[0])] + AsciiLower(s[1..])
  }

  lemma AsciiLowerIdempotent(s: string)
    ensures AsciiLower(AsciiLower(s)) == AsciiLower(s)
  {
    var once := AsciiLower(s);
    assert forall i :: 0 <= i < |s| ==> AsciiLower(once)[i] == once[i];
  }
}
