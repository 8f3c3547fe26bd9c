/** The pieces of java.lang.String and java.lang.Integer the core relies on:
    case folding, case-insensitive comparison, Integer.parseInt and
    String.valueOf(int). Case folding covers the ASCII letters only. */
module JavaText {
  import opened Common

  predicate IsUpperAscii(c: char) { 'A' <= c <= 'Z' }

  predicate IsLowerAscii(c: char) { 'a' <= c <= 'z' }

  function LowerChar(c: char): (r: char)
    ensures IsUpperAscii(c) ==> IsLowerAscii(r)
    ensures !IsUpperAscii(c) ==> r == c
  {
    if IsUpperAscii(c) then (c as int + 32) as char else c
  }

  function UpperChar(c: char): (r: char)
    ensures IsLowerAscii(c) ==> IsUpperAscii(r)
    ensures !IsLowerAscii(c) ==> r == c
  {
    if IsLowerAscii(c) then (c as int - 32) as char else c
  }

  /** String.toLowerCase, restricted to ASCII letters. */
  function ToLower(s: string): (r: string)
    ensures |r| == |s|
    ensures forall i :: 0 <= i < |s| ==> r[i] == LowerChar(s[i])
  {
    if s == [] then [] else [LowerChar(s[0])] + ToLower(s[1..])
  }

  /** String.toUpperCase, restricted to ASCII letters. */
  function ToUpper(s: string): (r: string)
    ensures |r| == |s|
    ensures forall i :: 0 <= i < |s| ==> r[i] == UpperChar(s[i])
  {
    if s == [] then [] else [UpperChar(s[0])] + ToUpper(s[1..])
  }

  /** A string with no upper-case ASCII letter. */
  predicate IsLowerCase(s: string) {
    forall i :: 0 <= i < |s| ==> !IsUpperAscii(s[i])
  }

  /** Lower-casing yields a lower-case string and is idempotent. */
  lemma ToLowerIdempotent(s: string)
    ensures IsLowerCase(ToLower(s))
    ensures ToLower(ToLower(s)) == ToLower(s)
  {
  }

  /** A lower-case string is its own lower-case form. */
  lemma ToLowerOfLowerCase(s: string)
    requires IsLowerCase(s)
    ensures ToLower(s) == s
  {
  }

  /** Lower-casing forgets the case a string was written in. */
  lemma LowerOfUpper(s: string)
    ensures ToLower(ToUpper(s)) == ToLower(s)
  {
  }

  /** String.equalsIgnoreCase: same length, and each pair of characters agrees
      after upper-casing or after lower-casing. */
  predicate EqualsIgnoreCase(a: string, b: string) {
    |a| == |b| &&
    forall i :: 0 <= i < |a| ==>
      UpperChar(a[i]) == UpperChar(b[i]) || LowerChar(a[i]) == LowerChar(b[i])
  }

  /** Two strings are equal ignoring case exactly when their lower-case forms agree. */
  lemma EqualsIgnoreCaseIffSameLower(a: string, b: string)
    ensures EqualsIgnoreCase(a, b) <==> ToLower(a) == ToLower(b)
  {
    if EqualsIgnoreCase(a, b) {
      forall i | 0 <= i < |a| ensures ToLower(a)[i] == ToLower(b)[i] {
        SameUpperSameLower(a[i], b[i]);
      }
    }
    if ToLower(a) == ToLower(b) {
      forall i | 0 <= i < |a| ensures LowerChar(a[i]) == LowerChar(b[i]) {
        assert ToLower(a)[i] == ToLower(b)[i];
      }
    }
  }

  /** For ASCII folding, agreeing in upper case means agreeing in lower case. */
  lemma SameUpperSameLower(x: char, y: char)
    requires UpperChar(x) == UpperChar(y)
    ensures LowerChar(x) == LowerChar(y)
  {
  }

  // ---------------------------------------------------------------- decimal

  predicate IsDigit(c: char) { '0' <= c <= '9' }

  predicate AllDigits(s: string) { forall i :: 0 <= i < |s| ==> IsDigit(s[i]) }

  function DigitValue(c: char): (d: nat)
    requires IsDigit(c)
    ensures d < 10
  {
    c as int - '0' as int
  }

  function DigitChar(d: nat): (c: char)
    requires d < 10
    ensures IsDigit(c) && DigitValue(c) == d
  {
    ('0' as int + d) as char
  }

  /** The value of a string of decimal digits, most significant first. */
  function DigitsValue(s: string): (v: nat)
    requires AllDigits(s)
  {
    if s == [] then 0 else DigitsValue(s[..|s| - 1]) * 10 + DigitValue(s[|s| - 1])
  }

  /** The shortest decimal digits of a natural number. */
  function NatDigits(n: nat): (s: string)
    ensures |s| > 0 && AllDigits(s)
    ensures s[0] == '0' ==> n == 0
  {
    if n < 10 then [DigitChar(n)] else NatDigits(n / 10) + [DigitChar(n % 10)]
  }

  lemma {:induction false} NatDigitsValue(n: nat)
    ensures DigitsValue(NatDigits(n)) == n
  {
    if n >= 10 {
      NatDigitsValue(n / 10);
      var s := NatDigits(n);
      assert s[..|s| - 1] == NatDigits(n / 10);
    }
  }

  /** String.valueOf(int) / Integer.toString. */
  function IntToString(n: int): (s: string)
    ensures |s| > 0
    ensures n >= 0 ==> AllDigits(s) && (s[0] == '0' ==> n == 0)
    ensures n < 0 ==> |s| > 1 && s[0] == '-' && AllDigits(s[1..]) && s[1] != '0'
  {
    if n < 0 then "-" + NatDigits(-n) else NatDigits(n)
  }

  /** The texts Integer.parseInt accepts in radix 10, stated case by case: a
      bare digit string, or a '+' or '-' followed by at least one digit, whose
      value fits in 32 bits (the negative side reaches one further). */
  predicate JavaIntText(s: string)
  {
    || (|s| > 0 && AllDigits(s) && DigitsValue(s) <= 0x7FFF_FFFF)
    || (|s| > 1 && s[0] == '+' && AllDigits(s[1..]) && DigitsValue(s[1..]) <= 0x7FFF_FFFF)
    || (|s| > 1 && s[0] == '-' && AllDigits(s[1..]) && DigitsValue(s[1..]) <= 0x8000_0000)
  }

  /** Integer.parseInt(s) with radix 10: an optional leading '+' or '-', then at
      least one digit, and a value inside the 32-bit range; None stands for the
      NumberFormatException. */
  function ParseInt(s: string): (r: Option<Int32>)
    ensures r.Some? <==> JavaIntText(s)
    ensures r.Some? ==> |s| > 0
    ensures r.Some? && s[0] != '-' && s[0] != '+' ==> AllDigits(s) && r.value == DigitsValue(s)
    ensures r.Some? && s[0] == '-' ==> |s| > 1 && AllDigits(s[1..]) && r.value == 0 - DigitsValue(s[1..]) as int
    ensures r.Some? && s[0] == '+' ==> |s| > 1 && AllDigits(s[1..]) && r.value == DigitsValue(s[1..])
  {
    if |s| == 0 then None
    else
      var negative := s[0] == '-';
      var body := if s[0] == '-' || s[0] == '+' then s[1..] else s;
      if |body| == 0 || !AllDigits(body) then None
      else
        var v: int := if negative then 0 - DigitsValue(body) as int else DigitsValue(body);
        if -0x8000_0000 <= v < 0x8000_0000 then Some(v) else None
  }

  /** Integer.parseInt(String.valueOf(n)) == n for every Java int. */
  lemma IntRoundTrip(n: Int32)
    ensures ParseInt(IntToString(n)) == Some(n)
  {
    if n < 0 {
      NegativeRoundTrip(n);
    } else {
      NatRoundTrip(n);
    }
  }

  lemma NatRoundTrip(n: nat)
    requires n < 0x8000_0000
    ensures ParseInt(NatDigits(n)) == Some(n)
  {
    var d := NatDigits(n);
    NatDigitsValue(n);
    assert IsDigit(d[0]);
  }

  lemma NegativeRoundTrip(n: int)
    requires -0x8000_0000 <= n < 0
    ensures ParseInt("-" + NatDigits(0 - n)) == Some(n)
  {
    var m: nat := 0 - n;
    var d := NatDigits(m);
    NatDigitsValue(m);
    var s := "-" + d;
    assert s[0] == '-' && s[1..] == d;
  }
}
