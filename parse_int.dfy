/**
 * `parseInt(text, 10)` as ECMA-262 defines it (section 19.2.5, "parseInt ( string, radix )"), which the
 * authorization check applies to the decrypted timestamp, and `Decimal`, the numeral a sender
 * produces with `String(Date.now())`.
 */
module JsParseInt {
  import opened Wrappers

  /** StrWhiteSpaceChar: the WhiteSpace and LineTerminator code points that parseInt skips. */
  predicate IsJsWhitespace(c: char)
  {
    || c == '\t' || c == '\n' || c == '\U{000B}' || c == '\U{000C}' || c == '\r' || c == ' '
    || c == '\U{00A0}' || c == '\U{1680}' || ('\U{2000}' <= c <= '\U{200A}')
    || c == '\U{2028}' || c == '\U{2029}' || c == '\U{202F}' || c == '\U{205F}'
    || c == '\U{3000}' || c == '\U{FEFF}'
  }

  predicate IsDigit(c: char)
  {
    '0' <= c <= '9'
  }

  predicate AllDigits(s: string)
  {
    forall i | 0 <= i < |s| :: IsDigit(s[i])
  }

  function DigitValue(c: char): nat
    requires IsDigit(c)
  {
    c as int - '0' as int
  }

  function DigitChar(d: nat): (c: char)
    requires d < 10
    ensures IsDigit(c) && DigitValue(c) == d
  {
    ('0' as int + d) as char
  }

  /** The input with its leading white space removed. */
  function TrimStart(s: string): (r: string)
    ensures |r| <= |s| && r == s[|s| - |r|..]
    ensures forall i | 0 <= i < |s| - |r| :: IsJsWhitespace(s[i])
    ensures r == [] || !IsJsWhitespace(r[0])
  {
    if s != [] && IsJsWhitespace(s[0]) then TrimStart(s[1..]) else s
  }

  /** The longest prefix of the input made of decimal digits. */
  function DigitPrefix(s: string): (r: string)
    ensures r <= s
    ensures AllDigits(r)
    ensures |r| < |s| ==> !IsDigit(s[|r|])
  {
    if s != [] && IsDigit(s[0]) then [s[0]] + DigitPrefix(s[1..]) else []
  }

  /** The number a string of decimal digits denotes, most significant digit first. */
  function DigitsValue(ds: string): nat
    requires AllDigits(ds)
  {
    if ds == [] then 0 else DigitsValue(ds[..|ds| - 1]) * 10 + DigitValue(ds[|ds| - 1])
  }

  /**
   * `parseInt(s, 10)`; `None` stands for `NaN`. Leading white space and one sign are skipped, then
   * the longest run of decimal digits is read and whatever follows it is ignored.
   */
  function ParseInt(s: string): Option<int>
  {
    ParseSigned(TrimStart(s))
  }

  /** The steps of parseInt after the white space: an optional sign, then the digits. */
  function ParseSigned(t: string): Option<int>
  {
    var negative := t != [] && t[0] == '-';
    var unsigned := if t != [] && (t[0] == '-' || t[0] == '+') then t[1..] else t;
    var digits := DigitPrefix(unsigned);
    if digits == [] then None
    else
      var magnitude: int := DigitsValue(digits);
      Some(if negative then -magnitude else magnitude)
  }

  /** The shortest decimal numeral of a natural number. */
  function NatDecimal(n: nat): (r: string)
    ensures r != [] && AllDigits(r)
    decreases n
  {
    if n < 10 then [DigitChar(n)] else NatDecimal(n / 10) + [DigitChar(n % 10)]
  }

  /** `String(n)` for an integer `n` (exact for every safe integer, which timestamps are). */
  function Decimal(n: int): string
  {
    if n < 0 then "-" + NatDecimal(-n) else NatDecimal(n)
  }

  lemma {:induction false} NatDecimalValue(n: nat)
    ensures DigitsValue(NatDecimal(n)) == n
    decreases n
  {
    if n >= 10 {
      var a := NatDecimal(n / 10);
      var c := DigitChar(n % 10);
      assert (a + [c])[..|a|] == a;
      NatDecimalValue(n / 10);
    }
  }

  lemma {:induction false} DigitPrefixAppend(ds: string, tail: string)
    requires AllDigits(ds)
    requires tail == [] || !IsDigit(tail[0])
    ensures DigitPrefix(ds + tail) == ds
    decreases |ds|
  {
    if ds != [] {
      assert (ds + tail)[1..] == ds[1..] + tail;
      DigitPrefixAppend(ds[1..], tail);
    } else {
      assert ds + tail == tail;
    }
  }

  lemma ParseSignedNumeral(numeral: string, tail: string)
    requires numeral != [] && AllDigits(numeral)
    requires tail == [] || !IsDigit(tail[0])
    ensures ParseSigned(numeral + tail) == Some(DigitsValue(numeral))
  {
    DigitPrefixAppend(numeral, tail);
    var unsigned := numeral + tail;
    assert unsigned[0] == numeral[0];
    assert !(unsigned[0] == '-' || unsigned[0] == '+');
    assert DigitPrefix(unsigned) == numeral;
  }

  /** After a minus sign `parseInt` reads the digits that follow it and negates them. */
  lemma ParseSignedMinus(t: string)
    requires t != [] && t[0] == '-'
    ensures ParseSigned(t) ==
              var digits := DigitPrefix(t[1..]);
              if digits == [] then None else Some(-(DigitsValue(digits) as int))
  {
  }

  lemma ParseSignedNegativeNumeral(numeral: string, tail: string)
    requires numeral != [] && AllDigits(numeral)
    requires tail == [] || !IsDigit(tail[0])
    ensures ParseSigned("-" + (numeral + tail)) == Some(-(DigitsValue(numeral) as int))
  {
    var unsigned := numeral + tail;
    var negated := "-" + unsigned;
    assert negated[1..] == unsigned;
    ParseSignedMinus(negated);
    DigitPrefixAppend(numeral, tail);
  }

  lemma TrimStartStops(s: string)
    requires s != [] && (IsDigit(s[0]) || s[0] == '-')
    ensures TrimStart(s) == s
  {
  }

  /** Reading back the numeral of an integer gives that integer, even with trailing text after it. */
  lemma ParseIntDecimalPrefix(n: int, tail: string)
    requires tail == [] || !IsDigit(tail[0])
    ensures ParseInt(Decimal(n) + tail) == Some(n)
  {
    if n < 0 {
      var numeral := NatDecimal(-n);
      NatDecimalValue(-n);
      var s := "-" + (numeral + tail);
      assert Decimal(n) + tail == s;
      TrimStartStops(s);
      ParseSignedNegativeNumeral(numeral, tail);
    } else {
      var numeral := NatDecimal(n);
      NatDecimalValue(n);
      var s := numeral + tail;
      assert s[0] == numeral[0];
      TrimStartStops(s);
      ParseSignedNumeral(numeral, tail);
    }
  }

  /** `parseInt(String(n), 10) == n`: the round trip of a timestamp through its decimal text. */
  lemma ParseIntDecimal(n: int)
    ensures ParseInt(Decimal(n)) == Some(n)
  {
    ParseIntDecimalPrefix(n, []);
    assert Decimal(n) + [] == Decimal(n);
  }

  lemma {:induction false} TrimStartWhitespace(ws: string, s: string)
    requires forall i | 0 <= i < |ws| :: IsJsWhitespace(ws[i])
    ensures TrimStart(ws + s) == TrimStart(s)
    decreases |ws|
  {
    if ws != [] {
      assert (ws + s)[1..] == ws[1..] + s;
      TrimStartWhitespace(ws[1..], s);
    } else {
      assert ws + s == s;
    }
  }

  /** Leading white space never changes what parseInt reads. */
  lemma ParseIntSkipsWhitespace(ws: string, s: string)
    requires forall i | 0 <= i < |ws| :: IsJsWhitespace(ws[i])
    ensures ParseInt(ws + s) == ParseInt(s)
  {
    TrimStartWhitespace(ws, s);
  }

  /** Text without a single decimal digit parses to NaN. */
  lemma ParseIntWithoutDigits(s: string)
    requires forall i | 0 <= i < |s| :: !IsDigit(s[i])
    ensures ParseInt(s) == None
  {
    var t := TrimStart(s);
    assert forall i | 0 <= i < |t| :: t[i] == s[|s| - |t| + i];
    var unsigned := if t != [] && (t[0] == '-' || t[0] == '+') then t[1..] else t;
    assert unsigned == [] || !IsDigit(unsigned[0]);
  }
}
