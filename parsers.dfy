/** The three value parsers that sit on top of the resolver: Bool, Int and
    String, each a total function from the provider's text to an optional value. */
module Parsers {
  import opened Optionals

  /** Swift's `Int` on a 64-bit platform. */
  newtype Int64 = x: int | -0x8000_0000_0000_0000 <= x < 0x8000_0000_0000_0000

  // ---------------------------------------------------------------- Bool

  /** The Bool parser: only "1" and "0" are accepted. */
  function ParseBool(text: string): Option<bool>
  {
    match text
    case "1" => Some(true)
    case "0" => Some(false)
    case _ => None
  }

  /** The text that encodes a Bool. */
  function ShowBool(b: bool): string
  {
    if b then "1" else "0"
  }

  /** A text parses to `b` exactly when it is the encoding of `b`. */
  lemma ParseBoolExactly(text: string, b: bool)
    ensures ParseBool(text) == Some(b) <==> text == ShowBool(b)
  {
  }

  /** Every text other than "1" and "0" is a parse failure. */
  lemma ParseBoolFails(text: string)
    ensures ParseBool(text) == None <==> text != "1" && text != "0"
  {
  }

  // ---------------------------------------------------------------- String

  /** The String parser accepts every text unchanged. */
  function ParseString(text: string): (r: Option<string>)
    ensures r.Some? && r.value == text
  {
    Some(text)
  }

  // ---------------------------------------------------------------- Int

  predicate IsDigit(c: char) { '0' <= c <= '9' }

  predicate AllDigits(s: string) { forall i :: 0 <= i < |s| ==> IsDigit(s[i]) }

  /** `c` is a sign that `Int(String)` accepts in front of the digits. */
  predicate IsSign(c: char) { c == '+' || c == '-' }

  /** The text shape `Int(String)` accepts: an optional sign, then one or more
      ASCII digits and nothing else. */
  predicate IsIntegerText(text: string)
  {
    || (|text| >= 1 && AllDigits(text))
    || (|text| >= 2 && IsSign(text[0]) && AllDigits(text[1..]))
  }

  function DigitValue(c: char): (d: nat)
    requires IsDigit(c)
    ensures d < 10
  {
    c as int - '0' as int
  }

  /** The value of a string of decimal digits, most significant first. */
  function DigitsValue(s: string): nat
    requires AllDigits(s)
  {
    if s == [] then 0 else DigitsValue(s[..|s| - 1]) * 10 + DigitValue(s[|s| - 1])
  }

  /** The Int parser, `Int(String)`: an optional `+` or `-`, then one or more
      ASCII digits, whose signed value must fit in 64 bits. */
  function ParseInt(text: string): (r: Option<Int64>)
    ensures r.Some? ==> IsIntegerText(text)
  {
    var negative := |text| > 0 && text[0] == '-';
    var digits := if |text| > 0 && IsSign(text[0]) then text[1..] else text;
    if |digits| == 0 || !AllDigits(digits) then None
    else
      var magnitude: int := DigitsValue(digits);
      var v: int := if negative then -magnitude else magnitude;
      if -0x8000_0000_0000_0000 <= v < 0x8000_0000_0000_0000 then Some(v as Int64) else None
  }

  /** A leading `+` changes nothing. */
  lemma ParseIntPlusSign(digits: string)
    requires |digits| >= 1 && AllDigits(digits)
    ensures ParseInt("+" + digits) == ParseInt(digits)
  {
    assert ("+" + digits)[1..] == digits;
  }

  function DigitChar(d: nat): (c: char)
    requires d < 10
    ensures IsDigit(c) && DigitValue(c) == d
  {
    ('0' as int + d) as char
  }

  /** The decimal digits of a natural number, without leading zeros. */
  function ShowNat(n: nat): (s: string)
    ensures |s| >= 1 && AllDigits(s)
  {
    if n < 10 then [DigitChar(n)] else ShowNat(n / 10) + [DigitChar(n % 10)]
  }

  /** `String(n)`: the decimal text of an Int, with `-` for a negative one. */
  function ShowInt(n: Int64): string
  {
    if n < 0 then "-" + ShowNat(-(n as int)) else ShowNat(n as int)
  }

  lemma {:induction false} DigitsValueShowNat(n: nat)
    ensures DigitsValue(ShowNat(n)) == n
  {
    if n >= 10 {
      var s := ShowNat(n);
      assert s[..|s| - 1] == ShowNat(n / 10);
      DigitsValueShowNat(n / 10);
    }
  }

  /** The Int parser reads back exactly the decimal text of every Int. */
  lemma ParseIntShowInt(n: Int64)
    ensures ParseInt(ShowInt(n)) == Some(n)
  {
    var digits := ShowNat(if n < 0 then -(n as int) else n as int);
    DigitsValueShowNat(if n < 0 then -(n as int) else n as int);
    if n < 0 {
      assert ShowInt(n)[1..] == digits;
    } else {
      assert IsDigit(digits[0]);
    }
  }
}
