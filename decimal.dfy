/** Decimal text of integers, as `Long.toString` and `Integer.toString`
    produce it, and a reader for that text used to state that the text
    denotes the number it was made from. */
module Decimal {
  import opened Base

  const LONG_MIN: int := -0x8000_0000_0000_0000
  const LONG_MAX: int := 0x7FFF_FFFF_FFFF_FFFF

  predicate IsDigit(c: char) { '0' <= c <= '9' }

  /** The characters decimal text of an integer is made of. */
  predicate IsNumeral(c: char) { IsDigit(c) || c == '-' }

  function DigitChar(d: nat): char
    requires d < 10
  {
    "0123456789"[d]
  }

  function DigitText(n: nat): (s: string)
    ensures |s| > 0
    ensures forall i :: 0 <= i < |s| ==> IsDigit(s[i])
  {
    if n < 10 then [DigitChar(n)] else DigitText(n / 10) + [DigitChar(n % 10)]
  }

  /** `Long.toString(k)`: a minus sign for negative numbers, then the
      digits without leading zeros. */
  function LongText(k: int): (s: string)
    ensures |s| > 0
    ensures forall i :: 0 <= i < |s| ==> IsNumeral(s[i])
  {
    if k < 0 then "-" + DigitText(-k) else DigitText(k)
  }

  function DigitsValue(s: string): (r: Option<nat>)
  {
    if |s| == 0 || !IsDigit(s[|s| - 1]) then None
    else if |s| == 1 then Some((s[0] - '0') as nat)
    else match DigitsValue(s[..|s| - 1])
      case None => None
      case Some(n) => Some(n * 10 + (s[|s| - 1] - '0') as nat)
  }

  /** Reads an optional minus sign followed by digits. */
  function DecimalValue(s: string): (r: Option<int>)
  {
    if |s| > 0 && s[0] == '-' then
      match DigitsValue(s[1..]) case None => None case Some(n) => Some(-(n as int))
    else
      match DigitsValue(s) case None => None case Some(n) => Some(n as int)
  }

  lemma {:induction false} DigitTextRoundTrip(n: nat)
    ensures DigitsValue(DigitText(n)) == Some(n)
  {
    if n >= 10 {
      var s := DigitText(n);
      DigitTextRoundTrip(n / 10);
      assert s[..|s| - 1] == DigitText(n / 10);
    }
  }

  /** The text `Long.toString` produces reads back as the same number. */
  lemma LongTextRoundTrip(k: int)
    ensures DecimalValue(LongText(k)) == Some(k)
  {
    if k < 0 {
      assert LongText(k)[1..] == DigitText(-k);
      DigitTextRoundTrip(-k);
    } else {
      DigitTextRoundTrip(k);
    }
  }

  /** Different numbers have different text. */
  lemma LongTextInjective(j: int, k: int)
    requires LongText(j) == LongText(k)
    ensures j == k
  {
    LongTextRoundTrip(j);
    LongTextRoundTrip(k);
  }
}
