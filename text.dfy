/**
 * Text of integers as the runtime writes it (`Int64.ToString()`,
 * `Int32.ToString("X")`), with the parsers that invert it. The negative
 * sign is taken to be "-"; the runtime uses the current culture's.
 */
module Text {

  predicate IsDigit(ch: char) { '0' <= ch <= '9' }

  predicate AllDigits(s: string) { forall k :: 0 <= k < |s| ==> IsDigit(s[k]) }

  function DigitChar(d: nat): (ch: char)
    requires d < 10
    ensures IsDigit(ch) && ch as int - '0' as int == d
  {
    (48 + d) as char
  }

  /** Decimal digits of `n`, most significant first, without leading zeros. */
  function NatText(n: nat): (s: string)
    ensures 1 <= |s| && AllDigits(s)
    ensures |s| > 1 ==> s[0] != '0'
    decreases n
  {
    if n < 10 then [DigitChar(n)] else NatText(n / 10) + [DigitChar(n % 10)]
  }

  /** `Int64.ToString()`: a negative sign, taken to be "-", then the digits of the magnitude. */
  function IntText(n: int): (s: string)
    ensures n >= 0 <==> AllDigits(s)
    ensures n < 0 ==> s[0] == '-' && s[1..] == NatText(-n)
  {
    if n < 0 then
      var s := "-" + NatText(-n);
      assert !IsDigit(s[0]);
      s
    else NatText(n)
  }

  /** The value of a string of decimal digits. */
  function ParseDigits(s: string): nat
    requires AllDigits(s)
  {
    if s == [] then 0 else ParseDigits(s[..|s| - 1]) * 10 + (s[|s| - 1] as int - '0' as int)
  }

  /** Reading the digits back gives the number: the digit text is an injective encoding. */
  lemma {:induction false} ParseNatText(n: nat)
    ensures ParseDigits(NatText(n)) == n
    decreases n
  {
    if n >= 10 {
      var s := NatText(n);
      assert s[..|s| - 1] == NatText(n / 10);
      ParseNatText(n / 10);
    }
  }

  lemma NatTextInjective(a: nat, b: nat)
    ensures NatText(a) == NatText(b) ==> a == b
  {
    ParseNatText(a);
    ParseNatText(b);
  }

  /** One upper-case hexadecimal digit, as format "X" prints it. */
  function HexDigit(d: nat): (ch: char)
    requires d < 16
    ensures '0' <= ch <= '9' || 'A' <= ch <= 'F'
  {
    if d < 10 then (48 + d) as char else (65 + d - 10) as char
  }

  predicate IsHexDigit(ch: char) { '0' <= ch <= '9' || 'A' <= ch <= 'F' }

  function HexValue(ch: char): (d: nat)
    requires IsHexDigit(ch)
    ensures d < 16
  {
    if ch <= '9' then ch as int - 48 else ch as int - 65 + 10
  }

  /** `n.ToString("X")`: the shortest upper-case hexadecimal text of `n` ("0" for zero). */
  function HexText(n: nat): (s: string)
    ensures 1 <= |s|
    ensures forall k :: 0 <= k < |s| ==> IsHexDigit(s[k])
    decreases n
  {
    if n < 16 then [HexDigit(n)] else HexText(n / 16) + [HexDigit(n % 16)]
  }

  /** The `width` low-order hexadecimal digits of `n`, zero-padded on the left. */
  function HexPadded(n: nat, width: nat): (s: string)
    ensures |s| == width
    ensures forall k :: 0 <= k < |s| ==> IsHexDigit(s[k])
  {
    if width == 0 then [] else HexPadded(n / 16, width - 1) + [HexDigit(n % 16)]
  }

  /** The value of a string of hexadecimal digits. */
  function ParseHex(s: string): nat
    requires forall k :: 0 <= k < |s| ==> IsHexDigit(s[k])
  {
    if s == [] then 0 else ParseHex(s[..|s| - 1]) * 16 + HexValue(s[|s| - 1])
  }

  lemma HexValueOfDigit(d: nat)
    requires d < 16
    ensures HexValue(HexDigit(d)) == d
  {
  }

  function Pow16(k: nat): (p: nat)
    ensures p >= 1
  {
    if k == 0 then 1 else 16 * Pow16(k - 1)
  }

  /** Padding keeps the value of every number that fits in `width` digits. */
  lemma {:induction false} ParseHexPadded(n: nat, width: nat)
    requires n < Pow16(width)
    ensures ParseHex(HexPadded(n, width)) == n
  {
    if width > 0 {
      var s := HexPadded(n, width);
      assert s[..|s| - 1] == HexPadded(n / 16, width - 1);
      ParseHexPadded(n / 16, width - 1);
      HexValueOfDigit(n % 16);
    }
  }

  /** The unpadded text keeps the value too. */
  lemma {:induction false} ParseHexText(n: nat)
    ensures ParseHex(HexText(n)) == n
    decreases n
  {
    var s := HexText(n);
    if n < 16 {
      assert s[..|s| - 1] == [];
    } else {
      assert s[..|s| - 1] == HexText(n / 16);
      ParseHexText(n / 16);
    }
    HexValueOfDigit(n % 16);
  }

  /** A number below 16^width prints in at most `width` digits, without padding. */
  lemma {:induction false} HexTextLength(n: nat, width: nat)
    requires 1 <= width && n < Pow16(width)
    ensures |HexText(n)| <= width
    decreases width
  {
    if n >= 16 {
      HexTextLength(n / 16, width - 1);
    }
  }
}
