/**
 * `ExcelHelper.CellRef`: the A1-style address of a zero-based (row,
 * column) pair — the column as letters, then the row number.
 */
module CellAddress {
  import opened BoundedInts
  import Text

  /** `Math.DivRem`: the quotient truncated toward zero, the remainder with the dividend's sign. */
  function DivRem(a: int, b: int): (qr: (int, int))
    requires b > 0
    ensures a == qr.0 * b + qr.1
    ensures a >= 0 ==> 0 <= qr.1 < b && qr.0 >= 0
    ensures a < 0 ==> -b < qr.1 <= 0 && qr.0 <= 0
  {
    if a >= 0 then (a / b, a % b) else (-((-a) / b), -((-a) % b))
  }

  /** The character at 'A' plus `d`. */
  function Letter(d: int): char
    requires -26 < d < 26
  {
    (65 + d) as char
  }

  predicate IsLetter(ch: char) { 'A' <= ch <= 'Z' }

  predicate AllLetters(s: string) { forall k :: 0 <= k < |s| ==> IsLetter(s[k]) }

  /** The bijective base-26 numeral of `n`: A = 1, ..., Z = 26, AA = 27. */
  function Letters(n: nat): (s: string)
    requires n >= 1
    ensures 1 <= |s| && AllLetters(s)
    decreases n
  {
    var ch := Letter((n - 1) % 26);
    if n <= 26 then [ch] else Letters((n - 1) / 26) + [ch]
  }

  /** The letters still to be written for a remaining value `c`: none once it reaches zero. */
  function Pending(c: int): string
  {
    if c <= 0 then [] else Letters(c)
  }

  /**
   * What `CellRef` writes before the row number: for a non-negative column
   * the numeral of `column + 1`; for a negative one a single character
   * below 'A' or at it.
   */
  function ColumnText(column: int32): string
  {
    if column >= 0 then Letters(column + 1) else [Letter(DivRem(column, 26).1)]
  }

  /** Reading letters back: each letter is its digit A = 1 ... Z = 26, most significant first. */
  function LetterValue(s: string): nat
    requires AllLetters(s)
  {
    if s == [] then 0 else LetterValue(s[..|s| - 1]) * 26 + (s[|s| - 1] as int - 64)
  }

  /** The letters decode to the number they encode. */
  lemma {:induction false} LetterValueOfLetters(n: nat)
    requires n >= 1
    ensures LetterValue(Letters(n)) == n
    decreases n
  {
    if n > 26 {
      var s := Letters(n);
      assert s[..|s| - 1] == Letters((n - 1) / 26);
      LetterValueOfLetters((n - 1) / 26);
    }
  }

  /** Distinct columns get distinct letters. */
  lemma LettersInjective(a: nat, b: nat)
    requires a >= 1 && b >= 1
    ensures Letters(a) == Letters(b) ==> a == b
  {
    LetterValueOfLetters(a);
    LetterValueOfLetters(b);
  }

  /** Unchecked `x + 1` followed by unchecked `- 1` gives `x` back. */
  lemma WrapIncrementDecrement(x: int32)
    ensures Wrap32(Wrap32(x + 1) - 1) == x
  {
    var y := Wrap32(x + 1);
    var z := Wrap32(y - 1);
    assert (z - x) % 0x1_0000_0000 == 0 by {
      assert (y - (x + 1)) % 0x1_0000_0000 == 0;
      assert (z - (y - 1)) % 0x1_0000_0000 == 0;
    }
  }

  /**
   * `CellRef(row, column)`: a do/while loop peels base-26 digits off
   * `column + 1` (unchecked 32-bit arithmetic), inserting each letter at the
   * front; then the decimal text of `row + 1` follows. For a non-negative
   * column the letters are the bijective base-26 numeral of `column + 1`;
   * for a negative one the loop runs once and writes the character at
   * 'A' plus the truncated remainder of `column` by 26.
   */
  method CellRef(row: int32, column: int32) returns (r: string)
    ensures r == ColumnText(column) + Text.IntText(Wrap32(row + 1))
    ensures 0 <= column && 0 <= row < MaxInt32 ==> r == Letters(column + 1) + Text.NatText(row + 1)
  {
    var letters := ColumnLetters(column);
    r := letters + Text.IntText(Wrap32(row + 1));
  }

  /** The do/while loop of `CellRef`: each pass takes one base-26 digit off `c` and inserts its letter in front. */
  method ColumnLetters(column: int32) returns (letters: string)
    ensures letters == ColumnText(column)
  {
    var c: int := Wrap32(column + 1);
    var qr := DivRem(Wrap32(c - 1), 26);
    FirstDigit(column);
    c := qr.0;
    letters := [Letter(qr.1)];
    while c > 0
      invariant c <= MaxInt32
      invariant Pending(c) + letters == ColumnText(column)
      decreases c
    {
      c, letters := PrependDigit(c, letters);
    }
  }

  /** One pass once `c` is positive, where `c - 1` cannot wrap: the next letter goes in front. */
  method PrependDigit(c: int, letters: string) returns (c': int, letters': string)
    requires 0 < c <= MaxInt32
    ensures 0 <= c' < c && Pending(c') + letters' == Pending(c) + letters
  {
    NextDigit(c);
    var qr := DivRem(c - 1, 26);
    c' := qr.0;
    letters' := [Letter(qr.1)] + letters;
  }

  /** The first pass of the loop: the last letter of a column's numeral, or the one character of a negative column. */
  lemma FirstDigit(column: int32)
    ensures var qr := DivRem(Wrap32(Wrap32(column + 1) - 1), 26);
      qr.0 <= MaxInt32 && ColumnText(column) == Pending(qr.0) + [Letter(qr.1)]
  {
    WrapIncrementDecrement(column);
    if column >= 0 {
      NextDigit(column + 1);
    }
  }

  /** A later pass: a positive remaining value gives one more letter in front. */
  lemma NextDigit(c: int)
    requires 0 < c <= MaxInt32 + 1
    ensures Wrap32(c - 1) == c - 1
    ensures var qr := DivRem(c - 1, 26);
      0 <= qr.0 < c && Pending(c) == Pending(qr.0) + [Letter(qr.1)]
  {
    assert Wrap32(c - 1) == c - 1;
  }

  /** Letters first and digits after split in one place only, so distinct cells get distinct addresses. */
  lemma AddressesDistinct(row1: int32, column1: int32, row2: int32, column2: int32)
    requires 0 <= row1 < MaxInt32 && 0 <= column1 && 0 <= row2 < MaxInt32 && 0 <= column2
    requires Letters(column1 + 1) + Text.NatText(row1 + 1) == Letters(column2 + 1) + Text.NatText(row2 + 1)
    ensures row1 == row2 && column1 == column2
  {
    var l1, l2 := Letters(column1 + 1), Letters(column2 + 1);
    var d1, d2 := Text.NatText(row1 + 1), Text.NatText(row2 + 1);
    LettersEndWhereDigitsStart(l1, d1, l2, d2);
    LettersEndWhereDigitsStart(l2, d2, l1, d1);
    var s := l1 + d1;
    assert l1 == s[..|l1|] == l2;
    assert d1 == s[|l1|..] == d2;
    LettersInjective(column1 + 1, column2 + 1);
    Text.NatTextInjective(row1 + 1, row2 + 1);
  }

  /** In letters followed by digits, the letters end where the first digit stands. */
  lemma LettersEndWhereDigitsStart(l1: string, d1: string, l2: string, d2: string)
    requires AllLetters(l1) && AllLetters(l2) && |d2| >= 1 && Text.IsDigit(d2[0])
    requires l1 + d1 == l2 + d2
    ensures |l1| <= |l2|
  {
    if |l1| > |l2| {
      CharAtJoin(l1, d1, l2, d2, |l2|);
      assert false;
    }
  }

  /** Position `k`, inside the first part on the left and at the start of the second part on the right. */
  lemma CharAtJoin(l1: string, d1: string, l2: string, d2: string, k: nat)
    requires k < |l1| && k == |l2| && |d2| >= 1 && l1 + d1 == l2 + d2
    ensures l1[k] == d2[0]
  {
    assert (l1 + d1)[k] == l1[k];
    assert (l2 + d2)[k] == d2[0];
  }

  /** The addresses of the documentation: A1, Z1, AA1, A100, ZZ1 and AAA1. */
  lemma AddressExamples()
    ensures Letters(1) + Text.NatText(1) == "A1"
    ensures Letters(26) + Text.NatText(1) == "Z1"
    ensures Letters(27) + Text.NatText(1) == "AA1"
    ensures Letters(1) + Text.NatText(100) == "A100"
    ensures Letters(702) + Text.NatText(1) == "ZZ1"
    ensures Letters(703) + Text.NatText(1) == "AAA1"
  {
    assert Letters(702) == Letters(26) + ['Z'];
    assert Letters(703) == Letters(27) + ['A'];
    assert Text.NatText(100) == Text.NatText(10) + ['0'];
  }
}
