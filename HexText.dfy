/** Hexadecimal text as `String.format` writes it with `%X`, `%02X` and
    `%04X` on a non-negative value, and the digit-by-digit reading back that
    `Short.parseShort(s, 16)` and the reassembler rely on. */
module HexText {

  /** 16 to the power k: the number of values that fit in k hex digits. */
  function Pow16(k: nat): (p: nat)
    ensures p >= 1
  {
    if k == 0 then 1 else 16 * Pow16(k - 1)
  }

  /** A digit that `Character.digit(c, 16)` accepts among the Latin-1 characters. */
  predicate IsHexDigit(c: char)
  {
    '0' <= c <= '9' || 'a' <= c <= 'f' || 'A' <= c <= 'F'
  }

  /** A digit that `%X` produces: never a lower-case letter. */
  predicate IsUpperHexDigit(c: char)
  {
    '0' <= c <= '9' || 'A' <= c <= 'F'
  }

  predicate AllHexDigits(s: string)
  {
    forall i :: 0 <= i < |s| ==> IsHexDigit(s[i])
  }

  predicate AllUpperHexDigits(s: string)
  {
    forall i :: 0 <= i < |s| ==> IsUpperHexDigit(s[i])
  }

  function DigitValue(c: char): (d: nat)
    requires IsHexDigit(c)
    ensures d < 16
  {
    if '0' <= c <= '9' then c as int - '0' as int
    else if 'a' <= c <= 'f' then c as int - 'a' as int + 10
    else c as int - 'A' as int + 10
  }

  /** The upper-case digit for d, the inverse of DigitValue on 0..15. */
  function HexDigit(d: nat): (c: char)
    requires d < 16
    ensures IsUpperHexDigit(c) && IsHexDigit(c) && DigitValue(c) == d
  {
    if d < 10 then ('0' as int + d) as char else ('A' as int + d - 10) as char
  }

  /** `%0<width>X` of n: its upper-case hexadecimal digits, left-padded with
      zeros to at least `width` digits (`%X` is width 1). */
  function Hex(n: nat, width: nat): (s: string)
    ensures |s| >= 1 && |s| >= width
    ensures AllUpperHexDigits(s) && AllHexDigits(s)
    ensures forall c :: c in s ==> IsUpperHexDigit(c)
    ensures |s| > 1 && |s| > width ==> s[0] != '0'
    decreases n + width
  {
    if n < 16 && width <= 1 then [HexDigit(n)]
    else Hex(n / 16, if width > 0 then width - 1 else 0) + [HexDigit(n % 16)]
  }

  /** The value of a string of hex digits, most significant first. */
  function HexValue(s: string): (v: nat)
    requires AllHexDigits(s)
    ensures v < Pow16(|s|)
  {
    if s == [] then 0 else HexValue(s[..|s| - 1]) * 16 + DigitValue(s[|s| - 1])
  }

  /** Reading back what `%0<width>X` wrote gives the number again. */
  lemma {:induction false} HexValueOfHex(n: nat, width: nat)
    ensures HexValue(Hex(n, width)) == n
    decreases n + width
  {
    var s := Hex(n, width);
    if n < 16 && width <= 1 {
      assert s == [HexDigit(n)];
      assert s[..0] == [];
    } else {
      var w' := if width > 0 then width - 1 else 0;
      var front := Hex(n / 16, w');
      assert s == front + [HexDigit(n % 16)];
      assert s[..|s| - 1] == front;
      HexValueOfHex(n / 16, w');
    }
  }

  /** A value below 16^k printed with at most k digits of padding takes at
      most k digits. */
  lemma {:induction false} HexLengthAtMost(n: nat, width: nat, k: nat)
    requires 1 <= k && width <= k && n < Pow16(k)
    ensures |Hex(n, width)| <= k
    decreases k
  {
    if !(n < 16 && width <= 1) {
      var w' := if width > 0 then width - 1 else 0;
      assert k > 1;
      assert n / 16 < Pow16(k - 1);
      HexLengthAtMost(n / 16, w', k - 1);
    }
  }

  /** `%04X` of a word is exactly four digits. */
  lemma HexFourDigits(w: nat)
    requires w < 0x1_0000
    ensures |Hex(w, 4)| == 4
  {
    assert Pow16(4) == 0x1_0000 by {
      assert Pow16(2) == 256;
    }
    HexLengthAtMost(w, 4, 4);
  }

  /** The four digits of `%04X`, most significant first. */
  lemma HexWordDigits(w: nat)
    requires w < 0x1_0000
    ensures Hex(w, 4) == [HexDigit(w / 0x1000), HexDigit(w / 0x100 % 16), HexDigit(w / 0x10 % 16), HexDigit(w % 16)]
  {
    var q1 := w / 16;
    var q2 := q1 / 16;
    var q3 := q2 / 16;
    assert q2 == w / 0x100 && q3 == w / 0x1000 && q3 < 16;
    assert Hex(q3, 1) == [HexDigit(q3)];
    assert Hex(q2, 2) == Hex(q3, 1) + [HexDigit(q2 % 16)];
    assert Hex(q1, 3) == Hex(q2, 2) + [HexDigit(q1 % 16)];
    assert Hex(w, 4) == Hex(q1, 3) + [HexDigit(w % 16)];
  }

  /** `%X` of a value below 0x100 takes one or two digits. */
  lemma HexShort(n: nat)
    requires n < 0x100
    ensures 1 <= |Hex(n, 1)| <= 2 && 2 <= |Hex(n, 2)| <= 2
  {
    assert Pow16(2) == 0x100;
    HexLengthAtMost(n, 1, 2);
    HexLengthAtMost(n, 2, 2);
  }
}
