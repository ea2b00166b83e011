/**
 * Hexadecimal text as JavaScript reads it with `parseInt(s, 16)` and writes
 * it with `n.toString(16)`, and the 32-bit view `ToInt32` that the bitwise
 * operators take of a number.
 */
module HexText {
  import opened Wrappers
  import Decimal

  predicate IsHexDigit(c: char) {
    '0' <= c <= '9' || 'a' <= c <= 'f' || 'A' <= c <= 'F'
  }

  predicate IsLowerHexDigit(c: char) {
    '0' <= c <= '9' || 'a' <= c <= 'f'
  }

  function HexDigitValue(c: char): (d: nat)
    requires IsHexDigit(c)
    ensures d < 16
  {
    if '0' <= c <= '9' then c as int - '0' as int
    else if 'a' <= c <= 'f' then c as int - 'a' as int + 10
    else c as int - 'A' as int + 10
  }

  /** The lower-case digit for `d`. */
  function LowerHexDigit(d: nat): (c: char)
    requires d < 16
    ensures IsLowerHexDigit(c) && IsHexDigit(c) && HexDigitValue(c) == d
  {
    if d < 10 then (d + '0' as int) as char else (d - 10 + 'a' as int) as char
  }

  predicate AllHex(s: string) {
    forall i :: 0 <= i < |s| ==> IsHexDigit(s[i])
  }

  predicate AllLowerHex(s: string) {
    forall i :: 0 <= i < |s| ==> IsLowerHexDigit(s[i])
  }

  /** The value of a run of hexadecimal digits, most significant first. */
  function HexValue(s: string): nat
    requires AllHex(s)
  {
    if |s| == 0 then 0
    else HexValue(s[..|s| - 1]) * 16 + HexDigitValue(s[|s| - 1])
  }

  /** The longest prefix of `s` made of hexadecimal digits. */
  function HexPrefix(s: string): (p: string)
    ensures |p| <= |s| && p == s[..|p|] && AllHex(p)
    ensures |p| < |s| ==> !IsHexDigit(s[|p|])
  {
    if |s| > 0 && IsHexDigit(s[0]) then
      var rest := HexPrefix(s[1..]);
      assert s[..|rest| + 1] == [s[0]] + rest;
      [s[0]] + rest
    else []
  }

  function Pow16(k: nat): (p: nat)
    ensures p >= 1
  {
    if k == 0 then 1 else 16 * Pow16(k - 1)
  }

  /** `n.toString(16)` for a natural number: lower-case digits, no leading zeros. */
  function NatToHex(n: nat): (s: string)
    ensures |s| > 0 && AllLowerHex(s) && AllHex(s)
    ensures |s| > 1 ==> s[0] != '0'
    decreases n
  {
    if n < 16 then [LowerHexDigit(n)] else NatToHex(n / 16) + [LowerHexDigit(n % 16)]
  }

  /** `n.toString(16)` for an integer: a minus sign for negative numbers, then the digits. */
  function IntToHex(n: int): (s: string)
    ensures |s| > 0
    ensures n < 0 <==> s[0] == '-'
    ensures n >= 0 ==> AllLowerHex(s)
  {
    if n < 0 then "-" + NatToHex(-n) else NatToHex(n)
  }

  lemma {:induction false} NatToHexRoundTrip(n: nat)
    ensures HexValue(NatToHex(n)) == n
    decreases n
  {
    var s := NatToHex(n);
    if n >= 16 {
      NatToHexRoundTrip(n / 16);
      assert s[..|s| - 1] == NatToHex(n / 16);
    }
  }

  /** A number with `k` hexadecimal digits is written with exactly `k` characters. */
  lemma {:induction false} NatToHexLength(n: nat, k: nat)
    requires k >= 1 && Pow16(k - 1) <= n < Pow16(k)
    ensures |NatToHex(n)| == k
    decreases k
  {
    if k > 1 {
      assert Pow16(k - 2) <= n / 16 < Pow16(k - 1);
      NatToHexLength(n / 16, k - 1);
    } else {
      assert n < 16;
    }
  }

  /**
   * `parseInt(s, 16)`: leading white space and one sign are skipped, then a
   * `0x` or `0X` prefix, then the longest run of hexadecimal digits is read;
   * with no digits the result is NaN (`None`).
   */
  function ParseIntHex(s: string): Option<int>
  {
    var t := Decimal.TrimStart(s);
    var negative := |t| > 0 && t[0] == '-';
    var digits := HexPrefix(DropRadixPrefix(DropSign(t)));
    if digits == [] then None
    else
      var v: int := HexValue(digits);
      Some(if negative then -v else v)
  }

  function DropSign(t: string): (u: string)
    ensures |t| > 0 && t[0] != '-' && t[0] != '+' ==> u == t
  {
    if |t| > 0 && (t[0] == '-' || t[0] == '+') then t[1..] else t
  }

  function DropRadixPrefix(u: string): (w: string)
    ensures |u| < 2 || (u[1] != 'x' && u[1] != 'X') ==> w == u
  {
    if |u| >= 2 && u[0] == '0' && (u[1] == 'x' || u[1] == 'X') then u[2..] else u
  }

  /** A text made only of hexadecimal digits is read as their value. */
  lemma ParseIntHexDigits(s: string)
    requires |s| > 0 && AllHex(s)
    ensures ParseIntHex(s) == Some(HexValue(s))
  {
    assert IsHexDigit(s[0]) && !Decimal.IsSpace(s[0]);
    assert Decimal.TrimStart(s) == s;
    assert DropSign(s) == s;
    assert DropRadixPrefix(s) == s by {
      assert |s| >= 2 ==> IsHexDigit(s[1]);
    }
    HexPrefixAll(s);
  }

  /** Text without any hexadecimal digit after the optional sign and prefix is NaN. */
  lemma ParseIntHexNaN(s: string)
    requires |s| > 0 && !IsHexDigit(s[0]) && !Decimal.IsSpace(s[0]) && s[0] != '-' && s[0] != '+'
    ensures ParseIntHex(s) == None
  {
  }

  lemma {:induction false} HexPrefixAll(s: string)
    requires AllHex(s)
    ensures HexPrefix(s) == s
  {
    if |s| > 0 {
      HexPrefixAll(s[1..]);
    }
  }

  const Two32: int := 0x1_0000_0000
  const Two31: int := 0x8000_0000

  /** ECMAScript ToInt32: the number modulo 2^32, read as a signed 32-bit value; NaN becomes 0. */
  function ToInt32(x: Option<int>): (r: int)
    ensures -Two31 <= r < Two31
    ensures x.Some? ==> (r - x.value) % Two32 == 0
    ensures x.Some? && 0 <= x.value < Two31 ==> r == x.value
    ensures x.None? ==> r == 0
  {
    match x
    case None => 0
    case Some(n) =>
      var m := n % Two32;
      if m >= Two31 then m - Two32 else m
  }

  /** `x >> k` on a 32-bit value: division by 2^k rounding toward negative infinity. */
  function ShiftRight(x: int, k: nat): int {
    x / Pow2(k)
  }

  function Pow2(k: nat): (p: nat)
    ensures p >= 1
  {
    if k == 0 then 1 else 2 * Pow2(k - 1)
  }

  /** `x & 0xFF` on a 32-bit value: its lowest eight bits. */
  function LowByte(x: int): (b: int)
    ensures 0 <= b < 256
  {
    x % 256
  }

  /** The two shift amounts the colour code uses. */
  lemma ShiftAmounts()
    ensures Pow2(8) == 0x100 && Pow2(16) == 0x1_0000
  {
    assert Pow2(4) == 16;
    assert Pow2(8) == 0x100;
  }
}
