/**
 * Decimal text for integers, as JavaScript writes a number into a template
 * string (`${n}`) and as `Number(...)` reads it back.
 */
module Decimal {
  import opened Wrappers

  predicate IsDigit(c: char) {
    '0' <= c <= '9'
  }

  predicate AllDigits(s: string) {
    forall i :: 0 <= i < |s| ==> IsDigit(s[i])
  }

  function DigitChar(d: nat): (c: char)
    requires d < 10
    ensures IsDigit(c) && c as int - '0' as int == d
  {
    (d + '0' as int) as char
  }

  /** The decimal digits of `n`, most significant first, without leading zeros. */
  function NatToString(n: nat): (s: string)
    ensures |s| > 0
    decreases n
  {
    if n < 10 then [DigitChar(n)] else NatToString(n / 10) + [DigitChar(n % 10)]
  }

  /** The digits of `n` are decimal digits, and only `0` itself starts with a zero. */
  lemma {:induction false} NatToStringDigits(n: nat)
    ensures AllDigits(NatToString(n))
    ensures |NatToString(n)| > 1 ==> NatToString(n)[0] != '0'
    decreases n
  {
    if n >= 10 {
      NatToStringDigits(n / 10);
      var s, t := NatToString(n), NatToString(n / 10);
      assert s == t + [DigitChar(n % 10)];
      assert s[0] == t[0];
      if n / 10 < 10 {
        assert t == [DigitChar(n / 10)];
      }
    }
  }

  /** `${n}` for an integer `n`: a minus sign for negative numbers, then the digits. */
  function IntToString(n: int): (s: string)
    ensures |s| > 0
  {
    if n < 0 then "-" + NatToString(-n) else NatToString(n)
  }

  /** `${n}` is digits, with a leading minus sign exactly for a negative number, and ends in a digit. */
  lemma IntToStringChars(n: int)
    ensures var s := IntToString(n);
      (n < 0 <==> s[0] == '-') &&
      (forall i :: 0 <= i < |s| ==> IsDigit(s[i]) || (i == 0 && s[i] == '-')) &&
      IsDigit(s[|s| - 1])
  {
    NatToStringDigits(if n < 0 then -n else n);
  }

  /** The value of a non-empty run of decimal digits. */
  function DigitsValue(s: string): nat
    requires AllDigits(s)
  {
    if |s| == 0 then 0
    else DigitsValue(s[..|s| - 1]) * 10 + (s[|s| - 1] as int - '0' as int)
  }

  lemma {:induction false} NatToStringRoundTrip(n: nat)
    ensures AllDigits(NatToString(n)) && DigitsValue(NatToString(n)) == n
    decreases n
  {
    NatToStringDigits(n);
    var s := NatToString(n);
    if n >= 10 {
      NatToStringRoundTrip(n / 10);
      assert s[..|s| - 1] == NatToString(n / 10);
    }
  }

  /** JavaScript white space as `trim()` and `Number()` strip it (the ASCII part). */
  predicate IsSpace(c: char) {
    c == ' ' || c == '\t' || c == '\n' || c == '\r' || c == '\U{000B}' || c == '\U{000C}'
  }

  /**
   * `s.trim()`: the slice of `s` left once its leading and trailing white
   * space is cut off; it is empty exactly when `s` is all white space.
   */
  function Trim(s: string): (r: string)
    ensures |r| <= |s|
    ensures |r| > 0 ==> !IsSpace(r[0]) && !IsSpace(r[|r| - 1])
    ensures exists i, j ::
              && 0 <= i <= j <= |s| && r == s[i..j]
              && (forall k :: 0 <= k < i ==> IsSpace(s[k]))
              && (forall k :: j <= k < |s| ==> IsSpace(s[k]))
    ensures r == [] <==> forall k :: 0 <= k < |s| ==> IsSpace(s[k])
  {
    var t := TrimStart(s);
    TrimStartSuffix(s);
    TrimEndPrefix(t);
    TrimIsSlice(s, t, TrimEnd(t));
    TrimEnd(t)
  }

  /** A prefix `r` of a suffix `t` of `s`, with only white space cut off around it, is a slice of `s` framed by white space. */
  lemma TrimIsSlice(s: string, t: string, r: string)
    requires |t| <= |s| && t == s[|s| - |t|..] && forall k :: 0 <= k < |s| - |t| ==> IsSpace(s[k])
    requires |r| <= |t| && r == t[..|r|] && forall k :: |r| <= k < |t| ==> IsSpace(t[k])
    requires |r| > 0 ==> !IsSpace(r[0])
    ensures exists i, j ::
              && 0 <= i <= j <= |s| && r == s[i..j]
              && (forall k :: 0 <= k < i ==> IsSpace(s[k]))
              && (forall k :: j <= k < |s| ==> IsSpace(s[k]))
    ensures r == [] <==> forall k :: 0 <= k < |s| ==> IsSpace(s[k])
  {
    var i, j := |s| - |t|, |s| - |t| + |r|;
    SliceOfSuffix(s, t, r, i, j);
    TrailingSpace(s, t, r, i, j);
    TrimmedEmpty(s, r, i, j);
    SliceWitness(s, r, i, j);
  }

  lemma SliceWitness(s: string, r: string, i: nat, j: nat)
    requires 0 <= i <= j <= |s| && r == s[i..j]
    requires forall k :: 0 <= k < i ==> IsSpace(s[k])
    requires forall k :: j <= k < |s| ==> IsSpace(s[k])
    ensures exists i', j' ::
              && 0 <= i' <= j' <= |s| && r == s[i'..j']
              && (forall k :: 0 <= k < i' ==> IsSpace(s[k]))
              && (forall k :: j' <= k < |s| ==> IsSpace(s[k]))
  {
  }

  /** What `TrimEnd` cut off the suffix `t` is white space of `s` too. */
  lemma TrailingSpace(s: string, t: string, r: string, i: nat, j: nat)
    requires i <= |s| && t == s[i..] && j == i + |r| && |r| <= |t|
    requires forall k :: |r| <= k < |t| ==> IsSpace(t[k])
    ensures forall k :: j <= k < |s| ==> IsSpace(s[k])
  {
    forall k | j <= k < |s|
      ensures IsSpace(s[k])
    {
      assert s[k] == t[k - i];
    }
  }

  /** A slice surrounded by white space and starting with none is empty exactly when all of `s` is white space. */
  lemma TrimmedEmpty(s: string, r: string, i: nat, j: nat)
    requires 0 <= i <= j <= |s| && r == s[i..j]
    requires |r| > 0 ==> !IsSpace(r[0])
    requires forall k :: 0 <= k < i ==> IsSpace(s[k])
    requires forall k :: j <= k < |s| ==> IsSpace(s[k])
    ensures r == [] <==> forall k :: 0 <= k < |s| ==> IsSpace(s[k])
  {
    if r != [] {
      assert s[i] == r[0];
    }
  }

  lemma SliceOfSuffix(s: string, t: string, r: string, i: nat, j: nat)
    requires i <= |s| && t == s[i..] && |r| <= |t| && r == t[..|r|] && j == i + |r|
    ensures r == s[i..j]
  {
  }

  function TrimStart(s: string): (r: string)
    ensures |r| <= |s|
    ensures |r| > 0 ==> !IsSpace(r[0]) && r[|r| - 1] == s[|s| - 1]
  {
    if |s| > 0 && IsSpace(s[0]) then TrimStart(s[1..]) else s
  }

  function TrimEnd(s: string): (r: string)
    ensures |r| <= |s|
    ensures |r| > 0 ==> !IsSpace(r[|r| - 1]) && r[0] == s[0]
  {
    if |s| > 0 && IsSpace(s[|s| - 1]) then TrimEnd(s[..|s| - 1]) else s
  }

  /** `TrimStart` keeps a suffix of `s` and drops only white space before it. */
  lemma {:induction false} TrimStartSuffix(s: string)
    ensures TrimStart(s) == s[|s| - |TrimStart(s)|..]
    ensures forall k :: 0 <= k < |s| - |TrimStart(s)| ==> IsSpace(s[k])
  {
    if |s| > 0 && IsSpace(s[0]) {
      var r := TrimStart(s[1..]);
      TrimStartSuffix(s[1..]);
      assert forall k :: 1 <= k < |s| - |r| ==> s[k] == s[1..][k - 1];
    }
  }

  /** `TrimEnd` keeps a prefix of `s` and drops only white space after it. */
  lemma {:induction false} TrimEndPrefix(s: string)
    ensures TrimEnd(s) == s[..|TrimEnd(s)|]
    ensures forall k :: |TrimEnd(s)| <= k < |s| ==> IsSpace(s[k])
  {
    if |s| > 0 && IsSpace(s[|s| - 1]) {
      var r := TrimEnd(s[..|s| - 1]);
      TrimEndPrefix(s[..|s| - 1]);
      assert forall k :: |r| <= k < |s| - 1 ==> s[k] == s[..|s| - 1][k];
    }
  }

  lemma TrimDigits(s: string)
    ensures |s| > 0 && AllDigits(s) ==> Trim(s) == s
  {
    if |s| > 0 && AllDigits(s) {
      assert IsDigit(s[0]) && IsDigit(s[|s| - 1]);
    }
  }

  /** Text that neither starts nor ends with white space is left alone by `trim()`. */
  lemma TrimUnchanged(s: string)
    requires |s| > 0 ==> !IsSpace(s[0]) && !IsSpace(s[|s| - 1])
    ensures Trim(s) == s
  {
  }

  /** One space on either side of a text that has none at its ends is removed by `trim()`. */
  lemma TrimPadded(t: string)
    requires |t| > 0 && !IsSpace(t[0]) && !IsSpace(t[|t| - 1])
    ensures Trim(" " + t) == t
    ensures Trim(" " + t + " ") == t
  {
    assert (" " + t)[1..] == t;
    assert TrimStart(" " + t) == t;
    TrimUnchanged(t);
    var u := " " + t + " ";
    assert u[1..] == t + " ";
    assert TrimStart(t + " ") == t + " ";
    assert (t + " ")[..|t|] == t;
    assert TrimEnd(t + " ") == TrimEnd(t);
  }

  /**
   * `Number(s)` for the texts this application produces: white space is
   * ignored, an empty text is 0, an optional sign followed by decimal
   * digits is that integer; every other text reads as NaN (`None`).
   */
  function JsNumber(s: string): (r: Option<int>)
    ensures |s| > 0 && AllDigits(s) ==> r == Some(DigitsValue(s))
  {
    TrimDigits(s);
    var t := Trim(s);
    if |t| == 0 then Some(0)
    else if AllDigits(t) then Some(DigitsValue(t))
    else if |t| > 1 && (t[0] == '-' || t[0] == '+') && AllDigits(t[1..]) then
      var v: int := DigitsValue(t[1..]);
      Some(if t[0] == '-' then -v else v)
    else None
  }

  /** Reading back what `${n}` wrote gives `n`. */
  lemma IntToStringRoundTrip(n: int)
    ensures JsNumber(IntToString(n)) == Some(n)
  {
    if n < 0 {
      NegativeRoundTrip(n);
    } else {
      var s := NatToString(n);
      NatToStringDigits(n);
      TrimUnchanged(s);
      NatToStringRoundTrip(n);
    }
  }

  lemma NegativeRoundTrip(n: int)
    requires n < 0
    ensures JsNumber("-" + NatToString(-n)) == Some(n)
  {
    var d := NatToString(-n);
    var s := "-" + d;
    assert s[1..] == d;
    assert AllDigits(d) && DigitsValue(d) == -n by { NatToStringRoundTrip(-n); }
    NegativeText(s);
  }

  /** `Number` reads a minus sign followed by digits as the negated digits. */
  lemma NegativeText(s: string)
    requires |s| > 1 && s[0] == '-' && AllDigits(s[1..])
    ensures JsNumber(s) == Some(-(DigitsValue(s[1..]) as int))
  {
    assert s[|s| - 1] == s[1..][|s| - 2];
    TrimUnchanged(s);
    assert !IsDigit(s[0]);
  }
}
