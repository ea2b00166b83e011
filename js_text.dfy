/** The JavaScript string operations the application's parsers use: `split` on one character and `replace` of the first occurrence. */
module JsText {

  /** `s.split(sep)` for a one-character separator: the pieces between separators, empty ones included. */
  function SplitOn(s: string, sep: char): (parts: seq<string>)
    ensures |parts| >= 1
    ensures sep !in s ==> parts == [s]
    ensures forall i :: 0 <= i < |parts| ==> sep !in parts[i]
    decreases |s|
  {
    if sep !in s then [s]
    else
      var i := FirstIndex(s, sep);
      [s[..i]] + SplitOn(s[i + 1..], sep)
  }

  /** The position of the first `c` in `s`. */
  function FirstIndex(s: string, c: char): (i: nat)
    requires c in s
    ensures i < |s| && s[i] == c && c !in s[..i]
  {
    if s[0] == c then 0
    else
      var j := FirstIndex(s[1..], c);
      assert s[..j + 1] == [s[0]] + s[1..][..j];
      j + 1
  }

  /** Splitting at the first separator: the text before it is the first piece. */
  lemma SplitAtFirst(a: string, sep: char, b: string)
    requires sep !in a
    ensures SplitOn(a + [sep] + b, sep) == [a] + SplitOn(b, sep)
  {
    var s := a + [sep] + b;
    FirstIndexAfter(a, sep, b);
    assert s[..|a|] == a && s[|a| + 1..] == b;
  }

  lemma {:induction false} FirstIndexAfter(a: string, c: char, b: string)
    requires c !in a
    ensures c in a + [c] + b && FirstIndex(a + [c] + b, c) == |a|
  {
    var s := a + [c] + b;
    assert s[|a|] == c;
    if a != [] {
      assert s[0] == a[0];
      assert s[1..] == a[1..] + [c] + b;
      FirstIndexAfter(a[1..], c, b);
    }
  }

  /**
   * Appending `y`, a separator and `t` (neither holding a separator) to `x`
   * extends the last piece of `x` by `y` and adds `t` as a new piece.
   */
  lemma {:induction false} SplitSnoc(x: string, y: string, sep: char, t: string)
    requires sep !in y && sep !in t
    ensures SplitOn(x + y + [sep] + t, sep) == Front(SplitOn(x, sep)) + [Last(SplitOn(x, sep)) + y] + [t]
    decreases |x|
  {
    if sep !in x {
      assert sep !in x + y;
      SplitAtFirst(x + y, sep, t);
      assert SplitOn(x, sep) == [x];
    } else {
      var i := FirstIndex(x, sep);
      var a, b := x[..i], x[i + 1..];
      assert x == a + [sep] + b;
      assert x + y + [sep] + t == a + [sep] + (b + y + [sep] + t);
      SplitAtFirst(a, sep, b);
      SplitAtFirst(a, sep, b + y + [sep] + t);
      SplitSnoc(b, y, sep, t);
      ConsFrontLast(a, SplitOn(b, sep), y, t);
    }
  }

  /** Putting a piece in front commutes with replacing the last piece and appending one. */
  lemma ConsFrontLast<T>(a: seq<T>, p: seq<seq<T>>, y: seq<T>, t: seq<T>)
    requires |p| > 0
    ensures [a] + (Front(p) + [Last(p) + y] + [t]) == Front([a] + p) + [Last([a] + p) + y] + [t]
  {
    assert Front([a] + p) == [a] + Front(p);
    assert Last([a] + p) == Last(p);
  }

  function Front<T>(s: seq<T>): seq<T>
    requires |s| > 0
  {
    s[..|s| - 1]
  }

  function Last<T>(s: seq<T>): T
    requires |s| > 0
  {
    s[|s| - 1]
  }

  /** `s.replace(c, "")` for one character: the first `c` removed, the rest kept. */
  function RemoveFirst(s: string, c: char): (r: string)
    ensures c !in s ==> r == s
    ensures c in s ==> |r| == |s| - 1
    ensures c in s ==> exists i :: 0 <= i < |s| && s[i] == c && c !in s[..i] && r == s[..i] + s[i + 1..]
  {
    if c in s then
      var i := FirstIndex(s, c);
      RemovedAt(s, c, i, s[..i] + s[i + 1..]);
      s[..i] + s[i + 1..]
    else s
  }

  lemma RemovedAt(s: string, c: char, i: nat, r: string)
    requires i < |s| && s[i] == c && c !in s[..i] && r == s[..i] + s[i + 1..]
    ensures exists j :: 0 <= j < |s| && s[j] == c && c !in s[..j] && r == s[..j] + s[j + 1..]
  {
  }
}
