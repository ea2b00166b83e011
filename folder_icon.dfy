/**
 * The folder icon of the launcher: a 3x3 grid showing the first nine apps,
 * empty placeholders for the rest of the grid, an overflow badge, and the
 * colour of each app slot.
 */
module FolderIcon {
  import opened Wrappers
  import opened HexText
  import opened JsText

  datatype AppItem = AppItem(id: string, name: string, icon: Option<string>, color: Option<string>)

  const GridSize: nat := 9

  function Min(a: int, b: int): int {
    if a <= b then a else b
  }

  /** `apps.slice(0, 9)`. */
  function DisplayApps(apps: seq<AppItem>): (shown: seq<AppItem>)
    ensures |shown| == Min(|apps|, GridSize)
    ensures shown == apps[..|shown|]
    ensures |apps| <= GridSize ==> shown == apps
  {
    if |apps| <= GridSize then apps else apps[..GridSize]
  }

  /** The empty slots drawn after the shown apps. */
  function PlaceholderCount(apps: seq<AppItem>): nat {
    var shown := DisplayApps(apps);
    if |shown| < GridSize then GridSize - |shown| else 0
  }

  /** The overflow badge: present only with more than nine apps, showing how many are hidden. */
  function Badge(apps: seq<AppItem>): (badge: Option<nat>)
    ensures badge.Some? <==> |apps| > GridSize
  {
    if |apps| > GridSize then Some(|apps| - GridSize) else None
  }

  /** The grid always has nine cells, and every app is either shown or counted by the badge. */
  lemma GridAccounting(apps: seq<AppItem>)
    ensures |DisplayApps(apps)| + PlaceholderCount(apps) == GridSize
    ensures |DisplayApps(apps)| + Badge(apps).GetOr(0) == |apps|
    ensures Badge(apps).Some? ==> PlaceholderCount(apps) == 0
  {
  }

  const Palette: seq<string> := [
    "#FF3B30", "#FF9500", "#FFCC00", "#34C759", "#00C7FF", "#30B0C4", "#007AFF", "#5856D6", "#AF52DE"
  ]

  /** The palette colour of the slot at `index`, cycling through the nine colours. */
  function ColorForApp(index: nat): (c: string)
    ensures c in Palette
    ensures c == Palette[index % |Palette|]
  {
    Palette[index % |Palette|]
  }

  /** Slots nine apart get the same colour. */
  lemma PaletteRepeats(index: nat, k: nat)
    ensures ColorForApp(index + k * 9) == ColorForApp(index)
  {
    ModNineRepeats(index, k);
  }

  lemma {:induction false} ModNineRepeats(index: nat, k: nat)
    ensures (index + k * 9) % 9 == index % 9
  {
    if k > 0 {
      ModNineRepeats(index, k - 1);
      assert index + k * 9 == (index + (k - 1) * 9) + 9;
    }
  }

  const FirmenvorstellungBackground: string := "rgba(255, 255, 255, 0.9)"
  const EasyBackground: string := "#003A66"

  /** The slot background: two apps have fixed colours; otherwise the app's own non-empty colour, else the palette. */
  function BackgroundColor(app: AppItem, index: nat): (c: string)
    ensures app.id == "firmenvorstellung" ==> c == FirmenvorstellungBackground
    ensures app.id == "easy" ==> c == EasyBackground
    ensures app.id != "firmenvorstellung" && app.id != "easy" && app.color.Some? && app.color.value != "" ==>
      c == app.color.value
    ensures app.id != "firmenvorstellung" && app.id != "easy" && (app.color.None? || app.color.value == "") ==>
      c == ColorForApp(index) && c in Palette
  {
    var base := if app.color.Some? && app.color.value != "" then app.color.value else ColorForApp(index);
    if app.id == "firmenvorstellung" then FirmenvorstellungBackground
    else if app.id == "easy" then EasyBackground
    else base
  }

  /**
   * `String.prototype.toUpperCase` on one character, for the Latin-1 range:
   * `a`-`z` and `à`-`þ` (except `÷`) move to their capitals 32 code points
   * lower, `ß` becomes `SS`, `ÿ` becomes `Ÿ` and `µ` the Greek capital mu;
   * everything else is left as it is.
   */
  function UpperCase(c: char): (s: string)
    ensures 'a' <= c <= 'z' ==> s == [(c as int - 32) as char]
    ensures '\U{00E0}' <= c <= '\U{00FE}' && c != '\U{00F7}' ==> s == [(c as int - 32) as char]
    ensures c == 'ä' ==> s == "Ä"
    ensures c == 'ö' ==> s == "Ö"
    ensures c == 'ü' ==> s == "Ü"
    ensures c == 'ß' ==> s == "SS"
    ensures c == 'ÿ' ==> s == "\U{0178}"
    ensures c == 'µ' ==> s == "\U{039C}"
    ensures !IsLatinLower(c) ==> s == [c]
    ensures 1 <= |s| <= 2
  {
    if 'a' <= c <= 'z' || ('\U{00E0}' <= c <= '\U{00FE}' && c != '\U{00F7}') then [(c as int - 32) as char]
    else if c == 'ß' then "SS"
    else if c == 'ÿ' then "\U{0178}"
    else if c == 'µ' then "\U{039C}"
    else [c]
  }

  /** The Latin-1 characters that `toUpperCase` changes. */
  predicate IsLatinLower(c: char) {
    'a' <= c <= 'z' || ('\U{00DF}' <= c <= '\U{00FF}' && c != '\U{00F7}') || c == 'µ'
  }

  /** Upper-casing is idempotent: every character `UpperCase` writes is left alone by it. */
  lemma UpperCaseIdempotent(c: char)
    ensures forall k :: 0 <= k < |UpperCase(c)| ==> UpperCase(UpperCase(c)[k]) == [UpperCase(c)[k]]
  {
  }

  /** `name.charAt(0).toUpperCase()`: empty for an empty name. */
  function Initial(name: string): (s: string)
    ensures name == [] <==> s == []
    ensures |s| <= 2
  {
    if name == [] then [] else UpperCase(name[0])
  }

  /** The amount `Math.round(2.55 * 20)` that the slot gradient lightens by. */
  const GradientLift: nat := 51

  datatype SlotView =
    | IconSlot(background: string, icon: string)
    | LetterSlot(background: string, gradientEnd: string, letter: string)

  /**
   * A slot shows the icon when it has a non-empty one, otherwise the initial
   * on a gradient from the background to the background lightened by the
   * lightener as written. The gradient end is a `#rrggbb` text whenever the
   * background reads as a non-negative 32-bit value, and for a background of
   * at most six hex digits it is the masked lightener's result.
   */
  function Slot(app: AppItem, index: nat): (v: SlotView)
    ensures v.background == BackgroundColor(app, index)
    ensures v.IconSlot? <==> app.icon.Some? && app.icon.value != ""
    ensures v.LetterSlot? ==> v.letter == Initial(app.name) && v.gradientEnd == LightenColor(v.background, GradientLift)
    ensures v.LetterSlot? && ColorBits(v.background) >= 0 ==> IsColorText(v.gradientEnd)
    ensures v.LetterSlot? && 0 <= ColorBits(v.background) < 0x100_0000 ==>
      v.gradientEnd == LightenColorMasked(v.background, GradientLift)
  {
    var bg := BackgroundColor(app, index);
    if app.icon.Some? && app.icon.value != "" then IconSlot(bg, app.icon.value)
    else
      GradientEnd(bg);
      LetterSlot(bg, LightenColor(bg, GradientLift), Initial(app.name))
  }

  /** The gradient end's shape, by the range of the background's bits. */
  lemma GradientEnd(bg: string)
    ensures ColorBits(bg) >= 0 ==> IsColorText(LightenColor(bg, GradientLift))
    ensures 0 <= ColorBits(bg) < 0x100_0000 ==> LightenColor(bg, GradientLift) == LightenColorMasked(bg, GradientLift)
  {
    if ColorBits(bg) >= 0 {
      LightenNonNegativeFormat(bg, GradientLift);
      if ColorBits(bg) < 0x100_0000 {
        LightenAgreesOnSixDigitColors(bg, GradientLift);
      }
    }
  }

  /** `"#"` followed by exactly six lower-case hexadecimal digits. */
  predicate IsColorText(s: string) {
    |s| == 7 && s[0] == '#' && AllLowerHex(s[1..])
  }

  /** The 32-bit value the shifts and masks of the lightener work on. */
  function ColorBits(color: string): int {
    ToInt32(ParseIntHex(RemoveFirst(color, '#')))
  }

  /** `.toString(16).slice(1)`: the text without its first character. */
  function DropFirst(s: string): string {
    if s == [] then [] else s[1..]
  }

  /** The lightener as written: red is the bits above position 16, without a mask. */
  function LightenColor(color: string, amt: nat): string {
    LightenBits(ColorBits(color), amt)
  }

  function LightenBits(x: int, amt: nat): string {
    var r := Min(255, ShiftRight(x, 16) + amt);
    var g := Min(255, LowByte(ShiftRight(x, 8)) + amt);
    var b := Min(255, LowByte(x) + amt);
    "#" + DropFirst(IntToHex(0x100_0000 + r * 0x1_0000 + g * 0x100 + b))
  }

  /** The channels of the colour as the masked lightener reads them. */
  function Red(color: string): nat { LowByte(ShiftRight(ColorBits(color), 16)) }
  function Green(color: string): nat { LowByte(ShiftRight(ColorBits(color), 8)) }
  function Blue(color: string): nat { LowByte(ColorBits(color)) }

  /** The lightener with red masked to eight bits like green and blue. */
  function LightenColorMasked(color: string, amt: nat): string {
    LightenChannels(Red(color), Green(color), Blue(color), amt)
  }

  function LightenChannels(r0: nat, g0: nat, b0: nat, amt: nat): string {
    var r := Min(255, r0 + amt);
    var g := Min(255, g0 + amt);
    var b := Min(255, b0 + amt);
    "#" + DropFirst(IntToHex(0x100_0000 + r * 0x1_0000 + g * 0x100 + b))
  }

  /**
   * The masked lightener always writes `#rrggbb`, and the value it writes is
   * the three input channels each raised by `amt` and capped at 255, so no
   * channel gets darker.
   */
  lemma LightenMaskedFormat(r0: nat, g0: nat, b0: nat, amt: nat)
    requires r0 < 256 && g0 < 256 && b0 < 256
    ensures var out := LightenChannels(r0, g0, b0, amt);
      IsColorText(out) &&
      HexValue(out[1..]) == Min(255, r0 + amt) * 0x1_0000 + Min(255, g0 + amt) * 0x100 + Min(255, b0 + amt)
    ensures r0 <= Min(255, r0 + amt) && g0 <= Min(255, g0 + amt) && b0 <= Min(255, b0 + amt)
  {
    SixDigits(Min(255, r0 + amt), Min(255, g0 + amt), Min(255, b0 + amt));
  }

  /** `0x1000000 + rgb` is written as `1` and six digits, so dropping the first leaves exactly `rgb`. */
  lemma SixDigits(r: nat, g: nat, b: nat)
    requires r < 256 && g < 256 && b < 256
    ensures var out := "#" + DropFirst(IntToHex(0x100_0000 + r * 0x1_0000 + g * 0x100 + b));
      IsColorText(out) && HexValue(out[1..]) == r * 0x1_0000 + g * 0x100 + b
  {
    var c := r * 0x1_0000 + g * 0x100 + b;
    assert c < 0x100_0000;
    LeadingOne(c);
    var s := NatToHex(0x100_0000 + c);
    var out := "#" + DropFirst(IntToHex(0x100_0000 + c));
    assert out[1..] == s[1..];
  }

  /** Below 2^24, `0x1000000 + c` has seven digits, the first a `1` and the other six worth `c`. */
  lemma LeadingOne(c: nat)
    requires c < 0x100_0000
    ensures var s := NatToHex(0x100_0000 + c);
      |s| == 7 && AllLowerHex(s[1..]) && HexValue(s[1..]) == c
  {
    var v := 0x100_0000 + c;
    assert Pow16(6) == 0x100_0000 && Pow16(7) == 0x1000_0000;
    NatToHexLength(v, 7);
    var s := NatToHex(v);
    NatToHexRoundTrip(v);
    HexValueSplit(s);
    HexValueBound(s[1..]);
    LeadingDigitOne(HexDigitValue(s[0]), HexValue(s[1..]), c);
  }

  lemma LeadingDigitOne(d: nat, rest: nat, c: nat)
    requires d * 0x100_0000 + rest == 0x100_0000 + c
    requires rest < 0x100_0000 && c < 0x100_0000
    ensures d == 1 && rest == c
  {
  }

  /** The leading digit of a hexadecimal text is worth its value times 16 to the number of digits after it. */
  lemma {:induction false} HexValueSplit(s: string)
    requires |s| > 0 && AllHex(s)
    ensures HexValue(s) == HexDigitValue(s[0]) * Pow16(|s| - 1) + HexValue(s[1..])
  {
    var n := |s|;
    if n > 1 {
      var init, tail := s[..n - 1], s[1..];
      assert AllHex(init) && AllHex(tail) && init[0] == s[0] && tail[..n - 2] == init[1..] && tail[n - 2] == s[n - 1];
      HexValueSplit(init);
      ShiftDigit(HexDigitValue(s[0]), Pow16(n - 2), Pow16(n - 1), HexValue(init[1..]), HexDigitValue(s[n - 1]),
                 HexValue(s), HexValue(init), HexValue(tail));
    }
  }

  /** The arithmetic step of `HexValueSplit`: shifting a number by one digit shifts its leading digit too. */
  lemma ShiftDigit(d: int, p: int, q: int, h: int, l: int, whole: int, init: int, tail: int)
    requires q == 16 * p
    requires init == d * p + h
    requires whole == init * 16 + l
    requires tail == h * 16 + l
    ensures whole == d * q + tail
  {
  }

  /** `k` hexadecimal digits are worth less than 16 to the `k`. */
  lemma {:induction false} HexValueBound(s: string)
    requires AllHex(s)
    ensures HexValue(s) < Pow16(|s|)
  {
    if |s| > 0 {
      HexValueBound(s[..|s| - 1]);
    }
  }

  /** For NaN and for any colour whose bits are below 2^24, the lightener as written agrees with the masked one. */
  lemma LightenAgreesOnSixDigitColors(color: string, amt: nat)
    requires 0 <= ColorBits(color) < 0x100_0000
    ensures LightenColor(color, amt) == LightenColorMasked(color, amt)
  {
    LightenAgreesBelow24(ColorBits(color), amt);
  }

  lemma LightenAgreesBelow24(x: int, amt: nat)
    requires 0 <= x < 0x100_0000
    ensures LightenBits(x, amt) == LightenChannels(LowByte(ShiftRight(x, 16)), LowByte(ShiftRight(x, 8)), LowByte(x), amt)
  {
    ShiftAmounts();
    assert 0 <= ShiftRight(x, 16) < 256;
    assert LowByte(ShiftRight(x, 16)) == ShiftRight(x, 16);
  }

  /** Any non-negative 32-bit value keeps the `#rrggbb` shape as written. */
  lemma LightenNonNegativeFormat(color: string, amt: nat)
    requires ColorBits(color) >= 0
    ensures IsColorText(LightenColor(color, amt))
  {
    LightenBitsNonNegative(ColorBits(color), amt);
  }

  lemma LightenBitsNonNegative(x: int, amt: nat)
    requires x >= 0
    ensures IsColorText(LightenBits(x, amt))
  {
    ShiftAmounts();
    var r := Min(255, ShiftRight(x, 16) + amt);
    assert 0 <= r <= 255;
    SixDigits(r, Min(255, LowByte(ShiftRight(x, 8)) + amt), Min(255, LowByte(x) + amt));
  }

  /**
   * An eight-digit colour with the top bit set reads as a negative 32-bit
   * value; red then falls far below zero and the text written has eight
   * digits instead of six.
   */
  lemma LightenNegativeBreaksFormat()
    ensures |LightenColor("#80000000", GradientLift)| == 9
    ensures !IsColorText(LightenColor("#80000000", GradientLift))
  {
    TopBitColorBits();
    LightenBitsTopBit();
  }

  lemma LightenBitsTopBit()
    ensures |LightenBits(-0x8000_0000, 51)| == 9
  {
    var x := -0x8000_0000;
    assert ShiftRight(x, 16) == -0x8000 && ShiftRight(x, 8) == -0x80_0000 by {
      ShiftAmounts();
    }
    assert LowByte(-0x80_0000) == 0 && LowByte(x) == 0;
    assert Min(255, -0x8000 + 51) == -0x8000 + 51 && Min(255, 0 + 51) == 51;
    assert 0x100_0000 + (-0x8000 + 51) * 0x1_0000 + 51 * 0x100 + 51 == -2127350989;
    NegativeHexLength();
  }

  lemma NegativeHexLength()
    ensures |IntToHex(-2127350989)| == 9
  {
    assert Pow16(7) == 0x1000_0000 && Pow16(8) == 0x1_0000_0000;
    NatToHexLength(2127350989, 8);
  }

  lemma TopBitColorBits()
    ensures ColorBits("#80000000") == -0x8000_0000
  {
    assert RemoveFirst("#80000000", '#') == "80000000";
    assert AllHex("80000000");
    ParseIntHexDigits("80000000");
    TopBitValue();
    assert ToInt32(Some(0x8000_0000)) == -0x8000_0000;
  }

  lemma TopBitValue()
    ensures HexValue("80000000") == 0x8000_0000
  {
    assert HexValue("8") == 8;
    assert "80"[..1] == "8";
    assert HexValue("80") == 0x80;
    assert "800"[..2] == "80";
    assert HexValue("800") == 0x800;
    assert "8000"[..3] == "800";
    assert HexValue("8000") == 0x8000;
    assert "80000"[..4] == "8000";
    assert HexValue("80000") == 0x8_0000;
    assert "800000"[..5] == "80000";
    assert HexValue("800000") == 0x80_0000;
    assert "8000000"[..6] == "800000";
    assert HexValue("8000000") == 0x800_0000;
    assert "80000000"[..7] == "8000000";
  }
}
