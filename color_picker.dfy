/**
 * The colour picker of the supermarket screens
 * (frontend/src/components/ColorPicker.tsx): the hex-colour validator, the
 * choice of black or white text over a background colour, and the picker's
 * own state as the input handlers change it.
 *
 * The luminance test `(0.299 r + 0.587 g + 0.114 b) / 255 > 0.5` is written
 * in integers as `299 r + 587 g + 114 b > 127500`.
 */
module ColorPicker {
  import opened Wrappers

  const DefaultColor: string := "#6366F1"
  const Black: string := "#000000"
  const White: string := "#FFFFFF"

  // ---------------------------------------------------------------------------
  // Hex digits

  /** `[A-Fa-f0-9]`. */
  predicate IsHexDigit(c: char)
  {
    ('0' <= c <= '9') || ('a' <= c <= 'f') || ('A' <= c <= 'F')
  }

  function HexDigitValue(c: char): (v: nat)
    requires IsHexDigit(c)
    ensures v < 16
  {
    if '0' <= c <= '9' then c as int - '0' as int
    else if 'a' <= c <= 'f' then c as int - 'a' as int + 10
    else c as int - 'A' as int + 10
  }

  predicate AllHex(s: string)
  {
    forall i :: 0 <= i < |s| ==> IsHexDigit(s[i])
  }

  /** `/^[A-Fa-f0-9]{6}$/` or `/^[A-Fa-f0-9]{3}$/`. */
  predicate IsHexBody(s: string)
  {
    (|s| == 6 || |s| == 3) && AllHex(s)
  }

  // ---------------------------------------------------------------------------
  // Validation

  /** `/^#([A-Fa-f0-9]{6}|[A-Fa-f0-9]{3})$/`. */
  predicate IsValidHexColor(color: string)
  {
    |color| > 0 && color[0] == '#' && IsHexBody(color[1..])
  }

  /** A valid colour is `#` and then three or six hex digits, in either case. */
  lemma ValidHexColorShape(color: string)
    ensures IsValidHexColor(color) <==>
      (|color| == 4 || |color| == 7) && color[0] == '#' &&
      forall i :: 1 <= i < |color| ==> IsHexDigit(color[i])
  {
    if (|color| == 4 || |color| == 7) && color[0] == '#' &&
       forall i :: 1 <= i < |color| ==> IsHexDigit(color[i])
    {
      assert forall i :: 0 <= i < |color[1..]| ==> color[1..][i] == color[i + 1];
    }
  }

  // ---------------------------------------------------------------------------
  // getContrastTextColor

  /** `s.replace('#', '')`: only the first `#` is removed. */
  function RemoveFirstHash(s: string): (r: string)
    ensures '#' !in s ==> r == s
    ensures |r| == if '#' in s then |s| - 1 else |s|
    decreases |s|
  {
    if s == [] then []
    else if s[0] == '#' then s[1..]
    else
      assert '#' in s <==> '#' in s[1..];
      [s[0]] + RemoveFirstHash(s[1..])
  }

  /** The text before the first `#` is kept, the `#` is dropped and the rest is kept as it is. */
  lemma {:induction false} RemoveFirstHashAt(a: string, b: string)
    requires forall i :: 0 <= i < |a| ==> a[i] != '#'
    ensures RemoveFirstHash(a + "#" + b) == a + b
    decreases |a|
  {
    var s := a + "#" + b;
    if a == [] {
      assert s == "#" + b;
      assert s[1..] == b;
    } else {
      assert s[0] == a[0];
      assert s[1..] == a[1..] + "#" + b;
      RemoveFirstHashAt(a[1..], b);
      assert a == [a[0]] + a[1..];
    }
  }

  /** `#` followed by hex digits loses its leading `#` and nothing else. */
  lemma RemoveLeadingHash(h: string)
    ensures RemoveFirstHash("#" + h) == h
  {
    assert ("#" + h)[1..] == h;
  }

  /** A missing or empty colour (falsy) is replaced by the default. */
  function EffectiveColor(bg: Option<string>): (c: string)
    ensures c != ""
    ensures bg.Some? && bg.value != "" ==> c == bg.value
    ensures bg.None? || bg.value == "" ==> c == DefaultColor
  {
    if bg.None? || bg.value == "" then DefaultColor else bg.value
  }

  /** Three digits become six by doubling each digit. */
  function Normalize(hex: string): (r: string)
    requires IsHexBody(hex)
    ensures |r| == 6 && AllHex(r)
    ensures |hex| == 6 ==> r == hex
    ensures |hex| == 3 ==> forall i :: 0 <= i < 6 ==> r[i] == hex[i / 2]
  {
    if |hex| == 3 then [hex[0], hex[0], hex[1], hex[1], hex[2], hex[2]] else hex
  }

  /** `parseInt(hex.substr(2 * k, 2), 16)`: the red, green or blue byte. */
  function Channel(hex: string, k: nat): (v: nat)
    requires |hex| == 6 && AllHex(hex) && k < 3
    ensures v < 256
  {
    16 * HexDigitValue(hex[2 * k]) + HexDigitValue(hex[2 * k + 1])
  }

  /** 1000 times the weighted sum `0.299 r + 0.587 g + 0.114 b`. */
  function Luminance(hex: string): nat
    requires |hex| == 6 && AllHex(hex)
  {
    299 * Channel(hex, 0) + 587 * Channel(hex, 1) + 114 * Channel(hex, 2)
  }

  lemma DefaultIsValid()
    ensures IsHexBody(RemoveFirstHash(DefaultColor))
    ensures RemoveFirstHash(DefaultColor) == "6366F1"
  {
    RemoveLeadingHash("6366F1");
    assert DefaultColor == "#" + "6366F1";
  }

  /**
   * `getContrastTextColor(backgroundColor)`: black text over light colours and
   * white text over dark ones; a colour that is not three or six hex digits
   * once its first `#` is removed is treated as the default colour.
   */
  function ContrastTextColor(bg: Option<string>): (r: string)
    ensures r == Black || r == White
    decreases if IsHexBody(RemoveFirstHash(EffectiveColor(bg))) then 0 else 1
  {
    var hex := RemoveFirstHash(EffectiveColor(bg));
    if !IsHexBody(hex) then
      DefaultIsValid();
      ContrastTextColor(Some(DefaultColor))
    else
      if Luminance(Normalize(hex)) > 127500 then Black else White
  }

  /** No colour, or the empty colour, gives the default colour's text colour. */
  lemma MissingColorIsDefault()
    ensures ContrastTextColor(None) == ContrastTextColor(Some(DefaultColor))
    ensures ContrastTextColor(Some("")) == ContrastTextColor(Some(DefaultColor))
  {
  }

  /** A malformed colour gives the default colour's text colour. */
  lemma MalformedColorIsDefault(color: string)
    requires !IsHexBody(RemoveFirstHash(color))
    ensures ContrastTextColor(Some(color)) == ContrastTextColor(Some(DefaultColor))
  {
  }

  /** Black exactly when the scaled luminance of the six-digit colour exceeds 127500. */
  lemma {:induction false} BlackIffBright(hex: string)
    requires |hex| == 6 && AllHex(hex)
    ensures ContrastTextColor(Some("#" + hex)) == Black <==> Luminance(hex) > 127500
  {
    RemoveLeadingHash(hex);
  }

  /** `#abc` and `#aabbcc` get the same text colour. */
  lemma {:induction false} ShortFormAgrees(a: char, b: char, c: char)
    requires IsHexDigit(a) && IsHexDigit(b) && IsHexDigit(c)
    ensures ContrastTextColor(Some(['#', a, b, c])) == ContrastTextColor(Some(['#', a, a, b, b, c, c]))
  {
    assert ['#', a, b, c] == "#" + [a, b, c];
    assert ['#', a, a, b, b, c, c] == "#" + [a, a, b, b, c, c];
    RemoveLeadingHash([a, b, c]);
    RemoveLeadingHash([a, a, b, b, c, c]);
  }

  /** Pure black gets white text. */
  lemma {:induction false} BlackGetsWhiteText()
    ensures ContrastTextColor(Some("#000000")) == White
  {
    BlackIffBright("000000");
    assert "#000000" == "#" + "000000";
  }

  /** Pure white gets black text. */
  lemma {:induction false} WhiteGetsBlackText()
    ensures ContrastTextColor(Some("#FFFFFF")) == Black
  {
    BlackIffBright("FFFFFF");
    assert "#FFFFFF" == "#" + "FFFFFF";
  }

  /** The default indigo, and so a missing colour, gets white text. */
  lemma {:induction false} DefaultGetsWhiteText()
    ensures ContrastTextColor(Some(DefaultColor)) == White
    ensures ContrastTextColor(None) == White
  {
    BlackIffBright("6366F1");
    assert DefaultColor == "#" + "6366F1";
  }

  /**
   * The `#` is optional here, unlike in `isValidHexColor`: bare digits and
   * the same digits after a `#` get the same text colour.
   */
  lemma HashIsOptional(hex: string)
    requires IsHexBody(hex)
    ensures ContrastTextColor(Some(hex)) == ContrastTextColor(Some("#" + hex))
    ensures !IsValidHexColor(hex)
  {
    assert '#' !in hex by {
      forall i | 0 <= i < |hex| ensures hex[i] != '#' {
        assert IsHexDigit(hex[i]);
      }
    }
    RemoveLeadingHash(hex);
  }

  /** A valid colour is read from its own digits, never replaced by the default. */
  lemma ValidColorIsUsed(color: string)
    requires IsValidHexColor(color)
    ensures IsHexBody(RemoveFirstHash(color))
    ensures ContrastTextColor(Some(color)) == if Luminance(Normalize(color[1..])) > 127500 then Black else White
  {
    assert color == "#" + color[1..];
    RemoveLeadingHash(color[1..]);
  }

  // ---------------------------------------------------------------------------
  // The picker component

  /**
   * The component's state: the text in the custom-colour field and whether
   * the custom picker is shown. `selectedColor` is the parent's property and
   * the value a handler returns is what it passes to `onColorChange`.
   */
  class ColorPickerState {
    var customColor: string
    var showCustomPicker: bool

    constructor (selectedColor: string)
      ensures customColor == selectedColor && !showCustomPicker
    {
      customColor := selectedColor;
      showCustomPicker := false;
    }

    /** handlePresetColorClick: the preset is taken and emitted, the picker hidden. */
    method HandlePresetColorClick(color: string) returns (emitted: string)
      modifies this
      ensures customColor == color && !showCustomPicker
      ensures emitted == color
    {
      customColor := color;
      emitted := color;
      showCustomPicker := false;
    }

    /** handleCustomColorChange: the typed text is kept; it is emitted only when valid. */
    method HandleCustomColorChange(newColor: string) returns (emitted: Option<string>)
      modifies this`customColor
      ensures customColor == newColor
      ensures emitted.Some? <==> IsValidHexColor(newColor)
      ensures emitted.Some? ==> emitted.value == newColor
    {
      customColor := newColor;
      if IsValidHexColor(newColor) {
        emitted := Some(newColor);
      } else {
        emitted := None;
      }
    }

    /** The show/hide button: the custom picker's visibility flips and the custom colour stays. */
    method ToggleCustomPicker()
      modifies this`showCustomPicker
      ensures showCustomPicker == !old(showCustomPicker)
    {
      showCustomPicker := !showCustomPicker;
    }

    /** handleCustomColorBlur: an invalid custom colour reverts to the selected one. */
    method HandleCustomColorBlur(selectedColor: string)
      modifies this`customColor
      ensures IsValidHexColor(old(customColor)) ==> customColor == old(customColor)
      ensures !IsValidHexColor(old(customColor)) ==> customColor == selectedColor
      ensures IsValidHexColor(selectedColor) ==> IsValidHexColor(customColor)
    {
      if !IsValidHexColor(customColor) {
        customColor := selectedColor;
      }
    }
  }
}
