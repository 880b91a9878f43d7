/**
 * Custom highlight colours in `script.js`. Fourteen syntax classes each have
 * a default colour per theme; the user's overrides are stored as JSON under
 * 'customHighlightColors' as an object from theme to an object from class to
 * colour. A colour typed into a text field is only accepted when it is a
 * six-digit hex colour.
 */
module HighlightColors {
  import opened Wrappers
  import opened Text

  const StorageKey: string := "customHighlightColors"

  /** The `id`s of `syntaxElements`, in panel order. */
  const SyntaxIds: seq<string> := [
    "keyword", "built_in", "type", "function", "title.function_", "variable", "string",
    "number", "comment", "class", "meta", "punctuation", "operator", "params"]

  type Palette = map<string, string>
  type Colors = map<string, Palette>

  const LightDefaults: Palette := map[
    "keyword" := "#6ABFFA", "built_in" := "#88C8F8", "type" := "#6ABFFA",
    "function" := "#F8D878", "title.function_" := "#F8D878", "variable" := "#C898FA",
    "string" := "#F0A898", "number" := "#88E888", "comment" := "#78C878",
    "class" := "#98D8F8", "meta" := "#FF9878", "punctuation" := "#B8B8D8",
    "operator" := "#D8D8F8", "params" := "#C898FA"]

  const DarkDefaults: Palette := map[
    "keyword" := "#61AFEF", "built_in" := "#88C8F8", "type" := "#61AFEF",
    "function" := "#E5E58A", "title.function_" := "#E5E58A", "variable" := "#A7D8FF",
    "string" := "#E59866", "number" := "#98C379", "comment" := "#72B865",
    "class" := "#56D9B9", "meta" := "#FF9878", "punctuation" := "#B8B8D8",
    "operator" := "#D8D8F8", "params" := "#A7D8FF"]

  const DefaultColors: Colors := map["light" := LightDefaults, "dark" := DarkDefaults]

  // ---------------------------------------------------------------- hex colours

  predicate IsHexDigit(c: char) {
    '0' <= c <= '9' || 'a' <= c <= 'f' || 'A' <= c <= 'F'
  }

  /** `/^#[0-9A-F]{6}$/i`: a '#' and exactly six hex digits of either case. */
  predicate IsHexColor(s: string) {
    |s| == 7 && s[0] == '#' && forall i :: 1 <= i < 7 ==> IsHexDigit(s[i])
  }

  function HexDigitValue(c: char): (d: nat)
    requires IsHexDigit(c)
    ensures d < 16
  {
    if '0' <= c <= '9' then c as int - '0' as int
    else if 'a' <= c <= 'f' then c as int - 'a' as int + 10
    else c as int - 'A' as int + 10
  }

  function HexChar(d: nat): (c: char)
    requires d < 16
    ensures IsHexDigit(c) && HexDigitValue(c) == d && !('A' <= c <= 'Z')
  {
    "0123456789abcdef"[d]
  }

  function Pow16(n: nat): (p: nat)
    ensures p >= 1
  {
    if n == 0 then 1 else 16 * Pow16(n - 1)
  }

  /** The value of a string of hex digits, most significant first. */
  function HexNumber(ds: string): nat
    requires forall i :: 0 <= i < |ds| ==> IsHexDigit(ds[i])
  {
    if ds == [] then 0 else HexNumber(ds[..|ds| - 1]) * 16 + HexDigitValue(ds[|ds| - 1])
  }

  /** The lowest `n` hex digits of `v`, most significant first. */
  function HexDigits(v: nat, n: nat): (r: string)
    ensures |r| == n
  {
    if n == 0 then "" else HexDigits(v / 16, n - 1) + [HexChar(v % 16)]
  }

  /** Hex digits, none of them a capital. */
  predicate LowerHexDigits(r: string) {
    forall i :: 0 <= i < |r| ==> IsHexDigit(r[i]) && !('A' <= r[i] <= 'Z')
  }

  lemma {:induction false} HexDigitsAreLower(v: nat, n: nat)
    ensures LowerHexDigits(HexDigits(v, n))
    decreases n
  {
    if n > 0 {
      HexDigitsAreLower(v / 16, n - 1);
      var r := HexDigits(v, n);
      assert r == HexDigits(v / 16, n - 1) + [HexChar(v % 16)];
      assert forall i :: 0 <= i < n - 1 ==> r[i] == HexDigits(v / 16, n - 1)[i];
    }
  }

  /** The form a colour picker reports: '#' and six lower-case digits. */
  function FormatHex(v: nat): (s: string)
    requires v < Pow16(6)
    ensures IsHexColor(s)
  {
    HexDigitsAreLower(v, 6);
    "#" + HexDigits(v, 6)
  }

  function HexValue(s: string): nat
    requires IsHexColor(s)
  {
    HexNumber(s[1..])
  }

  lemma {:induction false} HexDigitsRoundTrip(v: nat, n: nat)
    requires v < Pow16(n)
    ensures LowerHexDigits(HexDigits(v, n)) && HexNumber(HexDigits(v, n)) == v
    decreases n
  {
    HexDigitsAreLower(v, n);
    if n > 0 {
      var r := HexDigits(v, n);
      assert r[..n - 1] == HexDigits(v / 16, n - 1);
      assert v / 16 < Pow16(n - 1);
      HexDigitsRoundTrip(v / 16, n - 1);
    }
  }

  /** Appending a digit `d` to a number `h` and splitting it off again. */
  lemma AppendDigit(h: nat, d: nat, n: nat)
    requires d < 16 && h < Pow16(n)
    ensures (h * 16 + d) / 16 == h && (h * 16 + d) % 16 == d
    ensures h * 16 + d < Pow16(n + 1)
  {
  }

  lemma LowerLastDigit(c: char)
    requires IsHexDigit(c)
    ensures HexChar(HexDigitValue(c)) == LowerAscii(c)
  {
  }

  lemma LowerAppend(s: string, c: char)
    ensures LowerAsciiString(s + [c]) == LowerAsciiString(s) + [LowerAscii(c)]
  {
  }

  lemma {:induction false} HexNumberBound(ds: string)
    requires forall i :: 0 <= i < |ds| ==> IsHexDigit(ds[i])
    ensures HexNumber(ds) < Pow16(|ds|)
    decreases |ds|
  {
    if ds != [] {
      var init := ds[..|ds| - 1];
      HexNumberBound(init);
      AppendDigit(HexNumber(init), HexDigitValue(ds[|ds| - 1]), |init|);
    }
  }

  /** Formatting `v` = `h * 16 + d` in `n + 1` digits writes `h` in `n` digits, then `d`. */
  lemma HexDigitsSnoc(v: nat, h: nat, d: nat, n: nat)
    requires d < 16 && v == h * 16 + d
    ensures HexDigits(v, n + 1) == HexDigits(h, n) + [HexChar(d)]
  {
    assert v / 16 == h && v % 16 == d;
  }

  lemma InitLast<T>(s: seq<T>)
    requires s != []
    ensures s[..|s| - 1] + [s[|s| - 1]] == s
  {
  }

  lemma {:induction false} HexNumberRoundTrip(ds: string)
    requires forall i :: 0 <= i < |ds| ==> IsHexDigit(ds[i])
    ensures HexDigits(HexNumber(ds), |ds|) == LowerAsciiString(ds)
    decreases |ds|
  {
    if ds != [] {
      var init, last := ds[..|ds| - 1], ds[|ds| - 1];
      InitLast(ds);
      HexNumberRoundTrip(init);
      var h, d, n := HexNumber(init), HexDigitValue(last), |init|;
      var v := HexNumber(ds);
      assert v == h * 16 + d;
      calc {
        HexDigits(v, |ds|);
        HexDigits(v, n + 1);
        { HexDigitsSnoc(v, h, d, n); }
        HexDigits(h, n) + [HexChar(d)];
        { LowerLastDigit(last); }
        LowerAsciiString(init) + [LowerAscii(last)];
        { LowerAppend(init, last); }
        LowerAsciiString(init + [last]);
        LowerAsciiString(ds);
      }
    }
  }

  /** Every 24-bit value is a valid colour and reads back as itself. */
  lemma FormatHexRoundTrip(v: nat)
    requires v < Pow16(6)
    ensures IsHexColor(FormatHex(v)) && HexValue(FormatHex(v)) == v
  {
    assert FormatHex(v)[1..] == HexDigits(v, 6);
    HexDigitsRoundTrip(v, 6);
  }

  /** Every accepted colour is a 24-bit value; formatting it back gives its lower-case spelling. */
  lemma HexValueRoundTrip(s: string)
    requires IsHexColor(s)
    ensures HexValue(s) < Pow16(6) && FormatHex(HexValue(s)) == LowerAsciiString(s)
  {
    HexNumberBound(s[1..]);
    HexNumberRoundTrip(s[1..]);
    assert LowerAsciiString(s) == [LowerAscii(s[0])] + LowerAsciiString(s[1..]);
  }

  /** The hex check accepts exactly the strings that are some 24-bit value, up to case. */
  lemma HexColorsAreFormatted(s: string)
    ensures IsHexColor(s) <==> IsHexColor(LowerAsciiString(s)) && (exists v: nat | v < Pow16(6) :: FormatHex(v) == LowerAsciiString(s))
  {
    var l := LowerAsciiString(s);
    if IsHexColor(s) {
      HexValueRoundTrip(s);
      assert IsHexColor(l);
    }
    if IsHexColor(l) {
      assert forall i :: 1 <= i < 7 ==> IsHexDigit(l[i]) && l[i] == LowerAscii(s[i]);
      assert s[0] == '#';
    }
  }

  predicate PaletteIsHex(p: Palette) {
    forall id | id in p :: IsHexColor(p[id])
  }

  lemma LightDefaultsAreHex()
    ensures PaletteIsHex(LightDefaults)
  {
    assert IsHexColor("#6ABFFA") && IsHexColor("#88C8F8") && IsHexColor("#F8D878") && IsHexColor("#C898FA");
    assert IsHexColor("#F0A898") && IsHexColor("#88E888") && IsHexColor("#78C878") && IsHexColor("#98D8F8");
    assert IsHexColor("#FF9878") && IsHexColor("#B8B8D8") && IsHexColor("#D8D8F8");
  }

  lemma DarkDefaultsAreHex()
    ensures PaletteIsHex(DarkDefaults)
  {
    assert IsHexColor("#61AFEF") && IsHexColor("#88C8F8") && IsHexColor("#E5E58A") && IsHexColor("#A7D8FF");
    assert IsHexColor("#E59866") && IsHexColor("#98C379") && IsHexColor("#72B865") && IsHexColor("#56D9B9");
    assert IsHexColor("#FF9878") && IsHexColor("#B8B8D8") && IsHexColor("#D8D8F8");
  }

  /** Each built-in palette has a colour for exactly the fourteen classes. */
  lemma DefaultsCoverClasses()
    ensures LightDefaults.Keys == set id | id in SyntaxIds
    ensures DarkDefaults.Keys == set id | id in SyntaxIds
  {
    assert forall id :: id in SyntaxIds <==> id in LightDefaults;
    assert forall id :: id in SyntaxIds <==> id in DarkDefaults;
  }

  /** Every default colour is accepted by the hex check, and each theme has a colour for every class. */
  lemma DefaultsAreHexColors()
    ensures DefaultColors.Keys == {"light", "dark"}
    ensures forall t | t in DefaultColors :: PaletteIsHex(DefaultColors[t])
    ensures forall t | t in DefaultColors :: DefaultColors[t].Keys == set id | id in SyntaxIds
  {
    LightDefaultsAreHex();
    DarkDefaultsAreHex();
    DefaultsCoverClasses();
  }

  // ------------------------------------------------------------ stored overrides

  /** `getUserColors`: the stored object, or empty palettes for both themes when nothing (or '') is stored. */
  function GetUserColors(saved: Option<Colors>): (c: Colors)
    ensures saved.None? ==> c == map["light" := map[], "dark" := map[]]
    ensures saved.Some? ==> c == saved.value
  {
    saved.GetOr(map["light" := map[], "dark" := map[]])
  }

  /** `saveColorSetting`: the object stored after saving `color` for class `id` under `theme`. */
  function SaveColor(saved: Option<Colors>, theme: string, id: string, color: string): Colors {
    var userColors := GetUserColors(saved);
    var palette := if theme in userColors then userColors[theme] else map[];
    userColors[theme := palette[id := color]]
  }

  /** Saving sets one entry and keeps every other entry and every other theme. */
  lemma SaveColorSetsOneEntry(saved: Option<Colors>, theme: string, id: string, color: string)
    ensures var before, after := GetUserColors(saved), SaveColor(saved, theme, id, color);
      && theme in after && id in after[theme] && after[theme][id] == color
      && after.Keys == before.Keys + {theme}
      && (forall t | t in before && t != theme :: t in after && after[t] == before[t])
      && (theme in before ==> forall i | i in before[theme] && i != id :: i in after[theme] && after[theme][i] == before[theme][i])
      && (theme in before ==> after[theme].Keys == before[theme].Keys + {id})
  {
  }

  /** Every stored colour is a valid hex colour. */
  predicate AllHex(c: Colors) {
    forall t | t in c :: PaletteIsHex(c[t])
  }

  /** Nothing is stored, or only hex colours are. */
  predicate StoredAllHex(saved: Option<Colors>) {
    saved.Some? ==> AllHex(saved.value)
  }

  /** Through either input only hex colours get stored, so the stored object stays all-hex. */
  lemma SaveColorKeepsAllHex(saved: Option<Colors>, theme: string, id: string, color: string)
    ensures StoredAllHex(saved) && IsHexColor(color) ==> AllHex(SaveColor(saved, theme, id, color))
  {
  }

  /** What a lookup of a colour yields: a colour, `undefined`, or a thrown TypeError. */
  datatype Lookup = Color(value: string) | Undefined | TypeError

  /** `userColors[theme][id]`, as the truthiness test sees it. */
  function UserEntry(userColors: Colors, theme: string, id: string): Lookup {
    if theme !in userColors then TypeError
    else if id in userColors[theme] && userColors[theme][id] != "" then Color(userColors[theme][id])
    else Undefined
  }

  /** `defaultColors[theme][id]`. */
  function DefaultEntry(theme: string, id: string): Lookup {
    if theme !in DefaultColors then TypeError
    else if id in DefaultColors[theme] then Color(DefaultColors[theme][id])
    else Undefined
  }

  /** The settings panel: the default is looked up first, then the override. */
  function PanelColor(userColors: Colors, theme: string, id: string): Lookup {
    var defaultColor := DefaultEntry(theme, id);
    if defaultColor.TypeError? then TypeError
    else var user := UserEntry(userColors, theme, id);
    if user.Color? || user.TypeError? then user else defaultColor
  }

  /** The generated stylesheet: the override first, the default only when that is falsy. */
  function AppliedColor(userColors: Colors, theme: string, id: string): Lookup {
    var user := UserEntry(userColors, theme, id);
    if user.Color? || user.TypeError? then user else DefaultEntry(theme, id)
  }

  /**
   * For the two built-in themes with a stored palette, the panel and the
   * stylesheet show the same colour for every class: the override when it is
   * non-empty, otherwise the default, and always a valid hex colour when the
   * stored object is all-hex.
   */
  lemma ColorLookupsAgree(userColors: Colors, theme: string, id: string)
    requires theme in DefaultColors && theme in userColors && id in SyntaxIds
    ensures PanelColor(userColors, theme, id) == AppliedColor(userColors, theme, id)
    ensures var c := AppliedColor(userColors, theme, id);
      && c.Color?
      && (id in userColors[theme] && userColors[theme][id] != "" ==> c.value == userColors[theme][id])
      && (id !in userColors[theme] || userColors[theme][id] == "" ==> c.value == DefaultColors[theme][id])
      && (AllHex(userColors) ==> IsHexColor(c.value))
  {
    DefaultsAreHexColors();
  }

  /**
   * The lookups throw when the theme has no stored palette, and the panel also
   * throws for a theme without defaults, even when an override exists; the
   * stylesheet uses such an override.
   */
  lemma ColorLookupErrors(userColors: Colors, theme: string, id: string)
    ensures theme !in userColors ==> PanelColor(userColors, theme, id) == TypeError && AppliedColor(userColors, theme, id) == TypeError
    ensures theme !in DefaultColors ==> PanelColor(userColors, theme, id) == TypeError
    ensures theme !in DefaultColors && theme in userColors && id in userColors[theme] && userColors[theme][id] != "" ==>
      AppliedColor(userColors, theme, id) == Color(userColors[theme][id])
  {
  }

  /** With nothing stored, or after a reset, every class shows its default colour. */
  lemma ResetShowsDefaults(theme: string, id: string)
    requires theme in DefaultColors && id in SyntaxIds
    ensures AppliedColor(GetUserColors(None), theme, id) == Color(DefaultColors[theme][id])
  {
  }

  /**
   * The value a `type="color"` input keeps (the value sanitization of the
   * colour state in the HTML Living Standard): a valid simple colour in ASCII
   * lower case, anything else as black.
   */
  function PickerValue(s: string): (v: string)
    ensures IsHexColor(v)
    ensures IsHexColor(s) ==> v == LowerAsciiString(s)
    ensures !IsHexColor(s) ==> v == "#000000"
  {
    if IsHexColor(s) then HexColorsAreFormatted(s); LowerAsciiString(s) else "#000000"
  }

  /**
   * The text fields `initColorSettings` builds for `theme`: each class with
   * the panel's colour. When that lookup throws, the loop stops at the first
   * class and no field is built.
   */
  function PanelTexts(userColors: Colors, theme: string): map<string, string> {
    map id | id in SyntaxIds && PanelColor(userColors, theme, id).Color? :: PanelColor(userColors, theme, id).value
  }

  /** The colour pickers built beside the text fields, each holding its field's value as sanitized. */
  function Pickers(texts: map<string, string>): map<string, string> {
    map id | id in texts :: PickerValue(texts[id])
  }

  /**
   * For a built-in theme with a stored palette, the panel has a field for every
   * class showing what the stylesheet applies (hex when the store is); for any
   * other theme, or without a stored palette, the build throws and the panel stays empty.
   */
  lemma PanelTextsShowLookups(userColors: Colors, theme: string)
    ensures theme in DefaultColors && theme in userColors ==>
      && (forall id :: id in PanelTexts(userColors, theme) <==> id in SyntaxIds)
      && (forall id | id in SyntaxIds :: Color(PanelTexts(userColors, theme)[id]) == AppliedColor(userColors, theme, id))
      && (AllHex(userColors) ==> forall id | id in SyntaxIds :: IsHexColor(PanelTexts(userColors, theme)[id]))
    ensures theme !in DefaultColors || theme !in userColors ==> PanelTexts(userColors, theme) == map[]
  {
    if theme in DefaultColors && theme in userColors {
      forall id | id in SyntaxIds
        ensures PanelColor(userColors, theme, id).Color?
        ensures Color(PanelTexts(userColors, theme)[id]) == AppliedColor(userColors, theme, id)
        ensures AllHex(userColors) ==> IsHexColor(PanelTexts(userColors, theme)[id])
      {
        ColorLookupsAgree(userColors, theme, id);
      }
    } else {
      forall id | id in SyntaxIds
        ensures PanelColor(userColors, theme, id).TypeError?
      {
        ColorLookupErrors(userColors, theme, id);
      }
    }
  }

  /** After a reset the panel shows every class's default colour, in both inputs. */
  lemma ResetPanelShowsDefaults(theme: string, id: string)
    requires theme in DefaultColors && id in SyntaxIds
    ensures var texts := PanelTexts(GetUserColors(None), theme);
      && id in texts && texts[id] == DefaultColors[theme][id]
      && id in Pickers(texts) && Pickers(texts)[id] == LowerAsciiString(DefaultColors[theme][id])
  {
    PanelTextsShowLookups(GetUserColors(None), theme);
    ResetShowsDefaults(theme, id);
    DefaultsAreHexColors();
  }

  /** The stored overrides and the two inputs of each class in the open panel. */
  class ColorPanel {
    var saved: Option<Colors>
    var colorInputs: map<string, string>
    var hexInputs: map<string, string>

    /** `initColorSettings` at startup, with `theme` the document's `data-theme`. */
    constructor (stored: Option<Colors>, theme: string)
      ensures saved == stored
      ensures hexInputs == PanelTexts(GetUserColors(stored), theme) && colorInputs == Pickers(hexInputs)
    {
      saved := stored;
      hexInputs := PanelTexts(GetUserColors(stored), theme);
      colorInputs := Pickers(PanelTexts(GetUserColors(stored), theme));
    }

    /** The rebuild a theme switch schedules: the panel is emptied and built again for `theme`. */
    method Rebuild(theme: string)
      modifies this
      ensures saved == old(saved)
      ensures hexInputs == PanelTexts(GetUserColors(saved), theme) && colorInputs == Pickers(hexInputs)
    {
      hexInputs := PanelTexts(GetUserColors(saved), theme);
      colorInputs := Pickers(hexInputs);
    }

    method SaveColorSetting(theme: string, id: string, color: string)
      modifies this
      ensures saved == Some(SaveColor(old(saved), theme, id, color))
      ensures colorInputs == old(colorInputs) && hexInputs == old(hexInputs)
    {
      var userColors := GetUserColors(saved);
      if theme !in userColors {
        userColors := userColors[theme := map[]];
      }
      ghost var palette := if theme in GetUserColors(saved) then GetUserColors(saved)[theme] else map[];
      assert userColors == GetUserColors(saved)[theme := palette];
      userColors := userColors[theme := userColors[theme][id := color]];
      assert userColors == SaveColor(saved, theme, id, color);
      saved := Some(userColors);
    }

    /** A colour picked in the picker: copied to the text field and saved. */
    method OnColorInput(theme: string, id: string, picked: nat)
      requires picked < Pow16(6)
      modifies this
      ensures hexInputs == old(hexInputs)[id := FormatHex(picked)] && colorInputs == old(colorInputs)[id := FormatHex(picked)]
      ensures saved == Some(SaveColor(old(saved), theme, id, FormatHex(picked)))
      ensures StoredAllHex(old(saved)) ==> StoredAllHex(saved)
    {
      var value := FormatHex(picked);
      colorInputs := colorInputs[id := value];
      hexInputs := hexInputs[id := value];
      SaveColorSetting(theme, id, value);
      SaveColorKeepsAllHex(old(saved), theme, id, value);
    }

    /** Text typed in the hex field: copied to the picker and saved only when it is a hex colour. */
    method OnHexInput(theme: string, id: string, text: string)
      modifies this
      ensures hexInputs == old(hexInputs)[id := text]
      ensures IsHexColor(text) ==> colorInputs == old(colorInputs)[id := LowerAsciiString(text)] && saved == Some(SaveColor(old(saved), theme, id, text))
      ensures !IsHexColor(text) ==> colorInputs == old(colorInputs) && saved == old(saved)
      ensures StoredAllHex(old(saved)) ==> StoredAllHex(saved)
    {
      hexInputs := hexInputs[id := text];
      if IsHexColor(text) {
        colorInputs := colorInputs[id := PickerValue(text)];
        SaveColorSetting(theme, id, text);
        SaveColorKeepsAllHex(old(saved), theme, id, text);
      }
    }

    /** The reset button: when confirmed, the stored overrides are removed and the panel is built again for `theme`. */
    method ResetColors(confirmed: bool, theme: string)
      modifies this
      ensures confirmed ==> saved == None && hexInputs == PanelTexts(GetUserColors(None), theme) && colorInputs == Pickers(hexInputs)
      ensures !confirmed ==> saved == old(saved) && colorInputs == old(colorInputs) && hexInputs == old(hexInputs)
    {
      if confirmed {
        saved := None;
        Rebuild(theme);
      }
    }
  }
}
