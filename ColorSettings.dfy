/**
 * The colour settings: the option names offered to the user, the hex-code converter, and the
 * manager that resolves an option (a preset, a custom hex code or anything else) to the colour
 * each role uses, falling back to the role's default.
 */
module ColorSettings {

  import opened Colors

  // The option names of the colour combo boxes; pairwise distinct.
  const GreenOption: string := "緑"
  const BlueOption: string := "青"
  const DefaultOption: string := "デフォルト色"
  const CustomHexOption: string := "色コードで指定"

  lemma OptionNamesDistinct()
    ensures GreenOption != BlueOption && GreenOption != DefaultOption && GreenOption != CustomHexOption
    ensures BlueOption != DefaultOption && BlueOption != CustomHexOption && DefaultOption != CustomHexOption
  {
    assert GreenOption[0] != BlueOption[0];
    assert |DefaultOption| != |GreenOption| && |DefaultOption| != |CustomHexOption|;
    assert |CustomHexOption| != |GreenOption|;
  }

  /** The value of one hexadecimal digit, upper or lower case. */
  function HexDigitValue(ch: char): (v: int)
    ensures -1 <= v < 16
  {
    if '0' <= ch <= '9' then ch as int - '0' as int
    else if 'a' <= ch <= 'f' then ch as int - 'a' as int + 10
    else if 'A' <= ch <= 'F' then ch as int - 'A' as int + 10
    else -1
  }

  /** The byte written as two hex digits, or -1 when either is not a hex digit. */
  function ParseHexByte(hi: char, lo: char): (v: int)
    ensures -1 <= v < 256
  {
    var h := HexDigitValue(hi);
    var l := HexDigitValue(lo);
    if h < 0 || l < 0 then -1 else h * 16 + l
  }

  /** The result of the converter: success and the colour, which is Black on failure. */
  datatype Conversion = Conversion(ok: bool, color: Color)

  const Failed: Conversion := Conversion(false, Black)

  /**
   * The colour converter on a string that starts with '#', restricted to the two documented
   * forms: "#RRGGBB" (opaque) and "#AARRGGBB". Anything else fails.
   */
  function ConvertFromString(s: string): (c: Conversion)
    ensures !c.ok ==> c == Failed
    ensures c.ok <==> (|s| == 7 || |s| == 9) && s[0] == '#' && forall i :: 1 <= i < |s| ==> HexDigitValue(s[i]) >= 0
    ensures c.ok && |s| == 7 ==> c.color.a == 255
  {
    if |s| == 7 && s[0] == '#' then
      var r, g, b := ParseHexByte(s[1], s[2]), ParseHexByte(s[3], s[4]), ParseHexByte(s[5], s[6]);
      if r < 0 || g < 0 || b < 0 then Failed else Conversion(true, Argb(255, r, g, b))
    else if |s| == 9 && s[0] == '#' then
      var a, r, g, b := ParseHexByte(s[1], s[2]), ParseHexByte(s[3], s[4]), ParseHexByte(s[5], s[6]), ParseHexByte(s[7], s[8]);
      if a < 0 || r < 0 || g < 0 || b < 0 then Failed else Conversion(true, Argb(a, r, g, b))
    else Failed
  }

  /**
   * Converts a hex colour code, adding the '#' the converter needs when it is missing.
   * A null or empty string fails; every failure yields false and Black, never an exception.
   */
  function TryConvertHexToColor(hexString: string): (c: Conversion)
    ensures !c.ok ==> c.color == Black
    ensures hexString == "" ==> !c.ok
    ensures c.ok ==> |hexString| + (if hexString[0] == '#' then 0 else 1) in {7, 9}
  {
    if hexString == "" then Failed
    else
      var normalized := if hexString[0] == '#' then hexString else "#" + hexString;
      ConvertFromString(normalized)
  }

  /** The upper-case hex digit of a value below 16. */
  function HexDigit(v: int): char
    requires 0 <= v < 16
  {
    if v < 10 then ('0' as int + v) as char else ('A' as int + v - 10) as char
  }

  /** A byte as two hex digits. */
  function HexByte(v: Byte): string
  {
    [HexDigit(v / 16), HexDigit(v % 16)]
  }

  /** The "#AARRGGBB" code of a colour, the form WPF prints a colour in. */
  function FormatArgb(c: Color): string
  {
    "#" + HexByte(c.a) + HexByte(c.r) + HexByte(c.g) + HexByte(c.b)
  }

  /** The "#RRGGBB" code of a colour's red, green and blue. */
  function FormatRgb(c: Color): string
  {
    "#" + HexByte(c.r) + HexByte(c.g) + HexByte(c.b)
  }

  lemma HexByteRoundTrip(v: Byte)
    ensures ParseHexByte(HexByte(v)[0], HexByte(v)[1]) == v
  {
    var hi, lo := v / 16, v % 16;
    assert HexDigitValue(HexDigit(hi)) == hi;
    assert HexDigitValue(HexDigit(lo)) == lo;
  }

  /** Failure and the empty string: the colour reported on failure is always Black. */
  lemma FailureIsBlack(hexString: string)
    ensures !TryConvertHexToColor(hexString).ok ==> TryConvertHexToColor(hexString).color == Black
    ensures TryConvertHexToColor("") == Conversion(false, Black)
  {
  }

  /** A code without '#' converts exactly as the same code with '#' in front. */
  lemma MissingHashAdded(s: string)
    requires s == [] || s[0] != '#'
    ensures TryConvertHexToColor(s) == TryConvertHexToColor("#" + s)
  {
  }

  /** Every colour converts back from its "#AARRGGBB" code, with or without the '#'. */
  lemma {:induction false} ArgbCodeRoundTrip(c: Color)
    ensures TryConvertHexToColor(FormatArgb(c)) == Conversion(true, c)
    ensures TryConvertHexToColor(FormatArgb(c)[1..]) == Conversion(true, c)
  {
    HexByteRoundTrip(c.a);
    HexByteRoundTrip(c.r);
    HexByteRoundTrip(c.g);
    HexByteRoundTrip(c.b);
    var s := FormatArgb(c);
    assert s[1..3] == HexByte(c.a) && s[3..5] == HexByte(c.r) && s[5..7] == HexByte(c.g) && s[7..9] == HexByte(c.b);
    MissingHashAdded(s[1..]);
    assert "#" + s[1..] == s;
  }

  /** A six-digit code converts to the opaque colour with those red, green and blue values. */
  lemma {:induction false} RgbCodeRoundTrip(c: Color)
    ensures TryConvertHexToColor(FormatRgb(c)) == Conversion(true, Argb(255, c.r, c.g, c.b))
    ensures TryConvertHexToColor(FormatRgb(c)[1..]) == Conversion(true, Argb(255, c.r, c.g, c.b))
  {
    HexByteRoundTrip(c.r);
    HexByteRoundTrip(c.g);
    HexByteRoundTrip(c.b);
    var s := FormatRgb(c);
    assert s[1..3] == HexByte(c.r) && s[3..5] == HexByte(c.g) && s[5..7] == HexByte(c.b);
    MissingHashAdded(s[1..]);
    assert "#" + s[1..] == s;
  }

  /** A successful conversion came from one of the two documented forms and has a full-alpha colour for six digits. */
  lemma ConvertedForms(hexString: string)
    requires TryConvertHexToColor(hexString).ok
    ensures var n := if hexString[0] == '#' then |hexString| else |hexString| + 1;
      n == 7 || n == 9
    ensures (if hexString[0] == '#' then |hexString| else |hexString| + 1) == 7 ==>
      TryConvertHexToColor(hexString).color.a == 255
  {
  }

  /** "FF00FF" is magenta, with or without the '#'. */
  lemma MagentaCode()
    ensures TryConvertHexToColor("FF00FF") == Conversion(true, Magenta)
    ensures TryConvertHexToColor("#FF00FF") == Conversion(true, Magenta)
  {
    assert ParseHexByte('F', 'F') == 255 && ParseHexByte('0', '0') == 0;
  }

  /** The colour the background option resolves to: a preset, a parsed code, or Green. */
  function BackgroundColorFor(option: string, hexValue: string): Color
  {
    if option == CustomHexOption then
      var conversion := TryConvertHexToColor(hexValue);
      if conversion.ok then conversion.color else Green
    else if option == GreenOption then Green
    else if option == BlueOption then Blue
    else Green
  }

  /** The colour the normal-note option resolves to: a parsed code or LightGray. */
  function NormalNoteColorFor(option: string, hexValue: string): Color
  {
    if option == CustomHexOption then
      var conversion := TryConvertHexToColor(hexValue);
      if conversion.ok then conversion.color else LightGray
    else if option == DefaultOption then LightGray
    else LightGray
  }

  /** The colour the playing-note option resolves to: a parsed code or White. */
  function PlayingColorFor(option: string, hexValue: string): Color
  {
    if option == CustomHexOption then
      var conversion := TryConvertHexToColor(hexValue);
      if conversion.ok then conversion.color else White
    else if option == DefaultOption then White
    else White
  }

  /** Outside CustomHex the background is Blue exactly for the Blue option and Green otherwise. */
  lemma BackgroundPresets(option: string, hexValue: string)
    requires option != CustomHexOption
    ensures BackgroundColorFor(option, hexValue) == Blue <==> option == BlueOption
    ensures option != BlueOption ==> BackgroundColorFor(option, hexValue) == Green
  {
  }

  /** Outside CustomHex the note roles ignore the option: Default, Green or anything else gives the role default. */
  lemma NoteRolePresets(option: string, hexValue: string)
    requires option != CustomHexOption
    ensures NormalNoteColorFor(option, hexValue) == LightGray
    ensures PlayingColorFor(option, hexValue) == White
  {
  }

  /** A custom code that fails to convert gives each role its fallback colour. */
  lemma CustomHexFallbacks(hexValue: string)
    requires !TryConvertHexToColor(hexValue).ok
    ensures BackgroundColorFor(CustomHexOption, hexValue) == Green
    ensures NormalNoteColorFor(CustomHexOption, hexValue) == LightGray
    ensures PlayingColorFor(CustomHexOption, hexValue) == White
  {
  }

  /** A custom code that converts gives every role the converted colour. */
  lemma CustomHexConverted(hexValue: string)
    requires TryConvertHexToColor(hexValue).ok
    ensures BackgroundColorFor(CustomHexOption, hexValue) == TryConvertHexToColor(hexValue).color
    ensures NormalNoteColorFor(CustomHexOption, hexValue) == TryConvertHexToColor(hexValue).color
    ensures PlayingColorFor(CustomHexOption, hexValue) == TryConvertHexToColor(hexValue).color
  {
  }

  /** Every colour can be chosen for every role by entering its "#AARRGGBB" code, with or without '#'. */
  lemma {:induction false} EveryColorSelectable(c: Color)
    ensures BackgroundColorFor(CustomHexOption, FormatArgb(c)) == c
    ensures NormalNoteColorFor(CustomHexOption, FormatArgb(c)) == c
    ensures PlayingColorFor(CustomHexOption, FormatArgb(c)[1..]) == c
  {
    ArgbCodeRoundTrip(c);
  }

  /** The three brushes the application paints with, and the operations that choose them. */
  class ColorSettingsManager {
    var backgroundColorBrush: Color
    var normalNoteColorBrush: Color
    var playingNoteColorBrush: Color

    constructor ()
      ensures backgroundColorBrush == Green
      ensures normalNoteColorBrush == LightGray
      ensures playingNoteColorBrush == White
    {
      backgroundColorBrush := Green;
      normalNoteColorBrush := LightGray;
      playingNoteColorBrush := White;
    }

    /** Resolves the background option, stores the colour in the background brush only, and returns it. */
    method ApplyBackgroundColorSetting(option: string, hexValue: string) returns (finalColor: Color)
      modifies `backgroundColorBrush
      ensures finalColor == BackgroundColorFor(option, hexValue)
      ensures backgroundColorBrush == finalColor
    {
      if option == CustomHexOption {
        var conversion := TryConvertHexToColor(hexValue);
        finalColor := conversion.color;
        if !conversion.ok {
          finalColor := Green;
        }
      } else if option == GreenOption {
        finalColor := Green;
      } else if option == BlueOption {
        finalColor := Blue;
      } else {
        finalColor := Green;
      }
      backgroundColorBrush := finalColor;
    }

    /** Resolves the normal-note option, stores the colour in the normal-note brush only, and returns it. */
    method ApplyNormalNoteColorSetting(option: string, hexValue: string) returns (finalColor: Color)
      modifies `normalNoteColorBrush
      ensures finalColor == NormalNoteColorFor(option, hexValue)
      ensures normalNoteColorBrush == finalColor
    {
      if option == CustomHexOption {
        var conversion := TryConvertHexToColor(hexValue);
        finalColor := conversion.color;
        if !conversion.ok {
          finalColor := LightGray;
        }
      } else if option == DefaultOption {
        finalColor := LightGray;
      } else {
        finalColor := LightGray;
      }
      normalNoteColorBrush := finalColor;
    }

    /** Resolves the playing-note option, stores the colour in the playing-note brush only, and returns it. */
    method ApplyPlayingColorSetting(option: string, hexValue: string) returns (finalColor: Color)
      modifies `playingNoteColorBrush
      ensures finalColor == PlayingColorFor(option, hexValue)
      ensures playingNoteColorBrush == finalColor
    {
      if option == CustomHexOption {
        var conversion := TryConvertHexToColor(hexValue);
        finalColor := conversion.color;
        if !conversion.ok {
          finalColor := White;
        }
      } else if option == DefaultOption {
        finalColor := White;
      } else {
        finalColor := White;
      }
      playingNoteColorBrush := finalColor;
    }
  }

}
