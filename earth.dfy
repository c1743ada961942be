/** The colour helper of the globe's texture painter (Earth.tsx, adjustColor):
    darken or lighten a `#rrggbb` colour by a fixed amount per channel and
    write it back as an `rgb(r, g, b)` CSS colour. */
module Earth {
  import opened Wrappers
  import opened JsText

  /** `Math.max(0, Math.min(255, parseInt(hex.substr(start, 2), 16) + amount))`;
      `None` is NaN, which Math.min and Math.max pass through. */
  function Channel(hex: string, start: nat, amount: int): (r: Option<int>)
    ensures r.None? <==> ParseIntRadix16(Substr(hex, start, 2)).None?
    ensures r.Some? ==> 0 <= r.value <= 255
  {
    match ParseIntRadix16(Substr(hex, start, 2))
    case None => None
    case Some(v) => Some(Clamp(v + amount, 0, 255))
  }

  /** A channel in a template literal: its decimal digits, or "NaN". */
  function ChannelText(c: Option<int>): string {
    match c
    case None => "NaN"
    case Some(v) => IntToString(v)
  }

  /** The template literal `rgb(${r}, ${g}, ${b})`. */
  function Rgb(r: string, g: string, b: string): string {
    "rgb(" + r + ", " + g + ", " + b + ")"
  }

  /**
   * adjustColor(color, amount): drop the first '#', then read channels at 0, 2 and 4. The result
   * is always an `rgb(...)` colour; for a `#rrggbb` colour it holds the three shaded channels in
   * decimal.
   */
  function AdjustColor(color: string, amount: int): (r: string)
    ensures |r| >= 12 && r[..4] == "rgb(" && r[|r| - 1] == ')'
    ensures IsHexColor(color) ==>
      r == Rgb(Decimal(Shade(color, 0, amount)), Decimal(Shade(color, 1, amount)), Decimal(Shade(color, 2, amount)))
  {
    var hex := RemoveFirst(color, '#');
    var red := ChannelText(Channel(hex, 0, amount));
    var green := ChannelText(Channel(hex, 2, amount));
    var blue := ChannelText(Channel(hex, 4, amount));
    RgbShape(red, green, blue);
    if IsHexColor(color) then
      HexColorChannels(color, amount);
      Rgb(red, green, blue)
    else
      Rgb(red, green, blue)
  }

  /** The literal's fixed parts frame the three channels. */
  lemma RgbShape(r: string, g: string, b: string)
    requires |r| >= 1 && |g| >= 1 && |b| >= 1
    ensures var s := Rgb(r, g, b); |s| >= 12 && s[..4] == "rgb(" && s[|s| - 1] == ')'
  {
  }

  /** The three channel texts of a `#rrggbb` colour are its shades in decimal. */
  lemma HexColorChannels(color: string, amount: int)
    requires IsHexColor(color)
    ensures ChannelText(Channel(RemoveFirst(color, '#'), 0, amount)) == Decimal(Shade(color, 0, amount))
    ensures ChannelText(Channel(RemoveFirst(color, '#'), 2, amount)) == Decimal(Shade(color, 1, amount))
    ensures ChannelText(Channel(RemoveFirst(color, '#'), 4, amount)) == Decimal(Shade(color, 2, amount))
  {
    HexColorChannel(color, 0, amount);
    HexColorChannel(color, 1, amount);
    HexColorChannel(color, 2, amount);
  }

  /** `#` followed by six hexadecimal digits. */
  predicate IsHexColor(color: string) {
    |color| == 7 && color[0] == '#' && forall i :: 1 <= i < 7 ==> IsHexDigit(color[i])
  }

  /** The two hexadecimal digits of channel `k` (0 red, 1 green, 2 blue) of a `#rrggbb` colour. */
  function Pair(color: string, k: nat): string
    requires IsHexColor(color) && k < 3
  {
    color[1 + 2 * k..3 + 2 * k]
  }

  /** Channel `k` of a `#rrggbb` colour shifted by `amount` and clamped to [0, 255]. */
  function Shade(color: string, k: nat, amount: int): (v: nat)
    requires IsHexColor(color) && k < 3
    ensures v <= 255
  {
    Clamp(HexValue(Pair(color, k)) + amount, 0, 255)
  }

  /** On a `#rrggbb` colour the channel read at `2 * k` is the shaded pair `k`. */
  lemma HexColorChannel(color: string, k: nat, amount: int)
    requires IsHexColor(color) && k < 3
    ensures Channel(RemoveFirst(color, '#'), 2 * k, amount) == Some(Shade(color, k, amount))
    ensures HexValue(Pair(color, k)) < 256
  {
    var hex := RemoveFirst(color, '#');
    var p := Pair(color, k);
    PairAt(color, k);
    ParseHexPair(p);
    ParsedChannel(hex, 2 * k, amount, HexValue(p));
    ShadeOfPair(color, k, amount);
  }

  lemma ShadeOfPair(color: string, k: nat, amount: int)
    requires IsHexColor(color) && k < 3
    ensures Shade(color, k, amount) == Clamp(HexValue(Pair(color, k)) + amount, 0, 255)
  {
  }

  lemma ParsedChannel(hex: string, start: nat, amount: int, v: int)
    requires ParseIntRadix16(Substr(hex, start, 2)) == Some(v)
    ensures Channel(hex, start, amount) == Some(Clamp(v + amount, 0, 255))
  {
  }

  /** Removing the '#' and reading two characters at `2 * k` gives pair `k`. */
  lemma PairAt(color: string, k: nat)
    requires IsHexColor(color) && k < 3
    ensures Substr(RemoveFirst(color, '#'), 2 * k, 2) == Pair(color, k)
    ensures |Pair(color, k)| == 2 && IsHexDigit(Pair(color, k)[0]) && IsHexDigit(Pair(color, k)[1])
  {
    var hex := RemoveFirst(color, '#');
    assert hex == color[1..];
  }

  /** Amount 0 keeps every channel of a `#rrggbb` colour. */
  lemma ZeroAmountKeepsChannels(color: string, k: nat)
    requires IsHexColor(color) && k < 3
    ensures Channel(RemoveFirst(color, '#'), 2 * k, 0) == Some(HexValue(Pair(color, k)))
  {
    HexColorChannel(color, k, 0);
  }

  /** A larger amount never gives a smaller channel; NaN stays NaN whatever the amount. */
  lemma ChannelMonotone(hex: string, start: nat, a: int, b: int)
    requires a <= b
    ensures Channel(hex, start, a).None? <==> Channel(hex, start, b).None?
    ensures Channel(hex, start, a).Some? ==> Channel(hex, start, a).value <= Channel(hex, start, b).value
  {
  }

  /** Darkening (amount <= 0, as with -20 and -30) never raises a channel of a `#rrggbb`
      colour, and lightening never lowers one. */
  lemma DarkenAndLighten(color: string, k: nat, amount: int)
    requires IsHexColor(color) && k < 3
    ensures Channel(RemoveFirst(color, '#'), 2 * k, amount).Some?
    ensures amount <= 0 ==> Shade(color, k, amount) <= HexValue(Pair(color, k))
    ensures amount >= 0 ==> Shade(color, k, amount) >= HexValue(Pair(color, k))
  {
    HexColorChannel(color, k, amount);
  }

  /** The first continent colour, unchanged: `#2d5a3d` is `rgb(45, 90, 61)`. */
  lemma FirstContinentColour(color: string)
    requires color == "#2d5a3d"
    ensures AdjustColor(color, 0) == "rgb(45, 90, 61)"
  {
    FirstContinentShades(color);
    FirstContinentText();
  }

  /** A three-digit colour is not expanded: `#fff` gives the channels `ff`, `f` and nothing,
      so the blue channel is NaN. */
  lemma ShortColour(color: string)
    requires color == "#fff"
    ensures AdjustColor(color, 0) == "rgb(255, 15, NaN)"
  {
    var hex := RemoveFirst(color, '#');
    assert hex == "fff";
    ShortChannels(hex);
    ChannelsOf(color, 0, hex);
    ShortText();
  }

  lemma ShortText()
    ensures Rgb(ChannelText(Some(255)), ChannelText(Some(15)), ChannelText(None)) == "rgb(255, 15, NaN)"
  {
    assert Decimal(255) == "255" && Decimal(15) == "15";
  }

  /** The three channels of `fff` read as 255, 15 and NaN. */
  lemma ShortChannels(hex: string)
    requires hex == "fff"
    ensures Channel(hex, 0, 0) == Some(255) && Channel(hex, 2, 0) == Some(15) && Channel(hex, 4, 0).None?
  {
    assert Substr(hex, 0, 2) == "ff" && Substr(hex, 2, 2) == "f" && Substr(hex, 4, 2) == "";
    HexPairValue("ff");
    assert HexValue("f") == 15;
  }

  /** The result spelled out from the three channels read after the '#' is dropped. */
  lemma ChannelsOf(color: string, amount: int, hex: string)
    requires hex == RemoveFirst(color, '#')
    ensures AdjustColor(color, amount)
      == Rgb(ChannelText(Channel(hex, 0, amount)), ChannelText(Channel(hex, 2, amount)), ChannelText(Channel(hex, 4, amount)))
  {
  }

  lemma FirstContinentShades(color: string)
    requires color == "#2d5a3d"
    ensures IsHexColor(color)
    ensures Shade(color, 0, 0) == 45 && Shade(color, 1, 0) == 90 && Shade(color, 2, 0) == 61
  {
    assert Pair(color, 0) == "2d" && Pair(color, 1) == "5a" && Pair(color, 2) == "3d";
    HexPairValue(Pair(color, 0));
    HexPairValue(Pair(color, 1));
    HexPairValue(Pair(color, 2));
  }

  /** Two hexadecimal characters: the first counts sixteen times. */
  lemma HexPairValue(s: string)
    requires |s| == 2
    ensures HexValue(s) == 16 * HexDigitValue(s[0]) + HexDigitValue(s[1])
  {
    assert s[..1][..0] == [];
  }

  lemma FirstContinentText()
    ensures Rgb(Decimal(45), Decimal(90), Decimal(61)) == "rgb(45, 90, 61)"
  {
    assert Decimal(45) == "45" && Decimal(90) == "90" && Decimal(61) == "61";
  }
}
