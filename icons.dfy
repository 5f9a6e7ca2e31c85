/** The Environment Canada icon-code table and the two display rules built on
    the normalised forecast: the icon shown for a code and the "feels like"
    temperature. */
module Icons {
  import opened JsText
  import opened CityPage

  /** The pictures the table uses. */
  datatype Icon =
    | Sunny | SunBehindSmallCloud | SunBehindCloud | Cloud | SunBehindRainCloud
    | CloudWithRain | CloudWithLightningAndRain | CloudWithSnow | Snowflake | CrescentMoon

  /** The emoji the page shows for an icon; none is empty. */
  function Glyph(icon: Icon): (g: string)
    ensures g != ""
  {
    match icon
    case Sunny => "\U{2600}\U{FE0F}"
    case SunBehindSmallCloud => "\U{1F324}\U{FE0F}"
    case SunBehindCloud => "\U{26C5}"
    case Cloud => "\U{2601}\U{FE0F}"
    case SunBehindRainCloud => "\U{1F326}\U{FE0F}"
    case CloudWithRain => "\U{1F327}\U{FE0F}"
    case CloudWithLightningAndRain => "\U{26C8}\U{FE0F}"
    case CloudWithSnow => "\U{1F328}\U{FE0F}"
    case Snowflake => "\U{2744}\U{FE0F}"
    case CrescentMoon => "\U{1F319}"
  }

  /** `WEATHER_ICONS`, one row per leading digit: row d holds the icons of
      the codes "d0" to "d9" in order; the last row stops at "48". */
  const IconRows: seq<seq<Icon>> := [
    // "00" .. "09"
    [Sunny, Sunny, SunBehindSmallCloud, SunBehindSmallCloud, SunBehindCloud,
     Cloud, SunBehindRainCloud, SunBehindRainCloud, CloudWithRain, CloudWithLightningAndRain],
    // "10" .. "19"
    [CloudWithRain, CloudWithRain, CloudWithRain, CloudWithRain, SunBehindRainCloud,
     CloudWithLightningAndRain, CloudWithSnow, CloudWithSnow, CloudWithSnow, CloudWithLightningAndRain],
    // "20" .. "29"
    [SunBehindRainCloud, CloudWithRain, CloudWithSnow, CloudWithSnow, CloudWithSnow,
     CloudWithSnow, Snowflake, CloudWithRain, CloudWithSnow, CloudWithLightningAndRain],
    // "30" .. "39"
    [SunBehindSmallCloud, SunBehindSmallCloud, Sunny, CrescentMoon, CrescentMoon,
     Cloud, SunBehindSmallCloud, CloudWithLightningAndRain, CloudWithRain, CloudWithLightningAndRain],
    // "40" .. "48"
    [CloudWithSnow, CloudWithSnow, CloudWithSnow, CloudWithSnow, CloudWithRain,
     SunBehindRainCloud, CloudWithLightningAndRain, CloudWithSnow, CloudWithSnow]
  ]

  /** The codes the table covers: two decimal digits from "00" to "48". */
  predicate IsTableCode(code: string) {
    |code| == 2 && '0' <= code[0] <= '4' && '0' <= code[1] <= '9' && (code[0] == '4' ==> code[1] <= '8')
  }

  /** `WEATHER_ICONS[code]`: the entry of a two-digit code whose row has a
      column for its second digit, and undefined for every other key. */
  function TableEntry(code: string): (r: Option<Icon>)
    ensures r.Some? <==> IsTableCode(code)
  {
    if |code| == 2 && '0' <= code[0] <= '4' && '0' <= code[1] <= '9' then
      var row := IconRows[code[0] as int - '0' as int];
      var column := code[1] as int - '0' as int;
      if column < |row| then Some(row[column]) else None
    else None
  }

  /** `WEATHER_ICONS[code] || '\U{2600}\U{FE0F}'`. Every entry's glyph is a
      non-empty string, so the sun fallback is taken exactly for the codes
      outside "00" to "48". */
  function IconFor(code: string): (r: Icon)
    ensures IsTableCode(code) ==> TableEntry(code) == Some(r)
    ensures !IsTableCode(code) ==> r == Sunny
  {
    match TableEntry(code)
    case Some(icon) => if Glyph(icon) != "" then icon else Sunny
    case None => Sunny
  }

  /** The default icon code "00" is in the table, as the sun. */
  lemma DefaultIconIsSun()
    ensures TableEntry(DefaultIcon) == Some(Sunny) && IconFor(DefaultIcon) == Sunny
  {
    assert DefaultIcon[0] == '0' && DefaultIcon[1] == '0';
  }
}
