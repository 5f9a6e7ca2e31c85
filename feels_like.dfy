/** The "feels like" temperature shown on the current card and on each hourly
    card: the first non-empty of wind chill, humidex and temperature. */
module ApparentTemperature {
  import opened JsText
  import opened CityPage
  import opened Icons

  /** `windChill || humidex || temp`: None when all three are falsy. */
  function FeelsLike(windChill: Option<string>, humidex: Option<string>, temp: Option<string>): (r: Option<string>)
    ensures r.None? <==> !Truthy(windChill) && !Truthy(humidex) && !Truthy(temp)
    ensures r.Some? ==> r.value != ""
    ensures Truthy(windChill) ==> r == windChill
    ensures !Truthy(windChill) && Truthy(humidex) ==> r == humidex
    ensures !Truthy(windChill) && !Truthy(humidex) && Truthy(temp) ==> r == temp
  {
    if Truthy(windChill) then windChill
    else if Truthy(humidex) then humidex
    else if Truthy(temp) then temp
    else None
  }

  /** The current card's text: `feelsLike ? feelsLike + '°' : '--°'`. The
      record is None when the document had no `currentConditions`, and then
      every field reads as undefined. */
  function CurrentFeelsLikeText(current: Option<Current>): (r: string)
    ensures |r| >= 2 && r[|r| - 1] == '°'
    ensures current.None? ==> r == "--°"
  {
    var feels := match current
      case Some(c) => FeelsLike(c.windChill, c.humidex, Some(c.temp))
      case None => FeelsLike(None, None, None);
    match feels
    case Some(t) => t + "°"
    case None => "--°"
  }

  /** The current card's icon: `WEATHER_ICONS[current.iconCode] || sun`; an
      absent record has no icon code, which the table does not hold. */
  function CurrentIcon(current: Option<Current>): (r: Icon)
    ensures current.None? ==> r == Sunny
    ensures current.Some? ==> r == Sunny || TableEntry(current.value.iconCode) == Some(r)
  {
    match current
    case Some(c) => IconFor(c.iconCode)
    case None => Sunny
  }

  /** The hourly card prints `feelsLike + '°'` with no fallback. Because a
      normalised hourly record's temperature is never empty, feels-like is
      always defined there: wind chill when the document gave one, else
      humidex, else the temperature or its "--" default. */
  lemma HourlyFeelsLikeIsDefined(e: HourlyElement)
    ensures var h := HourlyOf(e);
      var r := FeelsLike(h.windChill, h.humidex, Some(h.temp));
      && r.Some?
      && r.value == (if Truthy(e.windChill) then e.windChill.value
                     else if Truthy(e.humidex) then e.humidex.value
                     else if Truthy(e.temperature) then e.temperature.value
                     else Unknown)
  {
  }

  /** On the current card the "--°" fallback is reached only when the
      document had no `currentConditions`; otherwise the text is the first
      non-empty of wind chill, humidex and temperature (or "--" for a blank
      temperature) followed by the degree sign. */
  lemma CurrentFeelsLikeFallback(doc: Document)
    ensures var current := Normalise(doc).current;
      && (doc.currentConditions.None? ==> CurrentFeelsLikeText(current) == "--°")
      && (doc.currentConditions.Some? ==>
            var e := doc.currentConditions.value;
            CurrentFeelsLikeText(current) ==
              (if Truthy(e.windChill) then e.windChill.value
               else if Truthy(e.humidex) then e.humidex.value
               else if Truthy(e.temperature) then e.temperature.value
               else Unknown) + "°")
  {
  }

  /** The current card's icon is the sun when the document had no
      `currentConditions` or gave no icon code (the default "00" is a sun
      too), and otherwise the table's entry for a code "00" to "48". */
  lemma CurrentIconCases(doc: Document)
    ensures var current := Normalise(doc).current;
      && (doc.currentConditions.None? ==> CurrentIcon(current) == Sunny)
      && (doc.currentConditions.Some? && !Truthy(doc.currentConditions.value.iconCode) ==>
            CurrentIcon(current) == Sunny)
      && (doc.currentConditions.Some? && Truthy(doc.currentConditions.value.iconCode)
          && IsTableCode(doc.currentConditions.value.iconCode.value) ==>
            var code := doc.currentConditions.value.iconCode.value;
            TableEntry(code) == Some(CurrentIcon(current)))
  {
    if doc.currentConditions.Some? {
      DefaultIconIsSun();
    }
  }
}
