/** The Environment Canada city-page document as the dashboard reads it, the
    normalised forecast it turns that document into, and the specification of
    that normalisation: the per-field defaults, the 24-hour cap on the hourly
    series, the day/night merge of the daily series and the alert filter.
    The imperative parser in module CityPageParser is proved equal to
    `Normalise` below. */
module CityPage {
  import opened JsText

  // ---------------------------------------------------------------------------
  // The document. DOMParser and querySelector are not modelled: each element
  // is reduced to the texts the parser queries, None when the queried element
  // (or attribute) is absent.

  /** `<currentConditions>` */
  datatype ConditionsElement = ConditionsElement(
    temperature: Option<string>,
    condition: Option<string>,
    iconCode: Option<string>,
    pressure: Option<string>,
    relativeHumidity: Option<string>,
    windSpeed: Option<string>,         // `wind speed`
    windChill: Option<string>,
    humidex: Option<string>)

  /** One `<hourlyForecast>` */
  datatype HourlyElement = HourlyElement(
    dateTimeUTC: Option<string>,       // the attribute
    temperature: Option<string>,
    condition: Option<string>,
    iconCode: Option<string>,
    lop: Option<string>,
    windChill: Option<string>,
    humidex: Option<string>)

  /** One `<forecast>` of the `<forecastGroup>` */
  datatype ForecastElement = ForecastElement(
    period: Option<string>,
    temperature: Option<string>,       // `temperatures temperature`
    pop: Option<string>,               // `abbreviatedForecast pop`
    iconCode: Option<string>)          // `abbreviatedForecast iconCode`

  /** One `<event>` under `<warnings>`: its two attributes */
  datatype EventElement = EventElement(eventType: Option<string>, description: Option<string>)

  datatype Document = Document(
    currentConditions: Option<ConditionsElement>,
    hourlyForecasts: seq<HourlyElement>,          // every `hourlyForecast`, in document order
    forecastGroup: Option<seq<ForecastElement>>,  // the `forecast` children, when the group exists
    warningEvents: seq<EventElement>)             // every `warnings event`, in document order

  // ---------------------------------------------------------------------------
  // The normalised forecast.

  datatype Current = Current(
    temp: string, condition: string, iconCode: string, pressure: string,
    humidity: string, wind: string, windChill: Option<string>, humidex: Option<string>)

  /** `time` keeps the raw `dateTimeUTC` attribute: its locale formatting is not modelled. */
  datatype Hourly = Hourly(
    time: Option<string>, temp: string, condition: string, iconCode: string,
    pop: string, windChill: Option<string>, humidex: Option<string>)

  datatype Daily = Daily(period: string, high: string, low: string, pop: string, iconCode: string)

  datatype Alert = Alert(alertType: string, description: string)

  /** `current` is None when the document has no `currentConditions` (the
      source leaves it as the empty object `{}`). */
  datatype Forecast = Forecast(
    current: Option<Current>, hourly: seq<Hourly>, daily: seq<Daily>, alerts: seq<Alert>)

  // ---------------------------------------------------------------------------
  // Defaults and limits.

  const Unknown: string := "--"
  const NotAvailable: string := "N/A"
  const DefaultIcon: string := "00"
  const DefaultPop: string := "0"
  const MaxHourly: nat := 24
  const EndedType: string := "ended"

  /** The current record: every text is the element's own text or, when that
      is absent or empty, its sentinel, so no text is ever empty; wind chill
      and humidex are null rather than empty. */
  function CurrentOf(e: ConditionsElement): (r: Current)
    ensures r.temp != "" && (r.temp == Unknown || e.temperature == Some(r.temp))
    ensures r.condition != "" && (r.condition == NotAvailable || e.condition == Some(r.condition))
    ensures r.iconCode != "" && (r.iconCode == DefaultIcon || e.iconCode == Some(r.iconCode))
    ensures r.pressure != "" && (r.pressure == Unknown || e.pressure == Some(r.pressure))
    ensures r.humidity != "" && (r.humidity == Unknown || e.relativeHumidity == Some(r.humidity))
    ensures r.wind != "" && (r.wind == Unknown || e.windSpeed == Some(r.wind))
    ensures r.windChill.None? || (r.windChill == e.windChill && r.windChill.value != "")
    ensures r.humidex.None? || (r.humidex == e.humidex && r.humidex.value != "")
  {
    Current(
      OrDefault(e.temperature, Unknown),
      OrDefault(e.condition, NotAvailable),
      OrDefault(e.iconCode, DefaultIcon),
      OrDefault(e.pressure, Unknown),
      OrDefault(e.relativeHumidity, Unknown),
      OrDefault(e.windSpeed, Unknown),
      OrNull(e.windChill),
      OrNull(e.humidex))
  }

  /** An hourly record, with the same text-or-sentinel rule and "0" as the
      default probability; the time attribute is kept as it is. */
  function HourlyOf(e: HourlyElement): (r: Hourly)
    ensures r.time == e.dateTimeUTC
    ensures r.temp != "" && (r.temp == Unknown || e.temperature == Some(r.temp))
    ensures r.condition != "" && (r.condition == NotAvailable || e.condition == Some(r.condition))
    ensures r.iconCode != "" && (r.iconCode == DefaultIcon || e.iconCode == Some(r.iconCode))
    ensures r.pop != "" && (r.pop == DefaultPop || e.lop == Some(r.pop))
    ensures r.windChill.None? || (r.windChill == e.windChill && r.windChill.value != "")
    ensures r.humidex.None? || (r.humidex == e.humidex && r.humidex.value != "")
  {
    Hourly(
      e.dateTimeUTC,
      OrDefault(e.temperature, Unknown),
      OrDefault(e.condition, NotAvailable),
      OrDefault(e.iconCode, DefaultIcon),
      OrDefault(e.lop, DefaultPop),
      OrNull(e.windChill),
      OrNull(e.humidex))
  }

  // ---------------------------------------------------------------------------
  // Hourly series: every entry is visited, only those at index < 24 are pushed.

  /** The hourly series is the first min(24, n) entries, converted, in
      document order. */
  function HourlyList(hs: seq<HourlyElement>): (r: seq<Hourly>)
    ensures |r| == if |hs| < MaxHourly then |hs| else MaxHourly
    ensures forall k :: 0 <= k < |r| ==> r[k] == HourlyOf(hs[k])
  {
    if hs == [] then []
    else
      var n := |hs| - 1;
      assert forall k :: 0 <= k < n ==> hs[..n][k] == hs[k];
      HourlyList(hs[..n]) + (if n < MaxHourly then [HourlyOf(hs[n])] else [])
  }

  // ---------------------------------------------------------------------------
  // Daily series: the day/night merge.

  /** A period is a night period when its lower-cased label contains
      "night": some five consecutive characters of the label spell "night"
      in any mix of case. */
  predicate IsNight(period: string)
  {
    Includes(ToLower(period), "night")
  }

  /** The record a non-night entry opens. */
  function OpenDay(f: ForecastElement): Daily {
    Daily(OrDefault(f.period, ""), OrDefault(f.temperature, Unknown), Unknown,
          OrDefault(f.pop, DefaultPop), OrDefault(f.iconCode, DefaultIcon))
  }

  function WithLast(d: seq<Daily>, x: Daily): seq<Daily>
    requires |d| > 0
  {
    d[..|d| - 1] + [x]
  }

  /** One step of the merge. The open record (`currentDay`) is always the last
      one of `daily`; a non-night entry with a temperature first overwrites the
      open record's high and then opens a record of its own. */
  function MergeStep(daily: seq<Daily>, f: ForecastElement): (r: seq<Daily>)
  {
    var hasTemp := Truthy(f.temperature);
    if !IsNight(OrDefault(f.period, "")) then
      var prior := if |daily| > 0 && hasTemp
                   then WithLast(daily, daily[|daily| - 1].(high := f.temperature.value))
                   else daily;
      prior + [OpenDay(f)]
    else if |daily| > 0 && hasTemp then
      WithLast(daily, daily[|daily| - 1].(low := f.temperature.value))
    else
      daily
  }

  /** The merged daily series, entry by entry. */
  function DailyList(fs: seq<ForecastElement>): seq<Daily> {
    if fs == [] then [] else MergeStep(DailyList(fs[..|fs| - 1]), fs[|fs| - 1])
  }

  /** The number of entries whose period is not a night period. */
  function DayCount(fs: seq<ForecastElement>): nat {
    if fs == [] then 0
    else DayCount(fs[..|fs| - 1]) + (if IsNight(OrDefault(fs[|fs| - 1].period, "")) then 0 else 1)
  }

  // ---------------------------------------------------------------------------
  // Alerts.

  predicate KeepEvent(e: EventElement) {
    Truthy(e.eventType) && Truthy(e.description) && e.eventType.value != EndedType
  }

  function AlertOf(e: EventElement): Alert
    requires KeepEvent(e)
  {
    Alert(e.eventType.value, e.description.value)
  }

  function AlertList(es: seq<EventElement>): (r: seq<Alert>)
    ensures |r| <= |es|
    ensures forall a :: a in r ==> a.alertType != "" && a.description != "" && a.alertType != EndedType
  {
    if es == [] then []
    else
      var last := es[|es| - 1];
      AlertList(es[..|es| - 1]) + (if KeepEvent(last) then [AlertOf(last)] else [])
  }

  // ---------------------------------------------------------------------------
  // The whole normalisation.

  /** The whole normalisation: a current record exactly when the document
      has current conditions, at most 24 hourly records, no daily records
      without a forecast group, and no more alerts than events. */
  function Normalise(doc: Document): (r: Forecast)
    ensures r.current.Some? <==> doc.currentConditions.Some?
    ensures |r.hourly| <= MaxHourly
    ensures doc.forecastGroup.None? ==> r.daily == []
    ensures |r.alerts| <= |doc.warningEvents|
  {
    Forecast(
      if doc.currentConditions.Some? then Some(CurrentOf(doc.currentConditions.value)) else None,
      HourlyList(doc.hourlyForecasts),
      if doc.forecastGroup.Some? then DailyList(doc.forecastGroup.value) else [],
      AlertList(doc.warningEvents))
  }
}
