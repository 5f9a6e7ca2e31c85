/** `parseEnvironmentCanadaXML` as the source writes it: three loops that push
    into the hourly, daily and alert lists, the daily loop keeping a reference
    `currentDay` to the record it pushed last and mutating that record in
    place. Each loop is proved to compute the corresponding function of
    module CityPage, and the whole parse to compute `Normalise`. */
module CityPageParser {
  import opened JsText
  import opened CityPage

  /** The mutable daily record the merge loop keeps a reference to. */
  class DayRecord {
    var period: string
    var high: string
    var low: string
    var pop: string
    var iconCode: string

    /** A new record: its low is always "--". */
    constructor (period: string, high: string, pop: string, iconCode: string)
      ensures Value() == Daily(period, high, Unknown, pop, iconCode)
    {
      this.period := period;
      this.high := high;
      this.low := Unknown;
      this.pop := pop;
      this.iconCode := iconCode;
    }

    function Value(): Daily
      reads this
    {
      Daily(period, high, low, pop, iconCode)
    }
  }

  /** The hourly loop: every entry is visited, only the first 24 are pushed. */
  method CollectHourly(hs: seq<HourlyElement>) returns (hourly: seq<Hourly>)
    ensures hourly == HourlyList(hs)
  {
    hourly := [];
    var index := 0;
    while index < |hs|
      invariant 0 <= index <= |hs|
      invariant hourly == HourlyList(hs[..index])
    {
      if index < MaxHourly {
        hourly := hourly + [HourlyOf(hs[index])];
      }
      assert hs[..index + 1][..index] == hs[..index];
      index := index + 1;
    }
    assert hs[..|hs|] == hs;
  }

  /** The records, read through their references, are the values. */
  ghost predicate Mirrors(records: seq<DayRecord>, values: seq<Daily>)
    reads records
  {
    |records| == |values| && forall k :: 0 <= k < |records| ==> records[k].Value() == values[k]
  }

  /** The last record is no other entry of the list. */
  ghost predicate LastIsUnshared(records: seq<DayRecord>) {
    forall k :: 0 <= k < |records| - 1 ==> records[k] != records[|records| - 1]
  }

  /** `currentDay.high = temp`, with `currentDay` the record pushed last. */
  method SetLastHigh(records: seq<DayRecord>, ghost values: seq<Daily>, temp: string)
      returns (ghost next: seq<Daily>)
    requires |records| > 0 && Mirrors(records, values) && LastIsUnshared(records)
    modifies records[|records| - 1]
    ensures next == WithLast(values, values[|values| - 1].(high := temp))
    ensures Mirrors(records, next)
  {
    records[|records| - 1].high := temp;
    next := WithLast(values, values[|values| - 1].(high := temp));
  }

  /** `currentDay.low = temp`, with `currentDay` the record pushed last. */
  method SetLastLow(records: seq<DayRecord>, ghost values: seq<Daily>, temp: string)
      returns (ghost next: seq<Daily>)
    requires |records| > 0 && Mirrors(records, values) && LastIsUnshared(records)
    modifies records[|records| - 1]
    ensures next == WithLast(values, values[|values| - 1].(low := temp))
    ensures Mirrors(records, next)
  {
    records[|records| - 1].low := temp;
    next := WithLast(values, values[|values| - 1].(low := temp));
  }

  /** `currentDay = {...}; data.daily.push(currentDay)` */
  method OpenRecord(records: seq<DayRecord>, ghost values: seq<Daily>, f: ForecastElement)
      returns (records': seq<DayRecord>, currentDay: DayRecord, ghost values': seq<Daily>)
    requires Mirrors(records, values)
    ensures fresh(currentDay)
    ensures records' == records + [currentDay]
    ensures values' == values + [OpenDay(f)]
    ensures Mirrors(records', values') && LastIsUnshared(records')
  {
    currentDay := new DayRecord(OrDefault(f.period, ""), OrDefault(f.temperature, Unknown),
                                OrDefault(f.pop, DefaultPop), OrDefault(f.iconCode, DefaultIcon));
    records' := records + [currentDay];
    values' := values + [OpenDay(f)];
  }

  /** The daily loop over the `forecast` children of `forecastGroup`.
      `currentDay` is null until the first day entry and afterwards always
      the record pushed last, so writing through it changes the last record
      of the list and no other. */
  method MergeDaily(fs: seq<ForecastElement>) returns (daily: seq<Daily>)
    ensures daily == DailyList(fs)
  {
    var records: seq<DayRecord> := [];
    var currentDay: DayRecord? := null;
    ghost var values: seq<Daily> := [];
    var i := 0;
    while i < |fs|
      invariant 0 <= i <= |fs|
      invariant values == DailyList(fs[..i])
      invariant Mirrors(records, values) && LastIsUnshared(records)
      invariant (currentDay == null) == (|records| == 0)
      invariant currentDay != null ==> currentDay == records[|records| - 1] && fresh(currentDay)
    {
      var f := fs[i];
      var period := OrDefault(f.period, "");
      var temp := f.temperature;
      assert fs[..i + 1][..i] == fs[..i];
      if !IsNight(period) {
        if currentDay != null && Truthy(temp) {
          values := SetLastHigh(records, values, temp.value);
        }
        records, currentDay, values := OpenRecord(records, values, f);
      } else if currentDay != null && Truthy(temp) {
        values := SetLastLow(records, values, temp.value);
      }
      i := i + 1;
    }
    daily := seq(|records|, k requires 0 <= k < |records| reads records => records[k].Value());
    assert fs[..|fs|] == fs;
  }

  /** The alert loop: an order-preserving filter. */
  method CollectAlerts(es: seq<EventElement>) returns (alerts: seq<Alert>)
    ensures alerts == AlertList(es)
  {
    alerts := [];
    var i := 0;
    while i < |es|
      invariant 0 <= i <= |es|
      invariant alerts == AlertList(es[..i])
    {
      var warning := es[i];
      if Truthy(warning.eventType) && Truthy(warning.description) && warning.eventType.value != EndedType {
        alerts := alerts + [Alert(warning.eventType.value, warning.description.value)];
      }
      assert es[..i + 1][..i] == es[..i];
      i := i + 1;
    }
    assert es[..|es|] == es;
  }

  /** `parseEnvironmentCanadaXML` */
  method ParseEnvironmentCanadaXML(doc: Document) returns (data: Forecast)
    ensures data == Normalise(doc)
  {
    var current: Option<Current> := None;
    if doc.currentConditions.Some? {
      current := Some(CurrentOf(doc.currentConditions.value));
    }
    var hourly := CollectHourly(doc.hourlyForecasts);
    var daily: seq<Daily> := [];
    if doc.forecastGroup.Some? {
      daily := MergeDaily(doc.forecastGroup.value);
    }
    var alerts := CollectAlerts(doc.warningEvents);
    data := Forecast(current, hourly, daily, alerts);
  }
}
