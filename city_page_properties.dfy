/** What the normalisation of a city-page document promises: sentinel
    defaults, the 24-entry hourly cap, the shape of the day/night merge
    (including the overwrite of the previous day's high) and the alert filter. */
module CityPageProperties {
  import opened JsText
  import opened CityPage

  // ---------------------------------------------------------------------------
  // Defaults

  /** A `currentConditions` element none of whose queried children has text
      gives exactly the documented defaults. */
  lemma BlankCurrentIsAllDefaults(e: ConditionsElement)
    requires !Truthy(e.temperature) && !Truthy(e.condition) && !Truthy(e.iconCode)
    requires !Truthy(e.pressure) && !Truthy(e.relativeHumidity) && !Truthy(e.windSpeed)
    requires !Truthy(e.windChill) && !Truthy(e.humidex)
    ensures CurrentOf(e) == Current("--", "N/A", "00", "--", "--", "--", None, None)
  {
  }

  /** Field by field, each text of the current record is the element's text
      when that is present and non-empty, and otherwise its own default,
      whatever the other fields hold; wind chill and humidex are null
      instead of empty. */
  lemma CurrentFieldDefaults(e: ConditionsElement)
    ensures var c := CurrentOf(e);
      && c.temp == (if Truthy(e.temperature) then e.temperature.value else "--")
      && c.condition == (if Truthy(e.condition) then e.condition.value else "N/A")
      && c.iconCode == (if Truthy(e.iconCode) then e.iconCode.value else "00")
      && c.pressure == (if Truthy(e.pressure) then e.pressure.value else "--")
      && c.humidity == (if Truthy(e.relativeHumidity) then e.relativeHumidity.value else "--")
      && c.wind == (if Truthy(e.windSpeed) then e.windSpeed.value else "--")
      && c.windChill == (if Truthy(e.windChill) then e.windChill else None)
      && c.humidex == (if Truthy(e.humidex) then e.humidex else None)
  {
  }

  /** The same for an hourly entry: `pop` defaults to "0", the other texts to
      "--", "N/A" and "00", wind chill and humidex to null. */
  lemma HourlyDefaults(e: HourlyElement)
    ensures var h := HourlyOf(e);
      && h.temp == (if Truthy(e.temperature) then e.temperature.value else "--")
      && h.condition == (if Truthy(e.condition) then e.condition.value else "N/A")
      && h.iconCode == (if Truthy(e.iconCode) then e.iconCode.value else "00")
      && h.pop == (if Truthy(e.lop) then e.lop.value else "0")
      && h.windChill == (if Truthy(e.windChill) then e.windChill else None)
      && h.humidex == (if Truthy(e.humidex) then e.humidex else None)
      && h.temp != "" && h.pop != ""
  {
  }

  // ---------------------------------------------------------------------------
  // Daily merge

  /** There is one daily record per entry whose period is not a night period. */
  lemma {:induction false} DailyCountIsDayCount(fs: seq<ForecastElement>)
    ensures |DailyList(fs)| == DayCount(fs)
  {
    if fs != [] {
      DailyCountIsDayCount(fs[..|fs| - 1]);
    }
  }

  /** A night entry changes at most the last record, and of that record only
      the low: to its temperature when it has one and a record is open. */
  lemma NightStepTouchesOnlyLastLow(daily: seq<Daily>, f: ForecastElement)
    requires IsNight(OrDefault(f.period, ""))
    ensures var r := MergeStep(daily, f);
      && |r| == |daily|
      && (|daily| > 0 ==>
            && r[..|r| - 1] == daily[..|daily| - 1]
            && r[|r| - 1] == daily[|daily| - 1].(low := if Truthy(f.temperature) then f.temperature.value
                                                     else daily[|daily| - 1].low))
  {
  }

  /** A non-night entry appends a fresh record whose low is "--" and whose
      high is its temperature or "--"; if it has a temperature it first
      overwrites the previous record's high with it. Nothing else changes. */
  lemma DayStepOpensRecord(daily: seq<Daily>, f: ForecastElement)
    requires !IsNight(OrDefault(f.period, ""))
    ensures var r := MergeStep(daily, f);
      && |r| == |daily| + 1
      && r[|daily|] == OpenDay(f)
      && r[|daily|].low == "--"
      && r[|daily|].high == (if Truthy(f.temperature) then f.temperature.value else "--")
      && (|daily| > 0 ==>
            && r[..|daily| - 1] == daily[..|daily| - 1]
            && r[|daily| - 1] == daily[|daily| - 1].(high := if Truthy(f.temperature) then f.temperature.value
                                                         else daily[|daily| - 1].high))
  {
    var r := MergeStep(daily, f);
    if |daily| > 0 {
      assert r[..|daily| - 1] == daily[..|daily| - 1];
    }
  }

  /** The merge consumes the entries one at a time, from the front. */
  lemma DailyListSnoc(fs: seq<ForecastElement>, x: ForecastElement)
    ensures DailyList(fs + [x]) == MergeStep(DailyList(fs), x)
  {
    assert (fs + [x])[..|fs|] == fs;
  }

  /** A night entry seen before any day entry is dropped. */
  lemma {:induction false} LeadingNightIsDropped(f: ForecastElement, rest: seq<ForecastElement>)
    requires IsNight(OrDefault(f.period, ""))
    ensures DailyList([f] + rest) == DailyList(rest)
    decreases |rest|
  {
    if rest == [] {
      DailyListSnoc([], f);
      assert [f] + rest == [] + [f];
    } else {
      var n := |rest| - 1;
      var x := rest[n];
      LeadingNightIsDropped(f, rest[..n]);
      assert [f] + rest == ([f] + rest[..n]) + [x];
      assert rest == rest[..n] + [x];
      DailyListSnoc([f] + rest[..n], x);
      DailyListSnoc(rest[..n], x);
    }
  }

  /** The five characters of `period` at `i` spell "night", ignoring case. */
  predicate SpellsNightAt(period: string, i: nat)
    requires i + 5 <= |period|
  {
    && LowerChar(period[i]) == 'n' && LowerChar(period[i + 1]) == 'i'
    && LowerChar(period[i + 2]) == 'g' && LowerChar(period[i + 3]) == 'h'
    && LowerChar(period[i + 4]) == 't'
  }

  /** `IsNight` holds exactly when some five consecutive characters of the
      label spell "night" in any mix of case. */
  lemma NightSpelling(period: string)
    ensures IsNight(period) <==>
            exists i :: 0 <= i <= |period| - 5 && SpellsNightAt(period, i)
  {
    var lower := ToLower(period);
    IncludesIffOccurs(lower, "night");
    forall i | 0 <= i <= |period| - 5
      ensures OccursAt(lower, "night", i) <==> SpellsNightAt(period, i)
    {
      NightSpellingAt(period, i);
    }
  }

  lemma NightSpellingAt(period: string, i: nat)
    requires i + 5 <= |period|
    ensures OccursAt(ToLower(period), "night", i) <==> SpellsNightAt(period, i)
  {
    var lower := ToLower(period);
    assert lower[i] == LowerChar(period[i]) && lower[i + 1] == LowerChar(period[i + 1])
        && lower[i + 2] == LowerChar(period[i + 2]) && lower[i + 3] == LowerChar(period[i + 3])
        && lower[i + 4] == LowerChar(period[i + 4]);
    NightAt(lower, i);
  }

  lemma NightAt(s: string, i: nat)
    requires i + 5 <= |s|
    ensures OccursAt(s, "night", i) <==>
            s[i] == 'n' && s[i + 1] == 'i' && s[i + 2] == 'g' && s[i + 3] == 'h' && s[i + 4] == 't'
  {
    var w := s[i..i + 5];
    assert w[0] == s[i] && w[1] == s[i + 1] && w[2] == s[i + 2] && w[3] == s[i + 3] && w[4] == s[i + 4];
    if s[i] == 'n' && s[i + 1] == 'i' && s[i + 2] == 'g' && s[i + 3] == 'h' && s[i + 4] == 't' {
      FiveLetters(w, "night");
    }
  }

  /** Two five-letter strings with the same letters are equal. */
  lemma FiveLetters(a: string, b: string)
    requires |a| == 5 && |b| == 5
    requires a[0] == b[0] && a[1] == b[1] && a[2] == b[2] && a[3] == b[3] && a[4] == b[4]
    ensures a == b
  {
    assert forall k | 0 <= k < 5 :: a[k] == b[k];
  }

  /** A label ending in " night" (such as "Monday night") is a night period,
      whatever the case of the day name. */
  lemma NightLabel(day: string)
    ensures IsNight(day + " night")
  {
    var lower := ToLower(day + " night");
    assert lower[|day| + 1..|day| + 6] == "night";
    assert OccursAt(lower, "night", |day| + 1);
    IncludesIffOccurs(lower, "night");
  }

  function Entry(period: string, temp: string): ForecastElement {
    ForecastElement(Some(period), Some(temp), None, None)
  }

  /** Two day/night pairs [day t1, night n1, day t2, night n2] give the
      records (high t2, low n1) and (high t2, low n2): the second day's
      temperature overwrites the first day's high. */
  lemma {:induction false} TwoDaysShareSecondHigh(day1: string, day2: string, t1: string, n1: string,
                                                 t2: string, n2: string)
    requires !IsNight(day1) && !IsNight(day2)
    requires t1 != "" && n1 != "" && t2 != "" && n2 != ""
    ensures DailyList([Entry(day1, t1), Entry(day1 + " night", n1), Entry(day2, t2), Entry(day2 + " night", n2)])
         == [Daily(day1, t2, n1, "0", "00"), Daily(day2, t2, n2, "0", "00")]
  {
    var e0, e1, e2, e3 := Entry(day1, t1), Entry(day1 + " night", n1), Entry(day2, t2), Entry(day2 + " night", n2);
    NightLabel(day1);
    NightLabel(day2);
    var fs := [e0, e1, e2, e3];
    assert fs[..3] == [e0, e1, e2] && fs[..3][..2] == [e0, e1] && fs[..3][..2][..1] == [e0];
    assert [e0][..0] == [];
    var d1 := [Daily(day1, t1, "--", "0", "00")];
    assert DailyList([e0]) == d1;
    var d2 := [Daily(day1, t1, n1, "0", "00")];
    assert DailyList([e0, e1]) == d2;
    var d3 := [Daily(day1, t2, n1, "0", "00"), Daily(day2, t2, "--", "0", "00")];
    assert DailyList([e0, e1, e2]) == d3;
  }

  /** A label with no letter "g" in either case cannot contain "night":
      every weekday name is a day period. */
  lemma NoLetterGIsDayPeriod(period: string)
    requires forall i :: 0 <= i < |period| ==> LowerChar(period[i]) != 'g'
    ensures !IsNight(period)
  {
    var lower := ToLower(period);
    IncludesIffOccurs(lower, "night");
    forall i | 0 <= i <= |lower| - 5
      ensures !OccursAt(lower, "night", i)
    {
      assert lower[i + 2] == LowerChar(period[i + 2]) != 'g';
      assert lower[i..i + 5][2] == lower[i + 2];
    }
  }

  /** "Monday" and "Tuesday" are day periods, so [Monday 10, Monday night 2,
      Tuesday 12, Tuesday night 4] is an instance of TwoDaysShareSecondHigh:
      highs [12, 12], lows [2, 4]. */
  lemma WeekdaysAreDayPeriods()
    ensures !IsNight("Monday") && !IsNight("Tuesday")
  {
    NoLetterGIsDayPeriod("Monday");
    NoLetterGIsDayPeriod("Tuesday");
  }

  // ---------------------------------------------------------------------------
  // Alerts

  /** The filter distributes over concatenation: kept events keep their order. */
  lemma {:induction false} AlertListAppend(a: seq<EventElement>, b: seq<EventElement>)
    ensures AlertList(a + b) == AlertList(a) + AlertList(b)
    decreases |b|
  {
    if b == [] {
      assert a + b == a;
    } else {
      var n := |b| - 1;
      AlertListAppend(a, b[..n]);
      assert (a + b)[..|a + b| - 1] == a + b[..n];
      assert (a + b)[|a + b| - 1] == b[n];
    }
  }

  /** An alert is reported exactly when some event has a non-empty type, a
      non-empty description and a type other than "ended". */
  lemma {:induction false} AlertListMembers(es: seq<EventElement>, x: Alert)
    ensures x in AlertList(es) <==>
            exists i :: 0 <= i < |es| && KeepEvent(es[i]) && AlertOf(es[i]) == x
  {
    if es != [] {
      var n := |es| - 1;
      var prefix, last := es[..n], es[n];
      var kept := if KeepEvent(last) then [AlertOf(last)] else [];
      assert AlertList(es) == AlertList(prefix) + kept;
      AlertListMembers(prefix, x);
      if x in AlertList(prefix) {
        var i :| 0 <= i < n && KeepEvent(prefix[i]) && AlertOf(prefix[i]) == x;
        assert es[i] == prefix[i];
      } else if x in kept {
        assert KeepEvent(es[n]) && AlertOf(es[n]) == x;
      }
      if exists i :: 0 <= i < |es| && KeepEvent(es[i]) && AlertOf(es[i]) == x {
        var i :| 0 <= i < |es| && KeepEvent(es[i]) && AlertOf(es[i]) == x;
        if i < n {
          assert prefix[i] == es[i];
        } else {
          assert x in kept;
        }
      }
    }
  }

}
