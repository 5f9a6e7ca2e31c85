/** The minute-by-minute precipitation panel: the summary that
    `displayMinutePrecipitation` derives from the `minutely` series, and the
    outcome of `fetchMinutePrecipitation` for each kind of HTTP response. */
module Precipitation {
  import opened JsText

  /** One element of `minutely`; `precipitation` is None when the field is
      missing or null. Amounts are exact reals, not JavaScript doubles. */
  datatype Minute = Minute(precipitation: Option<real>)

  /** `min.precipitation || 0` */
  function Amount(m: Minute): real {
    m.precipitation.GetOr(0.0)
  }

  /** `minutely.reduce((sum, min) => sum + amount, 0)`: never negative for
      non-negative amounts, and zero for a dry series. */
  function Total(ms: seq<Minute>): (r: real)
    ensures NonNegative(ms) ==> r >= 0.0
    ensures (forall k :: 0 <= k < |ms| ==> Amount(ms[k]) == 0.0) ==> r == 0.0
  {
    if ms == [] then 0.0
    else
      var n := |ms| - 1;
      assert forall k :: 0 <= k < n ==> ms[..n][k] == ms[k];
      Total(ms[..n]) + Amount(ms[n])
  }

  /** `Math.max(...amounts)`, taken only of a non-empty series. */
  function Peak(ms: seq<Minute>): (p: real)
    requires |ms| > 0
    ensures forall k :: 0 <= k < |ms| ==> Amount(ms[k]) <= p
    ensures exists k :: 0 <= k < |ms| && Amount(ms[k]) == p
  {
    if |ms| == 1 then Amount(ms[0])
    else
      var p := Peak(ms[..|ms| - 1]);
      var a := Amount(ms[|ms| - 1]);
      assert forall k :: 0 <= k < |ms| - 1 ==> ms[..|ms| - 1][k] == ms[k];
      if a > p then a else p
  }

  /** `findIndex(min => amount > 0)`: the first minute with a positive
      amount, or -1 when there is none. */
  function FirstPositive(ms: seq<Minute>): (r: int)
    ensures -1 <= r < |ms|
    ensures r == -1 <==> forall k :: 0 <= k < |ms| ==> Amount(ms[k]) <= 0.0
    ensures r >= 0 ==> Amount(ms[r]) > 0.0 && forall k :: 0 <= k < r ==> Amount(ms[k]) <= 0.0
  {
    if ms == [] then -1
    else if Amount(ms[0]) > 0.0 then 0
    else
      var r := FirstPositive(ms[1..]);
      assert forall k :: 1 <= k < |ms| ==> ms[1..][k - 1] == ms[k];
      if r == -1 then -1 else r + 1
  }

  datatype Headline = NoneExpected | HappeningNow | StartingIn(minutes: nat)

  datatype Summary = Summary(total: real, peak: real, headline: Headline)

  /** The panel's card: the fixed "no precipitation in the next hour" card
      for an empty series, a summary card otherwise. */
  datatype PrecipCard = NoPrecipitationCard | SummaryCard(summary: Summary)

  /** The summary part of `displayMinutePrecipitation`. */
  function Summarize(ms: seq<Minute>): (card: PrecipCard)
    ensures card.NoPrecipitationCard? <==> |ms| == 0
  {
    if |ms| == 0 then NoPrecipitationCard
    else
      var total := Total(ms);
      var headline :=
        if total > 0.0 then
          var first := FirstPositive(ms);
          if first == 0 then HappeningNow
          else if first > 0 then StartingIn(first)
          else NoneExpected
        else NoneExpected;
      SummaryCard(Summary(total, Peak(ms), headline))
  }

  /** The summary line for each headline. */
  function HeadlineText(h: Headline): (r: string)
    ensures |r| > 0
  {
    match h
    case NoneExpected => "No precipitation expected"
    case HappeningNow => "\U{1F327}\U{FE0F} Precipitation happening now"
    case StartingIn(k) => "\U{1F327}\U{FE0F} Precipitation starting in " + NatToString(k) + " minutes"
  }

  const NoPrecipitationText: string := "No precipitation expected in the next hour"

  /** Different headlines read differently: the summary line determines the
      headline, and the minute count can be read back from it. */
  lemma HeadlineTextDistinguishes(a: Headline, b: Headline)
    ensures HeadlineText(a) == HeadlineText(b) <==> a == b
  {
    var ta, tb := HeadlineText(a), HeadlineText(b);
    if ta == tb {
      assert ta[0] == tb[0];
      if a.StartingIn? && b.StartingIn? {
        var prefix := "\U{1F327}\U{FE0F} Precipitation starting in ";
        var x, y := NatToString(a.minutes), NatToString(b.minutes);
        assert ta == prefix + x + " minutes" && tb == prefix + y + " minutes";
        assert |x| == |y|;
        assert x == ta[|prefix|..|prefix| + |x|];
        assert y == tb[|prefix|..|prefix| + |y|];
        NatToStringRoundTrip(a.minutes);
        NatToStringRoundTrip(b.minutes);
      } else if a.HappeningNow? || b.HappeningNow? {
        assert ta[17] == tb[17];
      }
    }
  }

  // ---------------------------------------------------------------------------
  // Summary properties

  /** A positive total has a positive minute. */
  lemma {:induction false} PositiveTotalHasPositiveMinute(ms: seq<Minute>)
    requires Total(ms) > 0.0
    ensures exists k :: 0 <= k < |ms| && Amount(ms[k]) > 0.0
  {
    var n := |ms| - 1;
    if Amount(ms[n]) <= 0.0 {
      PositiveTotalHasPositiveMinute(ms[..n]);
      var k :| 0 <= k < n && Amount(ms[..n][k]) > 0.0;
      assert ms[k] == ms[..n][k];
    }
  }

  /** The headline of a non-empty series: nothing expected exactly when the
      total is not positive; otherwise "now" when the first minute has some,
      else "starting in k minutes" for the first such minute k > 0. The
      findIndex result -1, which the source leaves unhandled, never occurs. */
  lemma HeadlineCases(ms: seq<Minute>)
    requires |ms| > 0
    ensures var h := Summarize(ms).summary.headline;
      && (h == NoneExpected <==> Total(ms) <= 0.0)
      && (h == HappeningNow <==> Total(ms) > 0.0 && Amount(ms[0]) > 0.0)
      && (h.StartingIn? <==> Total(ms) > 0.0 && Amount(ms[0]) <= 0.0)
      && (h.StartingIn? ==>
            && 0 < h.minutes < |ms|
            && Amount(ms[h.minutes]) > 0.0
            && forall k :: 0 <= k < h.minutes ==> Amount(ms[k]) <= 0.0)
  {
    if Total(ms) > 0.0 {
      PositiveTotalHasPositiveMinute(ms);
    }
  }

  /** The series of amounts is the data: the summary's total and peak are the
      sum and the largest amount, a missing amount counting as 0. */
  lemma SummaryTotals(ms: seq<Minute>)
    requires |ms| > 0
    ensures var s := Summarize(ms).summary;
      && s.total == Total(ms)
      && (forall k :: 0 <= k < |ms| ==> Amount(ms[k]) <= s.peak)
      && (exists k :: 0 <= k < |ms| && Amount(ms[k]) == s.peak)
  {
  }

  predicate NonNegative(ms: seq<Minute>) {
    forall k :: 0 <= k < |ms| ==> Amount(ms[k]) >= 0.0
  }

  /** With non-negative amounts, as the API reports them, the total is zero
      exactly when every minute is dry. */
  lemma {:induction false} ZeroTotalIffDry(ms: seq<Minute>)
    requires NonNegative(ms)
    ensures Total(ms) >= 0.0
    ensures Total(ms) == 0.0 <==> forall k :: 0 <= k < |ms| ==> Amount(ms[k]) == 0.0
  {
    if ms != [] {
      var n := |ms| - 1;
      assert forall k :: 0 <= k < n ==> ms[..n][k] == ms[k];
      ZeroTotalIffDry(ms[..n]);
    }
  }

  /** With non-negative amounts, a non-empty series says "No precipitation
      expected" exactly when every minute is dry. */
  lemma DryIffNoneExpected(ms: seq<Minute>)
    requires |ms| > 0 && NonNegative(ms)
    ensures Summarize(ms).summary.headline == NoneExpected <==>
            forall k :: 0 <= k < |ms| ==> Amount(ms[k]) == 0.0
  {
    ZeroTotalIffDry(ms);
    HeadlineCases(ms);
  }

  // ---------------------------------------------------------------------------
  // Rendering and fetching

  /** The chart formats every amount with `toFixed(2)`, which throws when an
      amount is missing; the card is then never written. */
  predicate ChartThrows(ms: seq<Minute>): (r: bool)
    ensures r ==> |ms| > 0
    ensures !r ==> forall k :: 0 <= k < |ms| ==> ms[k].precipitation.Some?
  {
    |ms| > 0 && exists k :: 0 <= k < |ms| && ms[k].precipitation.None?
  }

  /** The body of a 2xx response as `response.json()` and `data.minutely`
      see it. `MalformedJson` is text that does not parse or the JSON
      `null`: `response.json()` rejects the first and reading `minutely` of
      `null` throws. Every other JSON value is a `JsonObject`: an object
      without a `minutely` field, and a primitive such as `42`, `"x"` or
      `true` (whose `minutely` is `undefined`), are both `JsonObject(None)`. */
  datatype JsonBody = MalformedJson | JsonObject(minutely: Option<seq<Minute>>)

  datatype OneCallResponse = NetworkFailure | HttpResponse(status: nat, body: JsonBody)

  /** What the precipitation section shows. */
  datatype PrecipPanel = ApiKeyPrompt(errorMsg: string) | Card(card: PrecipCard)

  const InvalidKeyMessage: string := "Invalid API key. Please check and try again."

  /** `fetchMinutePrecipitation` once the request was sent. Every failure is
      caught and shown as a prompt: 401 as the invalid-key prompt, any other
      failure as the plain one. */
  function FetchMinutePrecipitation(response: OneCallResponse): (panel: PrecipPanel)
    ensures panel.Card? <==>
              && response.HttpResponse? && IsOk(response.status) && response.body.JsonObject?
              && !ChartThrows(response.body.minutely.GetOr([]))
    ensures panel.Card? ==> panel.card == Summarize(response.body.minutely.GetOr([]))
    ensures panel.ApiKeyPrompt? ==> panel.errorMsg in {"", InvalidKeyMessage}
    ensures panel == ApiKeyPrompt(InvalidKeyMessage) <==> response.HttpResponse? && response.status == 401
  {
    match response
    case NetworkFailure => ApiKeyPrompt("")
    case HttpResponse(status, body) =>
      if !IsOk(status) then
        if status == 401 then ApiKeyPrompt(InvalidKeyMessage) else ApiKeyPrompt("")
      else
        match body
        case MalformedJson => ApiKeyPrompt("")
        case JsonObject(minutely) =>
          var ms := minutely.GetOr([]);
          if ChartThrows(ms) then ApiKeyPrompt("") else Card(Summarize(ms))
  }
}
