/** `fetchWeather`: fetch and parse the city page, then fetch the minute
    precipitation only when an API key is set. The key, which the source
    keeps in a global, is a parameter; the two network responses are inputs,
    and the outcome records which requests were sent. */
module Refresh {
  import opened JsText
  import opened CityPage
  import opened Precipitation

  /** What DOMParser made of the response text. */
  datatype XmlParse = WellFormed(doc: Document) | ParserError(text: string)

  /** The proxied city-page request: a rejected `fetch` (with its error
      message) or an HTTP response. */
  datatype CityPageResponse = FetchRejected(message: string) | CityPageHttp(status: nat, xml: XmlParse)

  datatype Request = CityPageRequest | OneCallRequest

  datatype Screen = ErrorScreen(message: string) | ContentScreen(forecast: Forecast, precip: PrecipPanel)

  datatype Outcome = Outcome(screen: Screen, requests: seq<Request>)

  datatype Result<T> = Ok(value: T) | Err(message: string)

  const ErrorPrefix: string := "Failed to load weather data. Please try again. Error: "

  /** `fetchEnvironmentCanada`: the error message of each thrown Error, or the
      normalised forecast. */
  function FetchEnvironmentCanada(response: CityPageResponse): (r: Result<Forecast>)
    ensures r.Ok? <==> response.CityPageHttp? && IsOk(response.status) && response.xml.WellFormed?
    ensures r.Ok? ==> r.value == Normalise(response.xml.doc)
  {
    match response
    case FetchRejected(message) => Err(message)
    case CityPageHttp(status, xml) =>
      if !IsOk(status) then Err("HTTP error! status: " + NatToString(status))
      else
        match xml
        case ParserError(text) => Err("XML parsing error: " + text)
        case WellFormed(doc) => Ok(Normalise(doc))
  }

  /** `fetchWeather` with `API_KEY == apiKey`. */
  function FetchWeather(apiKey: string, primary: CityPageResponse, secondary: OneCallResponse): (o: Outcome)
    ensures |o.requests| > 0 && o.requests[0] == CityPageRequest
    ensures OneCallRequest in o.requests <==> apiKey != "" && FetchEnvironmentCanada(primary).Ok?
  {
    match FetchEnvironmentCanada(primary)
    case Err(message) => Outcome(ErrorScreen(ErrorPrefix + message), [CityPageRequest])
    case Ok(forecast) =>
      if apiKey != "" then
        Outcome(ContentScreen(forecast, FetchMinutePrecipitation(secondary)), [CityPageRequest, OneCallRequest])
      else
        Outcome(ContentScreen(forecast, ApiKeyPrompt("")), [CityPageRequest])
  }

  /** The refresh fails exactly when the city page cannot be fetched or
      parsed; it then shows the cause and never asks for precipitation. */
  lemma PrimaryFailureIsTheOnlyFailure(apiKey: string, primary: CityPageResponse, secondary: OneCallResponse)
    ensures var o := FetchWeather(apiKey, primary, secondary);
      && (o.screen.ErrorScreen? <==> FetchEnvironmentCanada(primary).Err?)
      && (o.screen.ErrorScreen? ==>
            && o.requests == [CityPageRequest]
            && o.screen.message == ErrorPrefix + FetchEnvironmentCanada(primary).message)
      && (o.screen.ContentScreen? ==> o.screen.forecast == FetchEnvironmentCanada(primary).value)
  {
  }

  /** Whatever the precipitation request returns, the refresh's success and
      the forecast it shows are the same. */
  lemma SecondaryNeverDecidesFailure(apiKey: string, primary: CityPageResponse, s1: OneCallResponse, s2: OneCallResponse)
    ensures FetchWeather(apiKey, primary, s1).screen.ErrorScreen? == FetchWeather(apiKey, primary, s2).screen.ErrorScreen?
    ensures FetchWeather(apiKey, primary, s1).screen.ContentScreen? ==>
              FetchWeather(apiKey, primary, s1).screen.forecast == FetchWeather(apiKey, primary, s2).screen.forecast
  {
  }

  /** Without a key nothing is sent to the precipitation API, its response
      cannot matter, and the panel is the plain key prompt. */
  lemma MissingKeyNeverCallsSecondary(primary: CityPageResponse, s1: OneCallResponse, s2: OneCallResponse)
    ensures FetchWeather("", primary, s1) == FetchWeather("", primary, s2)
    ensures OneCallRequest !in FetchWeather("", primary, s1).requests
    ensures FetchWeather("", primary, s1).screen.ContentScreen? ==>
              FetchWeather("", primary, s1).screen.precip == ApiKeyPrompt("")
  {
  }

  /** With a key and a good city page, the invalid-key prompt appears exactly
      on a 401 from the precipitation API; every other failure gives the plain
      prompt and success gives the summary card. */
  lemma InvalidKeyOnlyOn401(apiKey: string, primary: CityPageResponse, secondary: OneCallResponse)
    requires apiKey != "" && FetchEnvironmentCanada(primary).Ok?
    ensures var p := FetchWeather(apiKey, primary, secondary).screen.precip;
      && (p == ApiKeyPrompt(InvalidKeyMessage) <==> secondary.HttpResponse? && secondary.status == 401)
      && (p == ApiKeyPrompt("") <==> !(secondary.HttpResponse? && secondary.status == 401) && p.ApiKeyPrompt?)
      && (secondary.HttpResponse? && IsOk(secondary.status) && secondary.body.JsonObject? &&
          !ChartThrows(secondary.body.minutely.GetOr([])) ==>
            p == Card(Summarize(secondary.body.minutely.GetOr([]))))
  {
  }
}
