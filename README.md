# Local weather dashboard — a Dafny model of its data pipeline and service worker

The dashboard shows the weather for a few Ontario cities. On each refresh it
fetches the Environment Canada city-page XML through a CORS proxy and
normalises it into one forecast: current conditions, up to 24 hourly entries,
a daily series in which each day entry and the night entry after it are merged
into one record, and the active weather alerts. When an OpenWeatherMap API key
is set it then asks the One Call API for minute-by-minute precipitation and
summarises it; without a key, or when that request fails, it shows a key
prompt instead and the rest of the page still loads. A service worker answers
every http request network first, keeps a copy of every non-API response in
the cache `weather-app-v2`, falls back to the caches (or a 503) when offline,
deletes old caches on activation and pre-caches the app shell on install.

The model, module by module:

- `JsText` (js_text.dfy) — the JavaScript value operations the code relies on:
  `text || fallback` truthiness, `toLowerCase`, `includes`, `startsWith`,
  `response.ok` and the decimal rendering of a whole number.
- `CityPage` (city_page.dfy) — the city-page document as the parser queries
  it (every queried child is `Option<string>`: absent or present with its
  text), the normalised forecast, and the normalisation as functions: field
  defaults, the 24-entry hourly cap, the day/night merge step by step, and the
  alert filter.
- `CityPageParser` (city_page_parser.dfy) — `parseEnvironmentCanadaXML` as
  written: three loops pushing into lists, the daily loop holding a reference
  `currentDay` (a `DayRecord` object) to the record it pushed last and
  writing its `high` and `low` in place (`SetLastHigh`, `SetLastLow`) or
  pushing a new record (`OpenRecord`). Each loop is proved to compute the
  corresponding `CityPage` function.
- `CityPageProperties` (city_page_properties.dfy) — what the normalisation
  promises, as lemmas.
- `Icons` (icons.dfy) — the `WEATHER_ICONS` table and its sun fallback. The
  table is written as one row of icons per leading digit of the code, so a
  lookup compares characters rather than whole strings; which codes have an
  entry follows from the row lengths and is proved.
- `ApparentTemperature` (feels_like.dfy) — the "feels like" value on the
  current and hourly cards, and the current card's icon.
- `Precipitation` (precipitation.dfy) — the minute-precipitation summary and
  what `fetchMinutePrecipitation` shows for each kind of response.
- `Refresh` (refresh.dfy) — `fetchEnvironmentCanada` and `fetchWeather`: the
  city page decides success, the precipitation request is optional.
- `ServiceWorker` (service_worker.dfy) — the browser's CacheStorage as a
  class whose methods update its caches in place, and the install, fetch and
  activate handlers as methods on it.

In the daily merge, a day entry that has a temperature first writes it into
the previous record's high (app.js:182-184) and then opens its own record.
Because of that overwrite, [day 10, night 2, day 12, night 4] yields highs
12 and 12 (lows 2 and 4), not 10 and 12. The model keeps this behaviour:
`CityPageProperties.TwoDaysShareSecondHigh` proves it for any two day
labels, and `CityPageProperties.DayStepOpensRecord` states the step in
general.

## Model

| member | source | states |
|---|---|---|
| JsText.ToLower | app.js:181 | `toLowerCase` keeps the length and lower-cases each character on its own |
| JsText.IncludesIffOccurs | app.js:181 | `includes` holds exactly when the part occurs at some offset of the string |
| JsText.NatToString | app.js:338 | the decimal text of a whole number is non-empty, all digits, with no leading zero for a positive number |
| JsText.NatToStringRoundTrip | app.js:338 | reading the decimal text back as digits gives the number |
| CityPage.CurrentOf | app.js:137-146 | every text field of the current record is non-empty and is either the element's own text or its sentinel; wind chill and humidex are null or the element's non-empty text (exact per-field form: `CityPageProperties.CurrentFieldDefaults`) |
| CityPage.HourlyOf | app.js:156-164 | an hourly record keeps the time attribute, and each text is non-empty and either the entry's own text or its sentinel ("0" for the probability); wind chill and humidex are null or the entry's non-empty text |
| CityPage.HourlyList | app.js:150-166 | the hourly list has min(24, n) entries, the k-th being the k-th document entry converted |
| CityPage.Normalise | app.js:126-210 | the forecast has a current record exactly when the document has current conditions, at most 24 hourly records, no daily records without a forecast group and no more alerts than events (equal to the parser: `CityPageParser.ParseEnvironmentCanadaXML`) |
| CityPage.AlertList | app.js:199-207 | the alert list is no longer than the event list, and every alert has a non-empty type and description and a type other than "ended" |
| CityPageParser.ParseEnvironmentCanadaXML | app.js:126-210 | the parse produces exactly the normalised forecast of the document |
| CityPageParser.CollectHourly | app.js:149-166 | the hourly loop, which visits every entry but pushes only those at index below 24, computes the capped hourly list |
| CityPageParser.MergeDaily | app.js:168-197 | the daily loop, writing through its `currentDay` reference to the record pushed last, computes the day/night merge |
| CityPageParser.DayRecord.constructor | app.js:185-191 | a new day record carries its period, its high, pop and icon code, and the low "--" |
| CityPageParser.SetLastHigh | app.js:182-184 | writing the high through `currentDay` changes the high of the last record and nothing else |
| CityPageParser.SetLastLow | app.js:193-195 | writing the low through `currentDay` changes the low of the last record and nothing else |
| CityPageParser.OpenRecord | app.js:185-192 | a fresh record with the entry's values is appended, and no earlier record is it |
| CityPageParser.CollectAlerts | app.js:199-207 | the alert loop computes the alert filter in document order |
| CityPageProperties.BlankCurrentIsAllDefaults | app.js:137-146 | a current-conditions element with no queried text gives "--", "N/A", "00", "--", "--", "--", null, null |
| CityPageProperties.CurrentFieldDefaults | app.js:137-146 | each of the eight fields is, independently of the others, the element's text when present and non-empty and otherwise its own default: "--", "N/A", "00", "--", "--", "--", and null for wind chill and humidex |
| CityPageProperties.HourlyDefaults | app.js:158-163 | each hourly field is its text or its default ("--", "N/A", "00", "0" for the probability, null for wind chill and humidex) |
| CityPageProperties.DailyCountIsDayCount | app.js:171-196 | `CityPage.DailyList` has one record per entry whose period is not a night period |
| CityPageProperties.DailyListSnoc | app.js:174-196 | `CityPage.DailyList` folds `CityPage.MergeStep` over the entries in document order |
| CityPageProperties.NightStepTouchesOnlyLastLow | app.js:193-195 | a night entry changes only the low of the last record, and only when it has a temperature and a record is open |
| CityPageProperties.DayStepOpensRecord | app.js:181-192 | a day entry appends a record with low "--" and its temperature (or "--") as high, after overwriting the previous record's high with its temperature when it has one; nothing else changes |
| CityPageProperties.LeadingNightIsDropped | app.js:172-195 | a night entry before any day entry leaves no trace in the daily list |
| CityPageProperties.NightSpelling | app.js:181 | `CityPage.IsNight` holds exactly when some five consecutive characters of the period label spell "night" in any mix of ASCII case |
| CityPageProperties.NightLabel | app.js:181 | any label ending in " night" is a night period |
| CityPageProperties.TwoDaysShareSecondHigh | app.js:174-196 | [day t1, night n1, day t2, night n2] merges into (high t2, low n1) and (high t2, low n2) |
| CityPageProperties.NoLetterGIsDayPeriod | app.js:181 | a label with no letter "g" in either case is not a night period |
| CityPageProperties.WeekdaysAreDayPeriods | app.js:181 | "Monday" and "Tuesday" are not night periods |
| CityPageProperties.AlertListAppend | app.js:200-207 | the alert filter distributes over concatenation of event lists |
| CityPageProperties.AlertListMembers | app.js:200-207 | an alert is reported exactly when some event with non-empty type and description and type other than "ended" gives it |
| Icons.Glyph | app.js:21-32 | display helper: no icon's glyph is the empty string, which is what makes the `|| sun` fallback of `Icons.IconFor` depend on the code alone |
| Icons.IconFor | app.js:219 | codes "00" to "48" show their table entry; any other code shows the sun |
| Icons.DefaultIconIsSun | app.js:22 | the default code "00" is in the table as the sun |
| Icons.TableEntry | app.js:21-32 | the table has an entry exactly for the two-digit codes "00" to "48" |
| ApparentTemperature.FeelsLike | app.js:222 | feels-like is the first non-empty of wind chill, humidex and temperature, and undefined when all three are empty |
| ApparentTemperature.CurrentFeelsLikeText | app.js:222-223 | the current card's text is a non-empty reading followed by the degree sign, and "--°" without current conditions (cases: `ApparentTemperature.CurrentFeelsLikeFallback`) |
| ApparentTemperature.CurrentIcon | app.js:219 | without current conditions the icon is the sun; otherwise it is the sun or the table entry of the record's code (cases: `ApparentTemperature.CurrentIconCases`) |
| ApparentTemperature.HourlyFeelsLikeIsDefined | app.js:252 | on an hourly card feels-like is always defined: the document's wind chill, else its humidex, else its temperature or "--" |
| ApparentTemperature.CurrentFeelsLikeFallback | app.js:222-223 | the `'--°'` branch is taken only when the document had no current conditions; otherwise the text is the first non-empty of wind chill, humidex and temperature, or "--" when all three are empty, followed by "°" (so a record without any reading also reads "--°") |
| ApparentTemperature.CurrentIconCases | app.js:219 | the current card shows the sun when there are no current conditions or no icon code, and otherwise the table entry for a code "00" to "48" |
| Precipitation.Total | app.js:328 | the total of non-negative amounts is non-negative, and a dry series totals zero (the converse: `Precipitation.ZeroTotalIffDry`) |
| Precipitation.Peak | app.js:329 | the peak is an amount of the series and no amount exceeds it |
| Precipitation.FirstPositive | app.js:334 | `findIndex` gives the first minute with a positive amount, or -1 exactly when there is none |
| Precipitation.Summarize | app.js:317-325 | the "no precipitation in the next hour" card appears exactly for an empty series |
| Precipitation.HeadlineText | app.js:332-338 | every headline has a non-empty summary line |
| Precipitation.HeadlineTextDistinguishes | app.js:332-338 | two headlines have the same summary line exactly when they are the same headline, so the minute count in "starting in k minutes" reads back as k |
| Precipitation.PositiveTotalHasPositiveMinute | app.js:328-334 | a positive total implies a minute with a positive amount |
| Precipitation.HeadlineCases | app.js:330-340 | the headline is "none expected" exactly when the total is not positive, "now" exactly when the first minute is wet, and otherwise "starting in k minutes" for the first wet minute k |
| Precipitation.SummaryTotals | app.js:328-329 | the summary's total is the sum of the amounts and its peak is their maximum, a missing amount counting as 0 |
| Precipitation.ZeroTotalIffDry | app.js:328 | with non-negative amounts the total is zero exactly when every minute is dry |
| Precipitation.DryIffNoneExpected | app.js:330-340 | with non-negative amounts a non-empty series says "no precipitation expected" exactly when every minute is dry |
| Precipitation.ChartThrows | app.js:343-345 | the chart throws only for a non-empty series, and when it does not throw every minute has an amount for `toFixed` |
| Precipitation.FetchMinutePrecipitation | app.js:291-311 | the card appears exactly for a 2xx body that parses to a non-null JSON value whose series the chart can format (a primitive, or an object without `minutely`, gives the "no precipitation in the next hour" card); 401 and only 401 gives the invalid-key prompt; every other failure, including unparsable text and `null`, gives the plain prompt |
| Refresh.FetchEnvironmentCanada | app.js:98-123 | the forecast is returned exactly for a 2xx response whose XML parsed, and it is the normalised document |
| Refresh.FetchWeather | app.js:64-95 | the city page is always requested first; the precipitation request is sent exactly when a key is set and the city page succeeded |
| Refresh.PrimaryFailureIsTheOnlyFailure | app.js:71-94 | the error screen appears exactly when the city page fails, with the prefixed message and no second request |
| Refresh.SecondaryNeverDecidesFailure | app.js:80-85 | the precipitation response never changes whether the refresh fails nor the forecast it shows |
| Refresh.MissingKeyNeverCallsSecondary | app.js:81-85 | without a key the precipitation API is not called and the panel is the plain key prompt |
| Refresh.InvalidKeyOnlyOn401 | app.js:297-310 | with a key and a good city page, the invalid-key prompt appears exactly on a 401, and a good series gives its summary card |
| ServiceWorker.HttpSchemeSpelling | sw.js:30 | `ServiceWorker.IsHttp` holds exactly when the URL's first four characters are "http" |
| ServiceWorker.IsApiUrl | sw.js:38-40 | a URL is an API URL exactly when one of the three weather hosts occurs at some offset of its text |
| ServiceWorker.ApiHostsAreApiUrls | sw.js:38-40 | a host name anywhere in the URL, whatever surrounds it, makes it an API URL |
| ServiceWorker.Fallback | sw.js:60-75 | offline, a cached response is returned as is, and without one a 503 text/plain "Offline - No cached data available" |
| ServiceWorker.Lookup | sw.js:62 | `caches.match` finds the entry of the first cache, in creation order, holding the URL, and nothing exactly when no cache holds it |
| ServiceWorker.Without | sw.js:89 | removing a cache name keeps exactly the other names, and without repeats when there were none |
| ServiceWorker.WithoutKeepsOrder | sw.js:89 | any two names left after removal appear in the same order in the original list |
| ServiceWorker.CacheStorage.Open | sw.js:48 | opening a cache creates it empty when missing and changes nothing else |
| ServiceWorker.CacheStorage.Put | sw.js:50 | `put` stores a GET http(s) request's response other than 206 under its URL and changes nothing else; any other pair changes nothing |
| ServiceWorker.CacheStorage.AddAll | sw.js:9-14 | `addAll` stores all responses or, if any fetch fails or is not ok, none |
| ServiceWorker.CacheStorage.Match | sw.js:62 | `caches.match` gives nothing exactly for a non-GET request or a URL no cache holds, and otherwise the entry of some cache holding the URL (which one: `ServiceWorker.Lookup`) |
| ServiceWorker.CacheStorage.Delete | sw.js:89 | `delete` removes exactly the named cache and reports whether it existed |
| ServiceWorker.CacheStorage.Keys | sw.js:84 | accessor: `keys` returns the name list that `Open` appends to and `Delete` removes from, so it is in creation order |
| ServiceWorker.PutEach | sw.js:9-13 | after storing a list of URLs the cache holds exactly its old URLs and the new ones |
| ServiceWorker.Respond | sw.js:28-78 | non-http requests are not intercepted; otherwise the network response when there is one, else the offline fallback |
| ServiceWorker.HandleFetch | sw.js:28-78 | the handler answers as `Respond` with the caches as they were; it writes to `weather-app-v2` exactly for a non-API response whose cache opened, and changes nothing otherwise |
| ServiceWorker.Activate | sw.js:81-100 | after activation only `weather-app-v2` remains, if it existed, with its entries unchanged |
| ServiceWorker.OnlyName | sw.js:82-91 | a list of distinct cache names all equal to one name is that name or nothing |
| ServiceWorker.PrecacheUrls | sw.js:9-13 | helper: the app shell is four URLs, each under the worker's base URL (pairwise different: `ServiceWorker.PrecacheUrlsDistinct`) |
| ServiceWorker.Install | sw.js:4-25 | install always settles successfully; if the cache opens, the app shell is added all or nothing |
| ServiceWorker.PutEachEntries | sw.js:9-13 | with distinct URLs each URL is mapped to its own response and other entries are kept |
| ServiceWorker.PrecacheUrlsDistinct | sw.js:9-13 | the four app-shell URLs are pairwise different |
| ServiceWorker.InstallIsAllOrNothing | sw.js:9-17 | a successful install maps each app-shell URL to its response; one failed fetch leaves the cache unchanged |
| ServiceWorker.LookupFindsOnlyHolder | sw.js:62-66 | the match is the entry of the only cache holding the URL |
| ServiceWorker.StoredResponseServedOffline | sw.js:34-75 | a response the handler cached is what a later offline fetch of the same request returns, when no other cache holds the URL |

## Left out

- DOM rendering (the cards, the alert banners, the 7-day display limit, the bar chart heights and `toFixed(2)` labels), the install prompt and the location selector: they only present the normalised values.
- `localStorage` and `saveAPIKey`: the API key is a parameter of `Refresh.FetchWeather`.
- `fetch`, the CORS proxy URL, `DOMParser` and `response.json()`: their outcomes are inputs (`CityPageResponse`, `XmlParse`, `OneCallResponse`).
- The hourly `time` text: `new Date(...).toLocaleTimeString(...)` depends on the locale and clock; the model keeps the raw `dateTimeUTC` attribute.
- `toLowerCase` folds only the ASCII letters; other case mappings of Unicode are not modelled.
- `WEATHER_ICONS[code]` on inherited object keys such as `"constructor"` is not modelled: such a code falls back to the sun in the model.
- `Icons.IconFor`: a code is looked up by its characters, so only the exact two-character codes "00" to "48" find an entry, as with the object's string keys.
- Precipitation amounts are exact reals, not IEEE doubles, so rounding in the sum is not modelled.
- `Precipitation.FetchMinutePrecipitation`: the JSON body is reduced to what `data.minutely` sees. Unparsable text and `null` are `MalformedJson`; any other value, a primitive included, is a `JsonObject` whose `minutely` is absent unless it is an object with that field. Any missing amount in a non-empty series makes `toFixed` throw inside `minutely.map` (app.js:343-345), before the only `innerHTML` write (app.js:348). So nothing is written and the catch shows the plain prompt, as modelled. Elements of `minutely` that are not objects are not modelled.
- The "Last updated" clock text, `setInterval` refreshes and the concurrency of overlapping refreshes.
- `ServiceWorker.HandleFetch`: the cache write runs after the response is returned and is not awaited; the model performs it within the handler, so interleavings with other events are not modelled.
- `ServiceWorker.CacheStorage.Put`: `Vary` headers, opaque responses, URL normalisation (fragments, relative URLs) and a rejection for exceeding the storage quota are not modelled; entries are keyed by the URL text.
- `ServiceWorker.Install` and `ServiceWorker.Activate`: `skipWaiting`, `clients.claim` and the logging of swallowed errors are left out; a failing `caches.keys()` in activation is not modelled.
- `ServiceWorker.PrecacheUrls`: relative paths are resolved against a base URL parameter by dropping the leading "./"; full URL resolution is not modelled.
