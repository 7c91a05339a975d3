# Air-quality lookup: classification, query cycle and server cache

This project models the two pieces of logic of a small air-quality lookup
application and proves properties about them in Dafny.

* The **browser client** (`static/script.js`) trims the city the user typed and
  rejects it when empty. It sends one request and turns the response status into
  the text it shows. On success it classifies the PM2.5, NO2 and O3
  concentrations into ÓTIMO / REGULAR / RUIM, builds an ordered list of
  advisories and draws a bar chart. The old chart is disposed before the new one
  is drawn, and the loading spinner, once shown, is hidden on every exit path.
* The **Flask endpoint** `get_air_quality` (`api_weather.py`) answers
  `GET /airquality?city=…`. It serves from a dictionary keyed by the lower-cased
  city while an entry is younger than one hour (3600 s). Otherwise it asks the
  upstream API, stores truthy results, and maps each upstream failure to an HTTP
  status (fixed, or the upstream code passed through) and an `{"error": …}` body.

Files and modules:

| file | module | models |
|---|---|---|
| `classify.dfy` | `Classifier` | `classificarPM25`, `classificarNO2`, `classificarO3` |
| `recommendations.dfy` | `Recommendations` | `gerarRecomendacoes` and its `<li>` rendering |
| `client.dfy` | `Client` | `consultarAr`: `trim`, the empty guard, status dispatch, spinner, chart slot (class `Page`) |
| `pystr.dfy` | `PyStr` | Python `str.lower()` and decimal formatting in an f-string |
| `server.dfy` | `Server` | `get_air_quality`, `cache_de_qualidade_do_ar`, `TEMPO_DE_CACHE` (class `AirQualityServer`) |
| `wrappers.dfy` | `Wrappers` | the `Option` type both sides use |

The client's fetch is the parameter `o: FetchOutcome`: a response (status and
parsed body) or a rejected promise. The server's clock is two parameters:
`now`, read by `time.time()` at the freshness test, and `storedAt`, read again
when the entry is written. The upstream request is the parameter
`upstream: Upstream`. The DOM is the fields of `Page`: the result container,
the spinner and canvas visibility, and the `myChart` slot with counts of charts
constructed and disposed. `Page.Begin` is the code before the `await` and
`Page.Finish` the code after it, including the `catch` and `finally`.
`Page.ConsultarAr` runs both.

`Page.Finish` and `AirQualityServer.GetAirQuality` are each specified by a pure
function: `Page.Finish` writes `Display(city, o)`, and `GetAirQuality` produces
`Serve(old(cache), …)`. The lemmas state the program's promises about those
functions. `Page.ReplaceChart` and `Page.Begin` state their new state directly.

Two response cases of the client are worth spelling out:
* A 400 response whose JSON is not `null` but has no `error` field (a reading,
  for instance) shows `Erro: undefined`, since the template literal reads a
  missing property.
* A 200 or 400 response whose body does not parse, whose 400 JSON is `null`
  (reading `erro.error` throws), or whose 200 body lacks a pollutant record
  lands in the `catch` and shows the connection text.

## Model

| member | source | states |
|---|---|---|
| `Classifier.ClassifyPM25` | static/script.js:107-111 | `classificarPM25`; its properties are the `PM25Bands`, `ClassifiersMonotone` and `PM25Boundary` rows |
| `Classifier.ClassifyNO2` | static/script.js:112-116 | `classificarNO2`; its properties are the `NO2Bands` and `ClassifiersMonotone` rows |
| `Classifier.ClassifyO3` | static/script.js:117-121 | `classificarO3`; its properties are the `O3Bands` and `ClassifiersMonotone` rows |
| `Classifier.PM25Bands` | static/script.js:107-111 | PM2.5 is ÓTIMO iff ≤ 12, REGULAR iff in (12, 35.4], RUIM iff > 35.4 |
| `Classifier.NO2Bands` | static/script.js:112-116 | NO2 is ÓTIMO iff ≤ 100, REGULAR iff in (100, 200], RUIM iff > 200 |
| `Classifier.O3Bands` | static/script.js:117-121 | O3 is ÓTIMO iff ≤ 120, REGULAR iff in (120, 180], RUIM iff > 180 |
| `Classifier.BandedIntervals` | static/script.js:107-121 | with ordered breakpoints each band is exactly its interval, in both directions |
| `Classifier.BandedMonotone` | static/script.js:107-121 | a larger concentration never gets a better band, for any ordered breakpoints |
| `Classifier.ClassifiersMonotone` | static/script.js:107-121 | each of the three classifiers is monotone in severity |
| `Classifier.PM25Boundary` | static/script.js:108-109 | breakpoints are inclusive: 12.0 is ÓTIMO, 12.01 is REGULAR, 35.4 REGULAR, 35.41 RUIM |
| `Classifier.LabelInjective` | static/script.js:108-110 | distinct bands have distinct label texts, so the `=== "RUIM"` tests mean band RUIM |
| `Recommendations.AdvisoriesDistinct` | static/script.js:129-151 | the six advisory texts are pairwise different |
| `Recommendations.AdviceSize` | static/script.js:124-152 | the list is never empty and has at most four advisories |
| `Recommendations.AdviceGoodIff` | static/script.js:150-152 | the list is exactly the good-air message iff AQI < 100 and no pollutant is RUIM |
| `Recommendations.AqiAdviceFirst` | static/script.js:128-132 | AQI ≥ 150 puts the danger advisory first and never the sensitive one; 100 ≤ AQI < 150 the reverse; below 100 neither |
| `Recommendations.PollutantAdviceIff` | static/script.js:135-148 | the PM2.5, NO2 and O3 advisories are each present iff that pollutant is RUIM |
| `Recommendations.AdviceOrdered` | static/script.js:128-148 | advisories come in the fixed order AQI, PM2.5, NO2, O3, with no repeats |
| `Recommendations.Advice` | static/script.js:124-152 | the advisory list; its properties are the `AdviceSize` through `AdviceOrdered` rows |
| `Recommendations.ListHtml` | static/script.js:154 | the `<li>` rendering; its properties are the `ListHtmlAppend` and `ListHtmlItem` rows |
| `Recommendations.ListHtmlAppend` | static/script.js:154 | rendering distributes over list concatenation |
| `Recommendations.ListHtmlItem` | static/script.js:154 | one advisory renders as `<li>` + text + `</li>` |
| `Recommendations.GerarRecomendacoes` | static/script.js:124-155 | the successive pushes build exactly the advisory list, and the result is its `<li>` rendering |
| `Recommendations.ScenarioDangerAndParticles` | static/script.js:128-137 | AQI 160 with PM2.5 = 40 gives the danger advisory then the PM2.5 advisory |
| `Client.SkipSpaces` | static/script.js:6 | the first non-space index from a start position stays within the string |
| `Client.SkipSpacesBack` | static/script.js:6 | the end index after dropping trailing white space never passes the starting end |
| `Client.SkipSpacesSpec` | static/script.js:6 | skipping forward crosses only white space and stops at the first non-space or the end |
| `Client.SkipSpacesBackSpec` | static/script.js:6 | skipping backward crosses only white space and stops after the last non-space or at the start |
| `Client.TrimStartSuffix` | static/script.js:6 | trimming the front removes exactly a whitespace prefix and stops at a non-space |
| `Client.TrimEndPrefix` | static/script.js:6 | trimming the back removes exactly a whitespace suffix and stops at a non-space |
| `Client.TrimEmptyIff` | static/script.js:6-11 | the trimmed city is empty iff the input is all JavaScript white space |
| `Client.TrimEnds` | static/script.js:6 | a non-empty trimmed city starts and ends with a non-space |
| `Client.Trim` | static/script.js:6 | `String.prototype.trim`; its properties are those of the `SkipSpaces*`, `TrimStartSuffix`, `TrimEndPrefix`, `TrimEmptyIff` and `TrimEnds` rows |
| `Client.Display` | static/script.js:21-103 | the text shown for a city and an outcome; its properties are the `DisplayCases`, `DisplayDeterminesKind` and scenario rows |
| `Client.DisplayCases` | static/script.js:24-99 | only success draws a summary; 400 shows `Erro: ` + error, `Erro: undefined` for other JSON including a reading, and the connection text for `null` or unparsable bodies; 404 the not-found text; other statuses the generic text; thrown errors the connection text |
| `Client.DisplayDeterminesKind` | static/script.js:24-99 | outcomes of different error classes never show the same result |
| `Client.ScenarioBadRequest` | static/script.js:89-91 | a 400 with error "invalid city name" shows "Erro: invalid city name" |
| `Client.ScenarioReadingBadRequest` | static/script.js:89-91 | a 400 whose body is a reading has no `error` property, so it shows `Erro: undefined` and is a client error |
| `Client.ScenarioNullBadRequest` | static/script.js:89-99 | a 400 whose JSON is `null` throws on `erro.error` and shows the connection text, classed as a transport error |
| `Client.Page.constructor` | static/script.js:2 | the page starts with no chart and nothing live; the result container starts empty and the spinner and canvas start hidden, which the page's HTML and CSS (not part of this model) are assumed to arrange |
| `Client.Page.ReplaceChart` | static/script.js:43-50 | the old chart is disposed if present, then one new chart is constructed; exactly one chart is live |
| `Client.Page.Begin` | static/script.js:5-19 | an empty trimmed city shows the prompt, hides the chart and requests nothing; otherwise it clears the result, shows the spinner, hides the chart and requests the trimmed city |
| `Client.Page.Finish` | static/script.js:21-103 | the result is `Display(city, o)`; the spinner ends hidden; only success shows the chart, and then the slot holds the chart of the PM2.5, NO2 and O3 concentrations (lines 53-60) with exactly one chart live; otherwise the slot is unchanged |
| `Client.Page.ConsultarAr` | static/script.js:4-104 | the whole cycle: the empty-input guard, dispatch, chart replacement, and the spinner hidden at the end whenever it was hidden at the start |
| `Client.ScenarioTwoQueries` | static/script.js:43-50 | two successful queries in a row construct two charts, dispose the first and leave one live chart, the second reading's |
| `PyStr.Lower` | api_weather.py:41 | `str.lower()` of the city; its properties are the `LowerAt`, `LowerIdempotent` and `LowerEmptyIff` rows |
| `PyStr.LowerChar` | api_weather.py:41 | the result is never an upper-case letter; a character changes exactly when it is upper case, and then becomes a lower-case letter |
| `PyStr.LowerAt` | api_weather.py:41 | lower-casing keeps the length and works character by character |
| `PyStr.LowerCharIdempotent` | api_weather.py:41 | lower-casing a lower-cased character changes nothing |
| `PyStr.LowerIdempotent` | api_weather.py:41 | a normalized key normalizes to itself |
| `PyStr.LowerEmptyIff` | api_weather.py:41 | only the empty city has the empty key |
| `PyStr.Decimal` | api_weather.py:76 | a status code is written as a non-empty string of decimal digits with no leading zero |
| `PyStr.DecimalRoundTrip` | api_weather.py:76 | the decimal text of a code reads back as the code |
| `Server.Truthy` | api_weather.py:61 | Python truthiness of the decoded upstream body; used by the `EmptyUpstreamNotCached` and `SuccessStored` rows |
| `Server.UpstreamReply` | api_weather.py:56-85 | the reply once the cache has missed; its properties are the `EmptyUpstreamNotCached`, `HttpErrorMapped` and `TransportErrorsMapped` rows |
| `Server.Serve` | api_weather.py:34-85 | one request against the cache; its properties are the `MissingCityRejected` through `StoredThenServed` rows |
| `Server.AirQualityServer.constructor` | api_weather.py:18 | the cache starts empty |
| `Server.AirQualityServer.GetAirQuality` | api_weather.py:34-85 | the reply, the new cache and whether upstream was called are those of `Serve` on the old cache |
| `Server.MissingCityRejected` | api_weather.py:36-38 | a missing or empty city gives 400 with the "obrigatório" error, no upstream call, cache unchanged |
| `Server.CacheHitIff` | api_weather.py:44-48 | no upstream call iff the lower-cased key is cached and `now - timestamp < 3600`; then the cached data is returned with 200 and the cache unchanged |
| `Server.HourOldRefetched` | api_weather.py:46 | an entry exactly 3600 s old is refetched: the comparison is strict |
| `Server.CaseInsensitive` | api_weather.py:41-44 | cities with the same lower-case form get the same reply and the same new cache |
| `Server.EmptyUpstreamNotCached` | api_weather.py:60-62 | on a miss, a falsy upstream body gives 404 "Cidade não encontrada na API externa." and the cache is unchanged |
| `Server.SuccessStored` | api_weather.py:65-67 | on a miss, a truthy upstream body is returned with 200 and stored as `{data, storedAt}` under the lower-cased key; other keys are untouched |
| `Server.HttpErrorMapped` | api_weather.py:68-76 | upstream 404 gives 404; 401 and 403 keep their code with the authentication message; any other code passes through with the body `{"error": HttpFailure(code, text)}` |
| `Server.HttpFailureEmbedsCode` | api_weather.py:76 | the pass-through message is the prefix, the code's digits (which read back as the code), " - " and the upstream text |
| `Server.TransportErrorsMapped` | api_weather.py:77-85 | a connection error gives 500, a timeout 504, any other request error 500 |
| `Server.CacheChangesOnlyByStore` | api_weather.py:44-65 | no key ever disappears, keys other than the request's are untouched, and the cache changes only when a truthy upstream body is stored |
| `Server.StoredThenServed` | api_weather.py:41-67 | after a successful fetch, any case variant of the city is served from the cache, without upstream, for the next 3600 s |

## Left out

- `fetch`, the DOM and Chart.js are not modelled. The response is a parameter. The result container, the spinner, the canvas and the chart slot are fields of `Page`. Chart options, colours and `getContext` are not modelled; a chart is its three values.
- The summary's HTML layout and the printing of numbers inside it are not modelled. `Shown.Summary` keeps the city, the reading, the three labels and the advisory HTML that the template interpolates.
- Response bodies are abstracted to five shapes: a reading, an object with an `error` string, the JSON `null`, other JSON, and not JSON. JavaScript coercion of non-numeric or partly missing fields is not modelled. For example, a body lacking `overall_aqi` but holding the three pollutant records counts as "other JSON" here, while in JavaScript it renders "undefined" as the index. An `error` field that is not a string is also outside the model.
- A chart library that throws while drawing is not modelled. The model's chart construction cannot fail.
- Overlapping queries racing each other are not modelled. This is concurrency, and the code does not guard against it.
- The request URL and its missing percent-encoding are not modelled. The model records only which trimmed city is requested.
- Console logging and `print` are not modelled.
- The `DOMContentLoaded` city suggestions and the commented-out geolocation code are not modelled. They are static UI seeding and dead code.
- Flask routing, `render_template`, CORS and the API key check at start-up (`os.getenv`, `exit()`) are not modelled; they are framework and environment I/O.
- `requests.get`, `raise_for_status` and `response.json()` are collapsed into the `Upstream` outcome. An undecodable upstream body is counted as `OtherErr`, since `requests` raises a `RequestException` subclass for it. A connect timeout counts as `ConnErr`, because its exception is caught by the `ConnectionError` branch first.
- PyStr.Lower: covers the upper-case letters of Basic Latin and Latin-1 only. Python's full Unicode case mapping (for instance `İ`, `ẞ` or Greek) is not modelled. The properties proved (idempotence, length and position preserved, empty iff empty) are those the cache relies on.
- Floating-point behaviour of concentrations, the AQI and `time.time()` is not modelled: they are exact reals.
