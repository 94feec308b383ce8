# weather-service-go, modelled in Dafny

A model of the core of a small Go HTTP service that answers "what is the
current weather at X?". The service resolves a free-text location to
coordinates with the Open-Meteo geocoding API, fetches the current conditions
at those coordinates from the Open-Meteo forecast API, maps the numeric WMO
weather code to one of eleven labels, and returns a `CurrentWeather` record.
Its configuration comes from environment variables with defaults.

The model is purely functional:

- `go_lib.dfy` (`GoLib`): Go's 64-bit `int`, explicit 64-bit wrap-around,
  `float64` as an opaque bit pattern, `Option` for `nil`-or-value.
- `decimal.dfy` (`Decimal`): the `%d` rendering used in error messages, with
  a parser as its partner.
- `errors.dfy` (`Errors`): the errors the core returns and their message texts.
- `config.dfy` (`Config`): `getEnv`, `getEnvInt`, `LoadConfig`,
  `GetAPITimeout`. The environment is a `map<string, string>` and
  `strconv.Atoi` is a parameter of type `string -> Option<Int>`.
- `upstream.dfy` (`Upstream`): the JSON shapes of the two APIs and a
  `Runtime` record. It holds `client.Get`, `url.QueryEscape`, `%.4f` and the
  two JSON decoders as arbitrary functions.
- `entity.dfy` (`Entity`): the `CurrentWeather` record.
- `classifier.dfy` (`Classifier`): `getWeatherCondition`. A table of code
  groups serves as its reference definition.
- `geocoding.dfy` (`OpenMeteo`): `GeocodeLocationWithClient` and the
  one-argument `GeocodeLocation` stub.
- `service.dfy` (`Service`): `GetCurrentWeather`.

Go's multi-value returns are kept in their Go shape.
`(float64, float64, error)` becomes `Located(latitude, longitude, err)`.
`(*CurrentWeather, error)` becomes `Lookup(weather, err)`. This makes "a
result or an error, never both" a statement that is proved, not one that holds
by construction. Because every operation is a function, repeating a lookup on
the same upstream answers always gives the same result.

Notes on the code:

- The code's errors are plain `fmt.Errorf` values, or errors passed through
  unchanged from the HTTP client and the JSON decoder. `Errors.Error` has one
  constructor per distinct failure, and `Errors.Message` gives its text.
- Line 41 of internal/service/WeatherService.go passes three arguments to
  `GeocodeLocation`. The only `GeocodeLocation` defined
  (internal/openmeteo/geocoding.go:20-22) takes one parameter, so the service
  package does not compile. The three-argument logic lives in
  `GeocodeLocationWithClient`, and `GetCurrentWeather` uses that.
  `GetCurrentWeatherWithStub` is a hypothetical: what the lookup would return
  if the call were bound to the stub it names (see Findings).
- `Service.LondonExample` uses the stub answers set up by the test at
  internal/service/WeatherService_test.go:24-61, which never calls
  `GetCurrentWeather`.

## Model

| member | source | states |
|---|---|---|
| GoLib.Wrap64 | internal/config/config.go:31 | the 64-bit result agrees with the exact product modulo 2^64, and equals it whenever the product fits |
| Decimal.FormatInt | internal/service/WeatherService.go:54 | `%d` output is non-empty and starts with a minus sign exactly for negative values |
| Decimal.ParseFormatInt | internal/service/WeatherService.go:54 | every integer's `%d` rendering reads back as that integer |
| Decimal.FormatIntInjective | internal/service/WeatherService.go:54 | two integers render the same exactly when they are equal |
| Errors.Message | internal/openmeteo/geocoding.go:36-47 | a status error's message ends with a numeral that reads back as the status code; a no-results message ends with the location it names |
| Errors.StatusMessageInjective | internal/service/WeatherService.go:53-55 | two status messages are equal exactly when they name the same API and the same code |
| Config.GetEnv | internal/config/config.go:34-39 | a set, non-empty value is returned; an unset or empty variable gives the default |
| Config.GetEnvOverride | internal/config/config.go:34-39 | setting a variable to a non-empty value makes it win; setting it empty or removing it restores the default |
| Config.GetEnvInt | internal/config/config.go:41-48 | a set, non-empty value that parses gives the parsed integer; unset, empty or unparsable gives the default |
| Config.LoadConfig | internal/config/config.go:17-27 | port and both API base URLs are never empty, whatever the environment |
| Config.LoadConfigDefaults | internal/config/config.go:19-24 | with an empty environment: port "9090", the two Open-Meteo base URLs, timeout 10 seconds, i.e. 10^10 ns |
| Config.LoadConfigReadsEachVariable | internal/config/config.go:19-23 | each field comes from its own variable: a set, non-empty PORT, GEOCODING_API_URL or WEATHER_API_URL lands in that field, and a set API_TIMEOUT_SECONDS that parses becomes the timeout |
| Config.GetEnvIntOverride | internal/config/config.go:41-48 | setting a variable to text that parses makes the parsed value win; unparsable text, an empty value or removing the variable gives the default |
| Config.LoadConfigReadsOnlyItsVariables | internal/config/config.go:19-24 | two environments that agree on PORT, GEOCODING_API_URL, WEATHER_API_URL and API_TIMEOUT_SECONDS load the same config |
| Config.GetAPITimeout | internal/config/config.go:30-32 | the duration is seconds × 10^9 ns whenever that fits in 64 bits, and congruent to it modulo 2^64 otherwise |
| Config.TimeoutOverflowBoundary | internal/config/config.go:30-32 | exact and non-negative for 0..9223372036 seconds; 9223372037 seconds wraps to a negative duration |
| Classifier.GetWeatherCondition | internal/service/WeatherService.go:72-97 | total: every integer maps into the eleven-label set, and to "Unknown" exactly when it is not one of the 23 listed codes |
| Classifier.GroupPreimage | internal/service/WeatherService.go:73-93 | for each case of the switch, a code gets that case's label exactly when the case lists it (so 1 and 2 share "Partly cloudy", 95, 96 and 99 share "Thunderstorm", and no other code does) |
| Classifier.KnownCodesAreGrouped | internal/service/WeatherService.go:73-95 | a code avoids the default branch exactly when some case lists it |
| Classifier.ConditionTestVectors | internal/service/WeatherService_test.go:63-85 | 0, 1, 3, 45, 61, 95 and 999 map to Clear sky, Partly cloudy, Overcast, Foggy, Rain, Thunderstorm and Unknown |
| OpenMeteo.GeocodeLocationWithClient | internal/openmeteo/geocoding.go:24-50 | every error comes with zero coordinates; an empty location fails with "location cannot be empty"; it succeeds exactly when the search came back 200 OK, decoded, and listed at least one place, and then returns the first place's coordinates; a status error carries the status the search got; a no-results error names the location |
| OpenMeteo.EmptyLocationMakesNoRequest | internal/openmeteo/geocoding.go:25-27 | with an empty location the outcome is the same for every runtime, so no request is made |
| OpenMeteo.GeocodeFailures | internal/openmeteo/geocoding.go:30-47 | a transport error, a non-200 status, a decode error and an empty result list each give their own error; the status reads back from the message |
| OpenMeteo.OnlyFirstResultCounts | internal/openmeteo/geocoding.go:49 | two answers whose first results have the same coordinates give the same outcome, whatever follows them |
| OpenMeteo.SearchAsksForOneMatch | internal/openmeteo/geocoding.go:29 | the search URL starts with the base URL and search path, ends with `&count=1`, and carries the escaped location in between |
| OpenMeteo.StubAlwaysFails | internal/openmeteo/geocoding.go:20-22 | the one-argument stub returns (0, 0, "location cannot be empty") for every input |
| Service.Proceed | internal/service/WeatherService.go:41-69 | a geocoder error is returned unchanged; otherwise it succeeds exactly when the forecast came back 200 OK and decoded; the record echoes the location, copies temperature and humidity verbatim, and labels the weather code from the eleven-label set; never both a record and an error |
| Service.GetCurrentWeather | internal/service/WeatherService.go:36-70 | exactly one of record and error; an empty location fails with "location cannot be empty"; a geocoding error is returned unchanged; a record echoes the input location and carries a label from the closed set |
| Service.SucceedsExactly | internal/service/WeatherService.go:36-69 | the lookup succeeds if and only if the location is non-empty, geocoding succeeds and the forecast came back 200 OK and decoded; the record is then exactly (location, temperature, humidity, label of the code) |
| Service.EmptyLocationMakesNoRequest | internal/service/WeatherService.go:37-39 | an empty location fails the same way under every runtime, so neither upstream is consulted |
| Service.GeocodeFailureSkipsForecast | internal/service/WeatherService.go:41-44 | when geocoding fails, the lookup does not depend on anything the forecast side would answer |
| Service.ForecastFailures | internal/service/WeatherService.go:47-60 | a forecast transport error, non-200 status or decode error aborts with that error and no record; the status reads back from the message |
| Service.ForecastAsksForCurrentFields | internal/service/WeatherService.go:46 | the forecast URL starts with the base URL and forecast path and asks for temperature_2m, relative_humidity_2m and weather_code |
| Service.GetCurrentWeatherWithStub | internal/service/WeatherService.go:41 | hypothetical: if line 41 were bound to the one-argument stub it names (as written it does not compile), no lookup would ever return a record |
| Service.LondonExample | internal/service/WeatherService_test.go:24-61 | with the test's stubbed answers the lookup returns {London, 15.5, 72, Clear sky} |
| Service.LondonWithStub | internal/service/WeatherService.go:41 | hypothetical: with the same London answers, the lookup through the stub would fail with "location cannot be empty" |

## Left out

- cmd/server/main.go (routing, handlers, JSON responses, server start) and internal/middleware/logging.go (request logging, timing): I/O plumbing with no functional core.
- `NewWeatherService`: it only builds an `http.Client` with the configured timeout. The timeout's effect is folded into `Runtime.get`, where a timed-out call is a `TransportError`.
- The network, `url.QueryEscape`, `%.4f` formatting of coordinates, and JSON decoding are foreign library calls. They are arbitrary functions in `Upstream.Runtime`. For example, a JSON body missing a field decodes to Go's zero values; that is the decoder's business, not the model's.
- `strconv.Atoi` is the parameter `Config.Atoi`. Its exact grammar (sign, range) is not modelled.
- Floating point: latitude, longitude and temperature are opaque `float64` bit patterns. They are only passed along.
- `LoadConfig`'s `log.Printf` call and the `os.Getenv` side effect: the environment is an explicit map.
- Go strings are byte sequences and Dafny strings are character sequences, so a location that is not valid UTF-8 has no counterpart here. The core only compares the location with "" and passes it on.
- `defer resp.Body.Close()`: releasing the response body has no observable effect on the result.

## Findings

| source | as written | input that shows it | evidently intended | confidence | as-written member | corrected member |
|---|---|---|---|---|---|---|
| internal/service/WeatherService.go:41 | passes three arguments to the one-parameter `GeocodeLocation` (internal/openmeteo/geocoding.go:20), so the package does not compile; the only function of that name is a stub that always fails | none; the build fails (were the call bound to the stub, even "London" with both upstreams answering 200 OK would fail) | call `GeocodeLocationWithClient(location, ws.client, ws.cfg)` | high; not executed | Service.GetCurrentWeatherWithStub, Service.LondonWithStub | Service.GetCurrentWeather, Service.SucceedsExactly, Service.LondonExample |
