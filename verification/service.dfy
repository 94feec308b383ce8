/**
  The weather lookup service (internal/service): validate the location,
  geocode it, fetch the current conditions at the coordinates, classify the
  weather code and build the result record. Every stage either advances or
  aborts the whole lookup with its error.
 */
module Service {
  import opened GoLib
  import opened Errors
  import opened Upstream
  import opened Config
  import opened Entity
  import opened Classifier
  import opened OpenMeteo

  /** Go's `(*entity.CurrentWeather, error)` result. */
  datatype Lookup = Lookup(weather: Option<CurrentWeather>, err: Option<Error>)

  function Fail(e: Error): Lookup
  {
    Lookup(None, Some(e))
  }

  const ForecastPath: string := "/v1/forecast?latitude="
  const LongitudeParam: string := "&longitude="
  const CurrentFields: string := "&current=temperature_2m,relative_humidity_2m,weather_code"

  /** The forecast request for already formatted coordinates. */
  function ForecastUrl(baseUrl: string, latitude: string, longitude: string): string
  {
    baseUrl + ForecastPath + latitude + LongitudeParam + longitude + CurrentFields
  }

  /** The outcome of the forecast request for a pair of coordinates. */
  function Forecast(cfg: Config, rt: Runtime, latitude: Float64, longitude: Float64): GetOutcome
  {
    rt.get(ForecastUrl(cfg.weatherApiUrl, rt.formatCoordinate(latitude), rt.formatCoordinate(longitude)))
  }

  /** The decoded `current` block, when the forecast request came back 200 OK
      and decoded. */
  function Reading(cfg: Config, rt: Runtime, latitude: Float64, longitude: Float64): Option<Current>
  {
    match Forecast(cfg, rt, latitude, longitude)
    case TransportError(_) => None
    case Reply(status, body) =>
      if status != StatusOK then None
      else
        match rt.decodeWeather(body)
        case DecodeError(_) => None
        case Decoded(answer) => Some(answer.current)
  }

  /** The lookup after the geocoder has answered with `geo`: propagate its
      error unchanged, or fetch, classify and build the record. */
  function Proceed(cfg: Config, rt: Runtime, location: string, geo: Located): (r: Lookup)
    ensures r.weather.Some? != r.err.Some?
    ensures geo.err.Some? ==> r == Fail(geo.err.value)
    ensures r.weather.Some? <==> geo.err.None? && Reading(cfg, rt, geo.latitude, geo.longitude).Some?
    ensures r.weather.Some? ==>
      var reading := Reading(cfg, rt, geo.latitude, geo.longitude).value;
      && r.weather.value.location == location
      && r.weather.value.temperature == reading.temperature
      && r.weather.value.humidity == reading.humidity
      && r.weather.value.condition == GetWeatherCondition(reading.weatherCode)
      && r.weather.value.condition in Labels
  {
    match geo.err
    case Some(e) => Fail(e)
    case None =>
      match Forecast(cfg, rt, geo.latitude, geo.longitude)
      case TransportError(cause) => Fail(Transport(cause))
      case Reply(status, body) =>
        if status != StatusOK then Fail(BadStatus(Weather, status))
        else
          match rt.decodeWeather(body)
          case DecodeError(cause) => Fail(Malformed(cause))
          case Decoded(answer) =>
            var condition := GetWeatherCondition(answer.current.weatherCode);
            Lookup(Some(CurrentWeather(location, answer.current.temperature, answer.current.humidity, condition)), None)
  }

  /** `GetCurrentWeather`. */
  function GetCurrentWeather(cfg: Config, rt: Runtime, location: string): (r: Lookup)
    ensures r.weather.Some? != r.err.Some?
    ensures location == "" ==> r == Fail(EmptyLocation)
    ensures GeocodeLocationWithClient(location, rt, cfg).err.Some? ==>
      r == Fail(GeocodeLocationWithClient(location, rt, cfg).err.value)
    ensures r.weather.Some? ==> r.weather.value.location == location && r.weather.value.condition in Labels
  {
    if location == "" then Fail(EmptyLocation)
    else Proceed(cfg, rt, location, GeocodeLocationWithClient(location, rt, cfg))
  }

  /** The lookup succeeds exactly when the location is non-empty, the geocoder
      resolves it, and the forecast for the first match comes back 200 OK and
      decodes; the record then echoes the location and copies the reading. */
  lemma SucceedsExactly(cfg: Config, rt: Runtime, location: string)
    ensures
      var geo := GeocodeLocationWithClient(location, rt, cfg);
      && (GetCurrentWeather(cfg, rt, location).weather.Some? <==>
            location != "" && geo.err.None? && Reading(cfg, rt, geo.latitude, geo.longitude).Some?)
      && (GetCurrentWeather(cfg, rt, location).weather.Some? ==>
            var reading := Reading(cfg, rt, geo.latitude, geo.longitude).value;
            GetCurrentWeather(cfg, rt, location).weather.value ==
              CurrentWeather(location, reading.temperature, reading.humidity, GetWeatherCondition(reading.weatherCode)))
  {
  }

  /** An empty location is rejected before any request: the runtime is never
      consulted. */
  lemma EmptyLocationMakesNoRequest(cfg: Config, rt1: Runtime, rt2: Runtime)
    ensures GetCurrentWeather(cfg, rt1, "") == GetCurrentWeather(cfg, rt2, "") == Fail(EmptyLocation)
  {
  }

  /** When geocoding fails no forecast is fetched: two runtimes on which the
      geocoder fails alike give the same lookup, however their forecast
      requests would have gone. */
  lemma GeocodeFailureSkipsForecast(cfg: Config, rt1: Runtime, rt2: Runtime, location: string)
    requires GeocodeLocationWithClient(location, rt1, cfg) == GeocodeLocationWithClient(location, rt2, cfg)
    requires GeocodeLocationWithClient(location, rt1, cfg).err.Some?
    ensures GetCurrentWeather(cfg, rt1, location) == GetCurrentWeather(cfg, rt2, location)
  {
  }

  /** Each way the forecast request can fail aborts the lookup with its own
      error, and a non-200 status can be read back from the message. */
  lemma ForecastFailures(cfg: Config, rt: Runtime, location: string)
    requires location != ""
    requires GeocodeLocationWithClient(location, rt, cfg).err.None?
    ensures
      var geo := GeocodeLocationWithClient(location, rt, cfg);
      var outcome := Forecast(cfg, rt, geo.latitude, geo.longitude);
      var r := GetCurrentWeather(cfg, rt, location);
      && (outcome.TransportError? ==> r == Fail(Transport(outcome.cause)))
      && (outcome.Reply? && outcome.statusCode != StatusOK ==>
            && r == Fail(BadStatus(Weather, outcome.statusCode))
            && Decimal.ParseInt(Message(r.err.value)[|StatusPrefix(Weather)|..]) == Some(outcome.statusCode as int))
      && (outcome.Reply? && outcome.statusCode == StatusOK && rt.decodeWeather(outcome.body).DecodeError? ==>
            r == Fail(Malformed(rt.decodeWeather(outcome.body).cause)))
  {
  }

  /** The forecast request asks for the three current fields the record needs. */
  lemma ForecastAsksForCurrentFields(baseUrl: string, latitude: string, longitude: string)
    ensures EndsWith(ForecastUrl(baseUrl, latitude, longitude), CurrentFields)
    ensures ForecastUrl(baseUrl, latitude, longitude)[..|baseUrl| + |ForecastPath|] == baseUrl + ForecastPath
  {
    var url := ForecastUrl(baseUrl, latitude, longitude);
    assert url == (baseUrl + ForecastPath) + (latitude + LongitudeParam + longitude) + CurrentFields;
  }

  /** A hypothetical lookup: what `GetCurrentWeather` would return if its
      geocoding call were bound to the one-argument `GeocodeLocation`, the only
      function of that name. The source itself does not build, because that
      call passes three arguments to a one-parameter function. */
  function GetCurrentWeatherWithStub(cfg: Config, rt: Runtime, location: string): (r: Lookup)
    ensures r.weather.None?
  {
    if location == "" then Fail(EmptyLocation)
    else Proceed(cfg, rt, location, GeocodeLocation(location))
  }

  /** London, as in the service's success test: the geocoder finds
      (51.5085, -0.1257) and the forecast reports 15.5 degrees, 72 percent and
      code 0. */
  function LondonRuntime(): Runtime
  {
    Runtime(
      _ => Reply(StatusOK, []),
      name => name,
      _ => "",
      _ => Decoded(GeocodingResponse([Place("London", Float64(0x4049_c116_872b_020c), Float64(0xbfc0_16f0_068d_b8bb))])),
      _ => Decoded(WeatherResponse(Current(Float64(0x402f_0000_0000_0000), 72, 0))))
  }

  /** With the London stubs the lookup returns the expected record. */
  lemma LondonExample(cfg: Config)
    ensures GetCurrentWeather(cfg, LondonRuntime(), "London") ==
      Lookup(Some(CurrentWeather("London", Float64(0x402f_0000_0000_0000), 72, "Clear sky")), None)
  {
  }

  /** With the same London stubs, the hypothetical lookup through the
      one-argument stub would still fail, with "location cannot be empty". */
  lemma LondonWithStub(cfg: Config)
    ensures GetCurrentWeatherWithStub(cfg, LondonRuntime(), "London") == Fail(EmptyLocation)
  {
  }
}
