/**
  The geocoding client (internal/openmeteo): resolves a free-text location to
  the coordinates of the first match the Open-Meteo geocoding API returns.
 */
module OpenMeteo {
  import opened GoLib
  import opened Errors
  import opened Upstream
  import opened Config

  /** Go's `(float64, float64, error)` result: latitude, longitude, and an
      error that is `None` exactly on success. */
  datatype Located = Located(latitude: Float64, longitude: Float64, err: Option<Error>)

  function Failed(e: Error): Located
  {
    Located(Zero, Zero, Some(e))
  }

  const SearchPath: string := "/v1/search?name="
  const OneMatch: string := "&count=1"

  /** The search request for an already escaped name. */
  function SearchUrl(baseUrl: string, escapedName: string): string
  {
    baseUrl + SearchPath + escapedName + OneMatch
  }

  /** The one-argument `GeocodeLocation`: a stub that fails on every input. */
  function GeocodeLocation(location: string): Located
  {
    Failed(EmptyLocation)
  }

  /** The outcome of the one request the geocoder makes for a location. */
  function Search(location: string, rt: Runtime, cfg: Config): GetOutcome
  {
    rt.get(SearchUrl(cfg.geocodingApiUrl, rt.queryEscape(location)))
  }

  /** The decoded answer to that request, when it came back 200 OK and decoded. */
  function Answer(location: string, rt: Runtime, cfg: Config): Option<GeocodingResponse>
  {
    match Search(location, rt, cfg)
    case TransportError(_) => None
    case Reply(status, body) =>
      if status != StatusOK then None
      else
        match rt.decodeGeocoding(body)
        case DecodeError(_) => None
        case Decoded(answer) => Some(answer)
  }

  /** `GeocodeLocationWithClient`: the geocoder the service relies on. */
  function GeocodeLocationWithClient(location: string, rt: Runtime, cfg: Config): (r: Located)
    ensures r.err.Some? ==> r.latitude == Zero && r.longitude == Zero
    ensures location == "" ==> r.err == Some(EmptyLocation)
    ensures r.err.None? <==>
      location != "" && Answer(location, rt, cfg).Some? && |Answer(location, rt, cfg).value.results| > 0
    ensures r.err.None? ==>
      var first := Answer(location, rt, cfg).value.results[0];
      r.latitude == first.latitude && r.longitude == first.longitude
    ensures r.err.Some? && r.err.value.BadStatus? ==>
      && r.err.value.api == Geocoding
      && Search(location, rt, cfg).Reply?
      && Search(location, rt, cfg).statusCode == r.err.value.statusCode != StatusOK
    ensures r.err.Some? && r.err.value.NoResults? ==> r.err.value.location == location
  {
    if location == "" then Failed(EmptyLocation)
    else
      match rt.get(SearchUrl(cfg.geocodingApiUrl, rt.queryEscape(location)))
      case TransportError(cause) => Failed(Transport(cause))
      case Reply(status, body) =>
        if status != StatusOK then Failed(BadStatus(Geocoding, status))
        else
          match rt.decodeGeocoding(body)
          case DecodeError(cause) => Failed(Malformed(cause))
          case Decoded(answer) =>
            if |answer.results| == 0 then Failed(NoResults(location))
            else Located(answer.results[0].latitude, answer.results[0].longitude, None)
  }

  /** An empty location fails before any request: the runtime is never consulted. */
  lemma EmptyLocationMakesNoRequest(rt1: Runtime, rt2: Runtime, cfg: Config)
    ensures GeocodeLocationWithClient("", rt1, cfg) == GeocodeLocationWithClient("", rt2, cfg) == Failed(EmptyLocation)
  {
  }

  /** Each way the request can fail gives its own error, and a non-200 status
      can be read back from the message. */
  lemma GeocodeFailures(location: string, rt: Runtime, cfg: Config)
    requires location != ""
    ensures Search(location, rt, cfg).TransportError? ==>
      GeocodeLocationWithClient(location, rt, cfg) == Failed(Transport(Search(location, rt, cfg).cause))
    ensures Search(location, rt, cfg).Reply? && Search(location, rt, cfg).statusCode != StatusOK ==>
      var status := Search(location, rt, cfg).statusCode;
      && GeocodeLocationWithClient(location, rt, cfg) == Failed(BadStatus(Geocoding, status))
      && Decimal.ParseInt(Message(BadStatus(Geocoding, status))[|StatusPrefix(Geocoding)|..]) == Some(status as int)
    ensures Search(location, rt, cfg).Reply? && Search(location, rt, cfg).statusCode == StatusOK ==>
      match rt.decodeGeocoding(Search(location, rt, cfg).body)
      case DecodeError(cause) => GeocodeLocationWithClient(location, rt, cfg) == Failed(Malformed(cause))
      case Decoded(answer) =>
        |answer.results| == 0 ==> GeocodeLocationWithClient(location, rt, cfg) == Failed(NoResults(location))
  {
  }

  /** Only the first result counts: two answers that agree on the first
      result's coordinates give the same outcome, whatever follows it. */
  lemma OnlyFirstResultCounts(location: string, rt1: Runtime, rt2: Runtime, cfg: Config)
    requires Answer(location, rt1, cfg).Some? && Answer(location, rt2, cfg).Some?
    requires |Answer(location, rt1, cfg).value.results| > 0 && |Answer(location, rt2, cfg).value.results| > 0
    requires Answer(location, rt1, cfg).value.results[0].latitude == Answer(location, rt2, cfg).value.results[0].latitude
    requires Answer(location, rt1, cfg).value.results[0].longitude == Answer(location, rt2, cfg).value.results[0].longitude
    ensures GeocodeLocationWithClient(location, rt1, cfg) == GeocodeLocationWithClient(location, rt2, cfg)
  {
  }

  /** The request asks for exactly one match, and carries the escaped location
      between the search path and that limit. */
  lemma SearchAsksForOneMatch(baseUrl: string, escapedName: string)
    ensures EndsWith(SearchUrl(baseUrl, escapedName), OneMatch)
    ensures SearchUrl(baseUrl, escapedName)[..|baseUrl| + |SearchPath|] == baseUrl + SearchPath
    ensures SearchUrl(baseUrl, escapedName)[|baseUrl| + |SearchPath|..|SearchUrl(baseUrl, escapedName)| - |OneMatch|] == escapedName
  {
    var url := SearchUrl(baseUrl, escapedName);
    assert url == (baseUrl + SearchPath) + escapedName + OneMatch;
  }

  /** The one-argument stub never resolves anything, whatever it is given. */
  lemma StubAlwaysFails(location: string)
    ensures GeocodeLocation(location) == Located(Zero, Zero, Some(EmptyLocation))
  {
  }
}
