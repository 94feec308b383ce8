/**
  What the core sees of the two Open-Meteo APIs: the JSON shapes it decodes
  their answers into, the outcome of one HTTP GET, and the library calls it
  makes. The network, the JSON decoder, URL escaping and float formatting are
  not modelled; each is a field of `Runtime` and may be any function.
 */
module Upstream {
  import opened GoLib

  /** One entry of the geocoding answer's `results` list. */
  datatype Place = Place(name: string, latitude: Float64, longitude: Float64)

  /** The geocoding answer: `{ "results": [ ... ] }`. */
  datatype GeocodingResponse = GeocodingResponse(results: seq<Place>)

  /** The forecast answer's `current` block. */
  datatype Current = Current(temperature: Float64, humidity: Int, weatherCode: Int)

  /** The forecast answer: `{ "current": { ... } }`. */
  datatype WeatherResponse = WeatherResponse(current: Current)

  const StatusOK: Int := 200

  /** The outcome of `client.Get(url)`: an error, or a response with a status
      code and a body. */
  datatype GetOutcome =
    | TransportError(cause: string)
    | Reply(statusCode: Int, body: seq<bv8>)

  /** The outcome of decoding a body as JSON into a `T`. */
  datatype Decoded<T> = Decoded(value: T) | DecodeError(cause: string)

  /** The calls into code outside the core. */
  datatype Runtime = Runtime(
    /** `client.Get`, with the client's per-call timeout folded in. */
    get: string -> GetOutcome,
    /** `url.QueryEscape`. */
    queryEscape: string -> string,
    /** `fmt`'s `%.4f`. */
    formatCoordinate: Float64 -> string,
    /** `json.NewDecoder(body).Decode` into a `GeocodingResponse`. */
    decodeGeocoding: seq<bv8> -> Decoded<GeocodingResponse>,
    /** `json.NewDecoder(body).Decode` into a `WeatherResponse`. */
    decodeWeather: seq<bv8> -> Decoded<WeatherResponse>)
}
