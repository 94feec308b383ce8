/**
  The errors the core returns. Go represents each as an `error` value whose
  only observable content is its message; the model keeps which failure it was
  as a constructor and renders the message text with `Message`.
 */
module Errors {
  import opened GoLib
  import opened Decimal

  /** The upstream API a status-code error came from. */
  datatype Api = Geocoding | Weather

  datatype Error =
    /** `location cannot be empty`. */
    | EmptyLocation
    /** An error from the HTTP client's `Get`, returned unchanged. */
    | Transport(cause: string)
    /** A response whose status was not 200 OK. */
    | BadStatus(api: Api, statusCode: Int)
    /** An error from the JSON decoder, returned unchanged. */
    | Malformed(cause: string)
    /** A geocoding answer with an empty result list. */
    | NoResults(location: string)

  const EmptyLocationMessage: string := "location cannot be empty"
  const NoResultsPrefix: string := "no results found for location: "

  function StatusPrefix(api: Api): string
  {
    match api
    case Geocoding => "geocoding API returned status code: "
    case Weather => "weather API returned status code: "
  }

  /** The text of `err.Error()`. */
  function Message(e: Error): (m: string)
    ensures e.BadStatus? ==>
      && |StatusPrefix(e.api)| < |m|
      && m[..|StatusPrefix(e.api)|] == StatusPrefix(e.api)
      && ParseInt(m[|StatusPrefix(e.api)|..]) == Some(e.statusCode as int)
    ensures e.NoResults? ==> EndsWith(m, e.location)
  {
    match e
    case EmptyLocation => EmptyLocationMessage
    case Transport(cause) => cause
    case BadStatus(api, code) =>
      var m := StatusPrefix(api) + FormatInt(code);
      assert m[..|StatusPrefix(api)|] == StatusPrefix(api);
      assert m[|StatusPrefix(api)|..] == FormatInt(code);
      ParseFormatInt(code);
      m
    case Malformed(cause) => cause
    case NoResults(location) =>
      var m := NoResultsPrefix + location;
      assert m[|m| - |location|..] == location;
      m
  }

  /** Two status-code messages are equal exactly when they name the same API
      and the same status code. */
  lemma StatusMessageInjective(a1: Api, c1: Int, a2: Api, c2: Int)
    ensures Message(BadStatus(a1, c1)) == Message(BadStatus(a2, c2)) <==> a1 == a2 && c1 == c2
  {
    var m1, m2 := Message(BadStatus(a1, c1)), Message(BadStatus(a2, c2));
    if m1 == m2 {
      assert m1[0] == m1[..|StatusPrefix(a1)|][0] == StatusPrefix(a1)[0];
      assert m2[0] == m2[..|StatusPrefix(a2)|][0] == StatusPrefix(a2)[0];
      assert a1 == a2;
    }
  }
}
