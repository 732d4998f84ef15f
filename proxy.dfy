/** `api/proxy.js`: the edge function that forwards a summarise request to the
    generative-language endpoint with the server's key. Parsing the request
    JSON, `fetch` and parsing the reply are foreign; they enter as outcomes. */
module Proxy {
  import opened Sermon

  /** The response headers, in the order of the `headers` object. */
  const Headers: seq<(string, string)> := [
    ("Access-Control-Allow-Origin", "*"),
    ("Access-Control-Allow-Methods", "POST, OPTIONS"),
    ("Access-Control-Allow-Headers", "Content-Type"),
    ("Content-Type", "application/json")
  ]

  const MethodNotAllowed: string := "Method not allowed"
  const KeyMissing: string := "API Key not configured on server"
  const ApiUrl: string := "https://generativelanguage.googleapis.com/v1beta/models/gemini-2.5-flash:generateContent?key="

  /** A response body: `null`, `JSON.stringify({ error })`, or the upstream
      reply re-serialised. JSON values stay uninterpreted texts. */
  datatype Body = Null | ErrorJson(error: string) | Relayed(data: string)

  datatype Response = Response(body: Body, status: int, headers: seq<(string, string)>)

  /** `await req.json()`: the parsed body, or the message of the error it throws. */
  datatype Parse = Parsed(json: string) | ParseFailed(message: string)

  /** The upstream call: the reply's status and parsed JSON, or the message of
      the error `fetch` or `googleResponse.json()` throws. */
  datatype Upstream = Replied(status: int, data: string) | Failed(message: string)

  /** The one upstream request a handler call may make: its URL and JSON body. */
  datatype Fetch = Fetch(url: string, body: string)

  /** `!apiKey`: the variable is unset or empty. */
  predicate KeyAbsent(apiKey: Option<string>) { apiKey.None? || apiKey.value == "" }

  /** `handler(req)` with the request's method, how its body parses, the
      `GOOGLE_API_KEY` variable and the upstream outcome. It returns the
      response and the upstream request it makes, if any. */
  function Handler(httpMethod: string, request: Parse, apiKey: Option<string>, upstream: Upstream)
    : (result: (Response, Option<Fetch>))
    ensures result.0.headers == Headers
    ensures result.0.status in {200, 405, 500}
    ensures httpMethod == "OPTIONS" ==> result.0 == Response(Null, 200, Headers) && result.1.None?
    ensures httpMethod != "OPTIONS" && httpMethod != "POST" ==>
      result.0 == Response(ErrorJson(MethodNotAllowed), 405, Headers) && result.1.None?
    ensures result.1.Some? <==> httpMethod == "POST" && request.Parsed? && !KeyAbsent(apiKey)
    ensures result.1.Some? ==> result.1.value == Fetch(ApiUrl + apiKey.value, request.json)
  {
    if httpMethod == "OPTIONS" then (Response(Null, 200, Headers), None)
    else if httpMethod != "POST" then (Response(ErrorJson(MethodNotAllowed), 405, Headers), None)
    else match request
      case ParseFailed(message) => (Response(ErrorJson(message), 500, Headers), None)
      case Parsed(json) =>
        if KeyAbsent(apiKey) then (Response(ErrorJson(KeyMissing), 500, Headers), None)
        else
          var call := Fetch(ApiUrl + apiKey.value, json);
          match upstream
          case Replied(_, data) => (Response(Relayed(data), 200, Headers), Some(call))
          case Failed(message) => (Response(ErrorJson(message), 500, Headers), Some(call))
  }

  /** A POST's response: a request body that does not parse gives 500 with
      its error; a missing key gives 500 with the fixed message; otherwise
      the upstream reply is relayed with 200 whatever its own status, and an
      error thrown on the way gives 500 with its message. */
  lemma PostOutcomes(request: Parse, apiKey: Option<string>, upstream: Upstream)
    ensures var response := Handler("POST", request, apiKey, upstream).0;
      && (request.ParseFailed? ==> response.body == ErrorJson(request.message) && response.status == 500)
      && (request.Parsed? && KeyAbsent(apiKey) ==> response.body == ErrorJson(KeyMissing) && response.status == 500)
      && (request.Parsed? && !KeyAbsent(apiKey) && upstream.Replied? ==>
            response.body == Relayed(upstream.data) && response.status == 200)
      && (request.Parsed? && !KeyAbsent(apiKey) && upstream.Failed? ==>
            response.body == ErrorJson(upstream.message) && response.status == 500)
  {
  }

  /** The upstream status never reaches the client: two replies with the same
      data and any statuses give the same response. */
  lemma UpstreamStatusIgnored(httpMethod: string, request: Parse, apiKey: Option<string>, data: string, s1: int, s2: int)
    ensures Handler(httpMethod, request, apiKey, Replied(s1, data)) == Handler(httpMethod, request, apiKey, Replied(s2, data))
  {
  }

  /** Preflight is answered before the method guard, so it is never refused. */
  lemma OptionsNeverRefused(request: Parse, apiKey: Option<string>, upstream: Upstream)
    ensures Handler("OPTIONS", request, apiKey, upstream).0.status != 405
  {
  }
}
