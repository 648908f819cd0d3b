/**
 * The relay route of app/api/leetcode/route.ts. `POST` reads the page's
 * JSON body, refuses one without a truthy `query`, forwards query,
 * variables and operation name to LeetCode's GraphQL endpoint with a fixed
 * set of browser-like headers, and answers with the parsed upstream body
 * or an error object. `OPTIONS` answers a CORS preflight.
 *
 * The network is a parameter: `fetch` gives the outcome of sending a
 * request upstream (it throws, or it yields a status and the response
 * text), and `parse` stands for `JSON.parse` (None when it throws).
 */
module Relay {
  import opened Js

  const LeetCodeGraphqlUrl := "https://leetcode.com/graphql"

  /** The headers sent upstream, in the order they are written. */
  const UpstreamHeaders: seq<(string, string)> := [
    ("Content-Type", "application/json"),
    ("User-Agent", "Mozilla/5.0 (Windows NT 10.0; Win64; x64) AppleWebKit/537.36 (KHTML, like Gecko) Chrome/91.0.4472.124 Safari/537.36"),
    ("Origin", "https://leetcode.com"),
    ("Referer", "https://leetcode.com/"),
    ("Accept", "application/json"),
    ("Accept-Language", "en-US,en;q=0.9"),
    ("x-csrftoken", "dummy-csrf-token")
  ]

  const MissingQuery := "Missing query in request body"
  const FetchFailed := "Failed to fetch data from LeetCode API"
  const UnparsableUpstream := "Failed to parse LeetCode API response as JSON"
  const UnknownError := "Unknown error"

  /** What V8 throws for `body.query` when the request body is `null`. */
  const NullBodyMessage := "Cannot read properties of null (reading 'query')"

  /** The request body as `request.json()` delivers it: a JSON value, or the
      `SyntaxError` it throws on text that is not JSON. */
  datatype Inbound = Parsed(body: Json) | Unparsable(message: string)

  /** The request the relay sends upstream. */
  datatype UpstreamRequest = UpstreamRequest(
    httpMethod: string,
    url: string,
    headers: seq<(string, string)>,
    body: Json
  )

  /** The outcome of `fetch` followed by `response.text()`. */
  datatype Upstream = Threw(thrown: Thrown) | Responded(status: int, text: string)

  /** A JSON response of the route: its status and its body. */
  datatype Reply = Reply(status: int, body: Json)

  /** `response.ok`. */
  predicate Ok(status: int) {
    200 <= status <= 299
  }

  /** The `{error, details}` object every failure of the route answers with. */
  function ErrorBody(error: string, details: string): (r: Json)
    ensures r.JObj? && r.fields.Keys == {"error", "details"}
    ensures r.fields["error"] == JStr(error) && r.fields["details"] == JStr(details)
  {
    JObj(map["error" := JStr(error), "details" := JStr(details)])
  }

  /** The body forwarded for an inbound body whose `query` is truthy:
      `variables` defaults to `{}` and `operationName` to `null`. */
  function ForwardedBody(body: Json): (r: Json)
    requires !body.JNull?
    ensures r.JObj? && r.fields.Keys == {"query", "variables", "operationName"}
    ensures Member(body, "query").Some? ==> r.fields["query"] == Member(body, "query").value
    ensures Truthy(r.fields["variables"])
    ensures Present(Member(body, "variables")) ==> r.fields["variables"] == Member(body, "variables").value
    ensures !Present(Member(body, "variables")) ==> r.fields["variables"] == JObj(map[])
    ensures Present(Member(body, "operationName")) ==> r.fields["operationName"] == Member(body, "operationName").value
    ensures !Present(Member(body, "operationName")) ==> r.fields["operationName"] == JNull
  {
    var query := if Member(body, "query").Some? then Member(body, "query").value else JNull;
    JObj(map[
      "query" := query,
      "variables" := OrElse(Member(body, "variables"), JObj(map[])),
      "operationName" := OrElse(Member(body, "operationName"), JNull)
    ])
  }

  /** The request `POST` sends upstream, if it gets that far: only for a
      parsed, non-null body with a truthy `query` (lines 9-33). */
  function Forward(inbound: Inbound): (r: Option<UpstreamRequest>)
    ensures r.Some? <==>
      inbound.Parsed? && !inbound.body.JNull? && Present(Member(inbound.body, "query"))
    ensures r.Some? ==>
      r.value.httpMethod == "POST" && r.value.url == LeetCodeGraphqlUrl && r.value.headers == UpstreamHeaders
    ensures r.Some? ==> r.value.body == ForwardedBody(inbound.body)
  {
    if inbound.Parsed? && !inbound.body.JNull? && Present(Member(inbound.body, "query")) then
      Some(UpstreamRequest("POST", LeetCodeGraphqlUrl, UpstreamHeaders, ForwardedBody(inbound.body)))
    else
      None
  }

  /** The reply once the upstream request has been sent (lines 35-62 and
      the catch at 63-73 for a throwing fetch). */
  function Answer(upstream: Upstream, parse: string -> Option<Json>): (r: Reply)
    ensures Ok(r.status) <==> upstream.Responded? && Ok(upstream.status) && parse(upstream.text).Some?
    ensures Ok(r.status) ==> r.status == 200 && r.body == parse(upstream.text).value
    ensures upstream.Responded? && !Ok(upstream.status) ==>
      r == Reply(upstream.status, ErrorBody("LeetCode API returned " + IntToDecimal(upstream.status), upstream.text))
    ensures upstream.Responded? && Ok(upstream.status) && parse(upstream.text).None? ==>
      r == Reply(500, ErrorBody(UnparsableUpstream, upstream.text))
    ensures upstream.Threw? ==>
      r == Reply(500, ErrorBody(FetchFailed, MessageOr(upstream.thrown, UnknownError)))
  {
    match upstream
    case Threw(t) => Reply(500, ErrorBody(FetchFailed, MessageOr(t, UnknownError)))
    case Responded(status, text) =>
      if !Ok(status) then
        Reply(status, ErrorBody("LeetCode API returned " + IntToDecimal(status), text))
      else
        match parse(text)
        case None => Reply(500, ErrorBody(UnparsableUpstream, text))
        case Some(data) => Reply(200, data)
  }

  /** `POST /api/leetcode`. */
  function Post(inbound: Inbound, fetch: UpstreamRequest -> Upstream, parse: string -> Option<Json>): (r: Reply)
    ensures inbound.Unparsable? ==> r == Reply(500, ErrorBody(FetchFailed, inbound.message))
    ensures inbound == Parsed(JNull) ==> r == Reply(500, ErrorBody(FetchFailed, NullBodyMessage))
    ensures inbound.Parsed? && !inbound.body.JNull? && Forward(inbound).None? ==>
      r == Reply(400, JObj(map["error" := JStr(MissingQuery)]))
    ensures Forward(inbound).Some? ==> r == Answer(fetch(Forward(inbound).value), parse)
  {
    match inbound
    case Unparsable(message) => Reply(500, ErrorBody(FetchFailed, message))
    case Parsed(body) =>
      if body.JNull? then
        Reply(500, ErrorBody(FetchFailed, NullBodyMessage))
      else
        match Forward(inbound)
        case None => Reply(400, JObj(map["error" := JStr(MissingQuery)]))
        case Some(request) => Answer(fetch(request), parse)
  }

  /** A successful reply is exactly what LeetCode answered: the route only
      answers 2xx after forwarding, upon a 2xx upstream response that
      parses, and then with status 200 and the parsed value unchanged. */
  lemma SuccessIsVerbatim(inbound: Inbound, fetch: UpstreamRequest -> Upstream, parse: string -> Option<Json>)
    ensures var r := Post(inbound, fetch, parse);
      Ok(r.status) ==>
        Forward(inbound).Some? &&
        var u := fetch(Forward(inbound).value);
        u.Responded? && Ok(u.status) && r.status == 200 && parse(u.text) == Some(r.body)
  {
  }

  /** Every reply that is not a success carries an `error` string, and every
      one but the 400 refusal a `details` string as well. */
  lemma FailuresExplain(inbound: Inbound, fetch: UpstreamRequest -> Upstream, parse: string -> Option<Json>)
    ensures var r := Post(inbound, fetch, parse);
      !Ok(r.status) ==>
        r.body.JObj? && "error" in r.body.fields && r.body.fields["error"].JStr? &&
        (r.status != 400 ==> "details" in r.body.fields && r.body.fields["details"].JStr?)
  {
    var r := Post(inbound, fetch, parse);
    if inbound.Parsed? && !inbound.body.JNull? && Forward(inbound).Some? {
      var u := fetch(Forward(inbound).value);
      if u.Responded? && !Ok(u.status) && u.status == 400 {
        assert "details" in r.body.fields;
      }
    }
  }

  /** The status is one of 200, 400 and 500, or mirrors a non-2xx upstream status. */
  lemma StatusOrigins(inbound: Inbound, fetch: UpstreamRequest -> Upstream, parse: string -> Option<Json>)
    ensures var r := Post(inbound, fetch, parse);
      r.status in {200, 400, 500} ||
      (Forward(inbound).Some? && fetch(Forward(inbound).value).Responded? &&
       r.status == fetch(Forward(inbound).value).status && !Ok(r.status))
  {
  }

  /** Nothing is sent upstream without a query: when `Forward` yields nothing,
      the reply does not depend on the network at all. */
  lemma NoQueryNoNetwork(inbound: Inbound, f: UpstreamRequest -> Upstream, g: UpstreamRequest -> Upstream,
                         parse: string -> Option<Json>)
    requires Forward(inbound).None?
    ensures Post(inbound, f, parse) == Post(inbound, g, parse)
    ensures Post(inbound, f, parse).status in {400, 500}
  {
  }

  /** The relay is a fixed point on what it forwards: a body it has already
      normalised is forwarded again with the same three members (a `null`
      operation name is falsy and defaults to `null` again). */
  lemma ForwardIdempotent(body: Json)
    requires !body.JNull?
    ensures var once := ForwardedBody(body);
      ForwardedBody(once).fields["variables"] == once.fields["variables"] &&
      ForwardedBody(once).fields["operationName"] == once.fields["operationName"] &&
      ForwardedBody(once).fields["query"] == once.fields["query"]
  {
    var once := ForwardedBody(body);
    assert Member(once, "query") == Some(once.fields["query"]);
    assert Member(once, "variables") == Some(once.fields["variables"]);
    assert Member(once, "operationName") == Some(once.fields["operationName"]);
  }

  /** The headers of the `OPTIONS` answer, in the order they are written. */
  const PreflightHeaders: seq<(string, string)> := [
    ("Access-Control-Allow-Origin", "*"),
    ("Access-Control-Allow-Methods", "POST, OPTIONS"),
    ("Access-Control-Allow-Headers", "Content-Type")
  ]

  /** A response without a body: a status and headers. */
  datatype EmptyResponse = EmptyResponse(status: int, headers: seq<(string, string)>)

  /** The value of the first header named `name`. */
  function HeaderValue(headers: seq<(string, string)>, name: string): (r: Option<string>)
    ensures r.None? <==> forall i :: 0 <= i < |headers| ==> headers[i].0 != name
    ensures r.Some? ==> exists i :: 0 <= i < |headers| && headers[i] == (name, r.value)
    decreases |headers|
  {
    if headers == [] then None
    else if headers[0].0 == name then Some(headers[0].1)
    else
      var r := HeaderValue(headers[1..], name);
      assert forall i :: 0 < i < |headers| ==> headers[i] == headers[1..][i - 1];
      r
  }

  /** `OPTIONS /api/leetcode`: a bodiless 200 that lets a page from any
      origin send a JSON `POST`. */
  function Options(): (r: EmptyResponse)
    ensures r.status == 200
    ensures |r.headers| == 3
    ensures HeaderValue(r.headers, "Access-Control-Allow-Origin") == Some("*")
    ensures HeaderValue(r.headers, "Access-Control-Allow-Methods") == Some("POST, OPTIONS")
    ensures HeaderValue(r.headers, "Access-Control-Allow-Headers") == Some("Content-Type")
  {
    EmptyResponse(200, PreflightHeaders)
  }
}
