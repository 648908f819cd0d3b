/**
 * The query console of app/page.tsx: the `executeQuery` callback, which
 * checks an endpoint can be run, builds its variables, posts the payload
 * to the relay and records what came back, and the values the page derives
 * from its state to show the current response.
 *
 * The relay call is a parameter `relay`: what `fetch` followed by
 * `response.json()` yields for the payload posted (it throws, or it yields
 * a JSON value). `new Date()` becomes the `year` and the zero-based
 * `month0` it would report. Toasts and logging are not modelled.
 */
module Page {
  import opened Js
  import opened Catalog
  import opened RequestBody

  const DefaultUsername := "fyzxnshxik"
  const UnknownErrorOccurred := "Unknown error occurred"
  const GraphqlErrorOccurred := "GraphQL error occurred"
  const ErrorDetails :=
    "This might be due to network issues, the user not existing on LeetCode, or the endpoint requiring authentication."

  /** The start of V8's message for `"errors" in v` when `v` is not an object. */
  const InOperatorMessage := "Cannot use 'in' operator to search for 'errors' in "

  /** What `fetch` and `response.json()` give the page. */
  datatype RelayCall = CallThrew(thrown: Thrown) | CallReturned(data: Json)

  /** Why `executeQuery` returned before sending anything. */
  datatype Refusal = AuthenticationRequired | UsernameRequired

  /** What one `executeQuery` did: refuse, or post this payload. */
  datatype Outcome = Refused(reason: Refusal) | Sent(payload: Json)

  /** A value the `in` operator accepts. */
  predicate Container(v: Json) {
    v.JObj? || v.JArr?
  }

  /** `"error" in v && v.error`, for a value the `in` operator accepts. */
  predicate FlagsError(v: Json) {
    v.JObj? && "error" in v.fields && Truthy(v.fields["error"])
  }

  /** The `ErrorResponse` record of lib/api.ts the page stores on failure. */
  function ErrorResponse(message: string): (r: Json)
    ensures FlagsError(r)
    ensures r.JObj? && r.fields.Keys == {"error", "message", "details"}
    ensures r.fields["message"] == JStr(message) && r.fields["details"] == JStr(ErrorDetails)
  {
    JObj(map["error" := JBool(true), "message" := JStr(message), "details" := JStr(ErrorDetails)])
  }

  /** Why an endpoint cannot be run for this username, if it cannot: it needs
      authentication, or it takes a `username` and the name is blank. */
  function RefusalOf(e: Endpoint, username: string): (r: Option<Refusal>)
    ensures r == Some(AuthenticationRequired) <==> e.requiresAuth
    ensures r == Some(UsernameRequired) <==>
      !e.requiresAuth && "username" in e.variables && IsBlank(username)
  {
    TrimEmptyIffBlank(username);
    if e.requiresAuth then Some(AuthenticationRequired)
    else if Trim(username) == "" && "username" in e.variables then Some(UsernameRequired)
    else None
  }

  /** The variables `executeQuery` sends for an endpoint. */
  function RequestVariables(e: Endpoint, username: string, year: int, month0: int): (r: map<string, Json>)
    ensures "username" in r ==> r["username"] == JStr(username)
    ensures "userSlug" in r <==> e.id == "problemProgress"
    ensures "userSlug" in r ==> r["userSlug"] == JStr(username)
    ensures "month" in r ==> r["month"] == JNum(month0 + 1)
    ensures "year" in r ==> r["year"] == JNum(year)
    ensures "limit" in r <==> e.id == "recentSubmissions"
    ensures "limit" in r ==> r["limit"] == JNum(20)
    ensures e.id == "problemProgress" ==> r.Keys == {"userSlug"}
    ensures e.id == "recentSubmissions" ==> r.Keys == {"username", "limit"}
    ensures e.id == "challengeMedal" ==> r.Keys == {"year", "month"}
    ensures e.id !in {"problemProgress", "recentSubmissions", "challengeMedal"} ==>
      (r.Keys == {"username"} <==> "username" in e.variables) && r.Keys <= {"username"}
  {
    if e.id == "problemProgress" then map["userSlug" := JStr(username)]
    else if e.id == "recentSubmissions" then map["username" := JStr(username), "limit" := JNum(20)]
    else if e.id == "challengeMedal" then map["year" := JNum(year), "month" := JNum(month0 + 1)]
    else if "username" in e.variables then map["username" := JStr(username)]
    else map[]
  }

  /** `data.errors[0]?.message || "GraphQL error occurred"`, turned into an
      `Error`'s message, when `data.errors` is a non-empty array. */
  function GraphqlError(data: Json): (r: Option<string>)
    ensures r.Some? <==>
      data.JObj? && "errors" in data.fields && data.fields["errors"].JArr? && |data.fields["errors"].items| > 0
    ensures r.Some? ==> r.value == FirstErrorMessage(data.fields["errors"].items[0])
  {
    if data.JObj? && "errors" in data.fields && data.fields["errors"].JArr? && |data.fields["errors"].items| > 0 then
      Some(FirstErrorMessage(data.fields["errors"].items[0]))
    else
      None
  }

  /** `first?.message || "GraphQL error occurred"` as the message of an
      `Error`: the first error's own `message` turned into a string when it
      is truthy, the fixed text otherwise (a `null` first error reads
      `undefined`). */
  function FirstErrorMessage(first: Json): (r: string)
    ensures first.JObj? && "message" in first.fields && Truthy(first.fields["message"]) ==>
      r == ToJsString(first.fields["message"])
    ensures !(first.JObj? && "message" in first.fields && Truthy(first.fields["message"])) ==>
      r == GraphqlErrorOccurred
  {
    var message := if first.JNull? then None else Member(first, "message");
    if Present(message) then ToJsString(message.value) else GraphqlErrorOccurred
  }

  /** What `executeQuery` records for an endpoint once the relay call is
      over: the data, unless the call threw, the data is not something
      `"errors" in data` accepts, or it carries GraphQL errors; then an
      `ErrorResponse` with the message of what was thrown. */
  function StoredResponse(call: RelayCall): (r: Json)
    ensures Container(r)
    ensures !FlagsError(r) ==> call.CallReturned? && r == call.data
    ensures call.CallThrew? ==> r == ErrorResponse(MessageOr(call.thrown, UnknownErrorOccurred))
    ensures call.CallReturned? && !Container(call.data) ==>
      r == ErrorResponse(InOperatorMessage + ToJsString(call.data))
    ensures call.CallReturned? && Container(call.data) && GraphqlError(call.data).Some? ==>
      r == ErrorResponse(GraphqlError(call.data).value)
    ensures call.CallReturned? && Container(call.data) && GraphqlError(call.data).None? ==> r == call.data
  {
    match call
    case CallThrew(t) => ErrorResponse(MessageOr(t, UnknownErrorOccurred))
    case CallReturned(data) =>
      if !Container(data) then ErrorResponse(InOperatorMessage + ToJsString(data))
      else if GraphqlError(data).Some? then ErrorResponse(GraphqlError(data).value)
      else data
  }

  /** The page shows an error for a relay call exactly when the call threw,
      returned a primitive, returned GraphQL errors, or returned an object
      whose own `error` member is truthy. */
  lemma ShownAsError(call: RelayCall)
    ensures FlagsError(StoredResponse(call)) <==>
      call.CallThrew? || !Container(call.data) || GraphqlError(call.data).Some? || FlagsError(call.data)
  {
  }

  /** The first GraphQL error's message is the one shown. */
  lemma FirstGraphqlMessageShown(data: Json, message: string, rest: seq<Json>, first: map<string, Json>)
    requires data.JObj? && "errors" in data.fields
    requires data.fields["errors"] == JArr([JObj(first)] + rest)
    requires "message" in first && first["message"] == JStr(message) && message != ""
    ensures StoredResponse(CallReturned(data)) == ErrorResponse(message)
  {
    assert data.fields["errors"].items[0] == JObj(first);
  }

  /** The page's variables type-check against a declaration of the shape
      DeclaredFor gives: one value per declared variable, the username for
      each `String!`, a number for each `Int!`. */
  predicate Conforms(r: map<string, Json>, declared: map<string, string>, username: string) {
    r.Keys == declared.Keys &&
    forall k :: k in r ==> (declared[k] == "String!" ==> r[k] == JStr(username)) &&
                           (declared[k] == "Int!" ==> r[k].JNum?)
  }

  lemma RequestVariablesConform(e: Endpoint, username: string, year: int, month0: int)
    requires e.variables == DeclaredFor(e.id)
    ensures Conforms(RequestVariables(e, username, year, month0), e.variables, username)
  {
    var r := RequestVariables(e, username, year, month0);
    if e.id == "problemProgress" {
      assert r.Keys == {"userSlug"};
    } else if e.id == "recentSubmissions" {
      assert r.Keys == {"username", "limit"};
    } else if e.id == "challengeMedal" {
      assert r.Keys == {"year", "month"};
    } else if e.id in NoVariableIds {
      assert r.Keys == {};
    } else {
      assert r.Keys == {"username"};
    }
  }

  /** For a catalog entry the page supplies exactly the variables its
      document declares, a string for each `String!` and a number for each
      `Int!`, with the username wherever a name is asked for. */
  lemma RequestVariablesMatchDeclarations(username: string, year: int, month0: int)
    ensures forall e :: e in AllEndpoints ==>
      Conforms(RequestVariables(e, username, year, month0), e.variables, username)
  {
    VariablesFollowIds();
    forall e | e in AllEndpoints
      ensures Conforms(RequestVariables(e, username, year, month0), e.variables, username)
    {
      RequestVariablesConform(e, username, year, month0);
    }
  }

  /** The state of the `CodeQueryApp` component that `executeQuery` reads
      and writes, with the values rendered from it. */
  class CodeQueryApp {
    var username: string
    var responses: map<string, Json>
    var loading: map<string, bool>
    var currentEndpoint: Option<string>

    /** Every recorded response is an object or an array, so the page's
        `"error" in currentResponse` never throws. */
    ghost predicate Valid()
      reads this
    {
      forall id :: id in responses ==> Container(responses[id])
    }

    constructor ()
      ensures Valid()
      ensures username == DefaultUsername && responses == map[] && loading == map[] && currentEndpoint.None?
    {
      username := DefaultUsername;
      responses := map[];
      loading := map[];
      currentEndpoint := None;
    }

    /** The username input. */
    method SetUsername(name: string)
      requires Valid()
      modifies this
      ensures Valid()
      ensures username == name
      ensures responses == old(responses) && loading == old(loading) && currentEndpoint == old(currentEndpoint)
    {
      username := name;
    }

    /** `executeQuery(endpoint)`, run to completion: refuse, or send. */
    method ExecuteQuery(e: Endpoint, year: int, month0: int, relay: Json -> RelayCall) returns (outcome: Outcome)
      requires Valid()
      modifies this
      ensures Valid()
      ensures username == old(username)
      ensures outcome.Refused? <==> RefusalOf(e, username).Some?
      ensures outcome.Refused? ==>
        outcome.reason == RefusalOf(e, username).value &&
        responses == old(responses) && loading == old(loading) && currentEndpoint == old(currentEndpoint)
      ensures outcome.Sent? ==>
        outcome.payload == Payload(e, RequestVariables(e, username, year, month0)) &&
        currentEndpoint == Some(e.id) &&
        loading == old(loading)[e.id := false] &&
        responses == old(responses)[e.id := StoredResponse(relay(outcome.payload))]
    {
      var refusal := RefusalOf(e, username);
      if refusal.Some? {
        return Refused(refusal.value);
      }
      var payload := Send(e, year, month0, relay);
      outcome := Sent(payload);
    }

    /** The part of `executeQuery` after its checks: select the endpoint,
        mark it loading, post its payload, record what came back, clear
        the loading flag. Afterwards the page shows that endpoint's new
        response and no spinner. */
    method Send(e: Endpoint, year: int, month0: int, relay: Json -> RelayCall) returns (payload: Json)
      requires Valid()
      modifies this
      ensures Valid()
      ensures username == old(username)
      ensures payload == Payload(e, RequestVariables(e, username, year, month0))
      ensures currentEndpoint == Some(e.id) && loading == old(loading)[e.id := false]
      ensures responses == old(responses)[e.id := StoredResponse(relay(payload))]
      ensures e.id != "" ==> !IsLoading() && CurrentResponse() == Some(StoredResponse(relay(payload)))
    {
      currentEndpoint := Some(e.id);
      loading := loading[e.id := true];
      var variables := RequestVariables(e, username, year, month0);
      payload := Payload(e, variables);
      var stored := StoredResponse(relay(payload));
      responses := responses[e.id := stored];
      loading := loading[e.id := false];
    }

    /** `isLoading`: the current endpoint's flag, false without one. */
    function IsLoading(): (r: bool)
      reads this
      ensures r <==>
        currentEndpoint.Some? && currentEndpoint.value != "" &&
        currentEndpoint.value in loading && loading[currentEndpoint.value]
    {
      match currentEndpoint
      case None => false
      case Some(id) => id != "" && id in loading && loading[id]
    }

    /** `currentResponse`: what is recorded for the current endpoint, if
        there is one (an empty id is falsy, so it selects nothing). */
    function CurrentResponse(): (r: Option<Json>)
      reads this
      ensures r.Some? <==>
        currentEndpoint.Some? && currentEndpoint.value != "" && currentEndpoint.value in responses
      ensures r.Some? ==> r.value == responses[currentEndpoint.value]
    {
      match currentEndpoint
      case None => None
      case Some(id) => if id != "" && id in responses then Some(responses[id]) else None
    }

    /** `isErrorResponse`. */
    predicate IsErrorResponse()
      requires Valid()
      reads this
      ensures IsErrorResponse() <==>
        currentEndpoint.Some? && currentEndpoint.value != "" && currentEndpoint.value in responses &&
        FlagsError(responses[currentEndpoint.value])
    {
      CurrentResponse().Some? && FlagsError(CurrentResponse().value)
    }

    /** `formattedResponse`: the current response pretty-printed, or nothing
        when there is none or it is an error. */
    function FormattedResponse(pretty: Json -> string): (r: string)
      requires Valid()
      reads this
      ensures !IsErrorResponse() && CurrentResponse().Some? ==> r == pretty(CurrentResponse().value)
      ensures IsErrorResponse() || CurrentResponse().None? ==> r == ""
    {
      if CurrentResponse().Some? && !IsErrorResponse() then pretty(CurrentResponse().value) else ""
    }
  }
}
