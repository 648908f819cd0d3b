/**
 * How the page, the snippet generator and the relay fit together: the two
 * per-id variable tables of app/page.tsx and lib/utils.ts, the payload the
 * page posts against what the relay forwards, and what the page records
 * for each kind of relay reply.
 */
module Agreement {
  import opened Js
  import opened Catalog
  import opened RequestBody
  import opened Relay
  import opened Page
  import opened Snippets

  /** The snippet shows the variables the page sends, except for an entry
      that the snippet's table lists as taking nothing while it declares a
      `username`: there the page sends the name and the snippet does not. */
  lemma SnippetVariablesAgree(e: Endpoint, username: string, year: int, month0: int)
    ensures SnippetVariables(e, username, year, month0) == RequestVariables(e, username, year, month0)
        <==> !(e.id in NoVariableIds && "username" in e.variables)
  {
    if e.id in NoVariableIds && "username" in e.variables {
      assert "username" in RequestVariables(e, username, year, month0);
    }
  }

  /** For every catalog entry the snippet shows exactly what the page sends. */
  lemma CatalogSnippetsAgree(username: string, year: int, month0: int)
    ensures forall e :: e in AllEndpoints ==>
      SnippetVariables(e, username, year, month0) == RequestVariables(e, username, year, month0)
  {
    EmptyDeclarations();
    forall e | e in AllEndpoints
      ensures SnippetVariables(e, username, year, month0) == RequestVariables(e, username, year, month0)
    {
      SnippetVariablesAgree(e, username, year, month0);
    }
  }

  /** The relay forwards the page's payload unchanged whenever the entry has
      a document and an operation name. */
  lemma RelayForwardsPayload(e: Endpoint, variables: map<string, Json>)
    requires e.graphql != "" && e.query != ""
    ensures Forward(Parsed(Payload(e, variables))) ==
      Some(UpstreamRequest("POST", LeetCodeGraphqlUrl, UpstreamHeaders, Payload(e, variables)))
  {
    var p := Payload(e, variables);
    assert Member(p, "query") == Some(JStr(e.graphql));
    assert Member(p, "variables") == Some(JObj(variables));
    assert Member(p, "operationName") == Some(JStr(e.query));
    assert ForwardedBody(p).fields == p.fields;
  }

  /** For every catalog entry, whatever the username and the date, what
      LeetCode receives is exactly what the page posted. */
  lemma CatalogPayloadsForwarded(username: string, year: int, month0: int)
    ensures forall e :: e in AllEndpoints ==>
      var p := Payload(e, RequestVariables(e, username, year, month0));
      Forward(Parsed(p)) == Some(UpstreamRequest("POST", LeetCodeGraphqlUrl, UpstreamHeaders, p))
  {
    NamesPresent();
    forall e | e in AllEndpoints
      ensures var p := Payload(e, RequestVariables(e, username, year, month0));
        Forward(Parsed(p)) == Some(UpstreamRequest("POST", LeetCodeGraphqlUrl, UpstreamHeaders, p))
    {
      RelayForwardsPayload(e, RequestVariables(e, username, year, month0));
    }
  }

  /** The page does not look at the relay's status: a failure reply is
      recorded as it is, and shown as an error because of its `error`
      string, but it carries no `message`, so the error panel's message
      line stays empty and the reason is only in `details`. */
  lemma RelayFailuresShownWithoutMessage(inbound: Inbound, fetch: UpstreamRequest -> Upstream,
                                         parse: string -> Option<Json>)
    ensures var r := Post(inbound, fetch, parse);
      !Ok(r.status) ==>
        var stored := StoredResponse(CallReturned(r.body));
        stored == r.body && FlagsError(stored) && "message" !in stored.fields
  {
    var r := Post(inbound, fetch, parse);
    if !Ok(r.status) {
      FailuresExplain(inbound, fetch, parse);
      if inbound.Parsed? && Forward(inbound).Some? {
        var u := fetch(Forward(inbound).value);
        if u.Responded? && !Ok(u.status) {
          assert r.body == ErrorBody("LeetCode API returned " + IntToDecimal(u.status), u.text);
        }
      }
      assert r.body.fields.Keys <= {"error", "details"};
    }
  }

  /** End to end: when LeetCode answers the query of an entry with a
      document and an operation name (every catalog entry, by NamesPresent)
      with an object that has neither GraphQL errors nor a truthy `error`,
      the page records that object unchanged. */
  lemma LeetCodeDataShown(e: Endpoint, username: string, year: int, month0: int,
                          fetch: UpstreamRequest -> Upstream, parse: string -> Option<Json>, data: Json)
    requires e.graphql != "" && e.query != ""
    requires var p := Payload(e, RequestVariables(e, username, year, month0));
      var u := fetch(UpstreamRequest("POST", LeetCodeGraphqlUrl, UpstreamHeaders, p));
      u.Responded? && Ok(u.status) && parse(u.text) == Some(data)
    requires data.JObj? && GraphqlError(data).None? && !FlagsError(data)
    ensures var p := Payload(e, RequestVariables(e, username, year, month0));
      StoredResponse(CallReturned(Post(Parsed(p), fetch, parse).body)) == data
  {
    RelayForwardsPayload(e, RequestVariables(e, username, year, month0));
  }
}
