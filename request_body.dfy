/**
 * The JSON body the page (app/page.tsx:88-92) and its code snippets
 * (lib/utils.ts:44-48) post to the relay for a catalog entry.
 */
module RequestBody {
  import opened Js
  import opened Catalog

  /** The document, the variables and the operation name of an entry. */
  function Payload(e: Endpoint, variables: map<string, Json>): (r: Json)
    ensures r.JObj? && r.fields.Keys == {"query", "variables", "operationName"}
    ensures r.fields["query"] == JStr(e.graphql) && r.fields["operationName"] == JStr(e.query)
    ensures r.fields["variables"] == JObj(variables)
  {
    JObj(map["query" := JStr(e.graphql), "variables" := JObj(variables), "operationName" := JStr(e.query)])
  }
}
