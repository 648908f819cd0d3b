/**
 * `generateCodeSnippet` of lib/utils.ts: the variables the snippet shows
 * for an endpoint, and the TypeScript, Python, Go and C++ programs that
 * post its payload to the relay at `/api/leetcode`.
 *
 * `JSON.stringify` is a parameter in its two uses: `pretty` for
 * `JSON.stringify(v, null, 2)` and `compact` for `JSON.stringify(v)`.
 */
module Snippets {
  import opened Js
  import opened Catalog
  import opened RequestBody

  /** The variables the snippet shows: the page's table, except that the
      entries known to take nothing get `{}` whatever they declare. */
  function SnippetVariables(e: Endpoint, username: string, year: int, month0: int): (r: map<string, Json>)
    ensures e.id in NoVariableIds ==> r == map[]
    ensures "username" in r ==> r["username"] == JStr(username)
    ensures "userSlug" in r <==> e.id == "problemProgress"
    ensures "userSlug" in r ==> r["userSlug"] == JStr(username)
    ensures "month" in r ==> r["month"] == JNum(month0 + 1)
    ensures "year" in r ==> r["year"] == JNum(year)
    ensures "limit" in r <==> e.id == "recentSubmissions"
    ensures "limit" in r ==> r["limit"] == JNum(20)
    ensures e.id == "problemProgress" ==> r.Keys == {"userSlug"}
    ensures e.id == "recentSubmissions" ==> r.Keys == {"username", "limit"}
    ensures e.id == "challengeMedal" ==> r.Keys == {"year", "month"}
    ensures e.id !in {"problemProgress", "recentSubmissions", "challengeMedal"} && e.id !in NoVariableIds ==>
      (r.Keys == {"username"} <==> "username" in e.variables) && r.Keys <= {"username"}
  {
    if e.id == "problemProgress" then map["userSlug" := JStr(username)]
    else if e.id == "recentSubmissions" then map["username" := JStr(username), "limit" := JNum(20)]
    else if e.id == "challengeMedal" then map["year" := JNum(year), "month" := JNum(month0 + 1)]
    else if e.id in NoVariableIds then map[]
    else if "username" in e.variables then map["username" := JStr(username)]
    else map[]
  }

  /** `s.replace(/from/g, to)` for a one-character pattern. */
  function ReplaceAll(s: string, from: char, to: char): (r: string)
    ensures |r| == |s|
    ensures forall i :: 0 <= i < |s| ==> r[i] == (if s[i] == from then to else s[i])
    decreases |s|
  {
    if s == [] then [] else [if s[0] == from then to else s[0]] + ReplaceAll(s[1..], from, to)
  }

  /** Replacing a character by itself, as the Python template does with its
      double quotes, leaves the text as it was. */
  lemma ReplaceByItself(s: string, c: char)
    ensures ReplaceAll(s, c, c) == s
  {
    assert forall i :: 0 <= i < |s| ==> ReplaceAll(s, c, c)[i] == s[i];
  }

  /** `t` occurs in `s` starting at index `i`. */
  predicate InfixAt(s: string, t: string, i: int) {
    0 <= i && i + |t| <= |s| && s[i..i + |t|] == t
  }

  const ApiPath := "/api/leetcode"

  /** A program with one hole: its first line (a comment naming the
      language), the rest of the text before the hole, and the text after. */
  datatype Template = Template(header: string, before: string, after: string)

  /** `t` with `hole` written into it. */
  function Fill(t: Template, hole: string): (r: string)
    ensures |r| == |t.header| + |t.before| + |hole| + |t.after|
    ensures t.header <= r
    ensures InfixAt(r, hole, |t.header| + |t.before|)
  {
    var r := t.header + (t.before + (hole + t.after));
    assert r[|t.header|..] == t.before + (hole + t.after);
    r
  }

  /** The text in a filled template's hole, or "" if `s` is too short. */
  function Embedded(s: string, t: Template): string {
    var start := |t.header| + |t.before|;
    if start + |t.after| <= |s| then s[start..|s| - |t.after|] else ""
  }

  /** Reading the hole back gives what was put in. */
  lemma EmbeddedFill(t: Template, hole: string)
    ensures Embedded(Fill(t, hole), t) == hole
  {
    var s := Fill(t, hole);
    var start := |t.header| + |t.before|;
    assert s[start..][..|hole|] == hole;
  }

  /** A text that occurs in `s` still occurs, shifted, once `s` is put
      between a prefix and a suffix. */
  lemma InfixWithin(h: string, s: string, x: string, t: string, i: int)
    requires InfixAt(s, t, i)
    ensures InfixAt(h + (s + x), t, |h| + i)
  {
    var w := h + (s + x);
    assert w[|h|..][..|s|] == s;
    assert w[|h| + i..|h| + i + |t|] == s[i..i + |t|];
  }

  /** A text that occurs in a template's trailing text occurs in every
      filling of it, after the hole. */
  lemma InfixInAfter(t: Template, hole: string, u: string, i: int)
    requires InfixAt(t.after, u, i)
    ensures InfixAt(Fill(t, hole), u, |t.header| + |t.before| + |hole| + i)
  {
    InfixPrepend(hole, t.after, u, i);
    InfixPrepend(t.before, hole + t.after, u, |hole| + i);
    InfixPrepend(t.header, t.before + (hole + t.after), u, |t.before| + |hole| + i);
  }

  /** A text that occurs in `s` still occurs, shifted, after a prefix. */
  lemma InfixPrepend(h: string, s: string, t: string, i: int)
    requires InfixAt(s, t, i)
    ensures InfixAt(h + s, t, |h| + i)
  {
    var w := h + s;
    assert w[|h|..] == s;
    assert w[|h| + i..|h| + i + |t|] == s[i..i + |t|];
  }

  /** `b` occurs in `a + (b + c)` right after `a`. */
  lemma InfixAfter(a: string, b: string, c: string)
    ensures InfixAt(a + (b + c), b, |a|)
  {
    var w := a + (b + c);
    assert w[|a|..][..|b|] == b;
  }

  // ---------------------------------------------------------------------
  // TypeScript (lib/utils.ts:51-62)

  const TypeScriptHeader := "// TypeScript/JavaScript\n"
  const TypeScriptFetch := "const response = await fetch('"
  const TypeScriptOptions :=
    "', {\n"
    + "  method: 'POST',\n"
    + "  headers: {\n"
    + "    'Content-Type': 'application/json',\n"
    + "  },\n"
    + "  body: JSON.stringify("
  const TypeScriptTail :=
    ")\n"
    + "});\n"
    + "\n"
    + "const data = await response.json();\n"
    + "console.log(data);"

  const TypeScriptTemplate :=
    Template(TypeScriptHeader, TypeScriptFetch + (ApiPath + TypeScriptOptions), TypeScriptTail)

  /** `r` is a TypeScript program that opens with its comment line, fetches
      the relay's path and passes `payload` to `JSON.stringify`. */
  predicate TypeScriptProgram(r: string, payload: string) {
    TypeScriptHeader <= r &&
    InfixAt(r, ApiPath, |TypeScriptHeader| + |TypeScriptFetch|) &&
    Embedded(r, TypeScriptTemplate) == payload
  }

  /** The TypeScript program around `payload` text. */
  function TypeScriptSnippet(payload: string): (r: string)
    ensures TypeScriptProgram(r, payload)
  {
    var t := TypeScriptTemplate;
    InfixAfter(TypeScriptFetch, ApiPath, TypeScriptOptions);
    InfixWithin(t.header, t.before, payload + t.after, ApiPath, |TypeScriptFetch|);
    EmbeddedFill(t, payload);
    Fill(t, payload)
  }

  // ---------------------------------------------------------------------
  // Python (lib/utils.ts:64-74)

  const PythonHeader := "# Python\n"
  const PythonImports :=
    "import requests\n"
    + "import json\n"
    + "\n"
    + "url = \""
  const PythonPayload := "\"\npayload = "
  const PythonTail :=
    "\n"
    + "\n"
    + "response = requests.post(url, json=payload)\n"
    + "data = response.json()\n"
    + "print(json.dumps(data, indent=2))"

  const PythonTemplate :=
    Template(PythonHeader, PythonImports + (ApiPath + PythonPayload), PythonTail)

  /** `r` is a Python program that opens with its comment line, sets `url`
      to the relay's path and `payload` to the given text. */
  predicate PythonProgram(r: string, payload: string) {
    PythonHeader <= r &&
    InfixAt(r, ApiPath, |PythonHeader| + |PythonImports|) &&
    Embedded(r, PythonTemplate) == payload
  }

  /** The Python program around `payload` text. */
  function PythonSnippet(payload: string): (r: string)
    ensures PythonProgram(r, payload)
  {
    var t := PythonTemplate;
    InfixAfter(PythonImports, ApiPath, PythonPayload);
    InfixWithin(t.header, t.before, payload + t.after, ApiPath, |PythonImports|);
    EmbeddedFill(t, payload);
    Fill(t, payload)
  }

  // ---------------------------------------------------------------------
  // C++ (lib/utils.ts:107-144); the path comes after the payload.

  const CppHeader := "// C++ (using libcurl)\n"
  const CppPrologue :=
    "#include <iostream>\n"
    + "#include <string>\n"
    + "#include <curl/curl.h>\n"
    + "#include <json/json.h>\n"
    + "\n"
    + "size_t WriteCallback(void* contents, size_t size, size_t nmemb, std::string* data) {\n"
    + "    data->append((char*)contents, size * nmemb);\n"
    + "    return size * nmemb;\n"
    + "}\n"
    + "\n"
    + "int main() {\n"
    + "    CURL* curl;\n"
    + "    CURLcode res;\n"
    + "    std::string response;\n"
    + "\n"
    + "    curl = curl_easy_init();\n"
    + "    if(curl) {\n"
    + "        std::string payload = R\"("
  const CppSetUrl :=
    ")\";\n"
    + "\n"
    + "        curl_easy_setopt(curl, CURLOPT_URL, \""
  const CppTail :=
    "\");\n"
    + "        curl_easy_setopt(curl, CURLOPT_POSTFIELDS, payload.c_str());\n"
    + "        curl_easy_setopt(curl, CURLOPT_WRITEFUNCTION, WriteCallback);\n"
    + "        curl_easy_setopt(curl, CURLOPT_WRITEDATA, &response);\n"
    + "\n"
    + "        struct curl_slist* headers = NULL;\n"
    + "        headers = curl_slist_append(headers, \"Content-Type: application/json\");\n"
    + "        curl_easy_setopt(curl, CURLOPT_HTTPHEADER, headers);\n"
    + "\n"
    + "        res = curl_easy_perform(curl);\n"
    + "        curl_easy_cleanup(curl);\n"
    + "        curl_slist_free_all(headers);\n"
    + "    }\n"
    + "\n"
    + "    std::cout << response << std::endl;\n"
    + "    return 0;\n"
    + "}"

  const CppTemplate :=
    Template(CppHeader, CppPrologue, CppSetUrl + (ApiPath + CppTail))

  /** `r` is a C++ program that opens with its comment line, holds
      `payload` in a raw string literal and posts it to the relay's path. */
  predicate CppProgram(r: string, payload: string) {
    CppHeader <= r &&
    InfixAt(r, ApiPath, |CppHeader| + |CppPrologue| + |payload| + |CppSetUrl|) &&
    Embedded(r, CppTemplate) == payload
  }

  /** The C++ program around `payload` text. */
  function CppSnippet(payload: string): (r: string)
    ensures CppProgram(r, payload)
  {
    InfixAfter(CppSetUrl, ApiPath, CppTail);
    InfixInAfter(CppTemplate, payload, ApiPath, |CppSetUrl|);
    EmbeddedFill(CppTemplate, payload);
    Fill(CppTemplate, payload)
  }

  // ---------------------------------------------------------------------
  // Go (lib/utils.ts:76-105): three holes, the document inside a raw
  // string literal, the variables as JSON, the operation name inside a
  // double-quoted literal.

  const GoHeader := "// Go\n"
  const GoPrologue :=
    "package main\n"
    + "\n"
    + "import (\n"
    + "    \"bytes\"\n"
    + "    \"encoding/json\"\n"
    + "    \"fmt\"\n"
    + "    \"net/http\"\n"
    + ")\n"
    + "\n"
    + "func main() {\n"
    + "    url := \""
  const GoQuery :=
    "\"\n"
    + "    payload := map[string]interface{}{\n"
    + "        \"query\": `"
  const GoVariables :=
    "`,\n"
    + "        \"variables\": "
  const GoOperationName :=
    ",\n"
    + "        \"operationName\": \""
  const GoTail :=
    "\",\n"
    + "    }\n"
    + "\n"
    + "    jsonPayload, _ := json.Marshal(payload)\n"
    + "    resp, err := http.Post(url, \"application/json\", bytes.NewBuffer(jsonPayload))\n"
    + "    if err != nil {\n"
    + "        panic(err)\n"
    + "    }\n"
    + "    defer resp.Body.Close()\n"
    + "\n"
    + "    var result map[string]interface{}\n"
    + "    json.NewDecoder(resp.Body).Decode(&result)\n"
    + "    fmt.Printf(\"%+v\\n\", result)\n"
    + "}"

  /** The Go program as a template whose hole is the variables: the
      document and the operation name are part of its text. */
  function GoTemplate(graphql: string, operationName: string): Template {
    Template(GoHeader, GoPrologue + (ApiPath + (GoQuery + (graphql + GoVariables))),
             GoOperationName + (operationName + GoTail))
  }

  /** `r` is a Go program that opens with its comment line, sets `url` to
      the relay's path, holds `graphql` in a raw string literal and
      `variables` as the value of the `variables` key. */
  predicate GoProgram(r: string, graphql: string, variables: string, operationName: string) {
    GoHeader <= r &&
    InfixAt(r, ApiPath, |GoHeader| + |GoPrologue|) &&
    InfixAt(r, graphql, |GoHeader| + |GoPrologue| + |ApiPath| + |GoQuery|) &&
    Embedded(r, GoTemplate(graphql, operationName)) == variables
  }

  /** The Go program for a document, variables text and operation name. */
  function GoSnippet(graphql: string, variables: string, operationName: string): (r: string)
    ensures GoProgram(r, graphql, variables, operationName)
  {
    var t := GoTemplate(graphql, operationName);
    InfixAfter(GoQuery, graphql, GoVariables);
    InfixPrepend(ApiPath, GoQuery + (graphql + GoVariables), graphql, |GoQuery|);
    InfixAfter(GoPrologue, ApiPath, GoQuery + (graphql + GoVariables));
    InfixPrepend(GoPrologue, ApiPath + (GoQuery + (graphql + GoVariables)), graphql, |ApiPath| + |GoQuery|);
    InfixWithin(t.header, t.before, variables + t.after, ApiPath, |GoPrologue|);
    InfixWithin(t.header, t.before, variables + t.after, graphql, |GoPrologue| + |ApiPath| + |GoQuery|);
    EmbeddedFill(t, variables);
    Fill(t, variables)
  }

  // ---------------------------------------------------------------------

  /** The payload of lib/utils.ts:44-48. */
  function SnippetPayload(e: Endpoint, username: string, year: int, month0: int): (r: Json)
    ensures r.JObj? && r.fields.Keys == {"query", "variables", "operationName"}
    ensures r.fields["query"] == JStr(e.graphql) && r.fields["operationName"] == JStr(e.query)
    ensures r.fields["variables"] == JObj(SnippetVariables(e, username, year, month0))
  {
    Payload(e, SnippetVariables(e, username, year, month0))
  }

  /** The languages `generateCodeSnippet` has a template for. */
  datatype Language = TypeScript | Python | Golang | Cpp

  /** The `switch (language)` of lib/utils.ts:50: which template a language
      name selects, if any. */
  function LanguageNamed(name: string): (r: Option<Language>)
    ensures r == Some(TypeScript) <==> name == "typescript"
    ensures r == Some(Python) <==> name == "python"
    ensures r == Some(Golang) <==> name == "golang"
    ensures r == Some(Cpp) <==> name == "cpp"
  {
    if name == "typescript" then Some(TypeScript)
    else if name == "python" then Some(Python)
    else if name == "golang" then Some(Golang)
    else if name == "cpp" then Some(Cpp)
    else None
  }

  /** `generateCodeSnippet(endpoint, language, username)`: for each of the
      four languages a program that starts with a comment naming the
      language, calls the relay's path and carries the snippet's payload
      (all of it rendered as JSON, or for Go its variables, with the
      document and operation name in the text); for any other language
      nothing. */
  function GenerateCodeSnippet(e: Endpoint, language: string, username: string, year: int, month0: int,
                               pretty: Json -> string, compact: Json -> string): (r: string)
    ensures LanguageNamed(language).None? ==> r == ""
    ensures LanguageNamed(language) == Some(TypeScript) ==>
      TypeScriptProgram(r, pretty(SnippetPayload(e, username, year, month0)))
    ensures LanguageNamed(language) == Some(Python) ==>
      PythonProgram(r, pretty(SnippetPayload(e, username, year, month0)))
    ensures LanguageNamed(language) == Some(Cpp) ==>
      CppProgram(r, compact(SnippetPayload(e, username, year, month0)))
    ensures LanguageNamed(language) == Some(Golang) ==>
      GoProgram(r, e.graphql, compact(JObj(SnippetVariables(e, username, year, month0))), e.query)
  {
    match LanguageNamed(language)
    case Some(TypeScript) => TypeScriptSnippet(pretty(SnippetPayload(e, username, year, month0)))
    case Some(Python) =>
      ReplaceByItself(pretty(SnippetPayload(e, username, year, month0)), '"');
      PythonSnippet(ReplaceAll(pretty(SnippetPayload(e, username, year, month0)), '"', '"'))
    case Some(Golang) => GoSnippet(e.graphql, compact(JObj(SnippetVariables(e, username, year, month0))), e.query)
    case Some(Cpp) => CppSnippet(compact(SnippetPayload(e, username, year, month0)))
    case None => ""
  }

  /** Given a parser that reads back what `pretty` and `compact` write, the
      payload embedded in the TypeScript, Python and C++ programs parses to
      the payload the snippet describes. */
  lemma SnippetPayloadRoundTrip(e: Endpoint, language: string, username: string, year: int, month0: int,
                                pretty: Json -> string, compact: Json -> string, parse: string -> Option<Json>)
    requires forall v :: parse(pretty(v)) == Some(v)
    requires forall v :: parse(compact(v)) == Some(v)
    requires LanguageNamed(language) in {Some(TypeScript), Some(Python), Some(Cpp)}
    ensures var r := GenerateCodeSnippet(e, language, username, year, month0, pretty, compact);
      var t := match LanguageNamed(language)
               case Some(TypeScript) => TypeScriptTemplate
               case Some(Python) => PythonTemplate
               case _ => CppTemplate;
      parse(Embedded(r, t)) == Some(SnippetPayload(e, username, year, month0))
  {
  }
}
