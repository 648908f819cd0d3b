# leetfetch, modelled in Dafny

leetfetch is a browser explorer for LeetCode's GraphQL API. It has four parts:

- **Catalog.** A catalog of fifteen predefined queries, called endpoints (`lib/api.ts`).
- **Relay.** A same-origin relay route, `POST /api/leetcode` (`app/api/leetcode/route.ts`). It checks the posted body for a `query`, forwards query, variables and operation name to `https://leetcode.com/graphql` with fixed browser-like headers, and answers with one of:
  - the parsed upstream body;
  - an `{error, details}` object.
- **Page.** A page (`app/page.tsx`) whose `executeQuery` does the following for an endpoint:
  - refuses endpoints that need authentication;
  - refuses to run with a blank username when the endpoint takes one;
  - builds the endpoint's variables from a per-id table;
  - posts the payload to the relay;
  - records the data, or an `ErrorResponse`, per endpoint.

  The page then shows the current endpoint's response.
- **Snippets.** A snippet generator (`generateCodeSnippet`, `lib/utils.ts`). It prints TypeScript, Python, Go and C++ programs that post the same payload to the relay.

The model has these modules:

| module | file | models |
|---|---|---|
| `Js` | `js.dfy` | The JavaScript semantics the code relies on: JSON values, truthiness, `x \|\| d`, property reads, `String(v)`, `${n}` for integers and `trim()`. |
| `Catalog` | `catalog.dfy` | The catalog, entry by entry, with its documents. Lemmas state the facts the page's and the snippet's per-id tables rely on. |
| `RequestBody` | `request_body.dfy` | The payload both the page and the snippets post. |
| `Relay` | `relay.dfy` | `POST` and `OPTIONS` as pure functions. |
| `Page` | `page.dfy` | The `CodeQueryApp` state as a class. Its fields are `username`, `responses`, `loading` and `currentEndpoint`. `ExecuteQuery` updates them in place, and the functions beside it are the values the page renders from that state. |
| `Snippets` | `snippets.dfy` | The snippet's variable table and the four program templates. |
| `Agreement` | `agreement.dfy` | How the parts fit together: the two variable tables, what the relay forwards compared with what the page posts, and what the page records for each kind of relay reply. |

What the model takes as parameters:

- **The network.** For the relay, `fetch: UpstreamRequest -> Upstream` says whether sending a request throws or yields a status and a text. For the page, `relay: Json -> RelayCall` says whether posting a payload throws or yields a JSON value.
- **`JSON.parse`.** `parse: string -> Option<Json>`, where `None` means it throws.
- **`JSON.stringify`.** `pretty` stands for `JSON.stringify(v, null, 2)` and `compact` for `JSON.stringify(v)`.
- **The clock.** `new Date()` becomes a `year` and a zero-based `month0`.

## Model

| member | source | states |
|---|---|---|
| Js.Member | app/api/leetcode/route.ts:29-31 | A property read on a non-null value finds only an object's own member. Anything else reads `undefined`. |
| Js.OrElse | app/api/leetcode/route.ts:30-31 | `o \|\| d` yields the value read when it is truthy, and the default otherwise. |
| Js.MessageOr | app/api/leetcode/route.ts:69 | A caught `Error` contributes its `message`. Any other thrown value gives the fallback text. |
| Js.NatToDecimal | app/api/leetcode/route.ts:42 | The numeral has at least one digit, is all digits, and has no leading zero unless the number is 0. |
| Js.DecimalRoundTrip | app/api/leetcode/route.ts:42 | Reading the numeral back gives the number. |
| Js.IntToDecimal | app/api/leetcode/route.ts:42 | `${n}` is non-empty and starts with `-` exactly when `n` is negative. The digits after any sign read back as the absolute value of `n` and have no leading zero unless `n` is 0. |
| Js.NatToDecimalInjective | app/api/leetcode/route.ts:42 | Distinct naturals print differently. |
| Js.IntToDecimalInjective | app/api/leetcode/route.ts:42 | Distinct integers print differently, so an upstream status can be read back from the error text. |
| Js.Join | app/page.tsx:102 | `Array.prototype.join` of nothing is "", and of one element is that element. |
| Js.ToJsString | app/page.tsx:102 | `String(v)` of a string is the string itself. |
| Js.TrimStart | app/page.tsx:51 | The result is a suffix of the input, does not start with white space, and everything dropped before it is white space. |
| Js.TrimEnd | app/page.tsx:51 | The result is a prefix of the input, does not end with white space, and everything dropped after it is white space. |
| Js.Trim | app/page.tsx:51 | `trim()` is a slice of the input with only ECMAScript white space before and after it. It neither starts nor ends with white space. |
| Js.TrimStartKeepsBlankness | app/page.tsx:51 | Stripping leading white space leaves a blank string blank and a non-blank one non-blank. |
| Js.TrimEndEmptyIffBlank | app/page.tsx:51 | Stripping trailing white space empties a string exactly when it is blank. |
| Js.TrimEmptyIffBlank | app/page.tsx:51 | `!username.trim()` holds exactly when the username is all white space. |
| Catalog.CatalogSizes | lib/api.ts:37-329 | There are 10 regular entries and 5 limited ones, 15 displayed in all. |
| Catalog.IdsDistinct | lib/api.ts:37-329 | No two displayed entries share an id, so per-id state and per-id tables are well defined. |
| Catalog.AuthRequiredExactly | lib/api.ts:37-329 | Exactly `streakCounter` and `challengeMedal` require authentication. |
| Catalog.FirstTableFollowsIds | lib/api.ts:37-241 | Each regular entry declares the variables DeclaredFor gives its id. |
| Catalog.LimitedTableFollowsIds | lib/api.ts:243-329 | Each limited entry declares the variables DeclaredFor gives its id. |
| Catalog.VariablesFollowIds | lib/api.ts:37-329 | Every displayed entry declares exactly DeclaredFor(id). |
| Catalog.UserSlugOnlyInProblemProgress | lib/api.ts:131 | `problemProgress` is the only entry taking `userSlug` instead of `username`. |
| Catalog.RecentSubmissionsDeclaresLimit | lib/api.ts:190 | `recentSubmissions` declares both `username` and `limit`. |
| Catalog.DeclaredForEmpty | lib/api.ts:198-271 | The declaration table is empty exactly for the four ids that take no variables. |
| Catalog.EmptyDeclarations | lib/api.ts:198-271 | Exactly `dailyChallenge`, `upcomingContests`, `streakCounter` and `currentTimestamp` declare no variables. |
| Catalog.UserProfileOperation | lib/api.ts:45-48 | The document declares `userPublicProfile`, the entry's operation name. |
| Catalog.LanguageStatsOperation | lib/api.ts:71-74 | The document declares `languageStats`. |
| Catalog.SkillStatsOperation | lib/api.ts:87-90 | The document declares `skillStats`. |
| Catalog.ContestRankingOperation | lib/api.ts:107-110 | The document declares `userContestRankingInfo`. |
| Catalog.ProblemProgressOperation | lib/api.ts:129-132 | The document declares `userProfileUserQuestionProgress`. |
| Catalog.SubmissionStatsOperation | lib/api.ts:147-150 | The document declares `userProblemsSolved`. |
| Catalog.UserCalendarOperation | lib/api.ts:167-170 | The document declares `userProfileCalendar`. |
| Catalog.RecentSubmissionsOperation | lib/api.ts:188-191 | The document declares `recentAcSubmissions`. |
| Catalog.DailyChallengeOperation | lib/api.ts:204-207 | The document declares `questionOfToday`. |
| Catalog.UpcomingContestsOperation | lib/api.ts:228-231 | The document declares `getContests`. |
| Catalog.StreakCounterOperation | lib/api.ts:251-254 | The document declares `getStreakCounter`. |
| Catalog.CurrentTimestampOperation | lib/api.ts:269-272 | The document declares `currentTimestamp`. |
| Catalog.ActiveBadgeOperation | lib/api.ts:283-286 | The document declares `getUserProfile`. |
| Catalog.ChallengeMedalOperation | lib/api.ts:299-302 | The document declares `codingChallengeMedal`. |
| Catalog.UserBadgesOperation | lib/api.ts:316-319 | The document declares `userBadges`. |
| Catalog.OperationNamesMatch | lib/api.ts:37-329 | Every entry's `query` is the operation its own document declares, so the `operationName` posted alongside it selects that operation. |
| Catalog.NamesPresent | lib/api.ts:37-329 | Every entry has a non-empty operation name and a non-empty document. |
| RequestBody.Payload | app/page.tsx:88-92 | The posted body has exactly the keys `query`, `variables` and `operationName`, holding the document, the variables object and the operation name. |
| Relay.ErrorBody | app/api/leetcode/route.ts:41-44 | A failure body has exactly the string members `error` and `details`. |
| Relay.ForwardedBody | app/api/leetcode/route.ts:28-32 | The upstream body has exactly the keys `query`, `variables` and `operationName`. `variables` is always truthy: the inbound value when truthy, otherwise `{}`. `operationName` is the inbound value when truthy, otherwise `null`. |
| Relay.Forward | app/api/leetcode/route.ts:9-33 | A request goes upstream exactly when the body parsed, is not null and has a truthy `query`. It is then a POST to the GraphQL URL with the fixed headers and the forwarded body. |
| Relay.Answer | app/api/leetcode/route.ts:35-73 | The reply is 2xx exactly when upstream answered 2xx with parseable text. It is then 200 with the parsed value. A non-2xx status is mirrored with `LeetCode API returned <status>` and the raw text. Unparseable text gives 500. A throwing fetch gives 500 with the error's message, or `Unknown error`. |
| Relay.Post | app/api/leetcode/route.ts:3-74 | A body that is not JSON gives 500 with the parse error's message. A `null` body gives 500 with the TypeError's message. A missing or falsy query gives 400 with `Missing query in request body`. Otherwise the reply is the one for the forwarded request's outcome. |
| Relay.SuccessIsVerbatim | app/api/leetcode/route.ts:49-62 | A 2xx reply happens only after forwarding, on a 2xx upstream response that parses. It is then status 200 with the parsed value unchanged. |
| Relay.FailuresExplain | app/api/leetcode/route.ts:9-73 | Every non-2xx reply carries an `error` string. Every one except the 400 refusal also carries a `details` string. |
| Relay.StatusOrigins | app/api/leetcode/route.ts:9-73 | The status is 200, 400 or 500, or a mirrored non-2xx upstream status. |
| Relay.NoQueryNoNetwork | app/api/leetcode/route.ts:9-14 | Without a forwarded request the reply does not depend on the network, and its status is 400 or 500. |
| Relay.ForwardIdempotent | app/api/leetcode/route.ts:28-32 | Forwarding an already forwarded body changes none of its three members. |
| Relay.HeaderValue | app/api/leetcode/route.ts:79-83 | Looking up a header finds a value exactly when the list has a header of that name. |
| Relay.Options | app/api/leetcode/route.ts:76-85 | The preflight is 200 and carries exactly three headers. They allow any origin, the methods `POST, OPTIONS` and the header `Content-Type`. |
| Page.ErrorResponse | app/page.tsx:118-126 | The record has `error: true`, the message and the fixed details text, and counts as an error response. |
| Page.RefusalOf | app/page.tsx:39-56 | Authentication is refused exactly for endpoints that require it. Otherwise the username is refused exactly when the endpoint declares `username` and the name is all white space. |
| Page.RequestVariables | app/page.tsx:62-81 | `problemProgress` gets exactly `{userSlug}`, `recentSubmissions` exactly `{username, limit}` and `challengeMedal` exactly `{year, month}`. A `username` or `userSlug` variable holds the username. `limit` appears only for `recentSubmissions` and is 20. `year` is the year and `month` is `month0 + 1`. For any other id the variables are `{username}` exactly when the endpoint declares `username`, and `{}` otherwise. |
| Page.GraphqlError | app/page.tsx:97-103 | An error is raised exactly when the data is an object whose `errors` member is a non-empty array. Its message is the one FirstErrorMessage gives for the first error. |
| Page.FirstErrorMessage | app/page.tsx:102 | A truthy own `message` of the first error becomes the message, turned into a string. Otherwise the message is `GraphQL error occurred`. |
| Page.StoredResponse | app/page.tsx:95-126 | The recorded value is always an object or an array. It is shown as data only when it is the returned value itself. A throw records the thrown message, or `Unknown error occurred`. Primitive data records the `in` operator's TypeError message. GraphQL errors record GraphqlError's message. Object or array data without GraphQL errors is recorded unchanged. |
| Page.ShownAsError | app/page.tsx:97-144 | The page shows an error exactly when the call threw, returned a primitive, returned GraphQL errors, or returned an object with a truthy `error`. |
| Page.FirstGraphqlMessageShown | app/page.tsx:102 | When the first GraphQL error has a non-empty string `message`, that message is the one recorded. |
| Page.RequestVariablesConform | app/page.tsx:62-81 | For an endpoint declared as DeclaredFor(id), the variables sent match the declaration key for key. Each `String!` gets the username and each `Int!` a number. |
| Page.RequestVariablesMatchDeclarations | app/page.tsx:62-81 | For every catalog entry the page sends exactly the declared variables, each with the declared type. |
| Page.CodeQueryApp.constructor | app/page.tsx:29-32 | The app starts with username `fyzxnshxik`, no responses, no loading flags and no current endpoint. |
| Page.CodeQueryApp.SetUsername | app/page.tsx:29 | Setting the username changes nothing else. |
| Page.CodeQueryApp.ExecuteQuery | app/page.tsx:37-134 | A refused endpoint, with its reason, leaves all state unchanged. Otherwise the page posts the endpoint's payload, selects the endpoint, records the response StoredResponse gives under its id and leaves its loading flag false. It keeps every recorded value an object or array. |
| Page.CodeQueryApp.Send | app/page.tsx:58-131 | After sending, the current endpoint is the one sent, its new response is the one shown, and no spinner is shown. |
| Page.CodeQueryApp.IsLoading | app/page.tsx:35 | The spinner shows exactly when there is a non-empty current id whose loading flag is set. |
| Page.CodeQueryApp.CurrentResponse | app/page.tsx:143 | A response is current exactly when a non-empty current id has a recorded response, and it is that response. |
| Page.CodeQueryApp.IsErrorResponse | app/page.tsx:144 | The current response is an error exactly when a non-empty current id has a recorded response whose own `error` member is truthy. |
| Page.CodeQueryApp.FormattedResponse | app/page.tsx:144-145 | The text is the pretty-printed current response when there is one that is not an error, and "" otherwise. |
| Snippets.SnippetVariables | lib/utils.ts:16-42 | The four ids without variables get `{}`. `problemProgress` gets exactly `{userSlug}`, `recentSubmissions` exactly `{username, limit}` and `challengeMedal` exactly `{year, month}`. `username` and `userSlug` hold the username, `limit` is 20, `year` is the year and `month` is `month0 + 1`. Any other id gets `{username}` exactly when the endpoint declares `username`, and `{}` otherwise. |
| Snippets.ReplaceAll | lib/utils.ts:70 | Replacing a character keeps the length and changes exactly the occurrences of that character. |
| Snippets.ReplaceByItself | lib/utils.ts:70 | The Python template's quote replacement leaves the payload text unchanged. |
| Snippets.Fill | lib/utils.ts:51-144 | A filled template starts with its header and holds the hole's text right after the text before it. |
| Snippets.EmbeddedFill | lib/utils.ts:51-144 | Reading a filled template's hole gives back exactly what was written into it. |
| Snippets.TypeScriptSnippet | lib/utils.ts:51-62 | The program opens with `// TypeScript/JavaScript`, fetches `/api/leetcode` and passes the payload text to `JSON.stringify`. |
| Snippets.PythonSnippet | lib/utils.ts:64-74 | The program opens with `# Python`, sets `url` to `/api/leetcode` and assigns the payload text to `payload`. |
| Snippets.CppSnippet | lib/utils.ts:107-144 | The program opens with its comment line, holds the payload text in a raw string literal and posts to `/api/leetcode`. |
| Snippets.GoSnippet | lib/utils.ts:76-105 | The program opens with `// Go` and sets `url` to `/api/leetcode`. It holds the document in a raw string literal and the variables text as the `variables` value. |
| Snippets.SnippetPayload | lib/utils.ts:44-48 | The payload has exactly the keys `query`, `variables` and `operationName`, holding the document, the snippet's variables and the operation name. |
| Snippets.LanguageNamed | lib/utils.ts:50-148 | Each of `typescript`, `python`, `golang` and `cpp`, and only that name, selects its template. |
| Snippets.GenerateCodeSnippet | lib/utils.ts:9-149 | An unknown language gives "". TypeScript and Python embed the pretty-printed payload. C++ embeds the compact payload. Go embeds the document and the compact variables. Every program calls `/api/leetcode`. |
| Snippets.SnippetPayloadRoundTrip | lib/utils.ts:44-74 | Suppose a parser reads back what `pretty` and `compact` write. Then the payload embedded in the TypeScript, Python and C++ programs parses to the snippet's payload. |
| Agreement.SnippetVariablesAgree | lib/utils.ts:16-42 | The snippet's and the page's variables are equal exactly unless the endpoint is one of the four no-variable ids yet declares `username`. |
| Agreement.CatalogSnippetsAgree | lib/utils.ts:16-42 | For every catalog entry the snippet shows exactly the variables the page sends. |
| Agreement.RelayForwardsPayload | app/api/leetcode/route.ts:28-32 | For an endpoint with a document and an operation name, the relay forwards the page's payload unchanged. |
| Agreement.CatalogPayloadsForwarded | app/page.tsx:83-93 | For every catalog entry, username and date, LeetCode receives exactly the payload the page posted. |
| Agreement.RelayFailuresShownWithoutMessage | app/page.tsx:95-105 | A relay failure reply is recorded as it is and shown as an error, but it has no `message` member. |
| Agreement.LeetCodeDataShown | app/page.tsx:95-105 | Suppose LeetCode answers a query with an object that has no GraphQL errors and no truthy `error`. Then the page records that object unchanged. |

## Left out

- **Icon.** The `icon` field of an endpoint (a Lucide component) is display only and is not modelled.
- **Other files.** The page's rendering, the copy-to-clipboard action, toasts and console logging are not modelled. The components under `app/components`, the AI route, the layout and `cn` in `lib/utils.ts` are not part of this model.
- **JSON numbers.** Numbers are integers, so non-integral numbers and their printing are not modelled.
- **Key order.** Objects are maps, so the key order `JSON.stringify` follows is not kept.
- **`JSON.stringify` and `JSON.parse`.** They are parameters, so their text format is not modelled.
- Relay.Post and Relay.Answer: for a mirrored status that cannot carry a body, such as 304, `NextResponse.json` throws. The route would then answer 500 from its outer `catch`, but the model mirrors the status. It also does not model the `Content-Type` header of JSON replies.
- Relay.Post: a `response.text()` that throws is folded into the thrown `fetch` outcome. Both end in the same `catch`.
- Page.CodeQueryApp.ExecuteQuery: a call runs to completion with nothing interleaved. Overlapping queries and React's batching of state updates are not modelled. The intermediate `loading[id] = true` state is set but is gone by the end of the call.
- Page.StoredResponse: the message for non-object data assumes V8's wording of the `in` operator's TypeError. A `null` body at the relay likewise uses V8's wording.
- Js.ToJsString: two cases of `String(v)` are not modelled. An object with an own non-callable `toString` member makes `String` throw a TypeError ("Cannot convert object to primitive value"); the model gives `[object Object]`, so Page.FirstErrorMessage and Page.StoredResponse record that text instead of the TypeError's message. An integer of 10^21 or more is written by JavaScript in exponent form (`1e+21`); the model writes all its digits.
- Snippets.GenerateCodeSnippet: the Go template's `JSON.stringify(JSON.parse(JSON.stringify(variables)))` is modelled as `compact` of the variables. That is the same text for the integer and string values sent. For Go the model states only the positions of the document and the variables text, not of the operation name.
- **Empty `errors` array.** An empty array is not treated as a GraphQL failure: the code tests `errors.length > 0` (app/page.tsx:100). An empty array is recorded as data, and the model follows the code.
