# pargo, modelled in Dafny

pargo is a Go client for the Pardot REST API. It has two clients.

- `Pargo` (pargo.go) is the current client. It obtains an OAuth token from Salesforce, sends it as a bearer token with the business-unit header, and adds `format=json` to every query.
- `PardotREST` (pardotrest/pardotrest.go) is the older client. It logs in to Pardot itself with email, password and user key, and sends `Authorization: Pardot api_key=…, user_key=…`.

Both keep one piece of mutable state, the cached API key. Each one:
- logs in lazily when the key is empty;
- stamps the key on every request;
- classifies every reply, first by HTTP status and then by the error envelope `{err, @attributes.err_code}`;
- on error code 1, drops the key, logs in again and repeats the request.

Around the clients sit endpoint descriptors. Each one gives a method, a path, a query, sometimes a body, and a way of reading a reply.

## Layout

| module | file | models |
|---|---|---|
| `Common` | common.dfy | the API version, Go's `int` range, `Option`, `Result`, the error values, and `Outcome` (done, failed, or a Go panic) |
| `Text` | text.dfy | decimal formatting and parsing, `strings.Join` and `Split`, and form bodies (`name=value` joined by `&`) |
| `Json` | json.dfy | decoded JSON as a tree with ordered members, and how `encoding/json` fills a field, a pointer, a `RawMessage`, a slice or a `map[int]string` from it; also the error envelope |
| `Http` | http.dfy | headers, URLs, requests, replies, and a scripted `Transport` that records every request it is given |
| `Pargo`, `PargoClient` | pargo.dfy, pargo_client.dfy | the current client |
| `PardotRest`, `PardotRestClient` | pardotrest.dfy, pardotrest_client.dfy | the older client |
| `QueryProspectsEndpoint`, `DeleteProspectEndpoint`, `ListMembershipEndpoint`, `BatchCreateProspectEndpoint`, `BatchUpdateProspectEndpoint`, `LoginEndpoint` | one file each | the endpoints of the current package |
| `BatchErrors` | batch_errors.dfy | the `errors` map and the `Error()` text that both batch endpoints share |
| `PardotRestQuery`, `PardotRestBatchUpdate` | pardotrest_query.dfy, pardotrest_batch_update.dfy | the endpoints of the older package (the older package's login type is `LoginEndpoint` as well; it is declared identically) |

Each client is modelled twice.
- A specification module (`Pargo`, `PardotRest`) states every step as a function from a `State` to a `Step`. The `State` is the cached key, the replies still scripted and the requests sent so far. The `Step` is the outcome and the next state.
- A class (`PargoClient.Pargo`, `PardotRestClient.PardotRest`) has a mutable `apiKey` field and a `Transport` object. Each of its methods is proved to leave the object, the transport and the outcome exactly as the corresponding function says.

The properties are lemmas about the functions. Many of them replay the scripted sequences of the repository's tests. The retry on code 1 recurses without bound in Go. Here it terminates because each round consumes at least one scripted reply.

An empty script answers with a transport error. That mirrors a test round-tripper returning nothing.

## Model

| member | source | states |
|---|---|---|
| `Pargo.MaybeAuth` | pargo.go:208-285 | With a key cached: nothing is sent and the state is unchanged. Without a key: exactly one login request goes out and one reply is consumed. The result is success exactly when the reply has a body and status 200, 201 or 204. Success stores the reply's `access_token`, or "" when it is absent. Every failure keeps the key. |
| `Pargo.AuthHeaders` | pargo.go:287-302 | `Authorization` becomes exactly `Bearer <key>` and `Pardot-Business-Unit-Id` becomes exactly the unit, replacing any earlier values. Every other header is kept. |
| `Pargo.ReauthorizeOverwrites` | pargo.go:287-302 | Stamping a request again is the same as stamping the original once with the new key. Two stamps agree exactly when their keys do. |
| `Pargo.Call` | pargo.go:106-138 | A call never loses requests already sent: the new record extends the old one and is strictly longer. It never consumes replies it was not given. |
| `Pargo.ParseRes` | pargo.go:140-166 | Parsing a reply only appends requests and only consumes replies. |
| `Pargo.BuildRequestShape` | pargo.go:168-206 | A built request has the endpoint's method and the URL `https://pi.pardot.com/api/<path>`. Its query keys are the endpoint's keys plus `format`. `format` holds `json` first, then the endpoint's own `format` value if it has one. Every other key holds exactly its endpoint value. The header keys are the caller's plus `Content-Type`. `Content-Type` holds the caller's values followed by the form type. Every other header is kept. The body is exactly the endpoint's body, and absent when it has none. |
| `Pargo.BuildRequestErrors` | pargo.go:184-202 | The body's error is returned before the query's. Without either error, building succeeds. |
| `Pargo.DeleteCarriesOnlyFormat` | delete_prospect.go:35-37 | A delete request carries exactly `format=json` in its query. |
| `Pargo.QueryProspectsCalls` | query_prospects.go:30-45 | Building the page query never fails, so `QueryProspects` is the call followed by the reading. |
| `Pargo.QueryProspectsErrors` | query_prospects.go:30-45 | A failed call is wrapped as "requesting". A page error, including `QueryProspectsEOF`, is returned unwrapped. On a successful call, the page is read exactly as `readQueryProspects` reads it. |
| `Pargo.DeleteProspectOutcome` | delete_prospect.go:14-25 | A delete succeeds exactly when its call does, whatever the reply bytes. A failure is wrapped as "requesting". The state is the call's. |
| `Pargo.LoginBodyFields` | pargo.go:220-239 | The login form reads back as the five password-grant fields, in order. |
| `Pargo.LoginStoresToken` | pargo.go:265-282 | A login answered with a token stores it, after exactly one login request. |
| `Pargo.LoginWithoutToken` | pargo.go:265-282 | A login reply without `access_token`, or one that is not JSON, stores the empty key without error. |
| `Pargo.CallWithKey` | pargo.go:106-133 | With a key cached and an accepted status, the call is the parsing of that one reply, after exactly one stamped request. |
| `Pargo.CallAfterLogin` | pargo.go:106-111 | Once a login has stored a non-empty key, the call goes on as for a client that had that key cached. |
| `Pargo.ParseResClean` | pargo.go:151-165 | A reply without `err` comes back unchanged, and the state is unchanged. |
| `Pargo.ParseResExpired` | pargo.go:153-158 | Any reply whose envelope decodes to an `err` with code 1, in whatever member order, leads to a login from the empty key, followed by the whole call again with the same request. |
| `Pargo.KeyIsReused` | pargo.go:214-218 | With a key cached, a clean reply costs exactly one stamped request. There is no login, and the key is kept. |
| `Pargo.RejectedStatus` | pargo.go:122-132 | A status outside 200, 201 and 204 is an error quoting the status and the body. Whatever the body decodes to, the outcome is the same, so the envelope is never inspected. |
| `Pargo.TypedErrors` | pargo.go:159-162 | For any reply whose envelope decodes to `err` m and code 15 or 71: code 15 gives `ErrLoginFailed(m)` and code 71 gives `ErrInvalidJSON(m)`. Neither sends a second request. |
| `Pargo.OtherCodesPassThrough` | pargo.go:151-165 | For any reply whose envelope decodes to an `err` with a code other than 1, 15 and 71, the reply is returned unchanged, after exactly the one stamped request. |
| `Pargo.ErrWithoutAttributesPanics` | pargo.go:151-152 | Any reply whose envelope decodes to an `err` without `@attributes` is a nil-pointer panic, after exactly the one stamped request. |
| `Pargo.ExpiredThenLogin` | pargo.go:153-158 | After an expired key and a login reply, the call continues from the state after that login, with the already stamped request. |
| `Pargo.LoginThenCall` | pargo.go:107-111 | From the empty key, a login with a non-empty token lets the call go on with that key. |
| `Pargo.ExpiredKeyRetriesOnce` | pargo.go:153-158 | Code 1 is followed by exactly one login and one retry stamped with the new key. The caller sees the retry's result. The sent record is: old stamp, login, new stamp. |
| `Pargo.EmptyTokenLogsInTwice` | pargo.go:153-158 | When the new login yields no token, the retry logs in a second time before sending. |
| `Pargo.FirstCallLogsIn` | pargo_test.go:18-64 | A fresh client's first call sends one login, then the stamped request. |
| `Pargo.TwoCallsReuseKey` | pargo_test.go:18-64 | The first two calls of the test sequence: one login, then the key is used twice. |
| `Pargo.ReuseUntilExpired` | pargo_test.go:18-138 | The test's three calls: login, reuse, then expiry, re-login and retry with the new key. It gives all six requests, exactly. |
| `Pargo.LoginFailedScenario` | pargo_test.go:140-168 | When every reply carries code 15, the caller gets `ErrLoginFailed` after one login and one request sent with the empty key. |
| `Pargo.EmptyBodyFails` | delete_prospect_test.go:13-42 | A 204 with an empty body fails with "unmarshaling response", because "" is not JSON. |
| `Pargo.AllFromCallAppend` | pargo.go:106-166 | Lists of requests that come from a call concatenate to one that does. |
| `Pargo.RestampedFromCall` | pargo.go:153-158 | Requests that come from the stamped request also come from the original. |
| `Pargo.CallSendsOnly` | pargo.go:106-166 | However many retries happen, every request a call sends is the login request or the caller's request stamped with some key. |
| `Pargo.ParseResSendsOnly` | pargo.go:140-166 | The same, for the requests sent while parsing a reply. |
| `PargoClient.Pargo.constructor` | pargo.go:46-58 | A client starts without a key. |
| `PargoClient.Pargo.MaybeAuth` | pargo.go:208-285 | The method changes the key and the transport exactly as `Pargo.MaybeAuth` says. |
| `PargoClient.Pargo.Call` | pargo.go:106-138 | The method has exactly the outcome and the effect of `Pargo.Call`. |
| `PargoClient.Pargo.ParseRes` | pargo.go:140-166 | The method has exactly the outcome and the effect of `Pargo.ParseRes`. |
| `PargoClient.Pargo.NewRequest` | pargo.go:168-206 | The loop that adds the query pairs builds exactly `Pargo.BuildRequest`. |
| `PargoClient.Pargo.QueryProspects` | query_prospects.go:30-45 | The outcome, the new key and transport, the placeholder contents and the payloads given to the `Marshaler` are exactly those of `Pargo.QueryProspects`. |
| `PargoClient.Pargo.Deliver` | query_prospects.go:36-44 | After the call: wrap or pass on its failure, or read the page as `Pargo.AfterQueryCall` says. |
| `PargoClient.Pargo.DeleteProspect` | delete_prospect.go:14-25 | The method has exactly the outcome and the effect of `Pargo.DeleteProspect`. |
| `PardotRest.LoginOutcome` | pardotrest/pardotrest.go:162-181 | Reading the login reply never touches the transport. Only success changes the key. |
| `PardotRest.MaybeAuth` | pardotrest/pardotrest.go:142-183 | With a key cached, nothing happens. Otherwise exactly one login goes out and one reply is consumed. The login succeeds exactly when that reply has status 200 and a body that is JSON, decodes, and has no `err`. Then the stored key is the reply's `api_key` member. A failed login keeps the key. |
| `PardotRest.Call` | pardotrest/pardotrest.go:68-116 | A call never consumes replies it was not given. |
| `PardotRest.NewRequestShape` | pardotrest/pardotrest.go:118-140 | The query holds exactly the endpoint's pairs, with no `format=json`. The form Content-Type comes after the caller's Content-Type values. Every other header is kept. |
| `PardotRest.AuthorizationIsExact` | pardotrest/pardotrest.go:72-73 | The header is exactly `Pardot api_key=<key>, user_key=<user key>`, and the key can be read back from it. |
| `PardotRest.KeyReplyOf` | pardotrest/pardotrest.go:162-172 | The reply `{"api_key": k}` decodes to the key k with no error. |
| `PardotRest.LoginStoresKey` | pardotrest/pardotrest.go:170-182 | Any successful login reply, whatever else it holds, stores its `api_key` member, after one login request. |
| `PardotRest.KeyReplyGranted` | pardotrest/pardotrest.go:181 | The reply `{"api_key": k}` is a successful login whose `api_key` is k. |
| `PardotRest.LoginRejected` | pardotrest/pardotrest.go:155-161 | A login status other than 200 is an error naming the status. The key stays empty. |
| `PardotRest.LoginErrorCodes` | pardotrest/pardotrest.go:173-180 | For any login reply that decodes to `err` m with code c: code 15 is `ErrLoginFailed(m)` and any other code is a plain error with m. The key stays empty. |
| `PardotRest.ErrorPayloadLogin` | pardotrest/pardotrest.go:162-168 | The error payload decodes as a login reply to its message and code. |
| `PardotRest.EndpointErrorsFirst` | pardotrest/pardotrest.go:74-81 | A body or query error is returned before anything is sent, and the state is unchanged. The body error wins. |
| `PardotRest.RejectedStatus` | pardotrest/pardotrest.go:88-90 | A status other than 200 is an error naming the status, after one request with the cached key. |
| `PardotRest.CleanReplyIsDone` | pardotrest/pardotrest.go:105-115 | A reply without `err` is handed on, and the key is kept. |
| `PardotRest.OtherCodesFail` | pardotrest/pardotrest.go:105-112 | For any reply whose envelope decodes to `err` m with a code other than 1, the call fails with m. There is no second request. |
| `PardotRest.ExpiredRepeats` | pardotrest/pardotrest.go:106-109 | For any reply whose envelope decodes to an `err` with code 1, the key is cleared and the whole call is repeated. |
| `PardotRest.LoginThenCall` | pardotrest/pardotrest.go:68-116 | From no key, the sent record is the login and then the request with the new key. |
| `PardotRest.ExpiredKeyIsReplaced` | pardotrest/pardotrest.go:106-109 | For any reply signalling code 1, an expired key leads to one login and one repeat with the new key. The caller sees the repeat's result. |
| `PardotRest.CodeWithoutErrIsSuccess` | pardotrest/pardotrest_test.go:16-104 | The test's "expired" reply has `err_code` 1 but no `err`. It is a success, and the old key is kept. |
| `PardotRest.PerformIgnoresRead` | pardotrest/pardotrest.go:114-115 | Through a wrapper, a call that got its bytes returns no error, whatever `read` makes of them. |
| `PardotRest.QueryCarriesNoPairs` | pardotrest/query.go:26-32 | The older query request has an empty query and no body. |
| `PardotRestClient.PardotRest.constructor` | pardotrest/pardotrest.go:48-51 | A client starts without a key. |
| `PardotRestClient.PardotRest.NewRequest` | pardotrest/pardotrest.go:118-140 | The loop over the query map builds exactly `PardotRest.NewRequest`. |
| `PardotRestClient.PardotRest.MaybeAuth` | pardotrest/pardotrest.go:142-183 | The method has exactly the outcome and the effect of `PardotRest.MaybeAuth`. |
| `PardotRestClient.PardotRest.Call` | pardotrest/pardotrest.go:68-116 | The method has exactly the outcome and the effect of `PardotRest.Call`, retry included. |
| `PardotRestClient.PardotRest.QueryProspects` | pardotrest/pardotrest.go:68-116 | The outcome and state are `PardotRest.Perform`'s. The placeholder holds what `read` wrote. |
| `PardotRestClient.PardotRest.BatchUpdateProspects` | pardotrest/pardotrest.go:68-116 | The outcome and state are `PardotRest.Perform`'s for the batch update. |
| `QueryProspectsEndpoint.QueryProspects.ReadQueryProspects` | query_prospects.go:63-94 | The returned error, the placeholder contents and the `Marshaler`'s calls are exactly those `Reading` gives. |
| `QueryProspectsEndpoint.QueryNamesPage` | query_prospects.go:55-61 | The query has exactly the keys offset, limit and fields. Offset and limit parse back to their numbers. The fields split back into the list. |
| `QueryProspectsEndpoint.AbsentProspectIsEof` | query_prospects.go:76-82 | A page with no `result.prospect` is `QueryProspectsEOF`. Nothing is written or handed on. |
| `QueryProspectsEndpoint.MergedResultsLackProspect` | query_prospects.go:64-71 | Results without `prospect`, merged into the result struct, still have none. |
| `QueryProspectsEndpoint.InvalidJsonIsNotEof` | query_prospects.go:71-74 | Invalid JSON is the wrapped "got invalid JSON from Pardot" error, not EOF. |
| `QueryProspectsEndpoint.EmptyArrayIsNotEof` | query_prospects_test.go:107-142 | An empty prospect array is not EOF. It leaves zero prospects. |
| `QueryProspectsEndpoint.MarshalerGetsPayload` | query_prospects.go:84-87 | With a `Marshaler`, the raw payload is handed over exactly once and the placeholder is not written. |
| `DeleteProspectEndpoint.PathNamesProspect` | delete_prospect.go:27-33 | The method is POST. The path is the fixed prefix followed by the decimal id, which parses back. |
| `DeleteProspectEndpoint.PathsDiffer` | delete_prospect.go:31-33 | Different prospects have different paths. |
| `DeleteProspectEndpoint.PathOf46` | delete_prospect_test.go:13-42 | The path of prospect 46 is the one the test expects. |
| `ListMembershipEndpoint.ListMemberships.Read` | list_membership.go:46-76 | The error and the new placeholder contents are exactly those `Reading` gives. |
| `ListMembershipEndpoint.Page` | list_membership.go:47-54 | A reply that is not JSON reads as total 0 with no list. |
| `ListMembershipEndpoint.QueryNamesPage` | list_membership.go:38-44 | The query has exactly the keys offset, limit and list_id, and each parses back to its number. |
| `ListMembershipEndpoint.PageOfDoc` | list_membership.go:47-54 | A page gives its total and the raw list. |
| `ListMembershipEndpoint.AbsentListLeavesPlaceholder` | list_membership.go:56-59 | Without `list_membership`, there is no error and the placeholder is unchanged. |
| `ListMembershipEndpoint.EmptyPage` | list_membership_test.go:87-122 | The test's empty page leaves the placeholder unchanged. |
| `ListMembershipEndpoint.MembershipOf` | list_membership.go:20-23 | `{list_id, prospect_id}` decodes to that membership. |
| `ListMembershipEndpoint.SingleIsAppended` | list_membership.go:61-68 | With total 1, exactly one decoded membership is appended to the existing contents. |
| `ListMembershipEndpoint.BadSingleIsWrapped` | list_membership.go:63-67 | With total 1, a list that is not an object is wrapped as "unmarshaling single membership", and nothing is appended. |
| `ListMembershipEndpoint.ListIsDecoded` | list_membership.go:69-73 | Any other total replaces the contents with one decoded membership per element. |
| `ListMembershipEndpoint.TwoMemberships` | list_membership_test.go:13-48 | The test's two entries give exactly those two memberships. |
| `ListMembershipEndpoint.BadListIsWrapped` | list_membership.go:69-73 | An element that fails to decode is wrapped as "unmarshaling memberships". |
| `ListMembershipEndpoint.PageErrorIgnored` | list_membership.go:53-54 | A page whose total does not decode still has its list read. The page error is discarded. |
| `BatchErrors.ErrorsOf` | batch_create_prospect.go:62-66 | A reply that is not JSON has no errors map. |
| `BatchErrors.CopyErrors` | batch_create_prospect.go:67-71 | The copying loop yields exactly the decoded map. |
| `BatchErrors.ErrorText` | batch_create_prospect.go:31-37 | `Error()` walks every key exactly once, in an order left open. The text is the messages in that order, joined by ", ". |
| `BatchErrors.EnumeratedKeys` | batch_create_prospect.go:31-37 | A walk over every key visits only keys of the map, and as many as it has. |
| `BatchErrors.JoinedIsEmpty` | batch_update_prospect.go:24-30 | A join is empty exactly when it has no message, or one empty message. |
| `BatchErrors.OneMessage` | batch_create_prospect.go:31-37 | One message gives exactly that message, whatever the walk. |
| `BatchErrors.ErrorTextEmpty` | batch_update_prospect.go:24-30 | The text is empty exactly when the map is empty or holds one empty message. |
| `BatchErrors.TwoMessages` | batch_create_prospect.go:31-37 | Two messages give `m1, m2` or `m2, m1`. |
| `BatchErrors.ErrorsOfDoc` | batch_create_prospect.go:62-66 | An `errors` object is decoded entry by entry. |
| `BatchErrors.TwoErrorsDecoded` | batch_create_prospect_test.go:54-107 | The test's `errors` object decodes to indices 0 and 1 with their messages. |
| `BatchErrors.NullErrors` | batch_create_prospect.go:62-66 | A null `errors` leaves no map. |
| `BatchErrors.AbsentErrors` | batch_update_prospect.go:51-55 | A reply without `errors` has no map. |
| `BatchCreateProspectEndpoint.BatchCreateProspect.Read` | batch_create_prospect.go:61-77 | The returned error is exactly `Reading`'s. |
| `BatchCreateProspectEndpoint.QueryWrapsProspects` | batch_create_prospect.go:47-59 | The only key is "prospects", holding `{"prospects":<encoding>}`. An encoding error is returned, with no map. |
| `BatchCreateProspectEndpoint.ErrorsReturned` | batch_create_prospect.go:67-74 | The test's two errors come back with the same index-to-message entries. |
| `BatchCreateProspectEndpoint.NoErrorsIsSuccess` | batch_create_prospect.go:66-76 | An empty `errors`, no `errors` at all, or bytes that are not JSON read as success. |
| `BatchUpdateProspectEndpoint.BatchUpdateProspect.Read` | batch_update_prospect.go:50-64 | The returned error is exactly `Reading`'s. |
| `BatchUpdateProspectEndpoint.QueryIsBareEncoding` | batch_update_prospect.go:40-48 | The only key is "prospects", holding the bare encoding. An encoding error is returned. |
| `BatchUpdateProspectEndpoint.ErrorsReturned` | batch_update_prospect.go:56-62 | The test's two errors come back with the same entries. |
| `BatchUpdateProspectEndpoint.EmptyMapIsError` | batch_update_prospect.go:56-62 | A present but empty `errors` is still an error. |
| `BatchUpdateProspectEndpoint.AbsentIsSuccess` | batch_update_prospect.go:63 | No `errors`, or bytes that are not JSON, read as success. |
| `LoginEndpoint.LoginFormFields` | login.go:35-41 | The body is the three fields as a form, in order, and reads back as exactly those pairs. |
| `LoginEndpoint.Login.constructor` | login.go:12-15 | A new login holds its credentials and no key. |
| `LoginEndpoint.Login.Read` | login.go:25-33 | Only the key changes. It becomes the reply's `api_key`. The read never fails. |
| `LoginEndpoint.ReplyKeyCases` | pardotrest/login.go:25-33 | `{"api_key": k}` gives k. Invalid JSON, a missing key, or a key that is not a string gives "". |
| `PardotRestQuery.QueryProspects.Read` | pardotrest/query.go:34-49 | The returned error and the placeholder contents are exactly those `Reading` gives. |
| `PardotRestQuery.InvalidIsWrapped` | pardotrest/query.go:40-43 | Invalid JSON is wrapped as "unmarshaling bytes", and nothing is written. |
| `PardotRestQuery.AbsentProspectIsDecodeError` | pardotrest/query.go:44-48 | A missing prospect is a wrapped decoding error, not an end of data. |
| `PardotRestQuery.PayloadIsDecoded` | pardotrest/query.go:44-48 | The prospect array is decoded in full, one value per element. |
| `PardotRestBatchUpdate.BatchUpdateProspect.Query` | pardotrest/batch_update_prospect.go:30-38 | The query fails exactly when the encoding does, with its error. Otherwise its only key is "prospects", holding the encoding. |
| `Http.Transport.RoundTrip` | pargo.go:113-116 | A round trip consumes one scripted reply, or answers with a transport error when none is left, and records the request. |
| `Http.AddPair` | pargo.go:199-201 | Adding one more pair is the same as building with it. |
| `Json.ErrorEnvelope` | pargo.go:140-150 | `{"err": m, "@attributes": {"err_code": c}}` decodes to m and c. |
| `Json.ErrorPayloadSignals` | pargo.go:140-150 | The error payload used in the scenarios signals its message and code. |
| `Json.AttributesFirst` | pargo.go:140-150 | Pardot's own order, `{"@attributes": {"stat": "fail", "version": 1, "err_code": c}, "err": m}`, also decodes to m and c. |
| `Json.AttributesCode` | pargo.go:142-144 | `err_code` is read from Pardot's attribute object, next to `stat` and `version`. |
| `Json.ErrOnlyEnvelope` | pargo.go:140-152 | `{"err": m}` decodes to m with no code, the case that panics. |
| `Json.NoErrMember` | pargo.go:151 | A document without `err` has no error. |
| `Json.RawIsLast` | query_prospects.go:64-71 | A `RawMessage` field keeps its last occurrence. |
| `Text.DecimalRoundTrip` | query_prospects.go:57-58 | `strconv.Itoa` of any Go int parses back to it. |
| `Text.SplitJoin` | query_prospects.go:59 | A join on ',' of comma-free parts splits back into those parts. |
| `Text.FormRoundTrip` | login.go:35-41 | A form body of `&`-free pairs reads back as those pairs. |

## Left out

- The `apiKeyMu` mutex, and concurrency in general. The key is a plain field, and every method runs alone.
- The `Heartbeat` callback, the builder setters (`NewPargo`, `WithCustomClient`, `WithPardotUserAccount`), client.go, and query_all_prospects.go (worker goroutines and channels). This is configuration and concurrency outside the call state machine.
- net/http. The transport is a script of replies. URL encoding, percent escaping, key sorting in `url.Values.Encode`, and header canonicalisation are not modelled. A query is a map from key to a list of values.
- Body streams. A retried request carries its body as a value, so the model does not show that Go's first attempt already drained the reader.
- json.Marshal is a parameter `marshal` of the endpoints that need it.
- BatchCreateProspectEndpoint.BatchCreateProspect.Query: applies `marshal` to the prospects and writes the `{"prospects":…}` wrapper out, rather than encoding the wrapper struct itself.
- Several `encoding/json` details: case-insensitive key matching, fractional and exponent numbers, the reuse of a slice's existing elements while decoding into it, and the library's own error texts. Errors are `JsonSyntax`, `JsonType` or `JsonTarget`.
- Placeholder types. A `PlaceHolder` or `Placeholder` is modelled as a `Json.Slice` of some element type with its decoder. Other pointer types, and a nil `Placeholder` in `ListMemberships`, are not modelled.
- The Go wrappers `Pargo.ListMemberships` and `Pargo.BatchCreateProspects` pass an endpoint to `Call`, whose parameter is an `*http.Request`. The batch update's lower-case methods do not satisfy the `Endpoint` interfaces of pargo.go. So these three endpoints are modelled on their own, without a client wrapper.
- PardotRest.NewRequest: keeps the URL as pardotrest.go writes it: an empty scheme, and `https://pi.pardot.com/api` as the host.
- Pargo.BuildRequest: leaves out one side effect of `NewRequest`: it adds the Content-Type to the caller's header map, even when it then fails.
- Pargo.Call: its own contract bounds only the script and the sent record. What a call does is stated by the lemmas listed above, one per case.
- PardotRest.Call: the same; its cases are stated by the lemmas above.
- `Method` and `Path` of every endpoint are the literal constants of the source, with no contract of their own. `DeleteProspectEndpoint.PathNamesProspect` states the delete's. For the other endpoints, `BuildRequestShape` and `NewRequestShape` state that the path becomes the request URL.
- BatchErrors.ErrorText: Go's map iteration order is not modelled. The text is stated for some order that visits every key once.
- The error types' `Error()` methods return their message. They are the `LoginFailed`, `InvalidJson` and `Plain` values of `Common.Error`, with no operation of their own.
- The test scaffolding (helpers_test.go, the round-trip function) is replaced by `Http.Transport`.
