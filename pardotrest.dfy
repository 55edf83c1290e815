/** The authenticated-call state machine of the older REST client
    (pardotrest/pardotrest.go), as functions from the client's state to the
    outcome and the next state. `PardotRestClient.PardotRest` performs these
    steps on a mutable object and is proved to agree with them.

    This client logs in to Pardot itself with email, password and user key,
    accepts only status 200, and on an expired key repeats the whole call. */
module PardotRest {
  import opened Common
  import opened Text
  import opened Json
  import opened Http
  import L = LoginEndpoint
  import RQ = PardotRestQuery
  import RB = PardotRestBatchUpdate

  /** The base the client puts where `net/url` expects a host. */
  const Base: string := "https://pi.pardot.com/api"

  const Nil: string := "nil pointer dereference of @attributes"

  datatype UserAccount = UserAccount(email: string, pass: string, userKey: string)

  /** An endpoint as `Call` sees it: its method and path, what its `body` and
      `query` answer (a nil map: no pairs). */
  datatype Endpoint = Endpoint(
    verb: string,
    path: string,
    body: Result<Option<string>>,
    query: Result<map<string, string>>)

  /** `newRequest`: the endpoint's pairs and nothing else as query values,
      and the form Content-Type added to the given headers. */
  function NewRequest(verb: string, path: string, body: Option<string>, query: map<string, string>, header: Header): Request {
    Request(verb, Url("", Base, path, WithPairs(map[], query)), Add(header, "Content-Type", FormEncoded), body)
  }

  /** The login `maybeAuth` sends: the credentials as a form, no pairs, and
      no header but the Content-Type. */
  function LoginRequest(u: UserAccount): Request {
    NewRequest("POST", L.LoginPath, Some(L.LoginForm(u.email, u.pass, u.userKey)), map[], map[])
  }

  /** The login reply: its key and its error envelope. */
  datatype LoginReply = LoginReply(key: string, envelope: Envelope)

  function DecodeLogin(doc: Json): (LoginReply, bool) {
    var key := Field("", IntoStruct([], doc).0, "api_key", IntoString);
    var env := DecodeEnvelope(doc);
    (LoginReply(key.0, env.0), key.1 && env.1)
  }

  /** A login reply that decodes and carries no `err`: the login succeeds. */
  predicate Granted(p: Payload) {
    p.doc.Some? && DecodeLogin(p.doc.value).1 && DecodeLogin(p.doc.value).0.envelope.err.None?
  }

  /** A login reply that decodes to the error `msg` with code `code`. */
  predicate LoginSignals(p: Payload, msg: string, code: GoInt) {
    p.doc.Some? && DecodeLogin(p.doc.value).1 && DecodeLogin(p.doc.value).0.envelope == Envelope(Some(msg), Some(code))
  }

  /** How `maybeAuth` ends once the login reply has been read. */
  function LoginOutcome(p: Payload, s: State): (r: Step<()>)
    ensures r.state.script == s.script && r.state.sent == s.sent
    ensures r.out.Done? || r.state.apiKey == s.apiKey
  {
    if p.doc.None? then Step(Failed(Wrapped("unmarshaling auth result: " + p.text, JsonSyntax)), s)
    else
      var reply := DecodeLogin(p.doc.value);
      if !reply.1 then Step(Failed(Wrapped("unmarshaling auth result: " + p.text, JsonType)), s)
      else if reply.0.envelope.err.Some? then
        if reply.0.envelope.errCode.None? then Step(Panicked(Nil), s)
        else if reply.0.envelope.errCode.value == 15 then Step(Failed(LoginFailed(reply.0.envelope.err.value)), s)
        else Step(Failed(Plain(reply.0.envelope.err.value)), s)
      else Step(Done(()), s.(apiKey := reply.0.key))
  }

  /** `maybeAuth`: a no-op while a key is cached; otherwise one login, whose
      status must be 200 and whose reply either stores its `api_key` or is
      the error the envelope names. A failed login keeps the key. */
  function MaybeAuth(u: UserAccount, s: State): (r: Step<()>)
    ensures s.apiKey != "" ==> r == Step(Done(()), s)
    ensures s.apiKey == "" ==>
      r.state.script == Next(s.script).1 && r.state.sent == s.sent + [LoginRequest(u)]
    ensures s.apiKey == "" ==>
      (r.out.Done? <==> var x := Next(s.script).0; x.Reply? && x.status == 200 && x.body.Some? && Granted(x.body.value))
    ensures s.apiKey == "" && r.out.Done? ==> r.state.apiKey == StringMember(Next(s.script).0.body.value.doc, "api_key")
    ensures r.out.Done? || r.state.apiKey == s.apiKey
    ensures |r.state.script| <= |s.script|
  {
    if s.apiKey != "" then Step(Done(()), s)
    else
      var x := Exchange(s, LoginRequest(u));
      match x.0
      case TransportError(why) => Step(Failed(Wrapped("issuing get request", Transport(why))), x.1)
      case Reply(status, body) =>
        if status != 200 then Step(Failed(Plain("status code " + Decimal(status))), x.1)
        else if body.None? then Step(Failed(Wrapped("reading response bytes", ReadBody)), x.1)
        else LoginOutcome(body.value, x.1)
  }

  /** The header every call carries. */
  function Authorization(apiKey: string, userKey: string): string {
    "Pardot api_key=" + apiKey + ", user_key=" + userKey
  }

  function AuthHeader(apiKey: string, userKey: string): Header {
    Add(map[], "Authorization", Authorization(apiKey, userKey))
  }

  /** The request `Call` sends for `e` with the key `apiKey`. */
  function CallRequest(u: UserAccount, e: Endpoint, apiKey: string): Request
    requires e.body.Ok? && e.query.Ok?
  {
    NewRequest(e.verb, e.path, e.body.value, e.query.value, AuthHeader(apiKey, u.userKey))
  }

  /** A failed `maybeAuth`, as the outcome of a call. */
  function AuthFailure(o: Outcome<()>): Outcome<Payload>
    requires !o.Done?
  {
    if o.Failed? then Failed(o.error) else Panicked(o.reason)
  }

  /** `Call`: authenticate if needed, then give the endpoint's body or query
      error, or send; the status must be 200 and the envelope decides. Code 1
      clears the key and repeats the whole call; any other code is an error
      with the envelope's message. Without error the bytes go to the endpoint
      (the result is Done with them). */
  function Call(u: UserAccount, e: Endpoint, s: State): (r: Step<Payload>)
    ensures |r.state.script| <= |s.script|
    decreases |s.script|
  {
    var auth := MaybeAuth(u, s);
    if !auth.out.Done? then Step(AuthFailure(auth.out), auth.state)
    else if e.body.Err? then Step(Failed(e.body.error), auth.state)
    else if e.query.Err? then Step(Failed(e.query.error), auth.state)
    else
      var x := Exchange(auth.state, CallRequest(u, e, auth.state.apiKey));
      match x.0
      case TransportError(why) => Step(Failed(Wrapped("issuing request", Transport(why))), x.1)
      case Reply(status, body) =>
        if status != 200 then Step(Failed(Plain("status code " + Decimal(status))), x.1)
        else if body.None? then Step(Failed(Wrapped("reading response bytes", ReadBody)), x.1)
        else if body.value.doc.None? then Step(Failed(Wrapped("unmarshaling response", JsonSyntax)), x.1)
        else
          var env := DecodeEnvelope(body.value.doc.value);
          if !env.1 then Step(Failed(Wrapped("unmarshaling response", JsonType)), x.1)
          else if env.0.err.None? then Step(Done(body.value), x.1)
          else if env.0.errCode.None? then Step(Panicked(Nil), x.1)
          else if env.0.errCode.value == 1 then Call(u, e, x.1.(apiKey := ""))
          else Step(Failed(Plain(env.0.err.value)), x.1)
  }

  /** A call made through one of the endpoint wrappers: `read` is handed the
      bytes and what it returns is dropped. */
  function Perform(u: UserAccount, e: Endpoint, s: State): Step<()> {
    var c := Call(u, e, s);
    Step(match c.out
         case Done(_) => Done(())
         case Failed(err) => Failed(err)
         case Panicked(why) => Panicked(why),
         c.state)
  }

  function QueryProspectsEndpoint<P>(q: RQ.QueryProspects<P>): Endpoint {
    Endpoint(q.Method(), q.Path(), q.Body(), q.Query())
  }

  function BatchUpdateEndpoint<T>(b: RB.BatchUpdateProspect<T>, marshal: T -> Result<string>): Endpoint {
    Endpoint(b.Method(), b.Path(), b.Body(), b.Query(marshal))
  }

  // ---------------------------------------------------------------------
  // Properties

  /** `newRequest` puts exactly the endpoint's pairs in the query (no
      `format=json`), the path as given, and the form Content-Type after the
      caller's headers. */
  lemma NewRequestShape(verb: string, path: string, body: Option<string>, query: map<string, string>, header: Header)
    ensures var r := NewRequest(verb, path, body, query, header);
      && r.verb == verb && r.url.path == path && r.url.host == Base && r.body == body
      && r.url.query.Keys == query.Keys
      && (forall k :: k in query ==> r.url.query[k] == [query[k]])
      && r.header.Keys == header.Keys + {"Content-Type"}
      && r.header["Content-Type"] == (if "Content-Type" in header then header["Content-Type"] else []) + [FormEncoded]
      && (forall k :: k in header && k != "Content-Type" ==> r.header[k] == header[k])
  {
  }

  /** The Authorization header of a call is exactly
      `Pardot api_key=<key>, user_key=<user key>`, and the key can be read
      back from it. */
  lemma AuthorizationIsExact(u: UserAccount, e: Endpoint, apiKey: string)
    requires e.body.Ok? && e.query.Ok?
    ensures CallRequest(u, e, apiKey).header["Authorization"] == [Authorization(apiKey, u.userKey)]
    ensures var h := Authorization(apiKey, u.userKey);
      h[..|"Pardot api_key="|] == "Pardot api_key=" && h[|"Pardot api_key="|..][..|apiKey|] == apiKey
  {
    var h := Authorization(apiKey, u.userKey);
    assert h == "Pardot api_key=" + (apiKey + (", user_key=" + u.userKey));
  }

  lemma KeyReplyOf(key: string)
    ensures DecodeLogin(Object([Member("api_key", Str(key))])) == (LoginReply(key, Envelope(None, None)), true)
  {
    var ms := [Member("api_key", Str(key))];
    assert IntoStruct([], Object(ms)) == (ms, true) by {
      assert [] + ms == ms;
    }
    OccursOnce(ms, "api_key", 0);
    FoldOne("", Str(key), IntoString);
  }

  /** The login reply a scripted test gives: status 200 with a key. */
  function KeyReply(key: string): Response {
    Reply(200, Some(Payload("{\"api_key\":\"" + key + "\"}", Some(Object([Member("api_key", Str(key))])))))
  }

  /** A successful login stores the `api_key` of its reply, whatever else
      the reply holds. */
  lemma LoginStoresKey(u: UserAccount, s: State, p: Payload)
    requires s.apiKey == "" && |s.script| > 0 && s.script[0] == Reply(200, Some(p)) && Granted(p)
    ensures MaybeAuth(u, s) ==
      Step(Done(()), State(StringMember(p.doc, "api_key"), s.script[1..], s.sent + [LoginRequest(u)]))
  {
  }

  /** The test's reply `{"api_key": k}` grants the key k. */
  lemma KeyReplyGranted(key: string)
    ensures Granted(KeyReply(key).body.value)
    ensures StringMember(KeyReply(key).body.value.doc, "api_key") == key
  {
    KeyReplyOf(key);
  }

  /** A login answered with any status but 200 is an error naming the
      status; the key stays empty and the reply is not read. */
  lemma LoginRejected(u: UserAccount, s: State, status: int, body: Option<Payload>)
    requires s.apiKey == "" && |s.script| > 0 && s.script[0] == Reply(status, body) && status != 200
    ensures MaybeAuth(u, s) ==
      Step(Failed(Plain("status code " + Decimal(status))), State("", s.script[1..], s.sent + [LoginRequest(u)]))
  {
  }

  /** A login answered with an error envelope: code 15 is `ErrLoginFailed`,
      any other code a plain error with the message; the key stays empty. */
  lemma LoginErrorCodes(u: UserAccount, s: State, p: Payload, msg: string, code: GoInt)
    requires s.apiKey == "" && |s.script| > 0 && s.script[0] == Reply(200, Some(p)) && LoginSignals(p, msg, code)
    ensures var r := MaybeAuth(u, s);
      && r.state == State("", s.script[1..], s.sent + [LoginRequest(u)])
      && r.out == Failed(if code == 15 then LoginFailed(msg) else Plain(msg))
  {
  }

  /** `ErrorPayload` is such a login reply. */
  lemma ErrorPayloadLogin(msg: string, code: GoInt)
    ensures LoginSignals(ErrorPayload(msg, code), msg, code)
  {
    var doc := ErrorPayload(msg, code).doc.value;
    var ms := doc.members;
    assert IntoStruct([], doc).0 == ms by {
      assert [] + ms == ms;
    }
    FieldAbsent("", ms, "api_key", IntoString);
    ErrorEnvelope(msg, code);
    assert DecodeLogin(doc) == (LoginReply("", Envelope(Some(msg), Some(code))), true);
  }

  /** With a key cached, the body and query errors of the endpoint come
      before any request: nothing is sent and the script is untouched. */
  lemma EndpointErrorsFirst(u: UserAccount, e: Endpoint, s: State)
    requires s.apiKey != "" && (e.body.Err? || e.query.Err?)
    ensures Call(u, e, s) == Step(Failed(if e.body.Err? then e.body.error else e.query.error), s)
  {
  }

  /** A status other than 200 is an error naming the status, after the one
      request carrying the cached key; the body is not read. */
  lemma RejectedStatus(u: UserAccount, e: Endpoint, s: State, status: int, body: Option<Payload>)
    requires s.apiKey != "" && e.body.Ok? && e.query.Ok?
    requires |s.script| > 0 && s.script[0] == Reply(status, body) && status != 200
    ensures Call(u, e, s) ==
      Step(Failed(Plain("status code " + Decimal(status))), State(s.apiKey, s.script[1..], s.sent + [CallRequest(u, e, s.apiKey)]))
  {
  }

  /** A reply without error envelope is handed to the endpoint, and the key
      is kept for the next call. */
  lemma CleanReplyIsDone(u: UserAccount, e: Endpoint, s: State, p: Payload)
    requires s.apiKey != "" && e.body.Ok? && e.query.Ok?
    requires |s.script| > 0 && s.script[0] == Reply(200, Some(p)) && Clean(p)
    ensures Call(u, e, s) == Step(Done(p), State(s.apiKey, s.script[1..], s.sent + [CallRequest(u, e, s.apiKey)]))
  {
  }

  /** An error envelope with any code but 1 is an error carrying the
      message; no second request is made. */
  lemma OtherCodesFail(u: UserAccount, e: Endpoint, s: State, p: Payload, msg: string, code: GoInt)
    requires s.apiKey != "" && e.body.Ok? && e.query.Ok? && code != 1
    requires |s.script| > 0 && s.script[0] == Reply(200, Some(p)) && Signals(p, Some(msg), Some(code))
    ensures Call(u, e, s) ==
      Step(Failed(Plain(msg)), State(s.apiKey, s.script[1..], s.sent + [CallRequest(u, e, s.apiKey)]))
  {
  }

  /** Code 1 clears the key and repeats the call from the start. */
  lemma ExpiredRepeats(u: UserAccount, e: Endpoint, s: State, p: Payload, msg: string)
    requires s.apiKey != "" && e.body.Ok? && e.query.Ok?
    requires |s.script| > 0 && s.script[0] == Reply(200, Some(p)) && Signals(p, Some(msg), Some(1))
    ensures Call(u, e, s) == Call(u, e, State("", s.script[1..], s.sent + [CallRequest(u, e, s.apiKey)]))
  {
  }

  /** From no key, a login with a key and then the call go out. */
  lemma LoginThenCall(u: UserAccount, e: Endpoint, s: State, key: string, p: Payload)
    requires s.apiKey == "" && key != "" && e.body.Ok? && e.query.Ok?
    requires |s.script| > 1 && s.script[0] == KeyReply(key) && s.script[1] == Reply(200, Some(p)) && Clean(p)
    ensures Call(u, e, s) ==
      Step(Done(p), State(key, s.script[2..], s.sent + [LoginRequest(u), CallRequest(u, e, key)]))
  {
    KeyReplyGranted(key);
    LoginStoresKey(u, s, KeyReply(key).body.value);
    var a := State(key, s.script[1..], s.sent + [LoginRequest(u)]);
    CleanReplyIsDone(u, e, a, p);
    assert a.script[1..] == s.script[2..];
    assert a.sent + [CallRequest(u, e, key)] == s.sent + [LoginRequest(u), CallRequest(u, e, key)];
  }

  /** An expired key is replaced transparently: the caller sees the result of
      the repeated call, made with the new key after a second login. */
  lemma ExpiredKeyIsReplaced(u: UserAccount, e: Endpoint, s: State, x: Payload, msg: string, key: string, p: Payload)
    requires s.apiKey != "" && key != "" && e.body.Ok? && e.query.Ok?
    requires |s.script| > 2 && s.script[0] == Reply(200, Some(x)) && Signals(x, Some(msg), Some(1))
    requires s.script[1] == KeyReply(key) && s.script[2] == Reply(200, Some(p)) && Clean(p)
    ensures Call(u, e, s) ==
      Step(Done(p), State(key, s.script[3..],
                          s.sent + [CallRequest(u, e, s.apiKey), LoginRequest(u), CallRequest(u, e, key)]))
  {
    ExpiredRepeats(u, e, s, x, msg);
    var t := State("", s.script[1..], s.sent + [CallRequest(u, e, s.apiKey)]);
    LoginThenCall(u, e, t, key, p);
    assert t.script[2..] == s.script[3..];
    assert t.sent + [LoginRequest(u), CallRequest(u, e, key)]
        == s.sent + [CallRequest(u, e, s.apiKey), LoginRequest(u), CallRequest(u, e, key)];
  }

  /** The "expired" reply of the tests, `{"@attributes":{"err_code": 1}}`,
      has no `err`, so the client does not treat it as expired: the call
      succeeds and the old key is kept. */
  lemma CodeWithoutErrIsSuccess(u: UserAccount, e: Endpoint, s: State, text: string)
    requires s.apiKey != "" && e.body.Ok? && e.query.Ok?
    requires |s.script| > 0
    requires s.script[0] == Reply(200, Some(Payload(text, Some(Object([Member("@attributes",
                                      Object([Member("err_code", Number(1))]))])))))
    ensures Call(u, e, s).out.Done? && Call(u, e, s).state.apiKey == s.apiKey
    ensures Call(u, e, s).state.sent == s.sent + [CallRequest(u, e, s.apiKey)]
  {
    var attributes := [Member("err_code", Number(1))];
    var ms := [Member("@attributes", Object(attributes))];
    assert IntoStruct([], Object(ms)) == (ms, true) by {
      assert [] + ms == ms;
    }
    FieldAbsent(None, ms, "err", IntoStringPtr);
    OccursOnce(ms, "@attributes", 0);
    FoldOne(None, Object(attributes), IntoStructPtr);
    assert [] + attributes == attributes;
    OccursOnce(attributes, "err_code", 0);
    FoldOne(0, Number(1), IntoInt);
  }

  /** Through a wrapper, a call that got its bytes returns no error, whatever
      the endpoint's `read` makes of them. */
  lemma PerformIgnoresRead(u: UserAccount, e: Endpoint, s: State)
    ensures Call(u, e, s).out.Done? <==> Perform(u, e, s).out == Done(())
    ensures Perform(u, e, s).state == Call(u, e, s).state
  {
  }

  /** The query of the older client sends no pairs, so the request for a
      page carries no offset, limit or fields. */
  lemma QueryCarriesNoPairs<P>(u: UserAccount, q: RQ.QueryProspects<P>, apiKey: string)
    ensures CallRequest(u, QueryProspectsEndpoint(q), apiKey).url.query == map[]
    ensures CallRequest(u, QueryProspectsEndpoint(q), apiKey).body == None
  {
    var w := WithPairs(map[], map[]);
    assert w.Keys == {};
  }
}
