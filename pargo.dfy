/** The authenticated-call state machine of the current client (pargo.go), as
    functions from the client's state to the outcome and the next state.

    The state is the cached API key together with the transport: the responses
    still to come and the requests sent so far. `PargoClient.Pargo` performs
    these steps on a mutable object and is proved to agree with them. */
module Pargo {
  import opened Common
  import opened Text
  import opened Json
  import opened Http
  import QP = QueryProspectsEndpoint
  import DP = DeleteProspectEndpoint

  const HostSalesforce: string := "apnic.my.salesforce.com"
  const Base: string := "pi.pardot.com"

  /** The credentials of the OAuth password grant. */
  datatype UserAccount = UserAccount(clientId: string, clientSecret: string, email: string, pass: string)

  /** What a client is configured with and never changes. */
  datatype Config = Config(user: UserAccount, businessUnitId: string)

  /** The statuses both `Call` and `maybeAuth` accept. */
  predicate Accepted(status: int) {
    status == 200 || status == 201 || status == 204
  }

  /** The five fields of the password grant, in the order `maybeAuth`
      formats them. */
  function LoginFields(u: UserAccount): seq<(string, string)> {
    [("client_id", u.clientId), ("client_secret", u.clientSecret), ("grant_type", "password"),
     ("username", u.email), ("password", u.pass)]
  }

  /** The login body: the fields written `name=value`, joined by '&', with no
      escaping. */
  function LoginBody(u: UserAccount): string {
    FormBody(LoginFields(u))
  }

  /** The token request `maybeAuth` sends to Salesforce. */
  function LoginRequest(u: UserAccount): Request {
    Request("POST", Url("https", HostSalesforce, "/services/oauth2/token", Add(map[], "format", "json")),
            Add(map[], "Content-Type", FormEncoded), Some(LoginBody(u)))
  }

  /** `maybeAuth`: a no-op while a key is cached; otherwise one login request,
      after which an accepted status stores the `access_token` of the reply
      ("" when it has none) and anything else is an error that keeps the key. */
  function MaybeAuth(cfg: Config, s: State): (r: Step<()>)
    ensures s.apiKey != "" ==> r == Step(Done(()), s)
    ensures s.apiKey == "" ==>
      r.state.script == Next(s.script).1 && r.state.sent == s.sent + [LoginRequest(cfg.user)]
    ensures s.apiKey == "" ==>
      (r.out.Done? <==> Next(s.script).0.Reply? && Next(s.script).0.body.Some? && Accepted(Next(s.script).0.status))
    ensures s.apiKey == "" && r.out.Done? ==>
      r.state.apiKey == StringMember(Next(s.script).0.body.value.doc, "access_token")
    ensures !r.out.Done? ==> r.out.Failed? && r.state.apiKey == s.apiKey
    ensures |r.state.script| <= |s.script|
  {
    if s.apiKey != "" then Step(Done(()), s)
    else
      var x := Exchange(s, LoginRequest(cfg.user));
      match x.0
      case TransportError(why) => Step(Failed(Wrapped("issuing login request", Transport(why))), x.1)
      case Reply(status, None) => Step(Failed(Wrapped("reading login response bytes", ReadBody)), x.1)
      case Reply(status, Some(p)) =>
        if !Accepted(status) then
          Step(Failed(Plain("got status code " + Decimal(status) + " with body " + p.text)), x.1)
        else
          Step(Done(()), x.1.(apiKey := StringMember(p.doc, "access_token")))
  }

  /** `addAuthHeaders`: the bearer token and the business unit replace
      whatever those two headers held; every other header is kept. */
  function AuthHeaders(h: Header, apiKey: string, businessUnitId: string): (r: Header)
    ensures r.Keys == h.Keys + {"Authorization", "Pardot-Business-Unit-Id"}
    ensures r["Authorization"] == ["Bearer " + apiKey]
    ensures r["Pardot-Business-Unit-Id"] == [businessUnitId]
    ensures forall k :: k in h && k != "Authorization" && k != "Pardot-Business-Unit-Id" ==> r[k] == h[k]
  {
    Set(Set(h, "Authorization", "Bearer " + apiKey), "Pardot-Business-Unit-Id", businessUnitId)
  }

  /** The request `Call` sends: `req` with the headers stamped. */
  function Authorize(req: Request, apiKey: string, businessUnitId: string): Request {
    req.(header := AuthHeaders(req.header, apiKey, businessUnitId))
  }

  /** `Call`: authenticate if needed, stamp the headers, send, and classify
      the response by its status and then by its envelope. The result is the
      response bytes. */
  function Call(cfg: Config, req: Request, s: State): (r: Step<Payload>)
    ensures |r.state.script| <= |s.script|
    ensures |r.state.sent| > |s.sent| && r.state.sent[..|s.sent|] == s.sent
    decreases |s.script|, 1
  {
    var auth := MaybeAuth(cfg, s);
    if auth.out.Failed? then Step(Failed(auth.out.error), auth.state)
    else
      var sent := Authorize(req, auth.state.apiKey, cfg.businessUnitId);
      var x := Exchange(auth.state, sent);
      match x.0
      case TransportError(why) => Step(Failed(Wrapped("issuing request", Transport(why))), x.1)
      case Reply(status, None) => Step(Failed(Wrapped("reading response bytes", ReadBody)), x.1)
      case Reply(status, Some(p)) =>
        if !Accepted(status) then
          Step(Failed(Plain("got status code " + Decimal(status) + " for " + p.text)), x.1)
        else
          PrefixTransitive(s.sent, auth.state.sent, x.1.sent);
          ParseRes(cfg, p, sent, x.1)
  }

  /** `parseRes`: the error envelope decides. Code 1 clears the key, logs in
      again (ignoring how that went) and repeats the whole call with the same
      request; 15 and 71 are the two typed errors; an envelope with `err` but
      without `@attributes` is a nil dereference. Anything else hands the
      bytes back as they came. */
  function ParseRes(cfg: Config, p: Payload, req: Request, s: State): (r: Step<Payload>)
    ensures |r.state.script| <= |s.script|
    ensures |r.state.sent| >= |s.sent| && r.state.sent[..|s.sent|] == s.sent
    decreases |s.script|, 2
  {
    match p.doc
    case None => Step(Failed(Wrapped("unmarshaling response", JsonSyntax)), s)
    case Some(doc) =>
      var env := DecodeEnvelope(doc);
      if !env.1 then Step(Failed(Wrapped("unmarshaling response", JsonType)), s)
      else if env.0.err.None? then Step(Done(p), s)
      else if env.0.errCode.None? then Step(Panicked("nil pointer dereference of @attributes"), s)
      else if env.0.errCode.value == 1 then
        var relogin := MaybeAuth(cfg, s.(apiKey := ""));
        var again := Call(cfg, req, relogin.state);
        PrefixTransitive(s.sent, relogin.state.sent, again.state.sent);
        again
      else if env.0.errCode.value == 15 then Step(Failed(LoginFailed(env.0.err.value)), s)
      else if env.0.errCode.value == 71 then Step(Failed(InvalidJson(env.0.err.value)), s)
      else Step(Done(p), s)
  }

  lemma PrefixTransitive<T>(a: seq<T>, b: seq<T>, c: seq<T>)
    requires |a| <= |b| <= |c| && b[..|a|] == a && c[..|b|] == b
    ensures c[..|a|] == a
  {
    assert c[..|a|] == c[..|b|][..|a|];
  }

  /** An endpoint as `NewRequest` sees it: its method and path, and its `Body`
      and `Query` when it implements them (None: it does not). */
  datatype Endpoint = Endpoint(
    verb: string,
    path: string,
    body: Option<Result<string>>,
    query: Option<Result<map<string, string>>>)

  /** `NewRequest`: the body error comes first, then the query error;
      otherwise a request to `https://pi.pardot.com/api/<path>` whose query is
      `format=json` and the endpoint's pairs, with the form Content-Type. */
  function BuildRequest(e: Endpoint, header: Header): Result<Request> {
    if e.body.Some? && e.body.value.Err? then Err(e.body.value.error)
    else if e.query.Some? && e.query.value.Err? then Err(e.query.value.error)
    else
      var q := Add(map[], "format", "json");
      Ok(Request(e.verb,
                 Url("https", Base, "/api/" + e.path, if e.query.Some? then WithPairs(q, e.query.value.value) else q),
                 Add(header, "Content-Type", FormEncoded),
                 if e.body.Some? then Some(e.body.value.value) else None))
  }

  /** What `NewRequest` promises: `format=json` first, every endpoint pair
      after it, nothing else in the query; the path under `/api/`; the form
      Content-Type added to the caller's headers. */
  lemma BuildRequestShape(e: Endpoint, header: Header)
    requires BuildRequest(e, header).Ok?
    ensures var r := BuildRequest(e, header).value;
      var pairs := if e.query.Some? then e.query.value.value else map[];
      && r.verb == e.verb
      && r.url.scheme == "https" && r.url.host == "pi.pardot.com" && r.url.path == "/api/" + e.path
      && r.url.query.Keys == pairs.Keys + {"format"}
      && r.url.query["format"] == ["json"] + (if "format" in pairs then [pairs["format"]] else [])
      && (forall k :: k in pairs && k != "format" ==> r.url.query[k] == [pairs[k]])
      && r.header.Keys == header.Keys + {"Content-Type"}
      && r.header["Content-Type"] == (if "Content-Type" in header then header["Content-Type"] else []) + [FormEncoded]
      && (forall k :: k in header && k != "Content-Type" ==> r.header[k] == header[k])
      && r.body == (if e.body.Some? then Some(e.body.value.value) else None)
  {
  }

  /** The error of the endpoint's `Body` wins over that of its `Query`. */
  lemma BuildRequestErrors(e: Endpoint, header: Header)
    ensures e.body.Some? && e.body.value.Err? ==> BuildRequest(e, header) == Err(e.body.value.error)
    ensures (e.body.None? || e.body.value.Ok?) && e.query.Some? && e.query.value.Err? ==>
      BuildRequest(e, header) == Err(e.query.value.error)
    ensures (e.body.None? || e.body.value.Ok?) && (e.query.None? || e.query.value.Ok?) ==>
      BuildRequest(e, header).Ok?
  {
  }

  /** `QueryProspects` as an endpoint: a query, no body. */
  function QueryProspectsEndpoint<P>(q: QP.QueryProspects<P>): Endpoint {
    Endpoint(q.Method(), q.Path(), None, Some(Ok(q.Query())))
  }

  /** `DeleteProspect` as an endpoint: an empty query, no body. */
  function DeleteProspectEndpoint(d: DP.DeleteProspect): Endpoint {
    Endpoint(d.Method(), d.Path(), None, Some(d.Query()))
  }

  /** A delete carries only `format=json` in its query. */
  lemma DeleteCarriesOnlyFormat(d: DP.DeleteProspect, header: Header)
    ensures BuildRequest(DeleteProspectEndpoint(d), header).Ok?
    ensures BuildRequest(DeleteProspectEndpoint(d), header).value.url.query == map["format" := ["json"]]
  {
    var q := Add(map[], "format", "json");
    var w := WithPairs(q, map[]);
    assert w.Keys == q.Keys;
    assert w["format"] == ["json"];
  }

  /** `Pargo.QueryProspects`: build the request (its error wrapped as
      "building request"), call (its error wrapped as "requesting"), then read
      the page into `q`, whose read error is returned as it is. The second
      part is what the read does to the placeholder and the `Marshaler`
      (nothing when the call did not succeed). */
  function QueryProspects<X>(cfg: Config, q: QP.QueryProspects<X>, s: State, current: seq<X>): (Step<()>, QP.ReadResult<X>) {
    var built := BuildRequest(QueryProspectsEndpoint(q), map[]);
    if built.Err? then (Step(Failed(Wrapped("building request", built.error)), s), QP.ReadResult(None, [], None))
    else AfterQueryCall(Call(cfg, built.value, s), q, current)
  }

  /** Building a page query never fails, so `Pargo.QueryProspects` is the
      call followed by its reading. */
  lemma QueryProspectsCalls<X>(cfg: Config, q: QP.QueryProspects<X>, s: State, current: seq<X>)
    ensures BuildRequest(QueryProspectsEndpoint(q), map[]).Ok?
    ensures QueryProspects(cfg, q, s, current)
      == AfterQueryCall(Call(cfg, BuildRequest(QueryProspectsEndpoint(q), map[]).value, s), q, current)
  {
    BuildRequestErrors(QueryProspectsEndpoint(q), map[]);
  }

  /** The part of `Pargo.QueryProspects` after the call. */
  function AfterQueryCall<X>(c: Step<Payload>, q: QP.QueryProspects<X>, current: seq<X>): (Step<()>, QP.ReadResult<X>) {
    match c.out
    case Failed(e) => (Step(Failed(Wrapped("requesting", e)), c.state), QP.ReadResult(None, [], None))
    case Panicked(why) => (Step(Panicked(why), c.state), QP.ReadResult(None, [], None))
    case Done(page) =>
      var r := q.Reading(page, current);
      (Step(if r.error.Some? then Failed(r.error.value) else Done(()), c.state), r)
  }

  /** The errors `Pargo.QueryProspects` returns: the request always builds;
      a failed call is wrapped as "requesting"; a page error, the end of data
      included, is returned unwrapped, so callers can compare it with
      `QueryProspectsEOF`. */
  lemma QueryProspectsErrors<X>(cfg: Config, q: QP.QueryProspects<X>, s: State, current: seq<X>)
    ensures BuildRequest(QueryProspectsEndpoint(q), map[]).Ok?
    ensures var c := Call(cfg, BuildRequest(QueryProspectsEndpoint(q), map[]).value, s);
      var r := QueryProspects(cfg, q, s, current);
      && r.0.state == c.state
      && (c.out.Failed? ==> r.0.out == Failed(Wrapped("requesting", c.out.error)) && r.1 == QP.ReadResult(None, [], None))
      && (c.out.Done? ==> r.0.out == (if r.1.error.Some? then Failed(r.1.error.value) else Done(()))
                          && r.1 == q.Reading(c.out.value, current))
      && (c.out.Done? && q.Reading(c.out.value, current).error == Some(QueryProspectsEof) ==>
            r.0.out == Failed(QueryProspectsEof))
  {
  }

  /** `Pargo.DeleteProspect`: the response bytes are discarded; a failed call
      is wrapped as "requesting". */
  function DeleteProspect(cfg: Config, d: DP.DeleteProspect, s: State): Step<()> {
    var built := BuildRequest(DeleteProspectEndpoint(d), map[]);
    if built.Err? then Step(Failed(Wrapped("building request", built.error)), s)
    else
      var c := Call(cfg, built.value, s);
      match c.out
      case Failed(e) => Step(Failed(Wrapped("requesting", e)), c.state)
      case Panicked(why) => Step(Panicked(why), c.state)
      case Done(_) => Step(Done(()), c.state)
  }

  /** A delete succeeds exactly when its call does, whatever the bytes. */
  lemma DeleteProspectOutcome(cfg: Config, d: DP.DeleteProspect, s: State)
    ensures BuildRequest(DeleteProspectEndpoint(d), map[]).Ok?
    ensures var c := Call(cfg, BuildRequest(DeleteProspectEndpoint(d), map[]).value, s);
      var r := DeleteProspect(cfg, d, s);
      && r.state == c.state
      && (r.out.Done? <==> c.out.Done?)
      && (c.out.Failed? ==> r.out == Failed(Wrapped("requesting", c.out.error)))
  {
  }

  /** The login request carries the five form fields of the password grant,
      in order, when no credential contains '&'. */
  lemma LoginBodyFields(u: UserAccount)
    requires '&' !in u.clientId && '&' !in u.clientSecret && '&' !in u.email && '&' !in u.pass
    ensures FormPairs(LoginBody(u)) == [("client_id", u.clientId), ("client_secret", u.clientSecret),
      ("grant_type", "password"), ("username", u.email), ("password", u.pass)]
  {
    FormRoundTrip(LoginFields(u));
  }

  /** Stamping the headers again replaces the earlier stamp: a retried request
      carries only the new key. */
  lemma ReauthorizeOverwrites(req: Request, k1: string, k2: string, bu: string)
    ensures Authorize(Authorize(req, k1, bu), k2, bu) == Authorize(req, k2, bu)
    ensures Authorize(req, k1, bu) == Authorize(req, k2, bu) <==> k1 == k2
  {
    var a := Authorize(req, k1, bu).header;
    var b := Authorize(req, k2, bu).header;
    if a == b {
      assert a["Authorization"] == ["Bearer " + k1] && b["Authorization"] == ["Bearer " + k2];
      assert ("Bearer " + k1)[7..] == k1 && ("Bearer " + k2)[7..] == k2;
    }
  }

  /** The login reply a scripted test gives: status 200 with an access token. */
  function TokenReply(token: string): Response {
    Reply(200, Some(Payload("{\"access_token\":\"" + token + "\"}",
                            Some(Object([Member("access_token", Str(token))])))))
  }

  /** The reply whose envelope says the key expired. */
  function Expired(msg: string): Payload {
    ErrorPayload(msg, 1)
  }

  lemma TokenOf(token: string)
    ensures StringMember(TokenReply(token).body.value.doc, "access_token") == token
  {
    var ms := [Member("access_token", Str(token))];
    assert IntoStruct([], Object(ms)).0 == ms by {
      assert [] + ms == ms;
    }
    OccursOnce(ms, "access_token", 0);
    FoldOne("", Str(token), IntoString);
  }

  /** A login answered with a token stores it. */
  lemma LoginStoresToken(cfg: Config, s: State, token: string)
    requires s.apiKey == "" && |s.script| > 0 && s.script[0] == TokenReply(token)
    ensures MaybeAuth(cfg, s) == Step(Done(()), State(token, s.script[1..], s.sent + [LoginRequest(cfg.user)]))
  {
    TokenOf(token);
  }

  /** A login reply without `access_token` stores the empty key, without
      error. */
  lemma LoginWithoutToken(cfg: Config, s: State, p: Payload)
    requires s.apiKey == "" && |s.script| > 0 && s.script[0] == Reply(200, Some(p))
    requires p.doc.None? || (p.doc.value.Object? && forall i :: 0 <= i < |p.doc.value.members| ==>
      p.doc.value.members[i].name != "access_token")
    ensures MaybeAuth(cfg, s) == Step(Done(()), State("", s.script[1..], s.sent + [LoginRequest(cfg.user)]))
  {
    if p.doc.Some? {
      assert IntoStruct([], p.doc.value).0 == p.doc.value.members by {
        assert [] + p.doc.value.members == p.doc.value.members;
      }
    }
  }

  /** With a key cached and an accepted reply, the call comes down to parsing
      that reply; exactly one stamped request went out. */
  lemma CallWithKey(cfg: Config, req: Request, s: State, status: int, p: Payload)
    requires s.apiKey != "" && |s.script| > 0 && s.script[0] == Reply(status, Some(p)) && Accepted(status)
    ensures var sent := Authorize(req, s.apiKey, cfg.businessUnitId);
      Call(cfg, req, s) == ParseRes(cfg, p, sent, State(s.apiKey, s.script[1..], s.sent + [sent]))
  {
  }

  /** Once a login has stored a non-empty key, the call goes on as from a
      client that had the key cached. */
  lemma CallAfterLogin(cfg: Config, req: Request, s: State)
    requires MaybeAuth(cfg, s).out.Done? && MaybeAuth(cfg, s).state.apiKey != ""
    ensures Call(cfg, req, s) == Call(cfg, req, MaybeAuth(cfg, s).state)
  {
  }

  lemma ParseResClean(cfg: Config, p: Payload, req: Request, s: State)
    requires Clean(p)
    ensures ParseRes(cfg, p, req, s) == Step(Done(p), s)
  {
  }

  /** An expired key (any reply whose envelope carries `err` and code 1):
      the call is repeated after a login from the empty key. */
  lemma ParseResExpired(cfg: Config, p: Payload, msg: string, req: Request, s: State)
    requires Signals(p, Some(msg), Some(1))
    ensures ParseRes(cfg, p, req, s) == Call(cfg, req, MaybeAuth(cfg, s.(apiKey := "")).state)
  {
  }

  /** With a key cached, a call sends exactly the one stamped request, and
      a reply without error envelope comes back as it is, key kept. */
  lemma KeyIsReused(cfg: Config, req: Request, s: State, status: int, p: Payload)
    requires s.apiKey != "" && |s.script| > 0 && s.script[0] == Reply(status, Some(p)) && Accepted(status)
    requires Clean(p)
    ensures Call(cfg, req, s) ==
      Step(Done(p), State(s.apiKey, s.script[1..], s.sent + [Authorize(req, s.apiKey, cfg.businessUnitId)]))
  {
    CallWithKey(cfg, req, s, status, p);
    var sent := Authorize(req, s.apiKey, cfg.businessUnitId);
    ParseResClean(cfg, p, sent, State(s.apiKey, s.script[1..], s.sent + [sent]));
  }

  /** A status outside 200, 201 and 204 is an error that quotes the body; the
      envelope is never looked at, so the outcome is the same whatever the
      body decodes to. */
  lemma RejectedStatus(cfg: Config, req: Request, s: State, status: int, p: Payload)
    requires s.apiKey != "" && |s.script| > 0 && s.script[0] == Reply(status, Some(p))
    requires !Accepted(status)
    ensures Call(cfg, req, s) ==
      Step(Failed(Plain("got status code " + Decimal(status) + " for " + p.text)),
           State(s.apiKey, s.script[1..], s.sent + [Authorize(req, s.apiKey, cfg.businessUnitId)]))
    ensures forall doc: Option<Json> :: Call(cfg, req, s.(script := [Reply(status, Some(p.(doc := doc)))] + s.script[1..]))
                                     == Call(cfg, req, s)
  {
    forall doc: Option<Json>
      ensures Call(cfg, req, s.(script := [Reply(status, Some(p.(doc := doc)))] + s.script[1..])) == Call(cfg, req, s)
    {
      var t := s.(script := [Reply(status, Some(p.(doc := doc)))] + s.script[1..]);
      assert t.script[1..] == s.script[1..];
    }
  }

  /** Codes 15 and 71 are the typed errors carrying Pardot's message; neither
      retries, so the one stamped request is all that is sent. */
  lemma TypedErrors(cfg: Config, req: Request, s: State, p: Payload, msg: string, code: GoInt)
    requires s.apiKey != "" && |s.script| > 0 && s.script[0] == Reply(200, Some(p))
    requires Signals(p, Some(msg), Some(code))
    requires code == 15 || code == 71
    ensures Call(cfg, req, s) ==
      Step(Failed(if code == 15 then LoginFailed(msg) else InvalidJson(msg)),
           State(s.apiKey, s.script[1..], s.sent + [Authorize(req, s.apiKey, cfg.businessUnitId)]))
  {
    CallWithKey(cfg, req, s, 200, p);
  }

  /** Any other code is not an error: the bytes come back as they are. */
  lemma OtherCodesPassThrough(cfg: Config, req: Request, s: State, p: Payload, msg: string, code: GoInt)
    requires s.apiKey != "" && |s.script| > 0 && s.script[0] == Reply(200, Some(p))
    requires Signals(p, Some(msg), Some(code))
    requires code != 1 && code != 15 && code != 71
    ensures Call(cfg, req, s) ==
      Step(Done(p), State(s.apiKey, s.script[1..], s.sent + [Authorize(req, s.apiKey, cfg.businessUnitId)]))
  {
    CallWithKey(cfg, req, s, 200, p);
  }

  /** An `err` without `@attributes` dereferences a nil pointer, after the
      one stamped request; `Json.ErrOnlyEnvelope` gives `{"err": msg}` as such
      a reply. */
  lemma ErrWithoutAttributesPanics(cfg: Config, req: Request, s: State, p: Payload, msg: string)
    requires s.apiKey != "" && |s.script| > 0 && s.script[0] == Reply(200, Some(p))
    requires Signals(p, Some(msg), None)
    ensures Call(cfg, req, s) == Step(Panicked("nil pointer dereference of @attributes"),
      State(s.apiKey, s.script[1..], s.sent + [Authorize(req, s.apiKey, cfg.businessUnitId)]))
  {
    CallWithKey(cfg, req, s, 200, p);
  }

  /** An expired key followed by a login reply: the call continues as the
      same (already stamped) request from the state after that login. */
  lemma ExpiredThenLogin(cfg: Config, req: Request, s: State, e: Payload, msg: string, token: string)
    requires s.apiKey != "" && |s.script| >= 2
    requires s.script[0] == Reply(200, Some(e)) && Signals(e, Some(msg), Some(1)) && s.script[1] == TokenReply(token)
    ensures var sent := Authorize(req, s.apiKey, cfg.businessUnitId);
      Call(cfg, req, s) == Call(cfg, sent, State(token, s.script[2..], s.sent + [sent, LoginRequest(cfg.user)]))
  {
    var sent := Authorize(req, s.apiKey, cfg.businessUnitId);
    var first := State(s.apiKey, s.script[1..], s.sent + [sent]);
    var after := State(token, s.script[2..], s.sent + [sent, LoginRequest(cfg.user)]);
    CallWithKey(cfg, req, s, 200, e);
    ParseResExpired(cfg, e, msg, sent, first);
    assert MaybeAuth(cfg, first.(apiKey := "")).state == after by {
      assert s.script[1..][0] == s.script[1] && s.script[1..][1..] == s.script[2..];
      assert first.sent + [LoginRequest(cfg.user)] == s.sent + [sent, LoginRequest(cfg.user)];
      LoginStoresToken(cfg, first.(apiKey := ""), token);
    }
  }

  /** From the empty key, a login answered with a non-empty token lets the
      call go on as with that key cached. */
  lemma LoginThenCall(cfg: Config, req: Request, s: State, token: string)
    requires s.apiKey == "" && token != "" && |s.script| >= 1 && s.script[0] == TokenReply(token)
    ensures Call(cfg, req, s) == Call(cfg, req, State(token, s.script[1..], s.sent + [LoginRequest(cfg.user)]))
  {
    LoginStoresToken(cfg, s, token);
    CallAfterLogin(cfg, req, s);
  }

  /** Code 1: the key is dropped, exactly one login follows, and the same
      request is sent again stamped with the new key; the caller sees the
      outcome of that retry. */
  lemma ExpiredKeyRetriesOnce(cfg: Config, req: Request, s: State, e: Payload, msg: string, token: string, p: Payload)
    requires s.apiKey != "" && token != ""
    requires |s.script| >= 3
    requires s.script[0] == Reply(200, Some(e)) && Signals(e, Some(msg), Some(1))
    requires s.script[1] == TokenReply(token)
    requires s.script[2] == Reply(200, Some(p))
    requires Clean(p)
    ensures Call(cfg, req, s) ==
      Step(Done(p), State(token, s.script[3..],
        s.sent + [Authorize(req, s.apiKey, cfg.businessUnitId), LoginRequest(cfg.user), Authorize(req, token, cfg.businessUnitId)]))
  {
    var bu := cfg.businessUnitId;
    var sent := Authorize(req, s.apiKey, bu);
    var relogin := State(token, s.script[2..], s.sent + [sent, LoginRequest(cfg.user)]);
    ExpiredThenLogin(cfg, req, s, e, msg, token);
    assert s.script[2..][0] == s.script[2] && s.script[2..][1..] == s.script[3..];
    KeyIsReused(cfg, sent, relogin, 200, p);
    ReauthorizeOverwrites(req, s.apiKey, token, bu);
  }

  /** When the new login yields no token, the retry finds the key still empty
      and logs in a second time before sending the request again. */
  lemma EmptyTokenLogsInTwice(cfg: Config, req: Request, s: State, e: Payload, msg: string, token: string, p: Payload)
    requires s.apiKey != "" && token != ""
    requires |s.script| >= 4
    requires s.script[0] == Reply(200, Some(e)) && Signals(e, Some(msg), Some(1))
    requires s.script[1] == TokenReply("")
    requires s.script[2] == TokenReply(token)
    requires s.script[3] == Reply(200, Some(p))
    requires Clean(p)
    ensures Call(cfg, req, s) ==
      Step(Done(p), State(token, s.script[4..],
        s.sent + [Authorize(req, s.apiKey, cfg.businessUnitId), LoginRequest(cfg.user), LoginRequest(cfg.user),
                  Authorize(req, token, cfg.businessUnitId)]))
  {
    var bu := cfg.businessUnitId;
    var sent := Authorize(req, s.apiKey, bu);
    var relogin := State("", s.script[2..], s.sent + [sent, LoginRequest(cfg.user)]);
    var second := State(token, s.script[3..], relogin.sent + [LoginRequest(cfg.user)]);
    ExpiredThenLogin(cfg, req, s, e, msg, "");
    assert s.script[2..][0] == s.script[2] && s.script[2..][1..] == s.script[3..];
    LoginThenCall(cfg, sent, relogin, token);
    assert s.script[3..][0] == s.script[3] && s.script[3..][1..] == s.script[4..];
    KeyIsReused(cfg, sent, second, 200, p);
    ReauthorizeOverwrites(req, s.apiKey, token, bu);
  }

  lemma FirstCallLogsIn(cfg: Config, req: Request, s0: State, a0: State, ok: Payload)
    requires Clean(ok) && s0.apiKey == "" && |s0.script| >= 2
    requires s0.script[0] == TokenReply("apikey#0") && s0.script[1] == Reply(200, Some(ok))
    requires a0 == State("apikey#0", s0.script[1..], s0.sent + [LoginRequest(cfg.user)])
    ensures Call(cfg, req, s0) ==
      Step(Done(ok), State("apikey#0", s0.script[2..], a0.sent + [Authorize(req, "apikey#0", cfg.businessUnitId)]))
  {
    LoginThenCall(cfg, req, s0, "apikey#0");
    assert s0.script[1..][0] == s0.script[1] && s0.script[1..][1..] == s0.script[2..];
    KeyIsReused(cfg, req, a0, 200, ok);
  }

  /** The sequence of `TestReuseAPIKeyUntilExpired`: three calls from a fresh
      client. The first logs in; the key is reused by the second; the third
      meets an expired key, logs in again and retries with the new key. */
  lemma ReuseUntilExpired(cfg: Config, req: Request, script: seq<Response>, ok: Payload, msg: string)
    requires Clean(ok)
    requires |script| == 6
    requires script[0] == TokenReply("apikey#0") && script[1] == Reply(200, Some(ok)) && script[2] == Reply(200, Some(ok))
    requires script[3] == Reply(200, Some(Expired(msg))) && script[4] == TokenReply("apikey#1") && script[5] == Reply(200, Some(ok))
    ensures var c1 := Call(cfg, req, State("", script, []));
      var c2 := Call(cfg, req, c1.state);
      var c3 := Call(cfg, req, c2.state);
      && c1.out == Done(ok) && c2.out == Done(ok) && c3.out == Done(ok)
      && c3.state == State("apikey#1", [], [
           LoginRequest(cfg.user),
           Authorize(req, "apikey#0", cfg.businessUnitId),
           Authorize(req, "apikey#0", cfg.businessUnitId),
           Authorize(req, "apikey#0", cfg.businessUnitId),
           LoginRequest(cfg.user),
           Authorize(req, "apikey#1", cfg.businessUnitId)])
  {
    var bu := cfg.businessUnitId;
    var a0 := [LoginRequest(cfg.user), Authorize(req, "apikey#0", bu), Authorize(req, "apikey#0", bu)];
    var s2 := State("apikey#0", script[3..], a0);
    TwoCallsReuseKey(cfg, req, script, ok);
    assert script[3..][0] == script[3] && script[3..][1] == script[4] && script[3..][2] == script[5];
    ErrorPayloadSignals(msg, 1);
    ExpiredKeyRetriesOnce(cfg, req, s2, Expired(msg), msg, "apikey#1", ok);
    assert script[3..][3..] == [];
    assert a0 + [Authorize(req, "apikey#0", bu), LoginRequest(cfg.user), Authorize(req, "apikey#1", bu)]
        == [LoginRequest(cfg.user), Authorize(req, "apikey#0", bu), Authorize(req, "apikey#0", bu),
            Authorize(req, "apikey#0", bu), LoginRequest(cfg.user), Authorize(req, "apikey#1", bu)];
  }

  /** The first two calls of that sequence: one login, then the key is used
      twice. */
  lemma TwoCallsReuseKey(cfg: Config, req: Request, script: seq<Response>, ok: Payload)
    requires Clean(ok)
    requires |script| >= 3
    requires script[0] == TokenReply("apikey#0") && script[1] == Reply(200, Some(ok)) && script[2] == Reply(200, Some(ok))
    ensures var c1 := Call(cfg, req, State("", script, []));
      var c2 := Call(cfg, req, c1.state);
      && c1.out == Done(ok) && c2.out == Done(ok)
      && c2.state == State("apikey#0", script[3..], [LoginRequest(cfg.user), Authorize(req, "apikey#0", cfg.businessUnitId),
                                                    Authorize(req, "apikey#0", cfg.businessUnitId)])
  {
    var bu := cfg.businessUnitId;
    var a0 := State("apikey#0", script[1..], [LoginRequest(cfg.user)]);
    var s1 := State("apikey#0", script[2..], a0.sent + [Authorize(req, "apikey#0", bu)]);
    FirstCallLogsIn(cfg, req, State("", script, []), a0, ok);
    assert script[2..][0] == script[2] && script[2..][1..] == script[3..];
    KeyIsReused(cfg, req, s1, 200, ok);
  }

  /** The sequence of `TestResultsInErr15`: every reply carries code 15. The
      login stores no key (the reply has no token), the request goes out with
      the empty key, and the caller gets `ErrLoginFailed`. */
  lemma LoginFailedScenario(cfg: Config, req: Request, msg: string)
    ensures var s0 := State("", [Reply(200, Some(ErrorPayload(msg, 15))), Reply(200, Some(ErrorPayload(msg, 15)))], []);
      Call(cfg, req, s0) == Step(Failed(LoginFailed(msg)),
        State("", [], [LoginRequest(cfg.user), Authorize(req, "", cfg.businessUnitId)]))
  {
    var r := Reply(200, Some(ErrorPayload(msg, 15)));
    var s0 := State("", [r, r], []);
    LoginWithoutToken(cfg, s0, ErrorPayload(msg, 15));
    ErrorEnvelope(msg, 15);
    assert [r, r][1..][1..] == [];
  }

  /** `DeleteProspect` against an empty-bodied 204 (the reply its test
      scripts): the empty body is not JSON, so the call fails while parsing
      the response. */
  lemma EmptyBodyFails(cfg: Config, req: Request, s: State)
    requires s.apiKey != "" && |s.script| > 0 && s.script[0] == Reply(204, Some(Payload("", None)))
    ensures Call(cfg, req, s).out == Failed(Wrapped("unmarshaling response", JsonSyntax))
  {
  }

  /** A request a call may send: the login request, or the caller's request
      stamped with some key and the business unit. */
  ghost predicate FromCall(cfg: Config, req: Request, x: Request) {
    x == LoginRequest(cfg.user) || exists k :: x == Authorize(req, k, cfg.businessUnitId)
  }

  ghost predicate AllFromCall(cfg: Config, req: Request, xs: seq<Request>) {
    forall i :: 0 <= i < |xs| ==> FromCall(cfg, req, xs[i])
  }

  lemma AllFromCallAppend(cfg: Config, req: Request, xs: seq<Request>, ys: seq<Request>)
    requires AllFromCall(cfg, req, xs) && AllFromCall(cfg, req, ys)
    ensures AllFromCall(cfg, req, xs + ys)
  {
  }

  /** A suffix past a common prefix splits at the longer prefix. */
  lemma SuffixSplit<T>(a: seq<T>, b: seq<T>, c: seq<T>)
    requires |a| <= |b| <= |c| && b[..|a|] == a && c[..|b|] == b
    ensures c[|a|..] == b[|a|..] + c[|b|..]
  {
    assert c == c[..|b|] + c[|b|..];
  }

  /** A request stamped twice is the original stamped once, so what a retry
      with the stamped request sends also comes from the original. */
  lemma RestampedFromCall(cfg: Config, req: Request, key: string, xs: seq<Request>)
    requires AllFromCall(cfg, Authorize(req, key, cfg.businessUnitId), xs)
    ensures AllFromCall(cfg, req, xs)
  {
    forall i | 0 <= i < |xs|
      ensures FromCall(cfg, req, xs[i])
    {
      if xs[i] != LoginRequest(cfg.user) {
        var k :| xs[i] == Authorize(Authorize(req, key, cfg.businessUnitId), k, cfg.businessUnitId);
        ReauthorizeOverwrites(req, key, k, cfg.businessUnitId);
      }
    }
  }

  /** Every request a call sends is the login request or the caller's request
      with its headers stamped, however many retries happen. */
  lemma {:induction false} CallSendsOnly(cfg: Config, req: Request, s: State)
    ensures AllFromCall(cfg, req, Call(cfg, req, s).state.sent[|s.sent|..])
    decreases |s.script|, 1
  {
    var auth := MaybeAuth(cfg, s);
    var logins := auth.state.sent[|s.sent|..];
    assert AllFromCall(cfg, req, logins) by {
      assert logins == [] || logins == [LoginRequest(cfg.user)];
    }
    if auth.out.Failed? {
      assert Call(cfg, req, s).state == auth.state;
    } else {
      var sent := Authorize(req, auth.state.apiKey, cfg.businessUnitId);
      var x := Exchange(auth.state, sent);
      assert AllFromCall(cfg, req, logins + [sent]) by {
        assert FromCall(cfg, req, sent);
      }
      assert x.1.sent[|s.sent|..] == logins + [sent];
      if x.0.Reply? && x.0.body.Some? && Accepted(x.0.status) {
        var r := ParseRes(cfg, x.0.body.value, sent, x.1);
        assert Call(cfg, req, s) == r;
        ParseResSendsOnly(cfg, x.0.body.value, req, auth.state.apiKey, x.1);
        SuffixSplit(s.sent, x.1.sent, r.state.sent);
        AllFromCallAppend(cfg, req, logins + [sent], r.state.sent[|x.1.sent|..]);
      } else {
        assert Call(cfg, req, s).state == x.1;
      }
    }
  }

  lemma {:induction false} ParseResSendsOnly(cfg: Config, p: Payload, req: Request, key: string, s: State)
    ensures var r := ParseRes(cfg, p, Authorize(req, key, cfg.businessUnitId), s);
      AllFromCall(cfg, req, r.state.sent[|s.sent|..])
    decreases |s.script|, 2
  {
    var sent := Authorize(req, key, cfg.businessUnitId);
    var r := ParseRes(cfg, p, sent, s);
    if p.doc.Some? {
      var env := DecodeEnvelope(p.doc.value);
      if env.1 && env.0.err.Some? && env.0.errCode.Some? && env.0.errCode.value == 1 {
        var relogin := MaybeAuth(cfg, s.(apiKey := ""));
        assert r == Call(cfg, sent, relogin.state);
        CallSendsOnly(cfg, sent, relogin.state);
        RestampedFromCall(cfg, req, key, r.state.sent[|relogin.state.sent|..]);
        assert relogin.state.sent[|s.sent|..] == [LoginRequest(cfg.user)];
        SuffixSplit(s.sent, relogin.state.sent, r.state.sent);
        AllFromCallAppend(cfg, req, [LoginRequest(cfg.user)], r.state.sent[|relogin.state.sent|..]);
        return;
      }
    }
    assert r.state == s;
  }
}
