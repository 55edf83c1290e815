/** The older REST client as the mutable object it is in
    pardotrest/pardotrest.go: the API key is a field that `maybeAuth` writes
    and `Call` clears, and every method is proved to have the effect the
    functions of module `PardotRest` describe. */
module PardotRestClient {
  import opened Common
  import opened Text
  import opened Json
  import opened Http
  import PR = PardotRest
  import L = LoginEndpoint
  import RQ = PardotRestQuery
  import RB = PardotRestBatchUpdate

  class PardotRest {
    const account: PR.UserAccount
    const transport: Transport
    var apiKey: string

    function State(): Http.State
      reads this, transport
    {
      Http.State(apiKey, transport.script, transport.sent)
    }

    /** A client starts without a key. */
    constructor (account: PR.UserAccount, transport: Transport)
      ensures this.account == account && this.transport == transport && apiKey == ""
    {
      this.account := account;
      this.transport := transport;
      apiKey := "";
    }

    /** `newRequest`, adding the pairs one key at a time. */
    static method NewRequest(verb: string, path: string, body: Option<string>, query: map<string, string>, header: Header)
      returns (r: Request)
      ensures r == PR.NewRequest(verb, path, body, query, header)
    {
      var q: Header := map[];
      var rest := query.Keys;
      ghost var done: map<string, string> := map[];
      WithNoPairs(map[]);
      while rest != {}
        invariant rest <= query.Keys
        invariant forall k :: k in done <==> k in query && k !in rest
        invariant forall k :: k in done ==> done[k] == query[k]
        invariant q == WithPairs(map[], done)
        decreases |rest|
      {
        var k :| k in rest;
        AddPair(map[], done, k, query[k]);
        q := Add(q, k, query[k]);
        done := done[k := query[k]];
        rest := rest - {k};
      }
      assert done == query;
      r := Request(verb, Url("", PR.Base, path, q), Add(header, "Content-Type", FormEncoded), body);
    }

    method MaybeAuth() returns (out: Outcome<()>)
      modifies this, transport
      ensures Step(out, State()) == PR.MaybeAuth(account, old(State()))
    {
      if apiKey != "" {
        return Done(());
      }
      var req := NewRequest("POST", L.LoginPath, Some(L.LoginForm(account.email, account.pass, account.userKey)), map[], map[]);
      var res := transport.RoundTrip(req);
      match res
      case TransportError(why) =>
        out := Failed(Wrapped("issuing get request", Transport(why)));
      case Reply(status, body) =>
        if status != 200 {
          return Failed(Plain("status code " + Decimal(status)));
        }
        if body.None? {
          return Failed(Wrapped("reading response bytes", ReadBody));
        }
        var p := body.value;
        if p.doc.None? {
          return Failed(Wrapped("unmarshaling auth result: " + p.text, JsonSyntax));
        }
        var reply := PR.DecodeLogin(p.doc.value);
        if !reply.1 {
          return Failed(Wrapped("unmarshaling auth result: " + p.text, JsonType));
        }
        if reply.0.envelope.err.Some? {
          if reply.0.envelope.errCode.None? {
            return Panicked(PR.Nil);
          }
          if reply.0.envelope.errCode.value == 15 {
            return Failed(LoginFailed(reply.0.envelope.err.value));
          }
          return Failed(Plain(reply.0.envelope.err.value));
        }
        apiKey := reply.0.key;
        out := Done(());
    }

    method Call(e: PR.Endpoint) returns (out: Outcome<Payload>)
      modifies this, transport
      ensures Step(out, State()) == PR.Call(account, e, old(State()))
      decreases |transport.script|
    {
      var auth := MaybeAuth();
      if !auth.Done? {
        return PR.AuthFailure(auth);
      }
      var header := Add(map[], "Authorization", "Pardot api_key=" + apiKey + ", user_key=" + account.userKey);
      if e.body.Err? {
        return Failed(e.body.error);
      }
      if e.query.Err? {
        return Failed(e.query.error);
      }
      var req := NewRequest(e.verb, e.path, e.body.value, e.query.value, header);
      var res := transport.RoundTrip(req);
      match res
      case TransportError(why) =>
        out := Failed(Wrapped("issuing request", Transport(why)));
      case Reply(status, body) =>
        if status != 200 {
          return Failed(Plain("status code " + Decimal(status)));
        }
        if body.None? {
          return Failed(Wrapped("reading response bytes", ReadBody));
        }
        var p := body.value;
        if p.doc.None? {
          return Failed(Wrapped("unmarshaling response", JsonSyntax));
        }
        var env := DecodeEnvelope(p.doc.value);
        if !env.1 {
          return Failed(Wrapped("unmarshaling response", JsonType));
        }
        if env.0.err.Some? {
          if env.0.errCode.None? {
            return Panicked(PR.Nil);
          }
          if env.0.errCode.value == 1 {
            apiKey := "";
            out := Call(e);
            return;
          }
          return Failed(Plain(env.0.err.value));
        }
        out := Done(p);
    }

    /** `Call` with the query endpoint: its `read` decodes the page into the
        placeholder; the call's own result ignores what `read` returns. */
    method QueryProspects<X>(args: RQ.QueryProspects<X>) returns (out: Outcome<()>)
      modifies this, transport, args.Targets()
      ensures var c := PR.Call(account, PR.QueryProspectsEndpoint(args), old(State()));
        && Step(out, State()) == PR.Perform(account, PR.QueryProspectsEndpoint(args), old(State()))
        && (args.placeholder.Some? ==>
              args.placeholder.value.items ==
                if c.out.Done? && args.Reading(c.out.value, old(args.placeholder.value.items)).1.Some?
                then args.Reading(c.out.value, old(args.placeholder.value.items)).1.value
                else old(args.placeholder.value.items))
    {
      var body := Call(PR.QueryProspectsEndpoint(args));
      match body
      case Failed(err) =>
        out := Failed(err);
      case Panicked(why) =>
        out := Panicked(why);
      case Done(p) =>
        var _ := args.Read(p);
        out := Done(());
    }

    /** `Call` with the batch update; its `read` does nothing. */
    method BatchUpdateProspects<T>(args: RB.BatchUpdateProspect<T>, marshal: T -> Result<string>) returns (out: Outcome<()>)
      modifies this, transport
      ensures Step(out, State()) == PR.Perform(account, PR.BatchUpdateEndpoint(args, marshal), old(State()))
    {
      var body := Call(PR.BatchUpdateEndpoint(args, marshal));
      match body
      case Failed(err) =>
        out := Failed(err);
      case Panicked(why) =>
        out := Panicked(why);
      case Done(p) =>
        var _ := args.Read(p);
        out := Done(());
    }
  }
}
