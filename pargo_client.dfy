/** The current client as the mutable object it is in pargo.go: the API key
    is a field that `maybeAuth` writes and `parseRes` clears, and every method
    is proved to have the effect the functions of module `Pargo` describe. */
module PargoClient {
  import opened Common
  import Text
  import opened Json
  import opened Http
  import P = Pargo
  import QP = QueryProspectsEndpoint
  import DP = DeleteProspectEndpoint

  class Pargo {
    const user: P.UserAccount
    const businessUnitId: string
    const transport: Transport
    var apiKey: string

    function Config(): P.Config {
      P.Config(user, businessUnitId)
    }

    /** The key together with what the transport has still to give and has
        been given. */
    function State(): Http.State
      reads this, transport
    {
      Http.State(apiKey, transport.script, transport.sent)
    }

    /** A client starts without a key. */
    constructor (user: P.UserAccount, businessUnitId: string, transport: Transport)
      ensures this.user == user && this.businessUnitId == businessUnitId && this.transport == transport
      ensures apiKey == ""
    {
      this.user := user;
      this.businessUnitId := businessUnitId;
      this.transport := transport;
      apiKey := "";
    }

    method MaybeAuth() returns (out: Outcome<()>)
      modifies this, transport
      ensures Step(out, State()) == P.MaybeAuth(Config(), old(State()))
    {
      if apiKey != "" {
        return Done(());
      }
      var res := transport.RoundTrip(P.LoginRequest(user));
      match res
      case TransportError(why) =>
        out := Failed(Wrapped("issuing login request", Transport(why)));
      case Reply(status, None) =>
        out := Failed(Wrapped("reading login response bytes", ReadBody));
      case Reply(status, Some(p)) =>
        if !P.Accepted(status) {
          out := Failed(Plain("got status code " + Text.Decimal(status) + " with body " + p.text));
        } else {
          apiKey := StringMember(p.doc, "access_token");
          out := Done(());
        }
    }

    method Call(req: Request) returns (out: Outcome<Payload>)
      modifies this, transport
      ensures Step(out, State()) == P.Call(Config(), req, old(State()))
      decreases |transport.script|, 1
    {
      var auth := MaybeAuth();
      if auth.Failed? {
        return Failed(auth.error);
      }
      var sent := P.Authorize(req, apiKey, businessUnitId);
      var res := transport.RoundTrip(sent);
      match res
      case TransportError(why) =>
        out := Failed(Wrapped("issuing request", Transport(why)));
      case Reply(status, None) =>
        out := Failed(Wrapped("reading response bytes", ReadBody));
      case Reply(status, Some(p)) =>
        if !P.Accepted(status) {
          out := Failed(Plain("got status code " + Text.Decimal(status) + " for " + p.text));
        } else {
          out := ParseRes(p, sent);
        }
    }

    method ParseRes(p: Payload, req: Request) returns (out: Outcome<Payload>)
      modifies this, transport
      ensures Step(out, State()) == P.ParseRes(Config(), p, req, old(State()))
      decreases |transport.script|, 2
    {
      if p.doc.None? {
        return Failed(Wrapped("unmarshaling response", JsonSyntax));
      }
      var env := DecodeEnvelope(p.doc.value);
      if !env.1 {
        return Failed(Wrapped("unmarshaling response", JsonType));
      }
      if env.0.err.None? {
        return Done(p);
      }
      if env.0.errCode.None? {
        return Panicked("nil pointer dereference of @attributes");
      }
      var code := env.0.errCode.value;
      if code == 1 {
        apiKey := "";
        var _ := MaybeAuth();
        out := Call(req);
      } else if code == 15 {
        out := Failed(LoginFailed(env.0.err.value));
      } else if code == 71 {
        out := Failed(InvalidJson(env.0.err.value));
      } else {
        out := Done(p);
      }
    }

    /** `NewRequest`, adding the endpoint's pairs one key at a time. */
    method NewRequest(e: P.Endpoint, header: Header) returns (r: Result<Request>)
      ensures r == P.BuildRequest(e, header)
    {
      var h := Add(header, "Content-Type", FormEncoded);
      var body: Option<string> := None;
      if e.body.Some? {
        if e.body.value.Err? {
          return Err(e.body.value.error);
        }
        body := Some(e.body.value.value);
      }
      var q := Add(map[], "format", "json");
      ghost var q0 := q;
      if e.query.Some? {
        if e.query.value.Err? {
          return Err(e.query.value.error);
        }
        var pairs := e.query.value.value;
        var rest := pairs.Keys;
        ghost var done: map<string, string> := map[];
        WithNoPairs(q0);
        while rest != {}
          invariant rest <= pairs.Keys
          invariant forall k :: k in done <==> k in pairs && k !in rest
          invariant forall k :: k in done ==> done[k] == pairs[k]
          invariant q == WithPairs(q0, done)
          decreases |rest|
        {
          var k :| k in rest;
          AddPair(q0, done, k, pairs[k]);
          q := Add(q, k, pairs[k]);
          done := done[k := pairs[k]];
          rest := rest - {k};
        }
        assert done == pairs;
      }
      r := Ok(Request(e.verb, Url("https", P.Base, "/api/" + e.path, q), h, body));
    }

    method QueryProspects<X>(args: QP.QueryProspects<X>) returns (out: Outcome<()>)
      modifies this, transport, args.Targets()
      ensures var r := P.QueryProspects(Config(), args, old(State()),
                                        if args.placeholder.Some? then old(args.placeholder.value.items) else []);
        && Step(out, State()) == r.0
        && (args.marshaler.Some? ==> args.marshaler.value.received == old(args.marshaler.value.received) + r.1.fed)
        && (args.placeholder.Some? ==>
              args.placeholder.value.items == if r.1.items.Some? then r.1.items.value else old(args.placeholder.value.items))
    {
      // The endpoint's query and body never fail, so neither does building
      // the request (`P.BuildRequestErrors`).
      var req := NewRequest(P.QueryProspectsEndpoint(args), map[]);
      ghost var current := if args.placeholder.Some? then args.placeholder.value.items else [];
      var body := Call(req.value);
      ghost var st := State();
      P.QueryProspectsCalls(Config(), args, old(State()), current);
      out := Deliver(args, body, st);
    }

    /** The end of `QueryProspects`: the outcome of the call, wrapped, or the
        page handed to the endpoint's reader. */
    static method Deliver<X>(args: QP.QueryProspects<X>, body: Outcome<Payload>, ghost st: Http.State) returns (out: Outcome<()>)
      modifies args.Targets()
      ensures var r := P.AfterQueryCall(Step(body, st),
                                        args, if args.placeholder.Some? then old(args.placeholder.value.items) else []);
        && Step(out, st) == r.0
        && (args.marshaler.Some? ==> args.marshaler.value.received == old(args.marshaler.value.received) + r.1.fed)
        && (args.placeholder.Some? ==>
              args.placeholder.value.items == if r.1.items.Some? then r.1.items.value else old(args.placeholder.value.items))
    {
      match body
      case Failed(e) =>
        out := Failed(Wrapped("requesting", e));
      case Panicked(why) =>
        out := Panicked(why);
      case Done(page) =>
        var err := args.ReadQueryProspects(page);
        out := if err.Some? then Failed(err.value) else Done(());
    }

    method DeleteProspect(args: DP.DeleteProspect) returns (out: Outcome<()>)
      modifies this, transport
      ensures Step(out, State()) == P.DeleteProspect(Config(), args, old(State()))
    {
      // The endpoint's query and body never fail, so neither does building
      // the request (`P.BuildRequestErrors`).
      var req := NewRequest(P.DeleteProspectEndpoint(args), map[]);
      var body := Call(req.value);
      match body
      case Failed(e) =>
        out := Failed(Wrapped("requesting", e));
      case Panicked(why) =>
        out := Panicked(why);
      case Done(_) =>
        out := Done(());
    }
  }
}
