/** The parts of `net/http` and `net/url` the clients touch: header and
    query-value maps, requests, and a transport that answers from a script,
    as the tests' `roundTripFunc` does. */
module Http {
  import opened Common
  import opened Json

  /** `http.Header` and `url.Values`: each key holds a list of values. */
  type Header = map<string, seq<string>>

  /** `Header.Add` / `Values.Add`: append a value to the key's list. */
  function Add(h: Header, key: string, value: string): Header {
    h[key := (if key in h then h[key] else []) + [value]]
  }

  /** `Header.Set`: replace the key's list by the one value. */
  function Set(h: Header, key: string, value: string): Header {
    h[key := [value]]
  }

  datatype Url = Url(scheme: string, host: string, path: string, query: Header)

  datatype Request = Request(verb: string, url: Url, header: Header, body: Option<string>)

  /** What the transport gives back for one request: an error from
      `http.Client.Do`, or a status with the body, which is None when reading
      it fails. */
  datatype Response =
    | TransportError(reason: string)
    | Reply(status: int, body: Option<Payload>)

  /** The next scripted response and the rest of the script. Once the script
      is used up, every round trip fails, as when `roundTripFunc` returns nil. */
  function Next(script: seq<Response>): (Response, seq<Response>) {
    if |script| == 0 then (TransportError("no response"), []) else (script[0], script[1..])
  }

  const FormEncoded: string := "application/x-www-form-urlencoded"

  /** What a client call depends on and changes: the cached API key, the
      responses the transport has still to give, and the requests sent. */
  datatype State = State(apiKey: string, script: seq<Response>, sent: seq<Request>)

  datatype Step<T> = Step(out: Outcome<T>, state: State)

  /** One round trip: the request is recorded and the next response taken. */
  function Exchange(s: State, req: Request): (Response, State) {
    var n := Next(s.script);
    (n.0, s.(script := n.1, sent := s.sent + [req]))
  }

  /** Query values after adding every pair of `pairs` to `q`; each key of a
      Go map is visited once, so the order of the visits does not matter. */
  function WithPairs(q: Header, pairs: map<string, string>): Header {
    map k | k in q.Keys + pairs.Keys :: (if k in q then q[k] else []) + (if k in pairs then [pairs[k]] else [])
  }

  lemma WithNoPairs(q: Header)
    ensures WithPairs(q, map[]) == q
  {
    var w := WithPairs(q, map[]);
    assert w.Keys == q.Keys;
    forall k | k in q
      ensures w[k] == q[k]
    {
      assert w[k] == q[k] + [];
    }
  }

  /** A key added with `Add` to query values built by `WithPairs` extends them
      by one pair. */
  lemma AddPair(q: Header, pairs: map<string, string>, k: string, v: string)
    requires k !in pairs
    ensures Add(WithPairs(q, pairs), k, v) == WithPairs(q, pairs[k := v])
  {
    var l := Add(WithPairs(q, pairs), k, v);
    var r := WithPairs(q, pairs[k := v]);
    assert l.Keys == r.Keys;
    forall j | j in l.Keys
      ensures l[j] == r[j]
    {
    }
  }

  /** The `http.Client` both clients delegate to, answering from a script and
      recording every request it is given. */
  class Transport {
    var script: seq<Response>
    var sent: seq<Request>

    constructor (script: seq<Response>)
      ensures this.script == script && sent == []
    {
      this.script := script;
      sent := [];
    }

    method RoundTrip(req: Request) returns (res: Response)
      modifies this
      ensures (res, script) == Next(old(script))
      ensures sent == old(sent) + [req]
    {
      sent := sent + [req];
      if |script| == 0 {
        res := TransportError("no response");
      } else {
        res := script[0];
        script := script[1..];
      }
    }
  }
}
