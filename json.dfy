/** JSON documents and the way Go's `encoding/json` decodes them into the
    struct shapes the core declares.

    A document is a tree whose objects keep their members in text order and
    may repeat a name. `json.Unmarshal` into a struct visits the members in
    order and decodes each one into the field of that name, on top of what the
    field already holds; a value of the wrong JSON type is skipped and makes
    the call return an error once it has decoded everything else. Because each
    field depends only on the members of its own name, a field is decoded here
    by folding over the occurrences of that name (`Field`), and a nested struct
    is represented by the members decoded into it so far (`IntoStruct`). */
module Json {
  import opened Common
  import opened Text

  datatype Json =
    | Null
    | Bool(b: bool)
    | Number(n: int)             // an integer literal
    | Str(s: string)
    | Array(items: seq<Json>)
    | Object(members: seq<Member>)

  datatype Member = Member(name: string, value: Json)

  /** The bytes of a response body with what they parse to; `doc` is None when
      the bytes are not valid JSON (an empty body included). */
  datatype Payload = Payload(text: string, doc: Option<Json>)

  /** The values of the members called `name`, in text order. */
  function Occurrences(ms: seq<Member>, name: string): (r: seq<Json>)
    ensures |r| <= |ms|
    ensures |r| == 0 <==> forall i :: 0 <= i < |ms| ==> ms[i].name != name
  {
    if |ms| == 0 then []
    else (if ms[0].name == name then [ms[0].value] else []) + Occurrences(ms[1..], name)
  }

  /** Decoding the values `occurrences` one after the other into a destination
      that holds `cur`; the flag is false when one of them had the wrong type. */
  function Fold<T>(cur: T, occurrences: seq<Json>, into: (T, Json) -> (T, bool)): (T, bool)
    decreases |occurrences|
  {
    if |occurrences| == 0 then (cur, true)
    else
      var first := into(cur, occurrences[0]);
      var rest := Fold(first.0, occurrences[1..], into);
      (rest.0, first.1 && rest.1)
  }

  /** The struct field tagged `name`, starting from its zero value. */
  function Field<T>(zero: T, ms: seq<Member>, name: string, into: (T, Json) -> (T, bool)): (T, bool)
  {
    Fold(zero, Occurrences(ms, name), into)
  }

  /** A `string` destination: null leaves it as it is. */
  function IntoString(cur: string, v: Json): (string, bool) {
    match v
    case Str(s) => (s, true)
    case Null => (cur, true)
    case _ => (cur, false)
  }

  /** An `int` destination: only an integer that fits in 64 bits is taken. */
  function IntoInt(cur: GoInt, v: Json): (GoInt, bool) {
    match v
    case Number(n) => if MinInt <= n <= MaxInt then (n, true) else (cur, false)
    case Null => (cur, true)
    case _ => (cur, false)
  }

  /** A `*string` destination: null resets the pointer; a value of the wrong
      type still leaves it pointing at a (zero) string. */
  function IntoStringPtr(cur: Option<string>, v: Json): (Option<string>, bool) {
    match v
    case Str(s) => (Some(s), true)
    case Null => (None, true)
    case _ => (Some(cur.GetOr("")), false)
  }

  /** A `json.RawMessage` destination keeps the value as it is, null included. */
  function IntoRaw(cur: Option<Json>, v: Json): (Option<Json>, bool) {
    (Some(v), true)
  }

  /** A struct destination, represented by the members decoded into it. */
  function IntoStruct(cur: seq<Member>, v: Json): (seq<Member>, bool) {
    match v
    case Object(ms) => (cur + ms, true)
    case Null => (cur, true)
    case _ => (cur, false)
  }

  /** A pointer-to-struct destination. */
  function IntoStructPtr(cur: Option<seq<Member>>, v: Json): (Option<seq<Member>>, bool) {
    match v
    case Object(ms) => (Some(cur.GetOr([]) + ms), true)
    case Null => (None, true)
    case _ => (Some(cur.GetOr([])), false)
  }

  /** The entries of an object decoded into a `map[int]string`: each name is
      read with `strconv.ParseInt` and skipped when it is not a number; each
      value is decoded into a fresh string. */
  function Entries(m: map<GoInt, string>, ms: seq<Member>): (map<GoInt, string>, bool)
    decreases |ms|
  {
    if |ms| == 0 then (m, true)
    else
      var key := ParseInt(ms[0].name);
      var value := IntoString("", ms[0].value);
      var rest := Entries(if key.Some? then m[key.value := value.0] else m, ms[1..]);
      (rest.0, key.Some? && value.1 && rest.1)
  }

  /** A `*map[int]string` destination. */
  function IntoIntMap(cur: Option<map<GoInt, string>>, v: Json): (Option<map<GoInt, string>>, bool) {
    match v
    case Object(ms) => var e := Entries(cur.GetOr(map[]), ms); (Some(e.0), e.1)
    case Null => (None, true)
    case _ => (Some(cur.GetOr(map[])), false)
  }

  /** How one element type is decoded: its zero value and its destination. */
  datatype Codec<!P> = Codec(zero: P, into: (P, Json) -> (P, bool))

  /** A `*[]P` destination: an array replaces the contents with its decoded
      elements, null empties it, anything else leaves it as it is. */
  function IntoSlice<P>(cur: seq<P>, v: Json, c: Codec<P>): (r: (seq<P>, bool))
  {
    match v
    case Array(items) =>
      (seq(|items|, i requires 0 <= i < |items| => c.into(c.zero, items[i]).0),
       forall i | 0 <= i < |items| :: c.into(c.zero, items[i]).1)
    case Null => ([], true)
    case _ => (cur, false)
  }

  /** The decoded error envelope of every Pardot response:
      `{err *string; @attributes *{err_code int}}`. */
  datatype Envelope = Envelope(err: Option<string>, errCode: Option<GoInt>)

  function DecodeEnvelope(doc: Json): (Envelope, bool) {
    var top := IntoStruct([], doc);
    var err := Field(None, top.0, "err", IntoStringPtr);
    var attributes := Field(None, top.0, "@attributes", IntoStructPtr);
    var code := if attributes.0.Some? then Field(0, attributes.0.value, "err_code", IntoInt) else (0, true);
    (Envelope(err.0, if attributes.0.Some? then Some(code.0) else None),
     top.1 && err.1 && attributes.1 && code.1)
  }

  /** The one string field tagged `name` of a struct decoded from `doc`, when
      the caller discards the error of `json.Unmarshal`: "" when the bytes are
      not JSON, when the key is absent, or when its value is not a string. */
  function StringMember(doc: Option<Json>, name: string): string {
    if doc.None? then "" else Field("", IntoStruct([], doc.value).0, name, IntoString).0
  }

  /** The destination `*[]T` of a `json.Unmarshal` call. */
  class Slice<P> {
    var items: seq<P>

    constructor (items: seq<P>)
      ensures this.items == items
    {
      this.items := items;
    }
  }

  /** A callback `func(json.RawMessage)`: the model records what it is given. */
  class Marshaler {
    var received: seq<Json>

    constructor ()
      ensures received == []
    {
      received := [];
    }

    method Accept(raw: Json)
      modifies this
      ensures received == old(received) + [raw]
    {
      received := received + [raw];
    }
  }

  /** A key that is absent decodes to its zero value, without error. */
  lemma FieldAbsent<T>(zero: T, ms: seq<Member>, name: string, into: (T, Json) -> (T, bool))
    requires forall i :: 0 <= i < |ms| ==> ms[i].name != name
    ensures Field(zero, ms, name, into) == (zero, true)
  {
  }

  /** A name that occurs once contributes exactly that one value. */
  lemma {:induction false} OccursOnce(ms: seq<Member>, name: string, j: nat)
    requires j < |ms| && ms[j].name == name
    requires forall i :: 0 <= i < |ms| && i != j ==> ms[i].name != name
    ensures Occurrences(ms, name) == [ms[j].value]
  {
    if j == 0 {
      assert forall i :: 0 <= i < |ms[1..]| ==> ms[1..][i].name != name by {
        forall i | 0 <= i < |ms[1..]| ensures ms[1..][i].name != name {
          assert ms[1..][i] == ms[i + 1];
        }
      }
    } else {
      OccursOnce(ms[1..], name, j - 1);
    }
  }

  /** A single occurrence is decoded on its own. */
  lemma FoldOne<T>(cur: T, v: Json, into: (T, Json) -> (T, bool))
    ensures Fold(cur, [v], into) == into(cur, v)
  {
    assert [v][1..] == [];
  }

  /** A `json.RawMessage` field holds the last value of its name. */
  lemma {:induction false} RawIsLast(cur: Option<Json>, occurrences: seq<Json>)
    ensures Fold(cur, occurrences, IntoRaw)
         == (if |occurrences| == 0 then cur else Some(occurrences[|occurrences| - 1]), true)
    decreases |occurrences|
  {
    if |occurrences| > 0 {
      RawIsLast(Some(occurrences[0]), occurrences[1..]);
    }
  }

  /** The envelope Pardot sends with an error, `{"err": msg, "@attributes":
      {"err_code": code}}`, decodes to that message and code. */
  lemma ErrorEnvelope(msg: string, code: GoInt)
    ensures DecodeEnvelope(Object([Member("err", Str(msg)),
                                   Member("@attributes", Object([Member("err_code", Number(code))]))]))
         == (Envelope(Some(msg), Some(code)), true)
  {
    var attributes := [Member("err_code", Number(code))];
    var ms := [Member("err", Str(msg)), Member("@attributes", Object(attributes))];
    assert IntoStruct([], Object(ms)) == (ms, true) by {
      assert [] + ms == ms;
    }
    OccursOnce(ms, "err", 0);
    FoldOne(None, Str(msg), IntoStringPtr);
    OccursOnce(ms, "@attributes", 1);
    FoldOne(None, Object(attributes), IntoStructPtr);
    assert Field(None, ms, "@attributes", IntoStructPtr) == (Some(attributes), true) by {
      assert [] + attributes == attributes;
    }
    OccursOnce(attributes, "err_code", 0);
    FoldOne(0, Number(code), IntoInt);
  }

  /** The reply Pardot sends with an error: message and code. */
  function ErrorPayload(msg: string, code: GoInt): Payload {
    Payload("{\"err\":\"" + msg + "\",\"@attributes\":{\"err_code\":" + Decimal(code) + "}}",
            Some(Object([Member("err", Str(msg)), Member("@attributes", Object([Member("err_code", Number(code))]))])))
  }

  /** A reply whose envelope decodes without error to the message `err` and
      the code `code` (None: no `@attributes`), whatever other members it has
      and in whatever order. */
  predicate Signals(p: Payload, err: Option<string>, code: Option<GoInt>) {
    p.doc.Some? && DecodeEnvelope(p.doc.value) == (Envelope(err, code), true)
  }

  /** `ErrorPayload` signals its message and code. */
  lemma ErrorPayloadSignals(msg: string, code: GoInt)
    ensures Signals(ErrorPayload(msg, code), Some(msg), Some(code))
  {
    ErrorEnvelope(msg, code);
  }

  /** `{"err": msg}` signals the message and no attributes. */
  lemma ErrOnlyEnvelope(msg: string)
    ensures DecodeEnvelope(Object([Member("err", Str(msg))])) == (Envelope(Some(msg), None), true)
  {
    var ms := [Member("err", Str(msg))];
    assert IntoStruct([], Object(ms)) == (ms, true) by {
      assert [] + ms == ms;
    }
    OccursOnce(ms, "err", 0);
    FoldOne(None, Str(msg), IntoStringPtr);
    FieldAbsent(None, ms, "@attributes", IntoStructPtr);
  }

  /** The shape Pardot itself sends, `{"@attributes": {"stat": "fail",
      "version": 1, "err_code": code}, "err": msg}`: the attributes first and
      with more members, decoding to the same message and code. */
  lemma AttributesFirst(msg: string, code: GoInt)
    ensures DecodeEnvelope(Object([Member("@attributes", Object(PardotAttributes(code))), Member("err", Str(msg))]))
         == (Envelope(Some(msg), Some(code)), true)
  {
    var ms := [Member("@attributes", Object(PardotAttributes(code))), Member("err", Str(msg))];
    assert IntoStruct([], Object(ms)) == (ms, true) by {
      assert [] + ms == ms;
    }
    OccursOnce(ms, "err", 1);
    FoldOne(None, Str(msg), IntoStringPtr);
    OccursOnce(ms, "@attributes", 0);
    FoldOne(None, Object(PardotAttributes(code)), IntoStructPtr);
    assert Field(None, ms, "@attributes", IntoStructPtr) == (Some(PardotAttributes(code)), true) by {
      assert [] + PardotAttributes(code) == PardotAttributes(code);
    }
    AttributesCode(code);
  }

  /** The `@attributes` of a Pardot error reply. */
  function PardotAttributes(code: GoInt): seq<Member> {
    [Member("stat", Str("fail")), Member("version", Number(1)), Member("err_code", Number(code))]
  }

  lemma AttributesCode(code: GoInt)
    ensures Field(0, PardotAttributes(code), "err_code", IntoInt) == (code, true)
  {
    OccursOnce(PardotAttributes(code), "err_code", 2);
    FoldOne(0, Number(code), IntoInt);
  }

  /** A reply without error envelope. */
  ghost predicate Clean(p: Payload) {
    p.doc.Some? && DecodeEnvelope(p.doc.value).1 && DecodeEnvelope(p.doc.value).0.err.None?
  }

  /** A document without an `err` member has an envelope without error. */
  lemma NoErrMember(doc: Json)
    requires doc.Object? ==> forall i :: 0 <= i < |doc.members| ==> doc.members[i].name != "err"
    ensures DecodeEnvelope(doc).0.err == None
  {
  }
}
