/** What the two batch endpoints share (batch_create_prospect.go and
    batch_update_prospect.go): the `errors` object Pardot returns for the
    prospects of a batch it could not process, keyed by the prospect's index
    in the request, and the text of the error value made from it. */
module BatchErrors {
  import opened Common
  import opened Text
  import opened Json

  /** The `errors` member of a response decoded into a `*map[int]string`,
      with the decoding error discarded: None when the bytes are not JSON,
      when the key is absent, or when its value is null. */
  function ErrorsOf(res: Payload): (r: Option<map<GoInt, string>>)
    ensures res.doc.None? ==> r.None?
  {
    if res.doc.None? then None
    else Field(None, IntoStruct([], res.doc.value).0, "errors", IntoIntMap).0
  }

  /** The loop that copies the decoded map into the error value. */
  method CopyErrors(m: map<GoInt, string>) returns (r: map<GoInt, string>)
    ensures r == m
  {
    r := map[];
    var rest := m.Keys;
    while rest != {}
      invariant rest <= m.Keys
      invariant forall k :: k in r <==> k in m && k !in rest
      invariant forall k :: k in r ==> r[k] == m[k]
      decreases |rest|
    {
      var k :| k in rest;
      r := r[k := m[k]];
      rest := rest - {k};
    }
    assert r.Keys == m.Keys;
  }

  /** The messages of `errors` in the order `order` visits its keys. */
  function MessagesIn(errors: map<GoInt, string>, order: seq<GoInt>): (r: seq<string>)
    requires forall i :: 0 <= i < |order| ==> order[i] in errors
    ensures |r| == |order|
  {
    seq(|order|, i requires 0 <= i < |order| => errors[order[i]])
  }

  /** `order` visits every key of `errors` exactly once, as a `range` over
      the map does, in an order the language leaves open. */
  ghost predicate Enumerates(order: seq<GoInt>, errors: map<GoInt, string>) {
    multiset(order) == multiset(errors.Keys)
  }

  lemma EnumeratedKeys(order: seq<GoInt>, errors: map<GoInt, string>)
    requires Enumerates(order, errors)
    ensures forall i :: 0 <= i < |order| ==> order[i] in errors
    ensures |order| == |errors|
  {
    forall i | 0 <= i < |order|
      ensures order[i] in errors
    {
      assert order[i] in multiset(order);
    }
    assert |multiset(order)| == |order|;
    MultisetOfSetSize(errors.Keys);
  }

  lemma {:induction false} MultisetOfSetSize<T>(s: set<T>)
    ensures |multiset(s)| == |s|
    decreases |s|
  {
    if s != {} {
      var x :| x in s;
      MultisetOfSetSize(s - {x});
      assert multiset(s) == multiset(s - {x}) + multiset{x};
    }
  }

  /** `Error()`: every message, joined by ", ", in the order of a walk over
      the map that the model leaves open, as Go does. */
  method ErrorText(errors: map<GoInt, string>) returns (text: string, ghost order: seq<GoInt>)
    ensures Enumerates(order, errors)
    ensures forall i :: 0 <= i < |order| ==> order[i] in errors
    ensures text == Join(MessagesIn(errors, order), ", ")
  {
    var concat: seq<string> := [];
    order := [];
    var rest := errors.Keys;
    while rest != {}
      invariant rest <= errors.Keys
      invariant multiset(order) + multiset(rest) == multiset(errors.Keys)
      invariant forall i :: 0 <= i < |order| ==> order[i] in errors
      invariant concat == MessagesIn(errors, order)
      decreases |rest|
    {
      var k :| k in rest;
      assert multiset(rest) == multiset(rest - {k}) + multiset{k};
      concat := concat + [errors[k]];
      order := order + [k];
      rest := rest - {k};
    }
    text := Join(concat, ", ");
  }

  /** The text is empty only when there are no messages or all of them are
      empty: a second message always brings a separator. */
  lemma {:induction false} JoinedIsEmpty(xs: seq<string>, sep: string)
    requires |sep| > 0
    ensures Join(xs, sep) == "" <==> |xs| == 0 || (|xs| == 1 && xs[0] == "")
  {
    if |xs| > 1 {
      assert |Join(xs, sep)| >= |sep|;
    }
  }

  /** A map with one message gives that message, whatever the walk. */
  lemma OneMessage(order: seq<GoInt>, k: GoInt, msg: string)
    requires Enumerates(order, map[k := msg])
    ensures forall i :: 0 <= i < |order| ==> order[i] in map[k := msg]
    ensures Join(MessagesIn(map[k := msg], order), ", ") == msg
  {
    EnumeratedKeys(order, map[k := msg]);
  }

  /** The text of a non-empty map is empty only when it holds the one empty
      message. */
  lemma ErrorTextEmpty(order: seq<GoInt>, errors: map<GoInt, string>)
    requires Enumerates(order, errors)
    ensures forall i :: 0 <= i < |order| ==> order[i] in errors
    ensures Join(MessagesIn(errors, order), ", ") == "" <==>
      |errors| == 0 || (|errors| == 1 && errors[order[0]] == "")
  {
    EnumeratedKeys(order, errors);
    JoinedIsEmpty(MessagesIn(errors, order), ", ");
  }

  /** With two messages under different keys, the text is the one followed by
      the other, in either order. */
  lemma TwoMessages(order: seq<GoInt>, k1: GoInt, m1: string, k2: GoInt, m2: string)
    requires k1 != k2
    requires Enumerates(order, map[k1 := m1, k2 := m2])
    ensures forall i :: 0 <= i < |order| ==> order[i] in map[k1 := m1, k2 := m2]
    ensures Join(MessagesIn(map[k1 := m1, k2 := m2], order), ", ") in {m1 + ", " + m2, m2 + ", " + m1}
  {
    var errors := map[k1 := m1, k2 := m2];
    EnumeratedKeys(order, errors);
    assert errors.Keys == {k1, k2};
    assert |order| == 2;
    assert k1 in multiset(order) && k2 in multiset(order);
    assert k1 in order && k2 in order;
    assert order == [order[0], order[1]];
    assert MessagesIn(errors, order) == [errors[order[0]], errors[order[1]]];
  }

  /** The `errors` object of a batch response. */
  function ErrorsDoc(entries: seq<Member>): Json {
    Object([Member("errors", Object(entries))])
  }

  /** An `errors` object is decoded entry by entry. */
  lemma ErrorsOfDoc(text: string, entries: seq<Member>)
    ensures ErrorsOf(Payload(text, Some(ErrorsDoc(entries)))) == Some(Entries(map[], entries).0)
  {
    var top := [Member("errors", Object(entries))];
    assert IntoStruct([], Object(top)) == (top, true) by {
      assert [] + top == top;
    }
    OccursOnce(top, "errors", 0);
    FoldOne(None, Object(entries), IntoIntMap);
  }

  /** The response of the tests, `{"errors": {"0": "Invalid prospect email
      address", "1": "Invalid prospect"}}`, decodes to the two messages under
      indices 0 and 1. */
  lemma TwoErrorsDecoded(text: string)
    ensures ErrorsOf(Payload(text, Some(ErrorsDoc([Member("0", Str("Invalid prospect email address")),
                                                  Member("1", Str("Invalid prospect"))]))))
         == Some(map[0 := "Invalid prospect email address", 1 := "Invalid prospect"])
  {
    var entries := [Member("0", Str("Invalid prospect email address")), Member("1", Str("Invalid prospect"))];
    ErrorsOfDoc(text, entries);
    DecimalRoundTrip(0);
    DecimalRoundTrip(1);
    assert Decimal(0) == "0" && Decimal(1) == "1";
    assert entries[1..][1..] == [];
  }

  /** An `errors` member whose value is null leaves the pointer nil. */
  lemma NullErrors(text: string)
    ensures ErrorsOf(Payload(text, Some(Object([Member("errors", Null)])))) == None
  {
    var top := [Member("errors", Null)];
    assert IntoStruct([], Object(top)) == (top, true) by {
      assert [] + top == top;
    }
    OccursOnce(top, "errors", 0);
    FoldOne(None, Null, IntoIntMap);
  }

  /** A response without an `errors` member has no errors map. */
  lemma AbsentErrors(res: Payload)
    requires res.doc.Some? && res.doc.value.Object?
    requires forall i :: 0 <= i < |res.doc.value.members| ==> res.doc.value.members[i].name != "errors"
    ensures ErrorsOf(res) == None
  {
    assert IntoStruct([], res.doc.value).0 == res.doc.value.members by {
      assert [] + res.doc.value.members == res.doc.value.members;
    }
    FieldAbsent(None, res.doc.value.members, "errors", IntoIntMap);
  }
}
