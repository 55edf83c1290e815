/** The endpoint that lists the prospects subscribed to a list
    (list_membership.go). Pardot answers a page of one membership with the
    object itself and a longer page with an array, so the reader looks at
    `total_results` to choose. */
module ListMembershipEndpoint {
  import opened Common
  import opened Text
  import opened Json

  /** A link between a prospect and a list. */
  datatype ListMembership = ListMembership(listId: GoInt, prospectId: GoInt)

  /** `json.Unmarshal` into a `ListMembership` holding `cur`. */
  function IntoMembership(cur: ListMembership, v: Json): (ListMembership, bool) {
    match v
    case Object(ms) =>
      var list := Fold(cur.listId, Occurrences(ms, "list_id"), IntoInt);
      var prospect := Fold(cur.prospectId, Occurrences(ms, "prospect_id"), IntoInt);
      (ListMembership(list.0, prospect.0), list.1 && prospect.1)
    case Null => (cur, true)
    case _ => (cur, false)
  }

  const Zero := ListMembership(0, 0)

  const MembershipCodec := Codec(Zero, IntoMembership)

  /** The `result` of a page: the total and the raw `list_membership` value
      (None when the key is absent or the bytes are not JSON). Decoding errors
      are discarded, as the reader does. */
  function Page(res: Payload): (r: (GoInt, Option<Json>))
    ensures res.doc.None? ==> r == (0, None)
  {
    if res.doc.None? then (0, None)
    else
      var result := Field([], IntoStruct([], res.doc.value).0, "result", IntoStruct).0;
      (Field(0, result, "total_results", IntoInt).0, Field(None, result, "list_membership", IntoRaw).0)
  }

  datatype ListMemberships = ListMemberships(listId: GoInt, offset: GoInt, limit: GoInt, placeholder: Slice<ListMembership>)
  {
    function Method(): string {
      "GET"
    }

    function Path(): string {
      "listMembership/" + Version + "/do/query"
    }

    function Query(): Result<map<string, string>> {
      Ok(map["offset" := Decimal(offset), "limit" := Decimal(limit), "list_id" := Decimal(listId)])
    }

    /** What `Read` returns and leaves in the placeholder, when it held
        `current`. */
    function Reading(res: Payload, current: seq<ListMembership>): (Option<Error>, seq<ListMembership>) {
      var page := Page(res);
      if page.1.None? then (None, current)
      else if page.0 == 1 then
        var one := IntoMembership(Zero, page.1.value);
        if one.1 then (None, current + [one.0])
        else (Some(Wrapped("unmarshaling single membership", JsonType)), current)
      else
        var all := IntoSlice(current, page.1.value, MembershipCodec);
        (if all.1 then None else Some(Wrapped("unmarshaling memberships", JsonType)), all.0)
    }

    method Read(res: Payload) returns (err: Option<Error>)
      modifies placeholder
      ensures (err, placeholder.items) == Reading(res, old(placeholder.items))
    {
      var page := Page(res);
      if page.1.None? {
        return None;
      }
      if page.0 == 1 {
        var one := IntoMembership(Zero, page.1.value);
        if !one.1 {
          return Some(Wrapped("unmarshaling single membership", JsonType));
        }
        placeholder.items := placeholder.items + [one.0];
      } else {
        var all := IntoSlice(placeholder.items, page.1.value, MembershipCodec);
        placeholder.items := all.0;
        if !all.1 {
          return Some(Wrapped("unmarshaling memberships", JsonType));
        }
      }
      err := None;
    }
  }

  /** The query names the page and the list: exactly offset, limit and
      list_id, each reading back as its number. */
  lemma QueryNamesPage(q: ListMemberships)
    ensures q.Query().Ok? && q.Query().value.Keys == {"offset", "limit", "list_id"}
    ensures ParseInt(q.Query().value["offset"]) == Some(q.offset)
    ensures ParseInt(q.Query().value["limit"]) == Some(q.limit)
    ensures ParseInt(q.Query().value["list_id"]) == Some(q.listId)
  {
    DecimalRoundTrip(q.offset);
    DecimalRoundTrip(q.limit);
    DecimalRoundTrip(q.listId);
  }

  /** The page `{"result": {"total_results": total, "list_membership": list}}`. */
  function PageDoc(total: Json, list: Json): Json {
    Object([Member("result", Object([Member("total_results", total), Member("list_membership", list)]))])
  }

  /** Such a page decodes to its total and its list. */
  lemma PageOfDoc(text: string, total: GoInt, list: Json)
    ensures Page(Payload(text, Some(PageDoc(Number(total), list)))) == (total, Some(list))
  {
    var fields := [Member("total_results", Number(total)), Member("list_membership", list)];
    var top := [Member("result", Object(fields))];
    assert IntoStruct([], Object(top)) == (top, true) by {
      assert [] + top == top;
    }
    OccursOnce(top, "result", 0);
    FoldOne([], Object(fields), IntoStruct);
    assert [] + fields == fields;
    OccursOnce(fields, "total_results", 0);
    FoldOne(0, Number(total), IntoInt);
    OccursOnce(fields, "list_membership", 1);
    FoldOne(None, list, IntoRaw);
  }

  /** A page without a `list_membership` key (an empty page), and bytes that
      are not JSON, return no error and leave the placeholder as it was. */
  lemma AbsentListLeavesPlaceholder(q: ListMemberships, res: Payload, current: seq<ListMembership>)
    requires res.doc.Some? ==>
      var result := Field([], IntoStruct([], res.doc.value).0, "result", IntoStruct).0;
      forall i :: 0 <= i < |result| ==> result[i].name != "list_membership"
    ensures q.Reading(res, current) == (None, current)
  {
    if res.doc.Some? {
      var result := Field([], IntoStruct([], res.doc.value).0, "result", IntoStruct).0;
      FieldAbsent(None, result, "list_membership", IntoRaw);
    }
  }

  /** The page `{"result":{"total_results": 2}}` is empty. */
  lemma EmptyPage(q: ListMemberships, text: string, current: seq<ListMembership>)
    ensures q.Reading(Payload(text, Some(Object([Member("result", Object([Member("total_results", Number(2))]))]))), current)
         == (None, current)
  {
    var fields := [Member("total_results", Number(2))];
    var top := [Member("result", Object(fields))];
    assert IntoStruct([], Object(top)) == (top, true) by {
      assert [] + top == top;
    }
    OccursOnce(top, "result", 0);
    FoldOne([], Object(fields), IntoStruct);
    assert [] + fields == fields;
    AbsentListLeavesPlaceholder(q, Payload(text, Some(Object(top))), current);
  }

  /** A membership object `{"list_id": l, "prospect_id": p}` decodes to
      `ListMembership(l, p)`. */
  lemma MembershipOf(l: GoInt, p: GoInt)
    ensures IntoMembership(Zero, Object([Member("list_id", Number(l)), Member("prospect_id", Number(p))]))
         == (ListMembership(l, p), true)
  {
    var ms := [Member("list_id", Number(l)), Member("prospect_id", Number(p))];
    OccursOnce(ms, "list_id", 0);
    FoldOne(0, Number(l), IntoInt);
    OccursOnce(ms, "prospect_id", 1);
    FoldOne(0, Number(p), IntoInt);
  }

  function MembershipDoc(l: GoInt, p: GoInt): Json {
    Object([Member("list_id", Number(l)), Member("prospect_id", Number(p))])
  }

  /** With a total of 1, the one membership is appended to what the
      placeholder already held; nothing else changes. */
  lemma SingleIsAppended(q: ListMemberships, text: string, current: seq<ListMembership>, l: GoInt, p: GoInt)
    ensures q.Reading(Payload(text, Some(PageDoc(Number(1), MembershipDoc(l, p)))), current)
         == (None, current + [ListMembership(l, p)])
  {
    PageOfDoc(text, 1, MembershipDoc(l, p));
    MembershipOf(l, p);
  }

  /** A single membership that does not decode is reported, wrapped, and
      nothing is appended. */
  lemma BadSingleIsWrapped(q: ListMemberships, text: string, current: seq<ListMembership>, bad: Json)
    requires !bad.Object? && !bad.Null?
    ensures q.Reading(Payload(text, Some(PageDoc(Number(1), bad))), current)
         == (Some(Wrapped("unmarshaling single membership", JsonType)), current)
  {
    PageOfDoc(text, 1, bad);
  }

  /** With any other total, an array of memberships replaces the contents of
      the placeholder, element by element. */
  lemma ListIsDecoded(q: ListMemberships, text: string, current: seq<ListMembership>, total: GoInt, items: seq<(GoInt, GoInt)>)
    requires total != 1
    ensures var r := q.Reading(Payload(text, Some(PageDoc(Number(total),
                        Array(seq(|items|, i requires 0 <= i < |items| => MembershipDoc(items[i].0, items[i].1)))))), current);
      && r.0 == None
      && |r.1| == |items|
      && forall i :: 0 <= i < |items| ==> r.1[i] == ListMembership(items[i].0, items[i].1)
  {
    var docs := seq(|items|, i requires 0 <= i < |items| => MembershipDoc(items[i].0, items[i].1));
    PageOfDoc(text, total, Array(docs));
    forall i | 0 <= i < |items|
      ensures IntoMembership(Zero, docs[i]) == (ListMembership(items[i].0, items[i].1), true)
    {
      MembershipOf(items[i].0, items[i].1);
    }
  }

  /** The two-membership page of the tests leaves exactly its two
      memberships, whatever the placeholder held. */
  lemma TwoMemberships(q: ListMemberships, text: string, current: seq<ListMembership>)
    ensures q.Reading(Payload(text, Some(PageDoc(Number(2),
              Array([MembershipDoc(24323, 7666184), MembershipDoc(24323, 8058232)])))), current)
         == (None, [ListMembership(24323, 7666184), ListMembership(24323, 8058232)])
  {
    var items := [(24323, 7666184), (24323, 8058232)];
    var docs := seq(|items|, i requires 0 <= i < |items| => MembershipDoc(items[i].0, items[i].1));
    assert docs == [MembershipDoc(24323, 7666184), MembershipDoc(24323, 8058232)];
    ListIsDecoded(q, text, current, 2, items);
    var r := q.Reading(Payload(text, Some(PageDoc(Number(2), Array(docs)))), current);
    assert r.1 == [ListMembership(24323, 7666184), ListMembership(24323, 8058232)] by {
      assert |r.1| == 2;
      assert r.1[0] == ListMembership(24323, 7666184);
      assert r.1[1] == ListMembership(24323, 8058232);
    }
  }

  /** A list whose elements do not decode is reported, wrapped; the elements
      that did not fit are left zero in this model. */
  lemma BadListIsWrapped(q: ListMemberships, text: string, current: seq<ListMembership>, total: GoInt)
    requires total != 1
    ensures q.Reading(Payload(text, Some(PageDoc(Number(total), Array([Str("x")])))), current)
         == (Some(Wrapped("unmarshaling memberships", JsonType)), [Zero])
  {
    PageOfDoc(text, total, Array([Str("x")]));
    var items := [Str("x")];
    assert MembershipCodec.into(MembershipCodec.zero, items[0]) == (Zero, false);
    var all := IntoSlice(current, Array(items), MembershipCodec);
    assert all.0 == [Zero] by {
      assert |all.0| == 1 && all.0[0] == Zero;
    }
  }

  /** An error in the page itself is ignored: a `total_results` that is not a
      number leaves the total 0, so the list is read as an array. */
  lemma PageErrorIgnored(q: ListMemberships, text: string, current: seq<ListMembership>, l: GoInt, p: GoInt)
    ensures q.Reading(Payload(text, Some(PageDoc(Str("one"), Array([MembershipDoc(l, p)])))), current)
         == (None, [ListMembership(l, p)])
  {
    var list := Array([MembershipDoc(l, p)]);
    var fields := [Member("total_results", Str("one")), Member("list_membership", list)];
    var top := [Member("result", Object(fields))];
    assert IntoStruct([], Object(top)) == (top, true) by {
      assert [] + top == top;
    }
    OccursOnce(top, "result", 0);
    FoldOne([], Object(fields), IntoStruct);
    assert [] + fields == fields;
    OccursOnce(fields, "total_results", 0);
    FoldOne(0, Str("one"), IntoInt);
    OccursOnce(fields, "list_membership", 1);
    FoldOne(None, list, IntoRaw);
    assert Page(Payload(text, Some(PageDoc(Str("one"), list)))) == (0, Some(list));
    MembershipOf(l, p);
    var all := IntoSlice(current, list, MembershipCodec);
    assert all.0 == [ListMembership(l, p)] by {
      assert |all.0| == 1 && all.0[0] == ListMembership(l, p);
    }
  }
}
