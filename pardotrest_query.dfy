/** The prospect query of the older REST client (pardotrest/query.go). Unlike
    the current one it sends no pairs at all, and it has no end-of-data case:
    whatever `result.prospect` holds goes to the decoder. */
module PardotRestQuery {
  import opened Common
  import opened Json
  import QP = QueryProspectsEndpoint

  datatype QueryProspects<!P> = QueryProspects(
    offset: GoInt,
    limit: GoInt,
    fields: seq<string>,
    placeholder: Option<Slice<P>>,
    codec: Codec<P>)
  {
    function Method(): string {
      "GET"
    }

    function Path(): string {
      "prospect/" + Version + "/do/query"
    }

    /** `query` answers with a nil map: offset, limit and fields are never
        sent. */
    function Query(): Result<map<string, string>> {
      Ok(map[])
    }

    /** `body` answers with no body. */
    function Body(): Result<Option<string>> {
      Ok(None)
    }

    function Targets(): set<object> {
      if placeholder.Some? then {placeholder.value as object} else {}
    }

    /** What `read` returns, and the new placeholder contents (None: not
        written), when the placeholder held `current`. */
    function Reading(res: Payload, current: seq<P>): (Option<Error>, Option<seq<P>>) {
      if res.doc.None? then (Some(Wrapped("unmarshaling bytes", JsonSyntax)), None)
      else
        var page := QP.PagePayload(res.doc.value);
        if !page.1 then (Some(Wrapped("unmarshaling bytes", JsonType)), None)
        // `json.Unmarshal` of an absent (empty) RawMessage: no JSON at all.
        else if page.0.None? then (Some(Wrapped("unmarshaling prospects", JsonSyntax)), None)
        else if placeholder.None? then (Some(Wrapped("unmarshaling prospects", JsonTarget)), None)
        else
          var decoded := IntoSlice(current, page.0.value, codec);
          (if decoded.1 then None else Some(Wrapped("unmarshaling prospects", JsonType)), Some(decoded.0))
    }

    method Read(res: Payload) returns (err: Option<Error>)
      modifies Targets()
      ensures var r := Reading(res, if placeholder.Some? then old(placeholder.value.items) else []);
        && err == r.0
        && (placeholder.Some? ==> placeholder.value.items == if r.1.Some? then r.1.value else old(placeholder.value.items))
    {
      if res.doc.None? {
        return Some(Wrapped("unmarshaling bytes", JsonSyntax));
      }
      var page := QP.PagePayload(res.doc.value);
      if !page.1 {
        return Some(Wrapped("unmarshaling bytes", JsonType));
      }
      if page.0.None? {
        return Some(Wrapped("unmarshaling prospects", JsonSyntax));
      }
      if placeholder.None? {
        return Some(Wrapped("unmarshaling prospects", JsonTarget));
      }
      var decoded := IntoSlice(placeholder.value.items, page.0.value, codec);
      placeholder.value.items := decoded.0;
      err := if decoded.1 then None else Some(Wrapped("unmarshaling prospects", JsonType));
    }
  }

  /** Bytes that are not JSON are an error wrapped as "unmarshaling bytes",
      and nothing is written. */
  lemma InvalidIsWrapped<P>(q: QueryProspects<P>, text: string, current: seq<P>)
    ensures q.Reading(Payload(text, None), current) == (Some(Wrapped("unmarshaling bytes", JsonSyntax)), None)
  {
  }

  /** A page without prospects is not a distinct outcome here: the missing
      payload reaches the decoder, which fails on empty input, so the read
      reports a wrapped error rather than an end of data. */
  lemma AbsentProspectIsDecodeError<P>(q: QueryProspects<P>, res: Payload, current: seq<P>, top: seq<Member>)
    requires res.doc == Some(Object(top))
    requires QP.NoProspectIn(Occurrences(top, "result"))
    ensures q.Reading(res, current) == (Some(Wrapped("unmarshaling prospects", JsonSyntax)), None)
  {
    assert IntoStruct([], Object(top)) == (top, true) by {
      assert [] + top == top;
    }
    QP.MergedResultsLackProspect([], Occurrences(top, "result"));
  }

  /** A page `{"result": {"prospect": [...]}}` is handed to the decoder in
      full: the placeholder ends up holding one decoded value per element. */
  lemma PayloadIsDecoded<P>(q: QueryProspects<P>, text: string, current: seq<P>, items: seq<Json>)
    requires q.placeholder.Some?
    requires forall i :: 0 <= i < |items| ==> q.codec.into(q.codec.zero, items[i]).1
    ensures var r := q.Reading(Payload(text, Some(Object([Member("result",
                          Object([Member("prospect", Array(items))]))]))), current);
      && r.0 == None
      && r.1.Some? && |r.1.value| == |items|
      && forall i :: 0 <= i < |items| ==> r.1.value[i] == q.codec.into(q.codec.zero, items[i]).0
  {
    var fields := [Member("prospect", Array(items))];
    var top := [Member("result", Object(fields))];
    assert IntoStruct([], Object(top)) == (top, true) by {
      assert [] + top == top;
    }
    OccursOnce(top, "result", 0);
    FoldOne([], Object(fields), IntoStruct);
    assert [] + fields == fields;
    OccursOnce(fields, "prospect", 0);
    FoldOne(None, Array(items), IntoRaw);
    assert QP.PagePayload(Object(top)) == (Some(Array(items)), true);
  }
}
