/** The endpoint that queries one page of prospects (query_prospects.go). */
module QueryProspectsEndpoint {
  import opened Common
  import opened Text
  import opened Json

  /** `QueryProspects`: the page asked for, and where the page goes: to the
      `Marshaler` callback when there is one, otherwise decoded into the
      `PlaceHolder` slice, whose element type is described by `codec`. */
  datatype QueryProspects<!P> = QueryProspects(
    offset: GoInt,
    limit: GoInt,
    fields: seq<string>,
    placeholder: Option<Slice<P>>,
    codec: Codec<P>,
    marshaler: Option<Marshaler>)
  {
    function Method(): string {
      "GET"
    }

    function Path(): string {
      "prospect/" + Version + "/do/query"
    }

    function Query(): map<string, string> {
      map["offset" := Decimal(offset), "limit" := Decimal(limit), "fields" := Join(fields, ",")]
    }

    /** The objects a read may write to. */
    function Targets(): set<object> {
      (if placeholder.Some? then {placeholder.value as object} else {})
      + (if marshaler.Some? then {marshaler.value as object} else {})
    }

    /** What `readQueryProspects` does with a response when the placeholder
        holds `current`. */
    function Reading(res: Payload, current: seq<P>): ReadResult<P> {
      if res.doc.None? then ReadResult(Some(Wrapped("got invalid JSON from Pardot", JsonSyntax)), [], None)
      else
        var page := PagePayload(res.doc.value);
        if !page.1 then ReadResult(Some(Wrapped("got invalid JSON from Pardot", JsonType)), [], None)
        else if page.0.None? then ReadResult(Some(QueryProspectsEof), [], None)
        else if marshaler.Some? then ReadResult(None, [page.0.value], None)
        else if placeholder.None? then ReadResult(Some(Wrapped("unmarshaling prospects", JsonTarget)), [], None)
        else
          var decoded := IntoSlice(current, page.0.value, codec);
          ReadResult(if decoded.1 then None else Some(Wrapped("unmarshaling prospects", JsonType)), [], Some(decoded.0))
    }

    /** `readQueryProspects`: returns the error and performs the effects
        `Reading` describes. */
    method ReadQueryProspects(res: Payload) returns (err: Option<Error>)
      modifies Targets()
      ensures var r := Reading(res, if placeholder.Some? then old(placeholder.value.items) else []);
        && err == r.error
        && (marshaler.Some? ==> marshaler.value.received == old(marshaler.value.received) + r.fed)
        && (marshaler.None? ==> r.fed == [])
        && (placeholder.Some? ==>
              placeholder.value.items == if r.items.Some? then r.items.value else old(placeholder.value.items))
    {
      if res.doc.None? {
        return Some(Wrapped("got invalid JSON from Pardot", JsonSyntax));
      }
      var page := PagePayload(res.doc.value);
      if !page.1 {
        return Some(Wrapped("got invalid JSON from Pardot", JsonType));
      }
      if page.0.None? {
        return Some(QueryProspectsEof);
      }
      if marshaler.Some? {
        marshaler.value.Accept(page.0.value);
        return None;
      }
      if placeholder.None? {
        return Some(Wrapped("unmarshaling prospects", JsonTarget));
      }
      var decoded := IntoSlice(placeholder.value.items, page.0.value, codec);
      placeholder.value.items := decoded.0;
      err := if decoded.1 then None else Some(Wrapped("unmarshaling prospects", JsonType));
    }
  }

  /** The effects of a read: the error returned, the payloads handed to the
      `Marshaler`, and the new placeholder contents (None: not written). */
  datatype ReadResult<P> = ReadResult(error: Option<Error>, fed: seq<Json>, items: Option<seq<P>>)

  /** `result.prospect` of a page, as `json.RawMessage` (None when the key is
      absent), with the flag of `json.Unmarshal`. */
  function PagePayload(doc: Json): (Option<Json>, bool) {
    var top := IntoStruct([], doc);
    var result := Field([], top.0, "result", IntoStruct);
    var prospect := Field(None, result.0, "prospect", IntoRaw);
    (prospect.0, top.1 && result.1 && prospect.1)
  }

  /** Every `result` value is an object without a `prospect` member. */
  ghost predicate NoProspectIn(results: seq<Json>) {
    forall i :: 0 <= i < |results| ==>
      results[i].Object? && forall j :: 0 <= j < |results[i].members| ==> results[i].members[j].name != "prospect"
  }

  lemma {:induction false} MergedResultsLackProspect(cur: seq<Member>, results: seq<Json>)
    requires forall j :: 0 <= j < |cur| ==> cur[j].name != "prospect"
    requires NoProspectIn(results)
    ensures Fold(cur, results, IntoStruct).1
    ensures forall j :: 0 <= j < |Fold(cur, results, IntoStruct).0| ==> Fold(cur, results, IntoStruct).0[j].name != "prospect"
    decreases |results|
  {
    if |results| > 0 {
      var next := cur + results[0].members;
      assert IntoStruct(cur, results[0]) == (next, true);
      assert NoProspectIn(results[1..]) by {
        forall i | 0 <= i < |results[1..]| ensures results[1..][i] == results[i + 1] { }
      }
      MergedResultsLackProspect(next, results[1..]);
    }
  }

  /** The end-of-data rule: a page whose `result` objects carry no `prospect`
      key (or that has no `result` at all) is `QueryProspectsEOF`, and nothing
      is handed on or written. */
  lemma AbsentProspectIsEof<P>(q: QueryProspects<P>, res: Payload, current: seq<P>, top: seq<Member>)
    requires res.doc == Some(Object(top))
    requires NoProspectIn(Occurrences(top, "result"))
    ensures q.Reading(res, current) == ReadResult(Some(QueryProspectsEof), [], None)
  {
    assert IntoStruct([], Object(top)) == (top, true) by {
      assert [] + top == top;
    }
    MergedResultsLackProspect([], Occurrences(top, "result"));
  }

  /** A page that is not JSON is an error, and not the end of data. */
  lemma InvalidJsonIsNotEof<P>(q: QueryProspects<P>, text: string, current: seq<P>)
    ensures var r := q.Reading(Payload(text, None), current);
      r.error.Some? && r.error.value.Wrapped? && r.error.value.cause == JsonSyntax && r.fed == [] && r.items.None?
  {
  }

  /** The page `{"result":{"total_results": 2, "prospect":[]}}`: an empty
      prospect array is not the end of data; it leaves zero prospects. */
  lemma EmptyArrayIsNotEof<P>(q: QueryProspects<P>, text: string, current: seq<P>)
    requires q.marshaler.None? && q.placeholder.Some?
    ensures var result := Object([Member("total_results", Number(2)), Member("prospect", Array([]))]);
      q.Reading(Payload(text, Some(Object([Member("result", result)]))), current)
        == ReadResult(None, [], Some([]))
  {
    var fields := [Member("total_results", Number(2)), Member("prospect", Array([]))];
    var top := [Member("result", Object(fields))];
    assert IntoStruct([], Object(top)) == (top, true) by {
      assert [] + top == top;
    }
    OccursOnce(top, "result", 0);
    FoldOne([], Object(fields), IntoStruct);
    assert [] + fields == fields;
    OccursOnce(fields, "prospect", 1);
    FoldOne(None, Array([]), IntoRaw);
    assert PagePayload(Object(top)) == (Some(Array([])), true);
    var decoded := IntoSlice(current, Array([]), q.codec);
    assert |decoded.0| == 0;
    assert decoded == ([], true);
  }

  /** With a `Marshaler`, a page that has prospects goes to it exactly once,
      as the raw payload, and the placeholder is not written. */
  lemma MarshalerGetsPayload<P>(q: QueryProspects<P>, res: Payload, current: seq<P>)
    requires q.marshaler.Some?
    requires res.doc.Some? && PagePayload(res.doc.value).1 && PagePayload(res.doc.value).0.Some?
    ensures q.Reading(res, current) == ReadResult(None, [PagePayload(res.doc.value).0.value], None)
  {
  }

  /** The query string names the page: offset and limit read back as the
      numbers, and the fields split back into the list (when there is at least
      one field and no field name contains a comma). */
  lemma QueryNamesPage<P>(q: QueryProspects<P>)
    ensures q.Query().Keys == {"offset", "limit", "fields"}
    ensures ParseInt(q.Query()["offset"]) == Some(q.offset)
    ensures ParseInt(q.Query()["limit"]) == Some(q.limit)
    ensures |q.fields| > 0 && (forall i :: 0 <= i < |q.fields| ==> ',' !in q.fields[i]) ==>
      Split(q.Query()["fields"], ',') == q.fields
  {
    DecimalRoundTrip(q.offset);
    DecimalRoundTrip(q.limit);
    if |q.fields| > 0 && (forall i :: 0 <= i < |q.fields| ==> ',' !in q.fields[i]) {
      SplitJoin(q.fields, ',');
    }
  }
}
