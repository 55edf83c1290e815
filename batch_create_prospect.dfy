/** The endpoint that creates a batch of prospects (batch_create_prospect.go).
    The prospects are any value the caller's `json.Marshal` can encode; the
    model takes that encoder as a parameter. */
module BatchCreateProspectEndpoint {
  import opened Common
  import opened Json
  import opened BatchErrors

  datatype BatchCreateProspect<T> = BatchCreateProspect(prospects: T)
  {
    function Method(): string {
      "POST"
    }

    function Path(): string {
      "prospect/" + Version + "/do/batchCreate"
    }

    /** `Query`: the prospects wrapped as `{"prospects": ...}` and encoded,
        under the one key "prospects". Encoding the one-field wrapper writes
        the encoding of the prospects between the member name and the closing
        brace, so `marshal` is applied to the prospects themselves. */
    function Query(marshal: T -> Result<string>): Result<map<string, string>> {
      match marshal(prospects)
      case Err(e) => Err(e)
      case Ok(b) => Ok(map["prospects" := "{\"prospects\":" + b + "}"])
    }

    /** `Read` copies the decoded `errors` map into the error value it
        returns: the errors are reported only when there is at least one. */
    method Read(res: Payload) returns (err: Option<Error>)
      ensures err == Reading(res)
    {
      var errors := ErrorsOf(res);
      if errors.Some? {
        var result := CopyErrors(errors.value);
        if |result| > 0 {
          return Some(BatchCreateErrors(result));
        }
      }
      return None;
    }
  }

  function Reading(res: Payload): Option<Error> {
    var errors := ErrorsOf(res);
    if errors.Some? && |errors.value| > 0 then Some(BatchCreateErrors(errors.value)) else None
  }

  /** The query holds only "prospects", the wrapped encoding; an encoding
      failure is returned as it is and no map is produced. */
  lemma QueryWrapsProspects<T>(q: BatchCreateProspect<T>, marshal: T -> Result<string>)
    ensures marshal(q.prospects).Err? ==> q.Query(marshal) == Err(marshal(q.prospects).error)
    ensures marshal(q.prospects).Ok? ==>
      && q.Query(marshal).Ok?
      && q.Query(marshal).value.Keys == {"prospects"}
      && q.Query(marshal).value["prospects"] == "{\"prospects\":" + marshal(q.prospects).value + "}"
  {
  }

  /** The two errors of the tests come back as a `BatchCreateProspectErrors`
      holding the same index-to-message entries. */
  lemma ErrorsReturned(text: string)
    ensures Reading(Payload(text, Some(ErrorsDoc([Member("0", Str("Invalid prospect email address")),
                                                 Member("1", Str("Invalid prospect"))]))))
         == Some(BatchCreateErrors(map[0 := "Invalid prospect email address", 1 := "Invalid prospect"]))
  {
    TwoErrorsDecoded(text);
  }

  /** An empty `errors` object, a response without `errors`, and bytes that
      are not JSON all read as success. */
  lemma NoErrorsIsSuccess(text: string, res: Payload)
    requires res.doc.None? || (res.doc.value.Object? &&
      forall i :: 0 <= i < |res.doc.value.members| ==> res.doc.value.members[i].name != "errors")
    ensures Reading(Payload(text, Some(ErrorsDoc([])))) == None
    ensures Reading(res) == None
  {
    ErrorsOfDoc(text, []);
    if res.doc.Some? {
      AbsentErrors(res);
    }
  }
}
