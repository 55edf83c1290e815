/** The endpoint that updates a batch of prospects (batch_update_prospect.go).
    Its methods are unexported, which the interfaces of pargo.go do not
    admit; they are modelled on their own. */
module BatchUpdateProspectEndpoint {
  import opened Common
  import opened Json
  import opened BatchErrors

  datatype BatchUpdateProspect<T> = BatchUpdateProspect(prospects: T)
  {
    function Method(): string {
      "POST"
    }

    function Path(): string {
      "prospect/" + Version + "/do/batchUpdate"
    }

    /** `query`: the bare encoding of the prospects under "prospects". */
    function Query(marshal: T -> Result<string>): Result<map<string, string>> {
      match marshal(prospects)
      case Err(e) => Err(e)
      case Ok(b) => Ok(map["prospects" := b])
    }

    /** `read`: the errors are reported whenever the key was decoded, even
        into an empty map. */
    method Read(res: Payload) returns (err: Option<Error>)
      ensures err == Reading(res)
    {
      var errors := ErrorsOf(res);
      if errors.Some? {
        var result := CopyErrors(errors.value);
        return Some(BatchUpdateErrors(result));
      }
      return None;
    }
  }

  function Reading(res: Payload): Option<Error> {
    var errors := ErrorsOf(res);
    if errors.Some? then Some(BatchUpdateErrors(errors.value)) else None
  }

  /** The query holds only "prospects", the encoding itself; an encoding
      failure is returned as it is. */
  lemma QueryIsBareEncoding<T>(q: BatchUpdateProspect<T>, marshal: T -> Result<string>)
    ensures marshal(q.prospects).Err? ==> q.Query(marshal) == Err(marshal(q.prospects).error)
    ensures marshal(q.prospects).Ok? ==>
      q.Query(marshal) == Ok(map["prospects" := marshal(q.prospects).value])
  {
  }

  /** The two errors of the tests come back with the same entries. */
  lemma ErrorsReturned(text: string)
    ensures Reading(Payload(text, Some(ErrorsDoc([Member("0", Str("Invalid prospect email address")),
                                                 Member("1", Str("Invalid prospect"))]))))
         == Some(BatchUpdateErrors(map[0 := "Invalid prospect email address", 1 := "Invalid prospect"]))
  {
    TwoErrorsDecoded(text);
  }

  /** Unlike the create endpoint, an empty `errors` object is an error. */
  lemma EmptyMapIsError(text: string)
    ensures Reading(Payload(text, Some(ErrorsDoc([])))) == Some(BatchUpdateErrors(map[]))
  {
    ErrorsOfDoc(text, []);
  }

  /** A response without `errors` (or that is not JSON) is success. */
  lemma AbsentIsSuccess(res: Payload)
    requires res.doc.None? || (res.doc.value.Object? &&
      forall i :: 0 <= i < |res.doc.value.members| ==> res.doc.value.members[i].name != "errors")
    ensures Reading(res) == None
  {
    if res.doc.Some? {
      AbsentErrors(res);
    }
  }
}
