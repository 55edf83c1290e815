/** The batch update of the older REST client
    (pardotrest/batch_update_prospect.go): the prospects go in the query; the
    reply is not looked at. */
module PardotRestBatchUpdate {
  import opened Common
  import opened Json

  datatype BatchUpdateProspect<T> = BatchUpdateProspect(prospects: T)
  {
    function Method(): string {
      "POST"
    }

    function Path(): string {
      "prospect/" + Version + "/do/batchUpdate"
    }

    /** `query`: the encoded prospects under "prospects", or the encoding
        error. */
    function Query(marshal: T -> Result<string>): (r: Result<map<string, string>>)
      ensures marshal(prospects).Err? <==> r.Err?
      ensures r.Err? ==> r.error == marshal(prospects).error
      ensures r.Ok? ==> r.value.Keys == {"prospects"} && r.value["prospects"] == marshal(prospects).value
    {
      match marshal(prospects)
      case Err(e) => Err(e)
      case Ok(b) => Ok(map["prospects" := b])
    }

    function Body(): Result<Option<string>> {
      Ok(None)
    }

    /** `read` ignores the reply and never fails. */
    function Read(res: Payload): Option<Error> {
      None
    }
  }
}
