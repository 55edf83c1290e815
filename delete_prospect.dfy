/** The endpoint that deletes one prospect by id (delete_prospect.go). */
module DeleteProspectEndpoint {
  import opened Common
  import opened Text

  const PathPrefix: string := "prospect/" + Version + "/do/delete/id/"

  datatype DeleteProspect = DeleteProspect(prospectId: GoInt)
  {
    function Method(): string {
      "POST"
    }

    function Path(): string {
      PathPrefix + Decimal(prospectId)
    }

    /** `Query` answers with no map and no error: no pairs at all. */
    function Query(): Result<map<string, string>> {
      Ok(map[])
    }
  }

  /** The path names the prospect: after the fixed prefix comes the decimal id,
      which reads back as the id. So two deletes of different prospects never
      share a path. */
  lemma PathNamesProspect(d: DeleteProspect)
    ensures d.Method() == "POST"
    ensures |d.Path()| > |PathPrefix| && d.Path()[..|PathPrefix|] == PathPrefix
    ensures ParseInt(d.Path()[|PathPrefix|..]) == Some(d.prospectId)
  {
    assert d.Path()[|PathPrefix|..] == Decimal(d.prospectId);
    DecimalRoundTrip(d.prospectId);
  }

  lemma PathsDiffer(d: DeleteProspect, e: DeleteProspect)
    requires d.prospectId != e.prospectId
    ensures d.Path() != e.Path()
  {
    PathNamesProspect(d);
    PathNamesProspect(e);
  }

  /** The path the tests expect for prospect 46. */
  lemma PathOf46()
    ensures DeleteProspect(46).Path() == "prospect/version/4/do/delete/id/46"
  {
    assert NatDecimal(46) == NatDecimal(4) + [DigitChar(6)];
  }
}
