/**
 * pkg/provider/provider.go: choosing the collector for a query's kind and
 * returning its report with the contributors sorted by username.
 */
module Provider {
  import opened Wrappers
  import opened Report
  import ReportQuery

  /** The collectors a query can be sent to. */
  datatype ProviderKind = GitHub | GitLab

  /** The providers table: repository host to collector. */
  const Providers: map<string, ProviderKind> := map["github.com" := GitHub, "gitlab.com" := GitLab]

  /** The table knows exactly the two hosts. */
  lemma ProvidersKnowTwoHosts()
    ensures Providers.Keys == {"github.com", "gitlab.com"}
    ensures Providers["github.com"] == GitHub && Providers["gitlab.com"] == GitLab
  {
  }

  /**
   * The first half of GetAuthors: an invalid query is refused before the
   * table is consulted; a valid one with an unknown kind is unsupported.
   */
  function Dispatch(q: ReportQuery.Query): (r: Result<ProviderKind>)
    ensures ReportQuery.Validate(Some(q)).Some? ==> r == Err("invalid query: " + ReportQuery.Validate(Some(q)).value)
    ensures ReportQuery.Validate(Some(q)).None? && q.kind !in Providers ==> r == Err("unsupported git provider: " + q.kind)
    ensures ReportQuery.Validate(Some(q)).None? && q.kind in Providers ==> r == Ok(Providers[q.kind])
    ensures r.Ok? <==> q.repo != "" && q.owner != "" && q.name != "" && (q.kind == "github.com" || q.kind == "gitlab.com")
  {
    var invalid := ReportQuery.Validate(Some(q));
    if invalid.Some? then Err("invalid query: " + invalid.value)
    else if q.kind !in Providers then Err("unsupported git provider: " + q.kind)
    else Ok(Providers[q.kind])
  }

  /** The wrapped error of a failed collector. */
  function ProviderError(q: ReportQuery.Query, err: string): string
  {
    "error listing authors with " + ReportQuery.QueryText(q) + ": " + err
  }

  /**
   * GetAuthors: `run` stands for calling the chosen collector. Refusals
   * come from Dispatch alone, whatever the collectors would do; a
   * collector's error is wrapped; its report is returned with the same
   * contributors reordered ascending by username, everything else as is.
   */
  method GetAuthors(q: ReportQuery.Query, run: ProviderKind -> Result<Report>) returns (r: Result<Report>)
    ensures Dispatch(q).Err? ==> r == Err(Dispatch(q).error)
    ensures Dispatch(q).Ok? && run(Dispatch(q).value).Err? ==>
      r == Err(ProviderError(q, run(Dispatch(q).value).error))
    ensures Dispatch(q).Ok? && run(Dispatch(q).value).Ok? ==>
      var produced := run(Dispatch(q).value).value;
      && r.Ok?
      && r.value == produced.(contributors := r.value.contributors)
      && SortedByUsername(r.value.contributors)
      && multiset(r.value.contributors) == multiset(produced.contributors)
  {
    var kind := Dispatch(q);
    if kind.Err? {
      return Err(kind.error);
    }
    var produced := run(kind.value);
    if produced.Err? {
      return Err(ProviderError(q, produced.error));
    }
    var report := produced.value;
    var a := new Author[|report.contributors|](i requires 0 <= i < |report.contributors| => report.contributors[i]);
    assert a[..] == report.contributors;
    SortAuthors(a);
    r := Ok(report.(contributors := a[..]));
  }
}
