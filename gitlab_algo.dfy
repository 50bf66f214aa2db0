/** pkg/provider/gitlab/algo.go: the GitLab placeholder score, 0.1 for a commit that deletes lines. */
module GitlabAlgo {
  import opened Wrappers
  import ReportMath

  const DeletionWeight: real := 0.1

  /** The line counts GitLab reports for a commit. */
  datatype CommitStats = CommitStats(additions: int, deletions: int, total: int)

  /**
   * calculateReputation: nothing for missing stats, DeletionWeight when the
   * commit deletes lines, nothing otherwise whatever it adds.
   */
  function CalculateReputation(s: Option<CommitStats>): (rep: real)
    ensures s.None? ==> rep == 0.0
    ensures s.Some? && s.value.deletions > 0 ==> rep == DeletionWeight
    ensures s.Some? && s.value.deletions <= 0 ==> rep == 0.0
  {
    StepValuesAreKept();
    if s.None? then 0.0
    else
      var rep := if s.value.deletions > 0 then DeletionWeight else 0.0;
      ReportMath.ToFixed(rep, 2)
  }

  /** Rounding to two decimals keeps both possible sums. */
  lemma StepValuesAreKept()
    ensures ReportMath.ToFixed(0.0, 2) == 0.0 && ReportMath.ToFixed(DeletionWeight, 2) == DeletionWeight
  {
    assert ReportMath.Pow10(2) == 100.0;
  }

  /** The score is one of two values. */
  lemma ScoreIsStep(s: Option<CommitStats>)
    ensures CalculateReputation(s) == 0.0 || CalculateReputation(s) == DeletionWeight
  {
  }
}
