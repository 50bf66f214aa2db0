/**
 * pkg/provider/github/algo.go: the GitHub reputation score, a weighted sum
 * of saturating signals rounded to two decimals.
 */
module GithubAlgo {
  import opened Wrappers
  import opened Report
  import ReportMath

  /** Signal weights; together they make 1. */
  const AuthWeight: real := 0.25
  const CommitVerifiedWeight: real := 0.25
  const RatioWeight: real := 0.15
  const AgeWeight: real := 0.15
  const PrivateRepoWeight: real := 0.10
  const PublicRepoWeight: real := 0.10

  /** Where each graduated signal saturates. */
  const AgeFullDays: real := 365.0
  const PublicRepoFull: real := 20.0
  const PrivateRepoFull: real := 10.0
  const FollowerRatioFull: real := 10.0

  /** math.Ln2. */
  const Ln2: real := 0.693147180559945309417232121458176568

  lemma WeightsSumToOne()
    ensures AuthWeight + CommitVerifiedWeight + RatioWeight + AgeWeight + PrivateRepoWeight + PublicRepoWeight == 1.0
  {
  }

  /**
   * clampedRatio: val/ceil cut into [0, 1]; nothing for a non-positive
   * value or ceiling, everything from the ceiling up.
   */
  function ClampedRatio(val: real, ceil: real): (r: real)
    ensures 0.0 <= r <= 1.0
    ensures ceil <= 0.0 || val <= 0.0 ==> r == 0.0
    ensures ceil > 0.0 && val >= ceil ==> r == 1.0
    ensures 0.0 < val < ceil ==> r * ceil == val
  {
    if ceil <= 0.0 || val <= 0.0 then 0.0
    else if val >= ceil then 1.0
    else
      DivBelowOne(val, ceil);
      val / ceil
  }

  lemma DivBelowOne(a: real, b: real)
    requires 0.0 < a < b
    ensures a / b < 1.0
  {
    var q := a / b;
    assert q * b == a;
    if q >= 1.0 {
      assert false;
    }
  }

  /** A larger value never gets a smaller ratio under the same ceiling. */
  lemma ClampedRatioMonotone(x: real, y: real, ceil: real)
    requires x <= y
    ensures ClampedRatio(x, ceil) <= ClampedRatio(y, ceil)
  {
    if ceil > 0.0 && 0.0 < x && y < ceil {
      assert x / ceil <= y / ceil;
    }
  }

  /**
   * logCurve: log(1+val)/log(1+ceil) clamped at 1; math.Log is the
   * parameter `ln`, of which only the logarithm's sign above 1 is assumed.
   * Nothing for a non-positive value or ceiling, and always in [0, 1].
   */
  function LogCurve(val: real, ceil: real, ln: real -> real): (r: real)
    requires forall x :: x > 1.0 ==> ln(x) > 0.0
    ensures 0.0 <= r <= 1.0
    ensures ceil <= 0.0 || val <= 0.0 ==> r == 0.0
    ensures ceil > 0.0 && val > 0.0 && ln(1.0 + val) < ln(1.0 + ceil) ==> r == ln(1.0 + val) / ln(1.0 + ceil)
    ensures ceil > 0.0 && val > 0.0 && ln(1.0 + val) >= ln(1.0 + ceil) ==> r == 1.0
  {
    if ceil <= 0.0 || val <= 0.0 then 0.0
    else
      var r := ln(1.0 + val) / ln(1.0 + ceil);
      if r >= 1.0 then 1.0 else r
  }

  /**
   * expDecay: exp(-val·ln2/halfLife), math.Exp being the parameter `exp`.
   * A non-positive half-life gives 0 before the value is looked at; a
   * non-positive value gives 1.
   */
  function ExpDecay(val: real, halfLife: real, exp: real -> real): (r: real)
    ensures halfLife <= 0.0 ==> r == 0.0
    ensures halfLife > 0.0 && val <= 0.0 ==> r == 1.0
    ensures halfLife > 0.0 && val > 0.0 ==> r == exp(-val * Ln2 / halfLife)
  {
    if halfLife <= 0.0 then 0.0
    else if val <= 0.0 then 1.0
    else exp(-val * Ln2 / halfLife)
  }

  /** The follower/following ratio's share; none without anyone followed. */
  function FollowerTerm(s: Stats): real
  {
    if s.following > 0 then
      ClampedRatio(s.followers as real / s.following as real, FollowerRatioFull) * RatioWeight
    else 0.0
  }

  /** The verified-commit share; none without commits. */
  function VerifiedTerm(s: Stats): real
  {
    if s.commits > 0 then
      ClampedRatio((s.commits - s.unverifiedCommits) as real / s.commits as real, 1.0) * CommitVerifiedWeight
    else 0.0
  }

  /** The score before rounding: the sum of the six weighted signals. */
  function Score(s: Stats): real
  {
    ClampedRatio(s.privateRepos as real, PrivateRepoFull) * PrivateRepoWeight
    + ClampedRatio(s.publicRepos as real, PublicRepoFull) * PublicRepoWeight
    + ClampedRatio(s.ageDays as real, AgeFullDays) * AgeWeight
    + (if s.strongAuth then AuthWeight else 0.0)
    + FollowerTerm(s)
    + VerifiedTerm(s)
  }

  /** Whatever the counts, even negative or inconsistent ones, the score is in [0, 1]. */
  lemma ScoreInUnitInterval(s: Stats)
    ensures 0.0 <= Score(s) <= 1.0
  {
    WeightsSumToOne();
  }

  /** The stored reputation: the score rounded to two decimals, still in [0, 1]. */
  function Reputation(s: Stats): (r: real)
    ensures 0.0 <= r <= 1.0
    ensures -0.5 <= (r - Score(s)) * 100.0 <= 0.5
  {
    ScoreInUnitInterval(s);
    ReportMath.ToFixedUnitInterval(Score(s), 2);
    ReportMath.ToFixedError(Score(s), 2);
    assert ReportMath.Pow10(2) == 100.0;
    ReportMath.ToFixed(Score(s), 2)
  }

  /** Strong authentication adds exactly 0.25. */
  lemma StrongAuthAddsQuarter(s: Stats)
    ensures Score(s.(strongAuth := true)) == Score(s.(strongAuth := false)) + AuthWeight
  {
  }

  /** Followers count only when the author follows someone. */
  lemma FollowersNeedFollowing(s: Stats, followers: int)
    requires s.following <= 0
    ensures Score(s.(followers := followers)) == Score(s)
  {
  }

  /** Unverified commits count only when there are commits. */
  lemma VerificationNeedsCommits(s: Stats, unverified: int)
    requires s.commits <= 0
    ensures Score(s.(unverifiedCommits := unverified)) == Score(s)
  {
  }

  /** Fully verified history earns the whole verification weight. */
  lemma AllVerifiedEarnsFullWeight(s: Stats)
    requires s.commits > 0 && s.unverifiedCommits == 0
    ensures VerifiedTerm(s) == CommitVerifiedWeight
  {
    assert (s.commits - s.unverifiedCommits) as real / s.commits as real == 1.0;
  }

  /** Whether calculateReputation leaves the author as it is. */
  predicate Unscored(author: Option<Author>)
  {
    author.None? || author.value.stats.None? || author.value.stats.value.suspended
  }

  /**
   * calculateReputation: a nil author, missing stats or a suspended account
   * leave everything unchanged; otherwise the reputation becomes the score
   * rounded to two decimals (a value in [0, 1]) and nothing else changes.
   */
  method CalculateReputation(author: Option<Author>) returns (updated: Option<Author>)
    ensures Unscored(author) ==> updated == author
    ensures !Unscored(author) ==>
      updated == Some(author.value.(reputation := Reputation(author.value.stats.value)))
  {
    if author.None? {
      return author;
    }
    var s := author.value.stats;
    if s.None? {
      return author;
    }
    if s.value.suspended {
      return author;
    }
    var st := s.value;
    var rep := 0.0;
    rep := rep + ClampedRatio(st.privateRepos as real, PrivateRepoFull) * PrivateRepoWeight;
    rep := rep + ClampedRatio(st.publicRepos as real, PublicRepoFull) * PublicRepoWeight;
    rep := rep + ClampedRatio(st.ageDays as real, AgeFullDays) * AgeWeight;
    if st.strongAuth {
      rep := rep + AuthWeight;
    }
    if st.following > 0 {
      var ratio := st.followers as real / st.following as real;
      rep := rep + ClampedRatio(ratio, FollowerRatioFull) * RatioWeight;
    }
    if st.commits > 0 {
      var verified := (st.commits - st.unverifiedCommits) as real / st.commits as real;
      rep := rep + ClampedRatio(verified, 1.0) * CommitVerifiedWeight;
    }
    assert rep == Score(st);
    updated := Some(author.value.(reputation := ReportMath.ToFixed(rep, 2)));
  }

  /** A fresh author is scored: no repos, age, 2FA, followers or commits give 0. */
  lemma FreshAuthorScoresZero(username: string)
    ensures Score(MakeAuthor(username).stats.value) == 0.0
  {
  }
}
