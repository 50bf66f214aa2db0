/**
 * pkg/provider/github/provider.go: the GitHub collector. Commits are read
 * page by page and tallied per author login; every author is then loaded
 * (profile, organisation membership, score), all or nothing.
 */
module GithubProvider {
  import opened Wrappers
  import opened Report
  import Paging
  import GithubAlgo
  import ReportQuery

  /** A commit's signature verification; `verified` is None when GitHub leaves it out. */
  datatype Verification = Verification(verified: Option<bool>)

  /**
   * The parts of a GitHub commit the collector reads: the author's login
   * (None when the commit has no GitHub author), the verification record,
   * whether the committer date is the zero time, and that date's age in
   * whole days (rounded up, negative for a date in the future).
   */
  datatype Commit = Commit(author: Option<string>, verification: Option<Verification>, dateZero: bool, daysAgo: int)

  /** A ListCommits call: repository, starting commit, page number and page size. */
  datatype PageRequest = PageRequest(owner: string, name: string, sha: string, page: int, perPage: int)

  /** The parts of a GitHub user profile loadAuthor reads. */
  datatype UserProfile = UserProfile(
    suspended: bool,
    twoFactor: bool,
    followers: int,
    following: int,
    publicRepos: int,
    privateRepos: int,
    ageDays: int,
    created: string,
    name: Option<string>,
    email: Option<string>,
    company: Option<string>)

  /** The remote calls: commit pages, user lookups and organisation membership (owner, login). */
  datatype Client = Client(
    commits: PageRequest -> Result<seq<Commit>>,
    users: string -> Result<UserProfile>,
    isMember: (string, string) -> Result<bool>)

  /** The pages of one query, as the collector requests them. */
  function Pages(client: Client, q: ReportQuery.Query): int -> Result<seq<Commit>>
  {
    p => client.commits(PageRequest(q.owner, q.name, q.commit, p, Paging.PageSize))
  }

  // ---------------------------------------------------------------- collection

  /** A missing verification record, a missing flag or a false flag all count as unverified. */
  predicate Unverified(c: Commit)
  {
    c.verification.None? || c.verification.value.verified.None? || !c.verification.value.verified.value
  }

  /** The age of the commit date clamped at zero. */
  function CommitDays(c: Commit): (days: int)
    ensures days >= 0
    ensures c.daysAgo >= 0 ==> days == c.daysAgo
  {
    if c.daysAgo < 0 then 0 else c.daysAgo
  }

  /**
   * One commit's effect on its author's stats: one more commit, one more
   * unverified commit when it is unverified, and the last-commit age set
   * when none is recorded yet and the date is known.
   */
  function Tally(s: Stats, c: Commit): (t: Stats)
    ensures t.commits == s.commits + 1
    ensures t.unverifiedCommits == s.unverifiedCommits + (if Unverified(c) then 1 else 0)
    ensures t == s.(commits := t.commits, unverifiedCommits := t.unverifiedCommits, lastCommitDays := t.lastCommitDays)
  {
    var s1 := s.(commits := s.commits + 1);
    var s2 := if Unverified(c) then s1.(unverifiedCommits := s1.unverifiedCommits + 1) else s1;
    if s2.lastCommitDays == 0 && !c.dateZero then s2.(lastCommitDays := CommitDays(c)) else s2
  }

  /** The collector's map after one more commit; an authorless commit changes nothing. */
  function Record(list: map<string, Author>, c: Commit): map<string, Author>
  {
    if c.author.None? then list
    else
      var login := c.author.value;
      var a := if login in list then list[login] else MakeAuthor(login);
      if a.stats.Some? then list[login := a.(stats := Some(Tally(a.stats.value, c)))] else list[login := a]
  }

  /** The collector's map after the given commits, in order. */
  function Collect(commits: seq<Commit>): map<string, Author>
  {
    if |commits| == 0 then map[]
    else Record(Collect(commits[..|commits| - 1]), commits[|commits| - 1])
  }

  /** Logins of the commits that have an author. */
  function Logins(commits: seq<Commit>): set<string>
  {
    set c | c in commits && c.author.Some? :: c.author.value
  }

  /** Commits that have an author: what totalCommitCounter counts. */
  function Authored(commits: seq<Commit>): nat
  {
    if |commits| == 0 then 0
    else Authored(commits[..|commits| - 1]) + (if commits[|commits| - 1].author.Some? then 1 else 0)
  }

  /** Commits by `login`. */
  function CommitsBy(commits: seq<Commit>, login: string): nat
  {
    if |commits| == 0 then 0
    else CommitsBy(commits[..|commits| - 1], login) + (if commits[|commits| - 1].author == Some(login) then 1 else 0)
  }

  /** Unverified commits by `login`. */
  function UnverifiedBy(commits: seq<Commit>, login: string): nat
  {
    if |commits| == 0 then 0
    else
      var c := commits[|commits| - 1];
      UnverifiedBy(commits[..|commits| - 1], login) + (if c.author == Some(login) && Unverified(c) then 1 else 0)
  }

  /** An authorless commit is skipped entirely. */
  lemma AuthorlessCommitSkipped(list: map<string, Author>, c: Commit)
    requires c.author.None?
    ensures Record(list, c) == list
  {
  }

  /** The map has an entry for exactly the logins of authored commits. */
  lemma {:induction false} CollectKeys(commits: seq<Commit>)
    ensures Collect(commits).Keys == Logins(commits)
  {
    if |commits| > 0 {
      var n := |commits| - 1;
      CollectKeys(commits[..n]);
      assert commits == commits[..n] + [commits[n]];
      if commits[n].author.Some? {
        assert Logins(commits) == Logins(commits[..n]) + {commits[n].author.value};
      } else {
        assert Logins(commits) == Logins(commits[..n]);
      }
    }
  }

  lemma {:induction false} CountsAbsent(commits: seq<Commit>, login: string)
    requires login !in Logins(commits)
    ensures CommitsBy(commits, login) == 0 && UnverifiedBy(commits, login) == 0
  {
    if |commits| > 0 {
      var n := |commits| - 1;
      assert commits[n] in commits;
      assert Logins(commits[..n]) <= Logins(commits) by {
        forall l | l in Logins(commits[..n]) ensures l in Logins(commits) {
          var c :| c in commits[..n] && c.author.Some? && c.author.value == l;
          assert c in commits;
        }
      }
      CountsAbsent(commits[..n], login);
    }
  }

  /**
   * Each author is keyed by its login, counts that login's commits and
   * unverified commits, and so keeps 0 <= unverified <= commits.
   */
  lemma {:induction false} CollectCounts(commits: seq<Commit>)
    ensures var list := Collect(commits);
      forall k :: k in list ==>
        (list[k].username == k && list[k].stats.Some? && list[k].context.Some?
         && list[k].stats.value.commits == CommitsBy(commits, k)
         && list[k].stats.value.unverifiedCommits == UnverifiedBy(commits, k)
         && CountsConsistent(list[k].stats.value))
  {
    if |commits| > 0 {
      var n := |commits| - 1;
      var init := commits[..n];
      var before := Collect(init);
      var c := commits[n];
      CollectCounts(init);
      CollectKeys(init);
      var list := Collect(commits);
      assert list == Record(before, c);
      forall k | k in list
        ensures list[k].username == k && list[k].stats.Some? && list[k].context.Some?
          && list[k].stats.value.commits == CommitsBy(commits, k)
          && list[k].stats.value.unverifiedCommits == UnverifiedBy(commits, k)
          && CountsConsistent(list[k].stats.value)
      {
        if c.author == Some(k) && k !in before {
          CountsAbsent(init, k);
        }
      }
    }
  }

  /** The authors' commit counts add up to the number of authored commits. */
  lemma {:induction false} CollectSum(commits: seq<Commit>)
    ensures var list := Collect(commits); SumCommits(list, list.Keys) == Authored(commits)
  {
    if |commits| > 0 {
      var n := |commits| - 1;
      var before := Collect(commits[..n]);
      var c := commits[n];
      CollectSum(commits[..n]);
      CollectCounts(commits[..n]);
      if c.author.Some? {
        var login := c.author.value;
        var a := if login in before then before[login] else MakeAuthor(login);
        SumCommitsUpdate(before, login, a.(stats := Some(Tally(a.stats.value, c))));
      }
    }
  }

  lemma CollectStep(commits: seq<Commit>, c: Commit)
    ensures Collect(commits + [c]) == Record(Collect(commits), c)
    ensures Authored(commits + [c]) == Authored(commits) + (if c.author.Some? then 1 else 0)
  {
    assert (commits + [c])[..|commits|] == commits;
  }

  /** One more commit of the page read. */
  lemma CollectPrefixStep(seen: seq<Commit>, commits: seq<Commit>, i: int)
    requires 0 <= i < |commits|
    ensures Collect(seen + commits[..i + 1]) == Record(Collect(seen + commits[..i]), commits[i])
    ensures Authored(seen + commits[..i + 1]) == Authored(seen + commits[..i]) + (if commits[i].author.Some? then 1 else 0)
  {
    assert seen + commits[..i + 1] == (seen + commits[..i]) + [commits[i]];
    CollectStep(seen + commits[..i], commits[i]);
  }

  /** The last-commit age is written only while it is 0 and only from a known date. */
  lemma LastCommitDaysWrittenOnce(s: Stats, c: Commit)
    ensures Tally(s, c).lastCommitDays != s.lastCommitDays ==> s.lastCommitDays == 0 && !c.dateZero
    ensures s.lastCommitDays == 0 && !c.dateZero ==> Tally(s, c).lastCommitDays == CommitDays(c)
    ensures s.lastCommitDays >= 0 ==> Tally(s, c).lastCommitDays >= 0
    ensures s.lastCommitDays > 0 ==> Tally(s, c).lastCommitDays == s.lastCommitDays
  {
  }

  /**
   * The newest commit is meant to fix the age, but one dated at or after the
   * current time (its negative age clamped to 0) leaves it at 0, and the
   * next, older commit then sets it.
   */
  lemma ZeroAgeCommitDoesNotFixAge(s: Stats, newest: Commit, older: Commit)
    requires s.lastCommitDays == 0 && !newest.dateZero && newest.daysAgo == 0
    requires !older.dateZero && older.daysAgo == 5
    ensures Tally(s, newest).lastCommitDays == 0
    ensures Tally(Tally(s, newest), older).lastCommitDays == 5
  {
  }

  // ---------------------------------------------------------------- enrichment

  /**
   * The author loadAuthor leaves behind after a successful user lookup:
   * profile fields copied in, context fields overwritten only when the
   * profile has them, organisation membership kept when the check fails,
   * the score computed, and stats and context dropped unless asked for.
   */
  function Loaded(a: Author, u: UserProfile, member: Result<bool>, stats: bool): Author
    requires a.stats.Some? && a.context.Some?
  {
    var s := LoadedStats(a.stats.value, u, member);
    var reputation := if s.suspended then a.reputation else GithubAlgo.Reputation(s);
    if stats then a.(reputation := reputation, stats := Some(s), context := Some(LoadedContext(a.context.value, u)))
    else a.(reputation := reputation, stats := None, context := None)
  }

  /** The stats after a successful user lookup; the commit counts are kept. */
  function LoadedStats(s: Stats, u: UserProfile, member: Result<bool>): Stats
  {
    s.(suspended := u.suspended, strongAuth := u.twoFactor,
      commitsVerified := s.unverifiedCommits == 0,
      followers := u.followers, following := u.following,
      publicRepos := u.publicRepos, privateRepos := u.privateRepos, ageDays := u.ageDays,
      orgMember := if member.Ok? then member.value else s.orgMember)
  }

  /** The context after a successful user lookup: fields the profile lacks are kept. */
  function LoadedContext(c: AuthorContext, u: UserProfile): AuthorContext
  {
    c.(created := u.created,
      name := if u.name.Some? then u.name.value else c.name,
      email := if u.email.Some? then u.email.value else c.email,
      company := if u.company.Some? then u.company.value else c.company)
  }

  /** The error loadAuthor returns for a failed user lookup. */
  function UserError(login: string, err: string): string
  {
    "error getting user " + login + ": " + err
  }

  /**
   * loadAuthor: a nil client or author is an error; a failed user lookup
   * is an error and the author is not changed; otherwise the author
   * becomes Loaded(...). The author must carry stats and context, as the
   * Go code dereferences both.
   */
  method LoadAuthor(client: Option<Client>, a: Option<Author>, stats: bool, owner: string) returns (r: Result<Author>)
    requires a.Some? ==> a.value.stats.Some? && a.value.context.Some?
    ensures client.None? ==> r == Err("client must be specified")
    ensures client.Some? && a.None? ==> r == Err("author must be specified")
    ensures client.Some? && a.Some? ==>
      var u := client.value.users(a.value.username);
      && (u.Err? ==> r == Err(UserError(a.value.username, u.error)))
      && (u.Ok? ==> r == Ok(Loaded(a.value, u.value, client.value.isMember(owner, a.value.username), stats)))
  {
    if client.None? {
      return Err("client must be specified");
    }
    if a.None? {
      return Err("author must be specified");
    }
    var author := a.value;
    var found := client.value.users(author.username);
    if found.Err? {
      return Err(UserError(author.username, found.error));
    }
    var u := found.value;
    var s := CopyProfile(author.stats.value, u);
    var ctx := CopyContext(author.context.value, u);
    var member := client.value.isMember(owner, author.username);
    if member.Ok? {
      s := s.(orgMember := member.value);
    }
    author := author.(stats := Some(s), context := Some(ctx));
    var scored := GithubAlgo.CalculateReputation(Some(author));
    author := scored.value;
    if !stats {
      author := author.(stats := None, context := None);
    }
    return Ok(author);
  }

  /** loadAuthor's copying of profile fields into the stats, one by one (membership is not touched yet). */
  method CopyProfile(s0: Stats, u: UserProfile) returns (s: Stats)
    ensures s == LoadedStats(s0, u, Err(""))
  {
    s := s0;
    s := s.(suspended := u.suspended);
    s := s.(strongAuth := u.twoFactor);
    s := s.(commitsVerified := s.unverifiedCommits == 0);
    s := s.(followers := u.followers);
    s := s.(following := u.following);
    s := s.(publicRepos := u.publicRepos);
    s := s.(privateRepos := u.privateRepos);
    s := s.(ageDays := u.ageDays);
  }

  /** loadAuthor's filling of the context: the creation date, then each field the profile has. */
  method CopyContext(c0: AuthorContext, u: UserProfile) returns (ctx: AuthorContext)
    ensures ctx == LoadedContext(c0, u)
  {
    ctx := c0.(created := u.created);
    if u.name.Some? {
      ctx := ctx.(name := u.name.value);
    }
    if u.email.Some? {
      ctx := ctx.(email := u.email.value);
    }
    if u.company.Some? {
      ctx := ctx.(company := u.company.value);
    }
  }

  /** Profile and org-check errors aside, loading keeps name, counts and the counts invariant. */
  lemma LoadedKeepsCounts(a: Author, u: UserProfile, member: Result<bool>)
    requires a.stats.Some? && a.context.Some?
    ensures var l := Loaded(a, u, member, true);
      l.username == a.username && l.stats.Some? && l.context.Some?
      && l.stats.value.commits == a.stats.value.commits
      && l.stats.value.unverifiedCommits == a.stats.value.unverifiedCommits
      && l.stats.value.lastCommitDays == a.stats.value.lastCommitDays
      && (CountsConsistent(a.stats.value) ==> CountsConsistent(l.stats.value))
      && (l.stats.value.commitsVerified <==> l.stats.value.unverifiedCommits == 0)
  {
  }

  /** A failed membership check is not an error and leaves OrgMember as it was. */
  lemma OrgCheckFailureKeepsMembership(a: Author, u: UserProfile, err: string)
    requires a.stats.Some? && a.context.Some?
    ensures Loaded(a, u, Err(err), true).stats.value.orgMember == a.stats.value.orgMember
  {
  }

  /**
   * Without stats the author keeps only name and reputation: the score is
   * the same as with stats, and Stats and Context are nil.
   */
  lemma StatsDroppedScoreKept(a: Author, u: UserProfile, member: Result<bool>)
    requires a.stats.Some? && a.context.Some?
    ensures var without := Loaded(a, u, member, false);
      without.stats.None? && without.context.None?
      && without.username == a.username
      && without.reputation == Loaded(a, u, member, true).reputation
  {
  }

  /** A suspended account keeps its reputation; any other gets a score in [0, 1]. */
  lemma LoadedReputation(a: Author, u: UserProfile, member: Result<bool>, stats: bool)
    requires a.stats.Some? && a.context.Some?
    ensures u.suspended ==> Loaded(a, u, member, stats).reputation == a.reputation
    ensures !u.suspended ==> 0.0 <= Loaded(a, u, member, stats).reputation <= 1.0
  {
  }

  /** Every author of `list` whose user lookup succeeds, loaded. */
  function LoadAll(client: Client, list: map<string, Author>, stats: bool, owner: string): map<string, Author>
  {
    map k | k in list && list[k].stats.Some? && list[k].context.Some? && client.users(k).Ok?
      :: Loaded(list[k], client.users(k).value, client.isMember(owner, k), stats)
  }

  /** The entry of LoadAll for one login whose lookup succeeds. */
  lemma LoadAllAt(client: Client, list: map<string, Author>, stats: bool, owner: string, k: string)
    requires k in list && list[k].stats.Some? && list[k].context.Some? && client.users(k).Ok?
    ensures k in LoadAll(client, list, stats, owner)
    ensures LoadAll(client, list, stats, owner)[k] == Loaded(list[k], client.users(k).value, client.isMember(owner, k), stats)
  {
  }

  /** The wrapped error of the enrichment step. */
  function LoadingError(err: string): string
  {
    "error loading authors: " + err
  }

  /** Every login's user lookup succeeds. */
  predicate AllUsersFound(client: Client, list: map<string, Author>)
  {
    forall k :: k in list ==> client.users(k).Ok?
  }

  /**
   * The errgroup fan-out, run one author at a time in map order: any
   * failed load fails the whole step with that author's error; otherwise
   * each author is loaded and listed exactly once.
   */
  method EnrichAuthors(client: Client, list: map<string, Author>, stats: bool, owner: string)
    returns (r: Result<seq<Author>>)
    requires forall k :: k in list ==> list[k].username == k && list[k].stats.Some? && list[k].context.Some?
    ensures r.Ok? <==> AllUsersFound(client, list)
    ensures r.Err? ==>
      exists k :: k in list && client.users(k).Err? && r.error == LoadingError(UserError(k, client.users(k).error))
    ensures r.Ok? ==> Enumerates(r.value, LoadAll(client, list, stats, owner))
  {
    ghost var all := LoadAll(client, list, stats, owner);
    var authors: seq<Author> := [];
    var rest := list.Keys;
    while rest != {}
      invariant rest <= list.Keys
      invariant forall k :: k in list && k !in rest ==> client.users(k).Ok?
      invariant DistinctUsernames(authors)
      invariant Usernames(authors) == list.Keys - rest
      invariant forall i :: 0 <= i < |authors| ==> authors[i].username in all && all[authors[i].username] == authors[i]
      decreases rest
    {
      var k :| k in rest;
      var loaded := LoadAuthor(Some(client), Some(list[k]), stats, owner);
      if loaded.Err? {
        assert client.users(k).Err? && loaded.error == UserError(k, client.users(k).error);
        return Err(LoadingError(loaded.error));
      }
      LoadAllAt(client, list, stats, owner, k);
      assert loaded.value == all[k] && loaded.value.username == k;
      EnumerationGrows(authors, all, loaded.value);
      authors := authors + [loaded.value];
      rest := rest - {k};
    }
    assert AllUsersFound(client, list);
    assert all.Keys == list.Keys;
    return Ok(authors);
  }

  // ---------------------------------------------------------------- ListAuthors

  /** The error for a failed page, naming the repository. */
  function ListError(q: ReportQuery.Query, err: string): string
  {
    "error listing commits for " + q.owner + "/" + q.name + ": " + err
  }

  /**
   * ListAuthors: a failed page fails the call; otherwise the commits are
   * tallied per login, every author is loaded (one failure fails the
   * call), and the report counts the authored commits and lists each
   * login once. Only the walk's first terminal page matters (`last` is any
   * page at which the history has ended). `asked` records the page numbers
   * requested, in order.
   */
  method ListAuthors(client: Client, q: ReportQuery.Query, ghost last: int) returns (r: Result<Report>, ghost asked: seq<int>)
    requires Paging.Ends(Pages(client, q), last)
    ensures var w := Paging.Walk(Pages(client, q), 1, last);
      && (w.Err? ==> r == Err(ListError(q, w.error)))
      && (w.Ok? ==>
            var list := Collect(w.value);
            && (r.Ok? <==> AllUsersFound(client, list))
            && (r.Err? ==>
                  exists k :: k in list && client.users(k).Err? && r.error == LoadingError(UserError(k, client.users(k).error)))
            && (r.Ok? ==>
                  r.value.repo == q.repo && r.value.atCommit == q.commit
                  && r.value.totalCommits == Authored(w.value)
                  && r.value.totalContributors == |list.Keys|
                  && Enumerates(r.value.contributors, LoadAll(client, list, q.stats, q.owner))))
    ensures asked == Paging.Requested(Pages(client, q), 1, last)
  {
    ghost var pages := Pages(client, q);
    var list: map<string, Author> := map[];
    var total := 0;
    var page := 1;
    ghost var seen: seq<Commit> := [];
    asked := [];
    assert Paging.Requested(pages, 1, last) == asked + Paging.Requested(pages, 1, last);
    assert Paging.Walk(pages, 1, last).Ok? ==> seen + Paging.Walk(pages, 1, last).value == Paging.Walk(pages, 1, last).value;
    while true
      invariant 1 <= page <= last
      invariant list == Collect(seen) && total == Authored(seen)
      invariant Paging.Walk(pages, 1, last) == Paging.Prepend(seen, Paging.Walk(pages, page, last))
      invariant Paging.Requested(pages, 1, last) == asked + Paging.Requested(pages, page, last)
      decreases last - page
    {
      var p := client.commits(PageRequest(q.owner, q.name, q.commit, page, Paging.PageSize));
      assert p == pages(page);
      Paging.RequestedStep(pages, page, last, asked);
      asked := asked + [page];
      if p.Err? {
        r := Err(ListError(q, p.error));
        return;
      }
      list, total := AddPage(list, total, p.value, seen);
      Paging.WalkStep(pages, page, last, seen);
      seen := seen + p.value;
      if |p.value| < Paging.PageSize {
        break;
      }
      page := page + 1;
    }
    CollectCounts(seen);
    var loaded := EnrichAuthors(client, list, q.stats, q.owner);
    if loaded.Err? {
      r := Err(loaded.error);
      return;
    }
    r := Ok(Report(q.repo, q.commit, total, |list|, loaded.value));
  }

  /** The page loop's inner loop: tallies each commit of one page in turn. */
  method AddPage(list: map<string, Author>, total: int, commits: seq<Commit>, ghost seen: seq<Commit>)
    returns (list': map<string, Author>, total': int)
    requires list == Collect(seen) && total == Authored(seen)
    ensures list' == Collect(seen + commits) && total' == Authored(seen + commits)
  {
    list', total' := list, total;
    var i := 0;
    assert seen + commits[..0] == seen;
    while i < |commits|
      invariant 0 <= i <= |commits|
      invariant list' == Collect(seen + commits[..i]) && total' == Authored(seen + commits[..i])
    {
      var c := commits[i];
      ghost var before := list';
      if c.author.Some? {
        var login := c.author.value;
        if login !in list' {
          list' := list'[login := MakeAuthor(login)];
        }
        var a := list'[login];
        if a.stats.Some? {
          list' := list'[login := a.(stats := Some(Tally(a.stats.value, c)))];
        }
        total' := total' + 1;
      }
      assert list' == Record(before, c);
      CollectPrefixStep(seen, commits, i);
      i := i + 1;
    }
    assert commits[..i] == commits;
  }

  /** The report's commit total is the sum of the collected authors' commits. */
  lemma TotalIsSumOfCollected(commits: seq<Commit>)
    ensures var list := Collect(commits); SumCommits(list, list.Keys) == Authored(commits)
    ensures |Collect(commits).Keys| == |Logins(commits)|
  {
    CollectSum(commits);
    CollectKeys(commits);
  }

  /** Without stats every listed contributor has nil Stats and Context. */
  lemma NoStatsMeansBareContributors(client: Client, list: map<string, Author>, owner: string, contributors: seq<Author>)
    requires forall k :: k in list ==> list[k].stats.Some? && list[k].context.Some?
    requires Enumerates(contributors, LoadAll(client, list, false, owner))
    ensures forall i :: 0 <= i < |contributors| ==> contributors[i].stats.None? && contributors[i].context.None?
  {
  }
}
