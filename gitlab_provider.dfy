/**
 * pkg/provider/gitlab/provider.go: the GitLab collector. Every commit of
 * every page is counted for its author email; an author's reputation and
 * name come from the first commit seen for that email.
 */
module GitlabProvider {
  import opened Wrappers
  import opened Report
  import Paging
  import GitlabAlgo
  import ReportQuery

  /** The parts of a GitLab commit the collector reads. */
  datatype Commit = Commit(authorEmail: string, authorName: string, stats: Option<GitlabAlgo.CommitStats>)

  /** A ListCommits call: project, page number and page size. */
  datatype PageRequest = PageRequest(repo: string, page: int, perPage: int)

  /** The pages of one project, as the collector requests them. */
  function Pages(fetch: PageRequest -> Result<seq<Commit>>, repo: string): int -> Result<seq<Commit>>
  {
    p => fetch(PageRequest(repo, p, Paging.PageSize))
  }

  /** The author created for an email not seen before. */
  function FirstSeen(c: Commit): (a: Author)
    ensures a.username == c.authorEmail
    ensures a.reputation == GitlabAlgo.CalculateReputation(c.stats)
    ensures a.context == Some(AuthorContext("", c.authorName, "", ""))
    ensures a.stats == MakeAuthor(c.authorEmail).stats
  {
    var a := MakeAuthor(c.authorEmail);
    a.(reputation := GitlabAlgo.CalculateReputation(c.stats), context := Some(a.context.value.(name := c.authorName)))
  }

  /** Stats.Commits++ on an author. */
  function Bump(a: Author): Author
  {
    if a.stats.Some? then a.(stats := Some(a.stats.value.(commits := a.stats.value.commits + 1))) else a
  }

  /** The collector's map after one more commit. */
  function Record(list: map<string, Author>, c: Commit): map<string, Author>
  {
    var a := if c.authorEmail in list then list[c.authorEmail] else FirstSeen(c);
    list[c.authorEmail := Bump(a)]
  }

  function Emails(commits: seq<Commit>): set<string>
  {
    set c | c in commits :: c.authorEmail
  }

  /** Number of commits by `email`. */
  function CommitsBy(commits: seq<Commit>, email: string): nat
  {
    if |commits| == 0 then 0
    else CommitsBy(commits[..|commits| - 1], email) + (if commits[|commits| - 1].authorEmail == email then 1 else 0)
  }

  /** No commit before position i has the same email. */
  predicate FirstOfEmail(commits: seq<Commit>, i: int)
    requires 0 <= i < |commits|
  {
    forall j :: 0 <= j < i ==> commits[j].authorEmail != commits[i].authorEmail
  }

  /** The collector's map after the given commits, in order: one author per email. */
  function Collect(commits: seq<Commit>): map<string, Author>
  {
    if |commits| == 0 then map[]
    else Record(Collect(commits[..|commits| - 1]), commits[|commits| - 1])
  }

  /** The map has an entry for exactly the emails of the commits. */
  lemma {:induction false} CollectKeys(commits: seq<Commit>)
    ensures Collect(commits).Keys == Emails(commits)
  {
    if |commits| > 0 {
      var n := |commits| - 1;
      CollectKeys(commits[..n]);
      assert commits == commits[..n] + [commits[n]];
      assert Emails(commits) == Emails(commits[..n]) + {commits[n].authorEmail};
    }
  }

  lemma {:induction false} CommitsByAbsent(commits: seq<Commit>, email: string)
    requires email !in Emails(commits)
    ensures CommitsBy(commits, email) == 0
  {
    if |commits| > 0 {
      var n := |commits| - 1;
      assert commits[n] in commits;
      assert Emails(commits[..n]) <= Emails(commits) by {
        forall e | e in Emails(commits[..n]) ensures e in Emails(commits) {
          var c :| c in commits[..n] && c.authorEmail == e;
          assert c in commits;
        }
      }
      CommitsByAbsent(commits[..n], email);
    }
  }

  lemma CollectAppend(commits: seq<Commit>, c: Commit)
    ensures Collect(commits + [c]) == Record(Collect(commits), c)
  {
    assert (commits + [c])[..|commits|] == commits;
  }

  /** One more commit of the page read. */
  lemma CollectPrefixStep(seen: seq<Commit>, commits: seq<Commit>, i: int)
    requires 0 <= i < |commits|
    ensures Collect(seen + commits[..i + 1]) == Record(Collect(seen + commits[..i]), commits[i])
  {
    assert seen + commits[..i + 1] == (seen + commits[..i]) + [commits[i]];
    CollectAppend(seen + commits[..i], commits[i]);
  }

  /** Each author is keyed by its email and counts that email's commits. */
  lemma {:induction false} CollectCounts(commits: seq<Commit>)
    ensures var list := Collect(commits);
      forall k :: k in list ==>
        (list[k].username == k && list[k].stats.Some?
         && list[k].stats.value.commits == CommitsBy(commits, k) && CountsConsistent(list[k].stats.value))
  {
    if |commits| > 0 {
      var n := |commits| - 1;
      var init := commits[..n];
      var before := Collect(init);
      var c := commits[n];
      CollectCounts(init);
      CollectKeys(init);
      var list := Collect(commits);
      assert list == Record(before, c);
      forall k | k in list
        ensures list[k].username == k && list[k].stats.Some?
          && list[k].stats.value.commits == CommitsBy(commits, k) && CountsConsistent(list[k].stats.value)
      {
        if k == c.authorEmail && k !in before {
          CommitsByAbsent(init, k);
        }
      }
    }
  }

  /** Recording a commit leaves the reputation and context of an author already present. */
  lemma RecordKeepsFirstSeen(list: map<string, Author>, c: Commit, k: string)
    requires k in list
    ensures k in Record(list, c)
    ensures Record(list, c)[k].reputation == list[k].reputation
    ensures Record(list, c)[k].context == list[k].context
  {
  }

  lemma {:induction false} CollectFirstSeenAt(commits: seq<Commit>, i: int)
    requires 0 <= i < |commits| && FirstOfEmail(commits, i)
    ensures commits[i].authorEmail in Collect(commits)
    ensures Collect(commits)[commits[i].authorEmail].reputation == GitlabAlgo.CalculateReputation(commits[i].stats)
    ensures Collect(commits)[commits[i].authorEmail].context == Some(AuthorContext("", commits[i].authorName, "", ""))
  {
    var n := |commits| - 1;
    var init := commits[..n];
    var c := commits[n];
    assert Collect(commits) == Record(Collect(init), c);
    CollectKeys(init);
    if i < n {
      assert init[i] == commits[i];
      assert FirstOfEmail(init, i) by {
        forall j | 0 <= j < i ensures init[j].authorEmail != init[i].authorEmail {
          assert init[j] == commits[j];
        }
      }
      CollectFirstSeenAt(init, i);
      RecordKeepsFirstSeen(Collect(init), c, commits[i].authorEmail);
    }
  }

  /** First seen wins: reputation and name come from an email's first commit. */
  lemma CollectFirstSeen(commits: seq<Commit>)
    ensures var list := Collect(commits);
      forall i :: 0 <= i < |commits| && FirstOfEmail(commits, i) ==>
        (commits[i].authorEmail in list
         && list[commits[i].authorEmail].reputation == GitlabAlgo.CalculateReputation(commits[i].stats)
         && list[commits[i].authorEmail].context == Some(AuthorContext("", commits[i].authorName, "", "")))
  {
    forall i | 0 <= i < |commits| && FirstOfEmail(commits, i)
      ensures commits[i].authorEmail in Collect(commits)
      ensures Collect(commits)[commits[i].authorEmail].reputation == GitlabAlgo.CalculateReputation(commits[i].stats)
      ensures Collect(commits)[commits[i].authorEmail].context == Some(AuthorContext("", commits[i].authorName, "", ""))
    {
      CollectFirstSeenAt(commits, i);
    }
  }

  /** The authors' commit counts add up to the number of commits read. */
  lemma {:induction false} CollectSum(commits: seq<Commit>)
    ensures var list := Collect(commits); SumCommits(list, list.Keys) == |commits|
  {
    if |commits| > 0 {
      var n := |commits| - 1;
      var before := Collect(commits[..n]);
      var c := commits[n];
      CollectSum(commits[..n]);
      var a := if c.authorEmail in before then before[c.authorEmail] else FirstSeen(c);
      SumCommitsUpdate(before, c.authorEmail, Bump(a));
      CollectCounts(commits[..n]);
    }
  }

  /** The error for a failed page, naming the project. */
  function ListError(repo: string, err: string): string
  {
    "error listing commits for " + repo + ": " + err
  }

  /**
   * ListAuthors: without a token nothing is requested; a failed page fails
   * the whole call; otherwise the report counts every commit read and lists
   * each collected author once. `asked` records the page numbers
   * requested, in order.
   */
  method ListAuthors(token: string, q: ReportQuery.Query, fetch: PageRequest -> Result<seq<Commit>>, ghost last: int)
    returns (r: Result<Report>, ghost asked: seq<int>)
    requires Paging.Ends(Pages(fetch, q.repo), last)
    ensures token == "" ==> r == Err("GITLAB_TOKEN environment variable must be set")
    ensures token != "" ==> var w := Paging.Walk(Pages(fetch, q.repo), 1, last);
      && (w.Err? ==> r == Err(ListError(q.repo, w.error)))
      && (w.Ok? ==>
            r.Ok? && r.value.repo == q.repo && r.value.atCommit == q.commit
            && r.value.totalCommits == |w.value|
            && r.value.totalContributors == |r.value.contributors|
            && Enumerates(r.value.contributors, Collect(w.value)))
    ensures token == "" ==> asked == []
    ensures token != "" ==> asked == Paging.Requested(Pages(fetch, q.repo), 1, last)
  {
    if token == "" {
      r, asked := Err("GITLAB_TOKEN environment variable must be set"), [];
      return;
    }
    ghost var pages := Pages(fetch, q.repo);
    var list: map<string, Author> := map[];
    var total := 0;
    var page := 1;
    ghost var seen: seq<Commit> := [];
    asked := [];
    assert Paging.Requested(pages, 1, last) == asked + Paging.Requested(pages, 1, last);
    assert Paging.Walk(pages, 1, last).Ok? ==> seen + Paging.Walk(pages, 1, last).value == Paging.Walk(pages, 1, last).value;
    CollectCounts([]);
    while true
      invariant 1 <= page <= last
      invariant list == Collect(seen) && total == |seen|
      invariant Paging.Walk(pages, 1, last) == Paging.Prepend(seen, Paging.Walk(pages, page, last))
      invariant Paging.Requested(pages, 1, last) == asked + Paging.Requested(pages, page, last)
      decreases last - page
    {
      var p := fetch(PageRequest(q.repo, page, Paging.PageSize));
      assert p == pages(page);
      Paging.RequestedStep(pages, page, last, asked);
      asked := asked + [page];
      if p.Err? {
        r := Err(ListError(q.repo, p.error));
        return;
      }
      list, total := AddPage(list, total, p.value, seen);
      Paging.WalkStep(pages, page, last, seen);
      seen := seen + p.value;
      if |p.value| < Paging.PageSize {
        break;
      }
      page := page + 1;
    }
    CollectCounts(seen);
    var authors := AuthorsOf(list);
    r := Ok(Report(q.repo, q.commit, total, |authors|, authors));
  }

  /** One pass of the inner loop: create the author on first sight, then count the commit. */
  method RecordCommit(list: map<string, Author>, c: Commit) returns (list': map<string, Author>)
    ensures list' == Record(list, c)
  {
    list' := list;
    if c.authorEmail !in list' {
      list' := list'[c.authorEmail := FirstSeen(c)];
    }
    list' := list'[c.authorEmail := Bump(list'[c.authorEmail])];
  }

  /** The inner loop of ListAuthors: records each commit of one page in turn. */
  method AddPage(list: map<string, Author>, total: int, commits: seq<Commit>, ghost seen: seq<Commit>)
    returns (list': map<string, Author>, total': int)
    requires list == Collect(seen) && total == |seen|
    ensures list' == Collect(seen + commits) && total' == |seen + commits|
  {
    list', total' := list, total;
    var i := 0;
    assert seen + commits[..0] == seen;
    while i < |commits|
      invariant 0 <= i <= |commits|
      invariant list' == Collect(seen + commits[..i]) && total' == |seen| + i
    {
      list' := RecordCommit(list', commits[i]);
      CollectPrefixStep(seen, commits, i);
      total' := total' + 1;
      i := i + 1;
    }
    assert commits[..i] == commits;
  }

  /** The final loop of ListAuthors: every author of the map, once each, in any order. */
  method AuthorsOf(list: map<string, Author>) returns (authors: seq<Author>)
    requires forall k :: k in list ==> list[k].username == k
    ensures Enumerates(authors, list)
  {
    authors := [];
    var rest := list.Keys;
    while rest != {}
      invariant rest <= list.Keys
      invariant DistinctUsernames(authors)
      invariant Usernames(authors) == list.Keys - rest
      invariant forall i :: 0 <= i < |authors| ==> authors[i].username in list && list[authors[i].username] == authors[i]
      decreases rest
    {
      var k :| k in rest;
      EnumerationGrows(authors, list, list[k]);
      authors := authors + [list[k]];
      rest := rest - {k};
    }
  }

  /** The report's commit total is the sum of its contributors' commits. */
  lemma TotalIsSumOfContributors(commits: seq<Commit>, contributors: seq<Author>)
    requires Enumerates(contributors, Collect(commits))
    ensures SumCommitsSeq(contributors) == |commits|
    ensures |contributors| == |Emails(commits)|
  {
    EnumeratesSizeAndSum(contributors, Collect(commits));
    CollectSum(commits);
    CollectKeys(commits);
  }
}
