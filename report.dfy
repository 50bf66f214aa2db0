/**
 * pkg/report/author.go and pkg/report/report.go: the author record, its
 * statistics and optional context, and the report that lists authors.
 * Go's pointer fields (*Stats, *AuthorContext) are `Option`s; int64
 * counters are unbounded integers.
 */
module Report {
  import opened Wrappers
  import Strings

  /** Per-author signals. */
  datatype Stats = Stats(
    suspended: bool,
    commitsVerified: bool,
    strongAuth: bool,
    ageDays: int,
    commits: int,
    unverifiedCommits: int,
    publicRepos: int,
    privateRepos: int,
    followers: int,
    following: int,
    lastCommitDays: int,
    orgMember: bool)

  /** Informational author metadata, never used in scoring. */
  datatype AuthorContext = AuthorContext(created: string, name: string, email: string, company: string)

  datatype Author = Author(
    username: string,
    reputation: real,
    context: Option<AuthorContext>,
    stats: Option<Stats>)

  /** The report a provider returns; its generation time is not modelled. */
  datatype Report = Report(
    repo: string,
    atCommit: string,
    totalCommits: int,
    totalContributors: int,
    contributors: seq<Author>)

  /** The commit-count invariant every collected author keeps. */
  predicate CountsConsistent(s: Stats)
  {
    0 <= s.unverifiedCommits <= s.commits
  }

  /**
   * MakeAuthor: a fresh author carries the given name, a zero reputation,
   * an empty context and all-zero, all-false stats.
   */
  function MakeAuthor(username: string): (a: Author)
    ensures a.username == username && a.reputation == 0.0
    ensures a.context == Some(AuthorContext("", "", "", ""))
    ensures a.stats.Some? && CountsConsistent(a.stats.value)
    ensures var s := a.stats.value;
      s.commits == 0 && s.unverifiedCommits == 0 && s.ageDays == 0 && s.lastCommitDays == 0
      && s.publicRepos == 0 && s.privateRepos == 0 && s.followers == 0 && s.following == 0
      && !s.suspended && !s.commitsVerified && !s.strongAuth && !s.orgMember
  {
    Author(username, 0.0, Some(AuthorContext("", "", "", "")),
      Some(Stats(false, false, false, 0, 0, 0, 0, 0, 0, 0, 0, false)))
  }

  /** How %v prints a pointer nested in a struct: its address, or <nil>. */
  function PointerText<T>(p: Option<T>, address: string): string
  {
    if p.None? then "<nil>" else address
  }

  /**
   * Author.String: "<nil>" for a nil author, otherwise Go's %v of the
   * struct, "{username reputation context stats}". The float rendering of
   * the reputation and the pointer addresses are supplied by the caller.
   */
  function AuthorString(a: Option<Author>, reputationText: string, contextAddress: string, statsAddress: string): (r: string)
    ensures a.None? ==> r == "<nil>"
    ensures a.Some? ==> |r| > |a.value.username| && r[..|a.value.username| + 1] == "{" + a.value.username
    ensures a.Some? ==> Strings.Contains(r, a.value.username)
  {
    if a.None? then "<nil>"
    else
      var u := a.value.username;
      var r := "{" + u + " " + reputationText + " " + PointerText(a.value.context, contextAddress)
        + " " + PointerText(a.value.stats, statsAddress) + "}";
      assert Strings.OccursAt(r, u, 1);
      r
  }

  /** Commits recorded on an author; one whose stats were dropped shows none. */
  function CommitsOf(a: Author): int
  {
    if a.stats.Some? then a.stats.value.commits else 0
  }

  /** Total commits of the authors stored under `keys`. */
  ghost function SumCommits(m: map<string, Author>, keys: set<string>): int
    requires keys <= m.Keys
    decreases keys
  {
    if keys == {} then 0
    else
      var k :| k in keys;
      CommitsOf(m[k]) + SumCommits(m, keys - {k})
  }

  /** Any key may be taken out of the sum first. */
  lemma {:induction false} SumCommitsPick(m: map<string, Author>, keys: set<string>, k: string)
    requires k in keys && keys <= m.Keys
    ensures SumCommits(m, keys) == CommitsOf(m[k]) + SumCommits(m, keys - {k})
    decreases keys
  {
    var j :| j in keys && SumCommits(m, keys) == CommitsOf(m[j]) + SumCommits(m, keys - {j});
    if j != k {
      SumCommitsPick(m, keys - {j}, k);
      SumCommitsPick(m, keys - {k}, j);
      assert keys - {j} - {k} == keys - {k} - {j};
    }
  }

  /** The sum only looks at the entries under `keys`. */
  lemma {:induction false} SumCommitsFrame(m: map<string, Author>, m': map<string, Author>, keys: set<string>)
    requires keys <= m.Keys && keys <= m'.Keys
    requires forall k :: k in keys ==> CommitsOf(m[k]) == CommitsOf(m'[k])
    ensures SumCommits(m, keys) == SumCommits(m', keys)
    decreases keys
  {
    if keys != {} {
      var k :| k in keys;
      SumCommitsPick(m, keys, k);
      SumCommitsPick(m', keys, k);
      SumCommitsFrame(m, m', keys - {k});
    }
  }

  /** Storing `a` under `k` changes the total by the difference in commits at `k`. */
  lemma SumCommitsUpdate(m: map<string, Author>, k: string, a: Author)
    ensures k in m ==> SumCommits(m[k := a], m[k := a].Keys) == SumCommits(m, m.Keys) - CommitsOf(m[k]) + CommitsOf(a)
    ensures k !in m ==> SumCommits(m[k := a], m[k := a].Keys) == SumCommits(m, m.Keys) + CommitsOf(a)
  {
    var m' := m[k := a];
    SumCommitsPick(m', m'.Keys, k);
    SumCommitsFrame(m, m', m.Keys - {k});
    if k in m {
      SumCommitsPick(m, m.Keys, k);
      assert m'.Keys - {k} == m.Keys - {k};
    } else {
      assert m'.Keys - {k} == m.Keys - {k} == m.Keys;
    }
  }

  /** Total commits over a list of authors. */
  function SumCommitsSeq(authors: seq<Author>): int
  {
    if |authors| == 0 then 0 else SumCommitsSeq(authors[..|authors| - 1]) + CommitsOf(authors[|authors| - 1])
  }

  /** Usernames of a list of authors. */
  function Usernames(authors: seq<Author>): set<string>
  {
    set a | a in authors :: a.username
  }

  /** No username appears twice. */
  predicate DistinctUsernames(authors: seq<Author>)
  {
    forall i, j :: 0 <= i < j < |authors| ==> authors[i].username != authors[j].username
  }

  /** `authors` lists every entry of `m` once, under its own key. */
  predicate Enumerates(authors: seq<Author>, m: map<string, Author>)
  {
    DistinctUsernames(authors)
    && Usernames(authors) == m.Keys
    && forall i :: 0 <= i < |authors| ==> authors[i].username in m && m[authors[i].username] == authors[i]
  }

  /** Appending a new entry of `m` keeps a partial enumeration of `m` one. */
  lemma EnumerationGrows(authors: seq<Author>, m: map<string, Author>, a: Author)
    requires DistinctUsernames(authors) && a.username !in Usernames(authors)
    requires forall i :: 0 <= i < |authors| ==> authors[i].username in m && m[authors[i].username] == authors[i]
    requires a.username in m && m[a.username] == a
    ensures DistinctUsernames(authors + [a])
    ensures Usernames(authors + [a]) == Usernames(authors) + {a.username}
    ensures forall i :: 0 <= i < |authors + [a]| ==>
      (authors + [a])[i].username in m && m[(authors + [a])[i].username] == (authors + [a])[i]
  {
    var grown := authors + [a];
    forall i, j | 0 <= i < j < |grown| ensures grown[i].username != grown[j].username {
      if j == |authors| {
        assert grown[i] in authors;
      }
    }
  }

  /** A list enumerating a map is as long as the map and holds the same commits. */
  lemma {:induction false} EnumeratesSizeAndSum(authors: seq<Author>, m: map<string, Author>)
    requires Enumerates(authors, m)
    ensures |authors| == |m.Keys|
    ensures SumCommitsSeq(authors) == SumCommits(m, m.Keys)
    decreases |authors|
  {
    if |authors| == 0 {
      assert m.Keys == {};
    } else {
      var n := |authors| - 1;
      var k := authors[n].username;
      var m' := m - {k};
      EnumeratesWithoutLast(authors, m);
      EnumeratesSizeAndSum(authors[..n], m');
      assert m'.Keys == m.Keys - {k};
      SumCommitsPick(m, m.Keys, k);
      SumCommitsFrame(m, m', m.Keys - {k});
    }
  }

  /** Dropping the last author of an enumeration enumerates the map without that author. */
  lemma EnumeratesWithoutLast(authors: seq<Author>, m: map<string, Author>)
    requires Enumerates(authors, m) && |authors| > 0
    ensures Enumerates(authors[..|authors| - 1], m - {authors[|authors| - 1].username})
  {
    var n := |authors| - 1;
    var a := authors[n];
    var k := a.username;
    var init := authors[..n];
    assert authors == init + [a];
    assert Usernames(authors) == Usernames(init) + {k};
    assert k !in Usernames(init);
  }

  /** Ascending by username, as the report's author sort leaves it. */
  predicate SortedByUsername(authors: seq<Author>)
  {
    forall i, j :: 0 <= i < j < |authors| ==> Strings.LessEq(authors[i].username, authors[j].username)
  }

  /**
   * The report's author sort, called by pkg/provider/provider.go:40: an
   * in-place reordering by username. An empty (nil) slice is left alone.
   */
  method SortAuthors(a: array<Author>)
    modifies a
    ensures SortedByUsername(a[..])
    ensures multiset(a[..]) == multiset(old(a[..]))
  {
    var i := 0;
    while i < a.Length
      invariant 0 <= i <= a.Length
      invariant SortedByUsername(a[..i])
      invariant multiset(a[..]) == multiset(old(a[..]))
    {
      InsertAt(a, i);
      i := i + 1;
    }
    assert a[..a.Length] == a[..];
  }

  /** Moves a[i] left past every greater username, extending the sorted prefix by one. */
  method InsertAt(a: array<Author>, i: int)
    requires 0 <= i < a.Length
    requires SortedByUsername(a[..i])
    modifies a
    ensures SortedByUsername(a[..i + 1])
    ensures multiset(a[..]) == multiset(old(a[..]))
  {
    var j := i;
    while j > 0 && !Strings.LessEq(a[j - 1].username, a[j].username)
      invariant 0 <= j <= i
      invariant multiset(a[..]) == multiset(old(a[..]))
      invariant forall p, q :: 0 <= p < q <= i && q != j && p != j ==> Strings.LessEq(a[p].username, a[q].username)
      invariant forall q :: j < q <= i ==> Strings.LessEq(a[j].username, a[q].username)
      invariant 0 < j < i ==> Strings.LessEq(a[j - 1].username, a[j + 1].username)
    {
      Strings.LessEqTotal(a[j - 1].username, a[j].username);
      Swap(a, j - 1);
      j := j - 1;
    }
    forall p, q | 0 <= p < q <= i
      ensures Strings.LessEq(a[p].username, a[q].username)
    {
      if q == j && p < j - 1 {
        Strings.LessEqTransitive(a[p].username, a[j - 1].username, a[j].username);
      }
    }
  }

  /** Exchanges a[k] and a[k + 1]. */
  method Swap(a: array<Author>, k: int)
    requires 0 <= k < a.Length - 1
    modifies a
    ensures a[k] == old(a[k + 1]) && a[k + 1] == old(a[k])
    ensures forall n :: 0 <= n < a.Length && n != k && n != k + 1 ==> a[n] == old(a[n])
    ensures multiset(a[..]) == multiset(old(a[..]))
  {
    a[k], a[k + 1] := a[k + 1], a[k];
  }
}
