/** pkg/report/query.go: parsing "kind/owner/name" repository URIs and validating queries. */
module ReportQuery {
  import opened Wrappers
  import Strings

  /** kind, owner and name */
  const RepoNameParts := 3

  datatype Query = Query(
    repo: string,
    commit: string,
    stats: bool,
    kind: string,
    owner: string,
    name: string)

  /** The repo string MakeQuery parses: one leading "https://" removed, nothing else. */
  function Stripped(repo: string): string
  {
    Strings.TrimPrefix(repo, "https://")
  }

  /**
   * MakeQuery: an empty repo is refused; otherwise, after removing one
   * leading "https://", the string must hold exactly two '/' so that it
   * splits into kind, owner and name, which join back to it. Empty
   * segments pass here (Validate catches them).
   */
  function MakeQuery(repo: string, commit: string, stats: bool): (r: Result<Query>)
    ensures repo == "" ==> r == Err("repo must be specified")
    ensures repo != "" ==> (r.Ok? <==> Strings.Count(Stripped(repo), '/') == 2)
    ensures repo != "" && r.Err? ==> r.error == "invalid format: " + Stripped(repo)
    ensures r.Ok? ==> var q := r.value;
      && q.repo == Stripped(repo) && q.commit == commit && q.stats == stats
      && q.kind + "/" + q.owner + "/" + q.name == q.repo
      && '/' !in q.kind && '/' !in q.owner && '/' !in q.name
  {
    if repo == "" then Err("repo must be specified")
    else
      var trimmed := Stripped(repo);
      var parts := Strings.Split(trimmed, '/');
      if |parts| != RepoNameParts then Err("invalid format: " + trimmed)
      else
        assert parts[1..][1..] == parts[2..] && |parts[2..]| == 1;
        assert Strings.Join(parts[1..], "/") == parts[1] + "/" + parts[2];
        assert Strings.Join(parts, "/") == parts[0] + "/" + (parts[1] + "/" + parts[2]);
        Ok(Query(trimmed, commit, stats, parts[0], parts[1], parts[2]))
  }

  /**
   * Query.Validate: nil only when repo, kind, owner and name are all set;
   * otherwise the message of the first missing one, checked in that order.
   */
  function Validate(q: Option<Query>): (err: Option<string>)
    ensures err.None? <==> q.Some? && q.value.repo != "" && q.value.kind != "" && q.value.owner != "" && q.value.name != ""
    ensures q.None? ==> err == Some("query must be specified")
    ensures q.Some? && q.value.repo == "" ==> err == Some("repo must be specified")
    ensures q.Some? && q.value.repo != "" && q.value.kind == "" ==> err == Some("kind must be specified")
    ensures q.Some? && q.value.repo != "" && q.value.kind != "" && q.value.owner == "" ==> err == Some("owner must be specified")
    ensures q.Some? && q.value.repo != "" && q.value.kind != "" && q.value.owner != "" && q.value.name == "" ==> err == Some("name must be specified")
  {
    if q.None? then Some("query must be specified")
    else if q.value.repo == "" then Some("repo must be specified")
    else if q.value.kind == "" then Some("kind must be specified")
    else if q.value.owner == "" then Some("owner must be specified")
    else if q.value.name == "" then Some("name must be specified")
    else None
  }

  /** Go's %v of a Query value: its fields in declaration order. */
  function QueryText(q: Query): (r: string)
    ensures |r| > |q.repo| && r[1..|q.repo| + 1] == q.repo
  {
    "{" + q.repo + " " + q.commit + " " + Strings.BoolText(q.stats) + " " + q.kind + " " + q.owner + " " + q.name + "}"
  }

  /** Query.String: "<nil>" for a nil query, otherwise the %v text, which shows the repo. */
  function String(q: Option<Query>): (r: string)
    ensures q.None? ==> r == "<nil>"
    ensures q.Some? ==> Strings.Contains(r, q.value.repo)
  {
    if q.None? then "<nil>"
    else
      var r := QueryText(q.value);
      assert Strings.OccursAt(r, q.value.repo, 1);
      r
  }

  /**
   * A parsed query passes Validate exactly when its three segments are
   * non-empty: "a//b" parses but is then rejected.
   */
  lemma ParsedQueryValidity(repo: string, commit: string, stats: bool)
    requires MakeQuery(repo, commit, stats).Ok?
    ensures var q := MakeQuery(repo, commit, stats).value;
      Validate(Some(q)).None? <==> q.kind != "" && q.owner != "" && q.name != ""
  {
    var q := MakeQuery(repo, commit, stats).value;
    assert |q.repo| >= 2;
  }

  /** Three separator-free segments joined by '/' split back into themselves. */
  lemma SplitThreeSegments(kind: string, owner: string, name: string)
    requires '/' !in kind && '/' !in owner && '/' !in name
    ensures Strings.Split(kind + "/" + owner + "/" + name, '/') == [kind, owner, name]
    ensures Strings.Count(kind + "/" + owner + "/" + name, '/') == 2
  {
    var s := kind + "/" + owner + "/" + name;
    assert s == kind + ['/'] + (owner + ['/'] + name);
    Strings.SplitAfterHead(kind, '/', owner + ['/'] + name);
    Strings.SplitAfterHead(owner, '/', name);
    Strings.SplitWithoutSeparator(name, '/');
  }

  /** The https:// case of pkg/report/query_test.go, for any well-formed path. */
  lemma HttpsSchemeStripped(kind: string, owner: string, name: string)
    requires '/' !in kind && '/' !in owner && '/' !in name
    ensures MakeQuery("https://" + kind + "/" + owner + "/" + name, "", false)
      == Ok(Query(kind + "/" + owner + "/" + name, "", false, kind, owner, name))
  {
    var path := kind + "/" + owner + "/" + name;
    var s := "https://" + kind + "/" + owner + "/" + name;
    assert s == "https://" + path;
    assert s[..|"https://"|] == "https://";
    assert Stripped(s) == path;
    SplitThreeSegments(kind, owner, name);
  }

  /**
   * Only "https://" is removed: an "http://" URI keeps its scheme, splits
   * into five parts and is refused, although pkg/report/query_test.go
   * expects it to parse.
   */
  lemma HttpSchemeNotStripped(kind: string, owner: string, name: string)
    requires '/' !in kind && '/' !in owner && '/' !in name
    ensures MakeQuery("http://" + kind + "/" + owner + "/" + name, "", false)
      == Err("invalid format: http://" + kind + "/" + owner + "/" + name)
  {
    var s := "http://" + kind + "/" + owner + "/" + name;
    HttpPathSlashes(kind, owner, name);
    assert s[4] == ':';
    assert Stripped(s) == s;
  }

  /** "http://kind/owner/name" holds four slashes. */
  lemma HttpPathSlashes(kind: string, owner: string, name: string)
    requires '/' !in kind && '/' !in owner && '/' !in name
    ensures Strings.Count("http://" + kind + "/" + owner + "/" + name, '/') == 4
  {
    var path := kind + "/" + owner + "/" + name;
    PathSlashes(kind, owner, name);
    assert "http://" + kind + "/" + owner + "/" + name == "http:" + ("//" + path);
    Strings.CountAppend("http:", "//" + path, '/');
    Strings.CountAbsent("http:", '/');
    Strings.CountAppend("//", path, '/');
    assert "//"[1..] == "/" && "/"[1..] == "";
  }

  /** "kind/owner/name" holds two slashes. */
  lemma PathSlashes(kind: string, owner: string, name: string)
    requires '/' !in kind && '/' !in owner && '/' !in name
    ensures Strings.Count(kind + "/" + owner + "/" + name, '/') == 2
  {
    assert kind + "/" + owner + "/" + name == kind + ("/" + (owner + ("/" + name)));
    Strings.CountAppend(kind, "/" + (owner + ("/" + name)), '/');
    Strings.CountAppend("/", owner + ("/" + name), '/');
    Strings.CountAppend(owner, "/" + name, '/');
    Strings.CountAppend("/", name, '/');
    Strings.CountAbsent(kind, '/');
    Strings.CountAbsent(owner, '/');
    Strings.CountAbsent(name, '/');
    assert "/"[1..] == "";
  }
}
