/** pkg/reputer/options.go: the library entry point's options, checked without being changed. */
module ReputerOptions {
  import opened Wrappers
  import Strings

  datatype ListCommitAuthorsOptions = ListCommitAuthorsOptions(
    repo: string,
    commit: string,
    stats: bool,
    file: string)

  /**
   * Validate: a nil receiver and an empty repo are the only errors, in that
   * order. Being a function of a value, it modifies nothing.
   */
  function Validate(l: Option<ListCommitAuthorsOptions>): (err: Option<string>)
    ensures l.None? ==> err == Some("options must be populated")
    ensures l.Some? ==> (err.None? <==> l.value.repo != "")
    ensures l.Some? && l.value.repo == "" ==> err == Some("repo must be specified")
  {
    if l.None? then Some("options must be populated")
    else if l.value.repo == "" then Some("repo must be specified")
    else None
  }

  /** The text String prints for the given field values. */
  function Text(repo: string, commit: string, stats: string, file: string): string
  {
    "repo: " + repo + ", commit: " + commit + ", stats: " + stats + ", file: " + file
  }

  lemma TextShowsFields(repo: string, commit: string, stats: string, file: string)
    ensures var r := Text(repo, commit, stats, file);
      Strings.Contains(r, repo) && Strings.Contains(r, commit) && Strings.Contains(r, stats)
      && Strings.Contains(r, file)
  {
    Strings.ContainsLast("repo: ", repo);
    Strings.ContainsExtended("repo: " + repo, repo, ", commit: ");
    Strings.ContainsExtended("repo: " + repo + ", commit: ", repo, commit);
    Strings.ContainsExtended("repo: " + repo + ", commit: " + commit, repo, ", stats: ");
    Strings.ContainsExtended("repo: " + repo + ", commit: " + commit + ", stats: ", repo, stats);
    Strings.ContainsExtended("repo: " + repo + ", commit: " + commit + ", stats: " + stats, repo, ", file: ");
    Strings.ContainsExtended("repo: " + repo + ", commit: " + commit + ", stats: " + stats + ", file: ", repo, file);
    Strings.ContainsLast("repo: " + repo + ", commit: ", commit);
    Strings.ContainsExtended("repo: " + repo + ", commit: " + commit, commit, ", stats: ");
    Strings.ContainsExtended("repo: " + repo + ", commit: " + commit + ", stats: ", commit, stats);
    Strings.ContainsExtended("repo: " + repo + ", commit: " + commit + ", stats: " + stats, commit, ", file: ");
    Strings.ContainsExtended("repo: " + repo + ", commit: " + commit + ", stats: " + stats + ", file: ", commit, file);
    Strings.ContainsLast("repo: " + repo + ", commit: " + commit + ", stats: ", stats);
    Strings.ContainsExtended("repo: " + repo + ", commit: " + commit + ", stats: " + stats, stats, ", file: ");
    Strings.ContainsExtended("repo: " + repo + ", commit: " + commit + ", stats: " + stats + ", file: ", stats, file);
    Strings.ContainsLast("repo: " + repo + ", commit: " + commit + ", stats: " + stats + ", file: ", file);
  }

  /** String: "repo: …, commit: …, stats: …, file: …", showing every field. */
  function String(l: ListCommitAuthorsOptions): (r: string)
    ensures Strings.Contains(r, l.repo) && Strings.Contains(r, l.commit)
    ensures Strings.Contains(r, Strings.BoolText(l.stats)) && Strings.Contains(r, l.file)
  {
    TextShowsFields(l.repo, l.commit, Strings.BoolText(l.stats), l.file);
    Text(l.repo, l.commit, Strings.BoolText(l.stats), l.file)
  }
}
