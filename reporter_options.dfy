/**
 * pkg/reporter/options.go: the CLI's report options. Validate fills in the
 * default output format in place, so the options are an object.
 */
module ReporterOptions {
  import opened Wrappers
  import Strings

  class ListCommitAuthorsOptions {
    var repo: string
    var commit: string
    var stats: bool
    var file: string
    var format: string

    constructor (repo: string, commit: string, stats: bool, file: string, format: string)
      ensures this.repo == repo && this.commit == commit && this.stats == stats
      ensures this.file == file && this.format == format
    {
      this.repo, this.commit, this.stats, this.file, this.format := repo, commit, stats, file, format;
    }
  }

  /** The formats Validate accepts; "" stands for the default. */
  predicate AcceptedFormat(format: string)
  {
    format == "" || format == "json" || format == "yaml"
  }

  /**
   * Validate: a nil receiver, then an empty repo, then an unknown format
   * are errors and leave the options as they were; on success an empty
   * format becomes "json". No field but the format ever changes.
   */
  method Validate(l: ListCommitAuthorsOptions?) returns (err: Option<string>)
    modifies l
    ensures l == null ==> err == Some("options must be populated")
    ensures l != null ==>
      l.repo == old(l.repo) && l.commit == old(l.commit) && l.stats == old(l.stats) && l.file == old(l.file)
    ensures l != null && old(l.repo) == "" ==> err == Some("repo must be specified") && l.format == old(l.format)
    ensures l != null && old(l.repo) != "" && !AcceptedFormat(old(l.format)) ==>
      err == Some("unsupported format: " + old(l.format) + " (must be json or yaml)") && l.format == old(l.format)
    ensures l != null && old(l.repo) != "" && AcceptedFormat(old(l.format)) ==>
      err.None? && l.format == (if old(l.format) == "" then "json" else old(l.format))
    ensures err.None? ==> l != null && (l.format == "json" || l.format == "yaml")
  {
    if l == null {
      return Some("options must be populated");
    }
    if l.repo == "" {
      return Some("repo must be specified");
    }
    if !AcceptedFormat(l.format) {
      return Some("unsupported format: " + l.format + " (must be json or yaml)");
    }
    if l.format == "" {
      l.format := "json";
    }
    return None;
  }

  /**
   * Validate is idempotent: run again, it gives the same answer, and the
   * options stay as the first run left them: only an empty format of valid
   * options changes, to "json".
   */
  method RevalidateIsNoOp(l: ListCommitAuthorsOptions) returns (first: Option<string>, second: Option<string>)
    modifies l
    ensures second == first
    ensures l.repo == old(l.repo) && l.commit == old(l.commit) && l.stats == old(l.stats) && l.file == old(l.file)
    ensures l.format == (if first.None? && old(l.format) == "" then "json" else old(l.format))
    ensures first.None? ==> l.format == "json" || l.format == "yaml"
  {
    first := Validate(l);
    second := Validate(l);
  }

  /** The text String prints for the given field values. */
  function Text(repo: string, commit: string, stats: string, file: string, format: string): string
  {
    "repo: " + repo + ", commit: " + commit + ", stats: " + stats + ", file: " + file + ", format: " + format
  }

  lemma TextShowsFields(repo: string, commit: string, stats: string, file: string, format: string)
    ensures var r := Text(repo, commit, stats, file, format);
      Strings.Contains(r, repo) && Strings.Contains(r, commit) && Strings.Contains(r, stats)
      && Strings.Contains(r, file) && Strings.Contains(r, format)
  {
    Strings.ContainsLast("repo: ", repo);
    Strings.ContainsExtended("repo: " + repo, repo, ", commit: ");
    Strings.ContainsExtended("repo: " + repo + ", commit: ", repo, commit);
    Strings.ContainsExtended("repo: " + repo + ", commit: " + commit, repo, ", stats: ");
    Strings.ContainsExtended("repo: " + repo + ", commit: " + commit + ", stats: ", repo, stats);
    Strings.ContainsExtended("repo: " + repo + ", commit: " + commit + ", stats: " + stats, repo, ", file: ");
    Strings.ContainsExtended("repo: " + repo + ", commit: " + commit + ", stats: " + stats + ", file: ", repo, file);
    Strings.ContainsExtended("repo: " + repo + ", commit: " + commit + ", stats: " + stats + ", file: " + file, repo, ", format: ");
    Strings.ContainsExtended("repo: " + repo + ", commit: " + commit + ", stats: " + stats + ", file: " + file + ", format: ", repo, format);
    Strings.ContainsLast("repo: " + repo + ", commit: ", commit);
    Strings.ContainsExtended("repo: " + repo + ", commit: " + commit, commit, ", stats: ");
    Strings.ContainsExtended("repo: " + repo + ", commit: " + commit + ", stats: ", commit, stats);
    Strings.ContainsExtended("repo: " + repo + ", commit: " + commit + ", stats: " + stats, commit, ", file: ");
    Strings.ContainsExtended("repo: " + repo + ", commit: " + commit + ", stats: " + stats + ", file: ", commit, file);
    Strings.ContainsExtended("repo: " + repo + ", commit: " + commit + ", stats: " + stats + ", file: " + file, commit, ", format: ");
    Strings.ContainsExtended("repo: " + repo + ", commit: " + commit + ", stats: " + stats + ", file: " + file + ", format: ", commit, format);
    Strings.ContainsLast("repo: " + repo + ", commit: " + commit + ", stats: ", stats);
    Strings.ContainsExtended("repo: " + repo + ", commit: " + commit + ", stats: " + stats, stats, ", file: ");
    Strings.ContainsExtended("repo: " + repo + ", commit: " + commit + ", stats: " + stats + ", file: ", stats, file);
    Strings.ContainsExtended("repo: " + repo + ", commit: " + commit + ", stats: " + stats + ", file: " + file, stats, ", format: ");
    Strings.ContainsExtended("repo: " + repo + ", commit: " + commit + ", stats: " + stats + ", file: " + file + ", format: ", stats, format);
    Strings.ContainsLast("repo: " + repo + ", commit: " + commit + ", stats: " + stats + ", file: ", file);
    Strings.ContainsExtended("repo: " + repo + ", commit: " + commit + ", stats: " + stats + ", file: " + file, file, ", format: ");
    Strings.ContainsExtended("repo: " + repo + ", commit: " + commit + ", stats: " + stats + ", file: " + file + ", format: ", file, format);
    Strings.ContainsLast("repo: " + repo + ", commit: " + commit + ", stats: " + stats + ", file: " + file + ", format: ", format);
  }

  /** String: "repo: …, commit: …, stats: …, file: …, format: …", showing every field. */
  function String(l: ListCommitAuthorsOptions): (r: string)
    reads l
    ensures Strings.Contains(r, l.repo) && Strings.Contains(r, l.commit)
    ensures Strings.Contains(r, Strings.BoolText(l.stats)) && Strings.Contains(r, l.file)
    ensures Strings.Contains(r, l.format)
  {
    TextShowsFields(l.repo, l.commit, Strings.BoolText(l.stats), l.file, l.format);
    Text(l.repo, l.commit, Strings.BoolText(l.stats), l.file, l.format)
  }
}
