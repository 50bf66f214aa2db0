# reputer, modelled in Dafny

reputer scores the contributors of a Git repository. A query
`kind/owner/name` (for instance `github.com/owner/repo`) is parsed and
validated, then dispatched to the GitHub or GitLab collector. The collector
reads the commit history page by page, tallies the commits per author, and
attaches a reputation score to each author. The report it returns lists
every contributor once and is sorted by username. Around this pipeline sit
two option validators, the log-level parser and the command line's log-line
formatter.

This project models that pipeline and proves what its code promises:

- the page walk and its stopping rule;
- the per-author tallies and their invariants (`0 <= unverified <= commits`,
  the commit total is the sum of the authors' commits, one entry per login or
  email);
- the all-or-nothing enrichment of GitHub authors;
- the bounds of the score (`[0, 1]`) and the rounding it goes through;
- the error messages and the order in which the error paths are checked;
- the exact text of a CLI log line.

Layout, one module per Go file:

| file | module | Go source |
|---|---|---|
| wrappers.dfy | `Wrappers` | `Option` for Go's nil, `Result` for `(value, error)` |
| strings.dfy | `Strings` | the `strings`/`fmt` functions the core calls |
| report.dfy | `Report` | pkg/report/author.go, report.go, and the author sort |
| report_math.dfy | `ReportMath` | pkg/report/math.go |
| query.dfy | `ReportQuery` | pkg/report/query.go |
| paging.dfy | `Paging` | the page loop shared by both collectors |
| github_algo.dfy | `GithubAlgo` | pkg/provider/github/algo.go |
| github_provider.dfy | `GithubProvider` | pkg/provider/github/provider.go |
| gitlab_algo.dfy | `GitlabAlgo` | pkg/provider/gitlab/algo.go |
| gitlab_provider.dfy | `GitlabProvider` | pkg/provider/gitlab/provider.go |
| provider.dfy | `Provider` | pkg/provider/provider.go |
| reporter_options.dfy | `ReporterOptions` | pkg/reporter/options.go |
| reputer_options.dfy | `ReputerOptions` | pkg/reputer/options.go |
| logger.dfy | `Logger` | pkg/logging/logger.go |
| cli.dfy | `Cli` | pkg/logging/cli.go |

Modelling choices:

- **Values and objects.** `Author`, `Stats`, `Query` and `Report` are
  datatypes, and Go's pointer fields are `Option`s. Two kinds of object are
  Dafny classes:
  - the reporter options, which `Validate` changes in place;
  - the CLI handler and its writer.
- **Loops stay loops.** The collectors' page loops, their inner commit loops,
  the GitHub enrichment loop and the attribute loop of `Handle` are methods
  with loops. `calculateReputation` has no loop: it adds its weighted terms to
  a running sum one statement at a time, and `GithubAlgo.CalculateReputation`
  does the same, with asserts proving the sum equal to `GithubAlgo.Score`.
  Each method is proved against a specification function, and that
  function's properties are proved as lemmas:
  - `Paging.Walk` gives the commits read;
  - `Collect` gives the author map;
  - `GithubAlgo.Score` gives the unrounded score;
  - `Cli.Line` gives the log line.
- **Remote calls are inputs.** The page fetches, user lookups and
  organisation checks are function-valued parameters.
- **Termination needs a finite history.** A ghost page number `last` at which
  the history has ended is required. `Paging.WalkIgnoresBound` shows that the
  result does not depend on which such page is given.

Where the code and its tests or comments disagree, the model follows the code:

- **`MakeQuery` and `http://`.** The code strips only `https://`, so an
  `http://…` URI splits into five parts and is refused with "invalid format".
  pkg/report/query_test.go:43-52 expects it to parse.
  `ReportQuery.HttpSchemeNotStripped` proves the code's behaviour.
- **`ToFixed` rounds.** Its comment says it truncates, but it rounds half away
  from zero. `ReportMath.MathTestCases` proves the values the code's tests pin.
- **The last-commit age.** Commits arrive newest first, and the age is meant
  to come from the newest one. The age is the ceiling of the days since the
  commit, so any commit in the past gives at least 1. A newest commit dated
  at or after the current time (a future date or clock skew) gives age 0,
  because negative ages are clamped to 0. The code treats 0 as "not yet
  recorded", so the next, older commit overwrites it.
  `GithubProvider.ZeroAgeCommitDoesNotFixAge` exhibits this. The model keeps
  the code's behaviour.
- **The scorer call.** pkg/provider/github/provider.go:201 passes three
  arguments to `calculateReputation`, but pkg/provider/github/algo.go:71
  takes one. The call is modelled as that one-argument scorer.

## Model

| member | source | states |
|---|---|---|
| Strings.Split | pkg/report/query.go:23 | strings.Split on one character gives one part more than there are separators, no part holds the separator, and joining the parts gives back the input |
| ReportMath.Round | pkg/report/math.go:6-8 | the result is the nearest integer, and a half is rounded away from zero on both sides of 0 |
| ReportMath.RoundIsNearest | pkg/report/math.go:6-8 | `Round(x)` is within 1/2 of `x` |
| ReportMath.RoundIsOdd | pkg/report/math.go:6-8 | `Round(-x) == -Round(x)` |
| ReportMath.RoundOfInteger | pkg/report/math.go:6-8 | an integral input is returned unchanged |
| ReportMath.RoundMonotone | pkg/report/math.go:6-8 | rounding never reverses the order of two inputs |
| ReportMath.ToFixedError | pkg/report/math.go:11-14 | `ToFixed(x, p)` differs from `x` by at most half a unit in the p-th decimal place |
| ReportMath.ToFixedIdempotent | pkg/report/math.go:11-14 | rounding an already rounded value changes nothing |
| ReportMath.ToFixedMonotone | pkg/report/math.go:11-14 | `ToFixed` keeps the order of its inputs |
| ReportMath.ToFixedKeepsZeroAndOne | pkg/report/math.go:11-14 | for any non-negative precision, 0 and 1 are kept exactly |
| ReportMath.ToFixedUnitInterval | pkg/report/math.go:11-14 | for any non-negative precision, `[0, 1]` is mapped into `[0, 1]` |
| ReportMath.MathTestCases | pkg/report/math_test.go:9-19 | Round(1.5)=2, Round(1.4)=1, Round(-1.5)=-2, ToFixed(1.234,2)=1.23, ToFixed(1.235,2)=1.24 (rounding, not truncation), ToFixed(0,2)=0 |
| Report.MakeAuthor | pkg/report/author.go:9-15 | the author has the given username and a zero reputation; its context is present with every string empty; its stats are present with every counter 0 and every flag false, so `0 <= unverified <= commits` holds from the start |
| Report.AuthorString | pkg/report/author.go:25-30 | a nil author prints `<nil>`; any other author prints `{` followed by its username, so the text contains the username |
| Report.EnumeratesSizeAndSum | pkg/provider/gitlab/provider.go:90-100 | a list that holds each entry of an author map exactly once has as many authors as the map has keys, and the same total of commits |
| Report.SortAuthors | pkg/provider/provider.go:40 | the authors end up in ascending username order and are a permutation (same multiset) of the authors before; an empty list is fine |
| ReportQuery.MakeQuery | pkg/report/query.go:15-38 | an empty repo gives "repo must be specified"; otherwise one leading `https://` is removed, and the query is accepted iff the rest holds exactly two `/`; the error is "invalid format: " + that rest; on success kind, owner and name contain no `/` and `kind/owner/name` equals the stored repo, and commit and stats are copied |
| ReportQuery.Validate | pkg/report/query.go:71-93 | the result is nil iff the query is present and repo, kind, owner and name are all non-empty; otherwise it is the message for the first failing check, in the order nil query, repo, kind, owner, name |
| ReportQuery.String | pkg/report/query.go:63-68 | a nil query prints `<nil>`; a present query's text contains its repo |
| ReportQuery.ParsedQueryValidity | pkg/report/query.go:23-35 | a query `MakeQuery` accepts passes `Validate` exactly when its three segments are non-empty (so `a//b` parses but is refused later) |
| ReportQuery.SplitThreeSegments | pkg/report/query.go:23-26 | three segments without `/` joined by `/` split back into exactly those three |
| ReportQuery.HttpsSchemeStripped | pkg/report/query.go:20-35 | `https://kind/owner/name` parses to kind, owner and name, with repo `kind/owner/name` |
| ReportQuery.HttpSchemeNotStripped | pkg/report/query.go:20-26 | `http://kind/owner/name` is refused with "invalid format: http://kind/owner/name" |
| Provider.ProvidersKnowTwoHosts | pkg/provider/provider.go:14-17 | the dispatch table's keys are exactly github.com (GitHub) and gitlab.com (GitLab) |
| Provider.Dispatch | pkg/provider/provider.go:24-33 | an invalid query gives "invalid query: " + the validation message, before the table is consulted; a valid query with an unknown kind gives "unsupported git provider: " + kind; dispatch succeeds iff the query is valid and its kind is one of the two hosts |
| Provider.GetAuthors | pkg/provider/provider.go:23-48 | refusals come from `Dispatch` alone and no collector is involved; a collector's error is wrapped as "error listing authors with {query}: err"; on success the report is the collector's report with its contributors sorted by username and a permutation of the original ones, and every other field is unchanged |
| Paging.Requested | pkg/provider/github/provider.go:36-97 | pages are requested as 1, 2, 3, … in turn; every page but the last is full and without error, and the last is short or failed |
| Paging.RequestedStep | pkg/provider/github/provider.go:49-96 | after a terminal page nothing more is requested; after a full page the next page number is requested |
| Paging.WalkStep | pkg/provider/github/provider.go:63-96 | a short page is the last one read, and its commits are still counted; a full page is followed by the next page |
| Paging.WalkFailsAtLastPage | pkg/provider/github/provider.go:48-51 | the walk fails iff the last page requested fails, and then with that page's error |
| Paging.WalkIgnoresBound | pkg/provider/github/provider.go:92-94 | the walk stops at the first short or failed page whatever bound on the history is given |
| GithubAlgo.WeightsSumToOne | pkg/provider/github/algo.go:11-18 | the six weights sum to exactly 1 |
| GithubAlgo.ClampedRatio | pkg/provider/github/algo.go:28-36 | the result is 0 when the ceiling or the value is non-positive, 1 from the ceiling up, and otherwise val/ceil (`r * ceil == val`); it is always in `[0, 1]` |
| GithubAlgo.ClampedRatioMonotone | pkg/provider/github/algo.go:28-36 | under a fixed ceiling, a larger value never gets a smaller ratio |
| GithubAlgo.LogCurve | pkg/provider/github/algo.go:40-49 | the result is 0 for a non-positive ceiling or value; otherwise it is log(1+val)/log(1+ceil), clamped at 1; it is always in `[0, 1]` |
| GithubAlgo.ExpDecay | pkg/provider/github/algo.go:53-61 | a non-positive half-life gives 0 and is checked first; then a non-positive value gives 1; otherwise the result is exp(-val·ln2/halfLife) |
| GithubAlgo.ScoreInUnitInterval | pkg/provider/github/algo.go:87-113 | the unrounded sum is in `[0, 1]` for any stats, even negative or inconsistent ones |
| GithubAlgo.Reputation | pkg/provider/github/algo.go:115 | the stored score is in `[0, 1]` and within 0.005 of the unrounded sum |
| GithubAlgo.StrongAuthAddsQuarter | pkg/provider/github/algo.go:98-100 | two-factor authentication adds exactly 0.25 to the sum |
| GithubAlgo.FollowersNeedFollowing | pkg/provider/github/algo.go:103-107 | when the author follows nobody, the follower count does not affect the sum |
| GithubAlgo.VerificationNeedsCommits | pkg/provider/github/algo.go:109-113 | without commits, the unverified count does not affect the sum |
| GithubAlgo.AllVerifiedEarnsFullWeight | pkg/provider/github/algo.go:109-113 | when every commit is verified, the verification term is its full weight |
| GithubAlgo.CalculateReputation | pkg/provider/github/algo.go:71-117 | a nil author, missing stats or a suspended account leave the author unchanged; otherwise only the reputation changes, and it becomes the sum built step by step, rounded to two decimals |
| GithubAlgo.FreshAuthorScoresZero | pkg/provider/github/algo.go:87-113 | a freshly made author scores 0 |
| GitlabAlgo.CalculateReputation | pkg/provider/gitlab/algo.go:13-26 | nil stats give 0; a commit that deletes lines gives 0.1; any other commit gives 0, whatever it adds |
| GitlabAlgo.StepValuesAreKept | pkg/provider/gitlab/algo.go:25 | rounding to two decimals keeps 0 and 0.1 |
| GitlabAlgo.ScoreIsStep | pkg/provider/gitlab/algo.go:18-25 | the score is always 0 or 0.1 |
| GithubProvider.CommitDays | pkg/provider/github/provider.go:81-84 | a commit's age in days is clamped at 0, and a non-negative age is kept as it is |
| GithubProvider.Tally | pkg/provider/github/provider.go:73-87 | one more commit is counted; one more unverified commit is counted exactly when verification is absent, its flag is absent or the flag is false; only the commit counts and the last-commit age can change |
| GithubProvider.AuthorlessCommitSkipped | pkg/provider/github/provider.go:63-66 | a commit without a GitHub author leaves the map unchanged |
| GithubProvider.CollectKeys | pkg/provider/github/provider.go:63-71 | the map's keys are exactly the logins of the commits that have an author |
| GithubProvider.CollectCounts | pkg/provider/github/provider.go:68-76 | every entry is keyed by its own login; it has stats and context; it counts that login's commits and unverified commits; `0 <= unverified <= commits` |
| GithubProvider.CollectSum | pkg/provider/github/provider.go:68-89 | the authors' commit counts add up to the number of commits with an author, which is what the total counter counts |
| GithubProvider.LastCommitDaysWrittenOnce | pkg/provider/github/provider.go:78-87 | the last-commit age changes only while it is 0 and the date is known; it is then set to the clamped age; it stays non-negative; once positive it never changes |
| GithubProvider.ZeroAgeCommitDoesNotFixAge | pkg/provider/github/provider.go:78-87 | a newest commit whose age is 0 (dated at or after the current time, the negative age clamped) leaves the age at 0, and an older commit after it sets the age |
| GithubProvider.LoadAuthor | pkg/provider/github/provider.go:147-209 | a nil client gives "client must be specified" and a nil author gives "author must be specified"; a failed user lookup gives "error getting user login: err" and no new author; otherwise the result is the loaded author: profile fields copied, context fields overwritten only where the profile has them, membership kept if the org check fails, scored, and stats and context dropped unless asked for |
| GithubProvider.LoadedKeepsCounts | pkg/provider/github/provider.go:168-177 | loading keeps the username, commit counts and last-commit age, so `0 <= unverified <= commits` still holds; CommitsVerified is set iff there are no unverified commits |
| GithubProvider.OrgCheckFailureKeepsMembership | pkg/provider/github/provider.go:192-199 | a failed membership check is not an error and leaves OrgMember as it was |
| GithubProvider.StatsDroppedScoreKept | pkg/provider/github/provider.go:201-206 | without stats the author has nil Stats and Context but the same username and reputation as with stats |
| GithubProvider.LoadedReputation | pkg/provider/github/provider.go:168-201 | a suspended account keeps its reputation; any other account gets a reputation in `[0, 1]` |
| GithubProvider.EnrichAuthors | pkg/provider/github/provider.go:116-138 | enrichment succeeds iff every user lookup succeeds; on failure the error is "error loading authors: " + the error of some failing author; on success every collected author is listed exactly once, loaded |
| GithubProvider.ListAuthors | pkg/provider/github/provider.go:35-143 | a failed page fails the call with "error listing commits for owner/name: err"; a failed enrichment fails it too; on success the report carries the query's repo and commit, the number of authored commits, the number of distinct logins, and each author loaded exactly once; the pages requested are exactly `Paging.Requested`: 1, 2, 3, … of 100, none after the short or failed page |
| GithubProvider.AddPage | pkg/provider/github/provider.go:63-90 | after one page the map and the total are those of all commits read so far |
| GithubProvider.TotalIsSumOfCollected | pkg/provider/github/provider.go:89-103 | the report's commit total is the sum of the collected authors' commits, and there are as many authors as distinct logins |
| GithubProvider.NoStatsMeansBareContributors | pkg/provider/github/provider.go:203-206 | without stats, every listed contributor has nil Stats and nil Context |
| GitlabProvider.FirstSeen | pkg/provider/gitlab/provider.go:71-77 | a new email's author is keyed by the email; its reputation is the score of that commit's stats, its context holds only the author's name, and its stats start at zero |
| GitlabProvider.CollectKeys | pkg/provider/gitlab/provider.go:70-77 | the map's keys are exactly the emails of the commits read; no commit is skipped |
| GitlabProvider.CollectCounts | pkg/provider/gitlab/provider.go:71-80 | every entry is keyed by its own email and counts that email's commits |
| GitlabProvider.RecordKeepsFirstSeen | pkg/provider/gitlab/provider.go:71-79 | a later commit for a known email changes neither the reputation nor the context |
| GitlabProvider.CollectFirstSeen | pkg/provider/gitlab/provider.go:71-77 | first seen wins: each email's reputation and name come from its first commit |
| GitlabProvider.CollectSum | pkg/provider/gitlab/provider.go:79-80 | the authors' commit counts add up to the number of commits read |
| GitlabProvider.ListAuthors | pkg/provider/gitlab/provider.go:29-105 | an empty token gives "GITLAB_TOKEN environment variable must be set" and no page is requested; a failed page gives "error listing commits for repo: err"; on success the report carries repo and commit, counts every commit read, and lists each collected author once, with the contributor count equal to the list's length; with a token the pages requested are exactly `Paging.Requested`: 1, 2, 3, … of 100, none after the short or failed page |
| GitlabProvider.AddPage | pkg/provider/gitlab/provider.go:70-81 | after one page the map and the total are those of all commits read so far |
| GitlabProvider.AuthorsOf | pkg/provider/gitlab/provider.go:90-93 | every author of the map is listed exactly once |
| GitlabProvider.TotalIsSumOfContributors | pkg/provider/gitlab/provider.go:90-101 | the contributors' commits add up to the commit total, and there is one contributor per distinct email |
| ReporterOptions.Validate | pkg/reporter/options.go:18-38 | nil gives "options must be populated", then an empty repo gives "repo must be specified", then a format other than "", json or yaml gives "unsupported format: f (must be json or yaml)"; an error leaves the format alone; on success "" becomes json; no other field ever changes; after success the format is json or yaml |
| ReporterOptions.RevalidateIsNoOp | pkg/reporter/options.go:27-37 | a second Validate gives the same result as the first; afterwards repo, commit, stats and file are as before the first call, and the format is as before except that the empty format of valid options has become "json" |
| ReporterOptions.TextShowsFields | pkg/reporter/options.go:40-43 | the options text contains each of the five field texts |
| ReporterOptions.String | pkg/reporter/options.go:40-43 | String contains the repo, the commit, `true`/`false`, the file and the format |
| ReputerOptions.Validate | pkg/reputer/options.go:16-26 | nil gives "options must be populated"; the result is nil iff the repo is non-empty, and otherwise "repo must be specified"; nothing is modified |
| ReputerOptions.String | pkg/reputer/options.go:28-31 | String contains the repo, the commit, `true`/`false` and the file |
| Logger.TrimLeft | pkg/logging/logger.go:131 | the result is a suffix of the input; what was dropped is all white space; the result does not start with white space |
| Logger.TrimRight | pkg/logging/logger.go:131 | the result is a prefix of the input; what was dropped is all white space; the result does not end with white space |
| Logger.TrimSpace | pkg/logging/logger.go:131 | the result neither starts nor ends with Unicode white space |
| Logger.LowerChar | pkg/logging/logger.go:131 | an ASCII capital becomes its lower-case letter, U+0130 (dotted capital I) becomes 'i', U+212A (Kelvin sign) becomes 'k', and every other character is kept |
| Logger.ParseLogLevel | pkg/logging/logger.go:128-143 | Debug iff the normalised input is "debug"; Warn iff it is "warn" or "warning"; Error iff it is "error"; Info for everything else, including "" and white space |
| Logger.AddSource | pkg/logging/logger.go:27 | source locations are added iff the input normalises to "debug" |
| Logger.LevelsOrdered | pkg/logging/logger.go:132-139 | Debug < Info < Warn < Error |
| Logger.LowerKeepsTrimmed | pkg/logging/logger.go:131 | lower-casing a trimmed string leaves it trimmed |
| Logger.LowerIdempotent | pkg/logging/logger.go:131 | lower-casing twice is lower-casing once |
| Logger.NormalizeIdempotent | pkg/logging/logger.go:131 | trimming and lower-casing an already normalised string changes nothing |
| Logger.ParseDependsOnNormalForm | pkg/logging/logger.go:131 | two inputs with the same trimmed, lower-cased form parse to the same level |
| Logger.ParseOfNormalForm | pkg/logging/logger.go:131 | parsing the normalised input gives the same level as parsing the input |
| Logger.TrimSurrounding | pkg/logging/logger.go:131 | a word without surrounding white space is recovered from any white space around it |
| Logger.ParseIgnoresSurroundingSpace | pkg/logging/logger.go:131 | any white space around a word without surrounding white space leaves the parsed level unchanged |
| Logger.ParseIgnoresCase | pkg/logging/logger.go:131 | a lower-cased input parses to the same level as the input, so "DEBUG" and "debug" agree |
| Logger.TrimLeftOfLower | pkg/logging/logger.go:131 | trimming leading white space commutes with lower-casing |
| Logger.TrimRightOfLower | pkg/logging/logger.go:131 | trimming trailing white space commutes with lower-casing |
| Logger.DottedCapitalIParses | pkg/logging/logger.go:131-135 | "WARN" + U+0130 + "NG" lowers to "warning" and so parses to Warn |
| Logger.OnlySpaceIsInfo | pkg/logging/logger.go:138-139 | an input of white space alone is Info |
| Cli.GetLogPrefix | pkg/logging/cli.go:23-28 | the prefix is the environment value when set and non-empty, and "cli" otherwise; it is never empty |
| Cli.AttrTexts | pkg/logging/cli.go:57-62 | one `key=value` text per attribute, in record order |
| Cli.Writer.WriteLine | pkg/logging/cli.go:75 | the writer's text grows by the line and one newline |
| Cli.CLIHandler.Enabled | pkg/logging/cli.go:48-50 | a record passes iff its level is at least the handler's level |
| Cli.CLIHandler.Handle | pkg/logging/cli.go:53-77 | the writer's text grows by exactly the coloured line for this record and a newline; the attributes are gathered one by one; nothing else changes |
| Cli.CLIHandler.WithAttrs | pkg/logging/cli.go:81-83 | the very same handler is returned |
| Cli.CLIHandler.WithGroup | pkg/logging/cli.go:87-89 | the very same handler is returned |
| Cli.LineShape | pkg/logging/cli.go:54-73 | a line opens with its colour and `[prefix] message` and closes with the reset code; with attributes it has `: ` and the `key=value` texts joined by single spaces; without attributes it has no `: ` |
| Cli.RedIffError | pkg/logging/cli.go:69-73 | a line starts red iff the level is at least Error, and green iff it is below |
| Cli.OneLinePerRecord | pkg/logging/cli.go:75 | when prefix, message and attributes hold no newline, Handle writes exactly one newline |
| Cli.ParsedLevelFilters | pkg/logging/cli.go:100-103 | a handler built from a level string always passes errors, and passes debug records iff the string normalises to "debug" |

## Left out

- Client construction is not modelled: `getClient` (pkg/provider/github/client.go is not part of this model) and the GitLab `lab.NewClient` error. The clients are given as function parameters that always exist.
- `waitForRateLimit` is not modelled; its source is not part of this model.
- Debug logging is not modelled (`slog.Debug`, logrus `Debugf`, the GitLab stub warning).
- `time.Now` and the `math.Ceil` of hours per day are not modelled. Commit ages, account ages and the "date is zero" flag are inputs.
- `GeneratedOn`, `Meta` and `ModelVersion` are not modelled; the types behind `Meta` are not part of this model.
- The report's `SortAuthors` is not part of this model either. `Report.SortAuthors` models the ascending-by-username order and the permutation that its caller and tests rely on.
- The three-argument scorer call at pkg/provider/github/provider.go:201 refers to a scorer whose source is not part of this model. The one-argument scorer in pkg/provider/github/algo.go is used in its place.
- GithubProvider.EnrichAuthors: errgroup's concurrency, its limit of 10 and the mutex are not modelled. Authors are loaded one at a time, in arbitrary map order. On failure the error is that of some failing author, not necessarily the first to fail in time.
- Go pointer aliasing is not modelled. `loadAuthor` and `calculateReputation` return the updated author rather than writing through a shared `*Author`, and the collectors' maps hold author values.
- Cli.CLIHandler.Handle: a write error from `fmt.Fprintln` is not modelled. The writer always accepts the line.
- `slog` attribute values are not formatted here. They arrive already rendered as `%v` prints them.
- Report.AuthorString: the float text of the reputation and the pointer addresses are parameters supplied by the caller.
- Logger.ToLower folds only the characters whose lower-case form is ASCII: A-Z, U+0130 and U+212A. Go's `strings.ToLower` also lowers other non-ASCII letters, but to non-ASCII letters, so the level parsed is the same either way.
- The `int64` counters (commits, unverified commits, the total commit counter, the last-commit age) are unbounded integers. Overflow would need 2^63 commits or days.
- Reals stand in for `float64`. IEEE rounding (for instance of `1.235*100`) is not modelled.
- GithubAlgo.LogCurve: `math.Log` is a parameter. The only property assumed of it is that it is positive above 1.
- GithubAlgo.ExpDecay: `math.Exp` is a parameter.
- GithubProvider.ListAuthors needs a page at which the commit history ends (the ghost `last`). An infinite history of full pages is outside the model.
- GitlabProvider.ListAuthors needs the same kind of end page.
- The `context.Context` arguments and their cancellation are not modelled.
- The handler construction and `SetDefault*` calls in pkg/logging/logger.go are not modelled. Only `ParseLogLevel` and the `addSource` comparison are kept.
