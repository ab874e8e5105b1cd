# gh-wait-ci, modelled in Dafny

`gh-wait-ci` is a small command-line tool. It waits for the GitHub Actions
runs of the current commit to finish and then reports how they went. It runs
`git` and `gh` as subprocesses and works in five steps:

1. It checks that the working directory is a git repository with nothing
   unpushed.
2. It resolves the commit context: the commit, the short commit, the branch,
   the repository, the commit URL and, when there is one, the pull request.
3. It discovers the workflow runs. An explicit run ID is parsed and used.
   Otherwise it lists the commit's runs up to five times, pausing between
   attempts.
4. It polls every run until all of them have completed, or, in fail-fast
   mode, until some job has failed. It redraws a progress block only when
   the jobs' fingerprint changes.
5. It prints a final report per run and exits 0 or 1.

The model has one module per concern:

| file | module | what it holds |
|---|---|---|
| `types.dfy` | `CiTypes` | the decoded records (`RunInfo`, `Job`, `RunDetail`, `PRInfo`, `Context`), `Option`, `Result` |
| `decimal.dfy` | `Decimal` | Go's `%d`/`strconv.Itoa` and `strconv.Atoi` on 64-bit `int` |
| `classify.dfy` | `Classify` | the six-way job display switch, the failure branch, the report icon, the percentage |
| `snapshot.dfy` | `Snapshot` | one tick's jobs in visiting order, the counts and the `currentState` fingerprint |
| `poll.dfy` | `Poll` | one tick (`Tick` function, `PollTick` method with the nested loops) and the loop (`PollFrom` function, `WaitForRuns` method) |
| `screen.dfy` | `Screen` | the terminal as the erase and redraw events leave it |
| `discovery.dfy` | `Discovery` | `findRuns` (`Discover` function, `FindRuns` method) |
| `report.dfy` | `Report` | `showResults` (`ReportEvents` and `AllSucceeded` functions, `ShowResults` and `ShowRun` methods) |
| `tool.dfy` | `Tool` | `main`: the checks, the context, the wiring and the exit status (`Run` function, `RunTool` method) |

Every answer from `git` and `gh` is an input of the model:

- the answers of the discovery attempts;
- one fetched-or-not outcome per run per poll tick;
- the details fetched for the report.

What the tool writes is modelled as a sequence of events: erase-line
sequences, rendered blocks, pauses, report lines. Each Go loop is a Dafny
method with invariants, proved equal to a specification function. The
properties are lemmas about those functions.

Three behaviours of the program are worth knowing. The model keeps them as
the code has them:

- `waitForRuns` redraws its progress block in place by erasing the current
  tick's `totalJobs + 1` lines (main.go:298), not the height of the block
  drawn before. When the number of jobs changes between redraws, rows of
  the old block stay on the screen (`Screen.FewerJobsLeaveStaleRows`) or
  lines written above it are erased (`Screen.MoreJobsEraseEarlierRows`).
- The `currentState` fingerprint (main.go:262) does not tell all job states
  apart: a ':' inside a job name can make two different states print the
  same fingerprint, and then no redraw happens
  (`Snapshot.FingerprintNotInjective`).
- A tick in which every fetch fails sees no run as unfinished, so the loop
  stops there (`Poll.AllFetchesFailedStops`). Likewise, a run whose details
  cannot be fetched for the report gets a "Could not get run details" line
  and does not make the report fail (`Report.NothingFetchedStillSucceeds`).

## Model

| member | source | states |
|---|---|---|
| Decimal.FormatInt | main.go:169 | `%d`/`Itoa` text is non-empty and starts with '-' exactly for negative values |
| Decimal.Atoi | main.go:175-178 | an accepted text starts with a digit, or with a sign followed by at least one more character; every later character is a digit, so a lone '+' or '-' is rejected; the value fits a 64-bit `int` |
| Decimal.AtoiFormatInt | main.go:175-178 | reading back the decimal text of any 64-bit `int` gives that value |
| Decimal.AtoiSignedDigits | main.go:175-178 | an optional sign followed by digits, leading zeros allowed, reads as the digits' value, negated after '-'; it is accepted exactly when that value fits a 64-bit `int` |
| Decimal.AtoiRejectsNonDigit | main.go:175-178 | a character that is neither a digit nor a leading sign makes the run ID invalid |
| Classify.Kind | main.go:264-282 | each job gets exactly one of six display kinds, decided by status first and conclusion second; a failed line carries the conclusion, an unknown status carries the status |
| Classify.SetsFailureIffFailedLine | main.go:265-275 | a job sets `hasFailure` exactly when it is drawn as failed |
| Classify.FailureNeedsCompletion | main.go:265-274 | only a completed job can set `hasFailure` |
| Classify.PercentBounds | main.go:291-294 | the percentage is 0 without jobs, otherwise the floor of completed*100/total, and at most 100 while completed <= total |
| Classify.IconFor | main.go:349-359 | the report icon is decided by the conclusion alone: success, failure, skipped, anything else |
| Snapshot.CompletedAtMostTotal | main.go:260-266 | `completedJobs` never exceeds `totalJobs` |
| Snapshot.AllCompletedIffCountIsTotal | main.go:260-266 | `completedJobs == totalJobs` exactly when every job seen has status "completed" |
| Snapshot.EntriesAppend | main.go:254-284 | the jobs of runs visited one after another are each run's jobs, in run order |
| Snapshot.AllFetchesFailedNoEntries | main.go:254-258 | a tick in which every fetch failed sees no job |
| Snapshot.FingerprintDependsOnKeysOnly | main.go:262 | the fingerprint depends only on each job's run ID, name, status and conclusion |
| Snapshot.FingerprintEmptyIffNoJobs | main.go:251-262 | the fingerprint is empty exactly when no job was seen, and otherwise ends with a record's closing separator |
| Snapshot.FingerprintNotInjective | main.go:262 | two different job sequences can have the same fingerprint when a name contains ':' |
| Poll.ObservedPercentInRange | main.go:248-294 | a tick's counts keep completed <= total, so the percentage is within 0..100 |
| Poll.Tick | main.go:291-318 | one tick redraws exactly when the fingerprint changed and remembers it; `firstPrint` drops at the first redraw; `hasFailure` is sticky; the tick stops on a failure under fail-fast, else when every fetched run is done |
| Poll.RenderedBlock | main.go:296-308 | a redraw erases nothing the first time and this tick's `totalJobs + 1` lines afterwards, then draws a block of `totalJobs + 1` lines |
| Poll.FirstTickRendersIffJobs | main.go:243-308 | the first tick draws exactly when it sees a job, and then only the block |
| Poll.AllFetchesFailedStops | main.go:248-318 | a tick in which every fetch failed keeps the failure flag as it was and stops the loop: on the failure under fail-fast, else as all done |
| Poll.AddRunJobs | main.go:260-284 | the inner job loop leaves the accumulators equal to the tally of all jobs seen so far plus this run's |
| Poll.FoldIsTally | main.go:260-284 | stepping the accumulators job by job gives the tally of all the jobs seen |
| Poll.FoldRun | main.go:254-289 | a run whose fetch failed is skipped; a fetched run adds its jobs and clears `allDone` unless it has completed |
| Poll.FoldRuns | main.go:248-289 | the run loop computes the tally of every fetched run's jobs and `allDone` over the fetched runs |
| Poll.Render | main.go:291-318 | the percentage, the redraw (with its clear loop) and the stop decision compute exactly one `Tick` |
| Poll.PollTick | main.go:247-318 | one loop iteration is `Tick` applied to what the fetches returned |
| Poll.ObserveWellFormed | main.go:260-283 | every tick draws one line per job it counted |
| Poll.PollIteration | main.go:247-321 | after one iteration either the loop has returned the whole result, or what follows is the rest of the loop |
| Poll.WaitForRuns | main.go:239-325 | the loop produces exactly the events and the outcome of `PollFrom` over the fetch outcomes of its ticks |
| Poll.PollStopsAtFirstStop | main.go:310-318 | the loop returns after the first tick with a failure under fail-fast or with every fetched run done, and returns whether any tick up to then saw a failure |
| Poll.PollWithoutStop | main.go:247-321 | when no tick meets a stop condition the loop is still polling after the last tick |
| Screen.EraseLast | main.go:297-302 | n erase sequences take back exactly the last n lines |
| Screen.NoRenderKeepsScreen | main.go:296 | a tick whose fingerprint did not change leaves the screen unchanged |
| Screen.FirstRenderAppends | main.go:297-307 | the first redraw writes the block below what is already on screen |
| Screen.LaterRenderReplacesRows | main.go:297-307 | a later redraw removes this tick's `totalJobs + 1` lines and writes the new block |
| Screen.SameJobCountKeepsOneBlock | main.go:298-306 | with an unchanged job count the new block replaces the old one exactly |
| Screen.FewerJobsLeaveStaleRows | main.go:298-306 | with fewer jobs than before the top rows of the old block stay above the new one |
| Screen.MoreJobsEraseEarlierRows | main.go:298-306 | with more jobs than before the erasing removes lines written above the old block |
| Discovery.FindRuns | main.go:173-220 | the parse, the retry loop and the ID copy give exactly `Discover`: its events and its IDs or error |
| Discovery.ExplicitRunIDSkipsSearch | main.go:174-181 | an explicit run ID makes no query, ignores the listings, and gives that ID or "invalid run ID" |
| Discovery.TraceCounts | main.go:186-205 | attempts first..last make one query each and pause one time fewer |
| Discovery.SearchStopsAtFirstFound | main.go:186-205 | the retries stop at the first non-empty listing and keep that listing |
| Discovery.SearchFindsNothing | main.go:186-209 | when every listing is empty all remaining attempts are queried and nothing is found |
| Discovery.DiscoveryFindsFirst | main.go:183-219 | with a first non-empty listing at attempt a: a queries, a - 1 pauses, the last event a query, and that listing's IDs in order |
| Discovery.DiscoveryFindsNothing | main.go:183-209 | with only empty listings: five queries, four pauses, and "no workflow runs found" for the short commit |
| Discovery.DiscoverySearchOutcome | main.go:183-220 | without a run ID: 1 to 5 queries, a pause only between queries, and failure exactly when every listing is empty |
| Report.JobRowFor | main.go:348-366 | a job row shows the job's name and its conclusion's icon, and has a log command exactly for "failure", with the job's own ID |
| Report.ShowRun | main.go:337-376 | one fetched run's block is computed exactly, and it passed exactly when its conclusion is "success" |
| Report.ShowResults | main.go:327-387 | the report returns `AllSucceeded` of the fetched details and writes exactly the run blocks and then the links |
| Report.ReportSucceedsIffNoFailedBanner | main.go:327-386 | the report returns true exactly when it shows no FAILED banner |
| Report.FailedLogsIffNotSucceeded | main.go:330-376 | a run gets the failed-logs command exactly when it was fetched and did not succeed |
| Report.LogCommandOnlyForFailedJobs | main.go:348-366 | inside a run's block, job k's row carries the log command exactly when its conclusion is "failure" |
| Report.NothingFetchedStillSucceeds | main.go:330-335 | when no run can be fetched the report lists one notice per run and still returns true |
| Report.ReportEndsWithLinks | main.go:379-384 | the report ends with the commit link, then the PR link when there is one |
| Tool.CheckPushed | main.go:100-112 | no upstream or an empty log passes; anything else is an unpushed-commits error carrying the log |
| Tool.CommitURL | main.go:146 | the commit link is `https://github.com/`, the repository, `/commit/`, and the commit, in that order |
| Tool.ResolveContext | main.go:114-148 | the context resolves exactly when the commit, short commit, branch and repository answers all succeed; otherwise the first failing answer names the error; a resolved context holds those answers, the commit URL built from them, and empty PR fields |
| Tool.WithPR | main.go:158-171 | a failed PR lookup leaves the context unchanged; a found PR sets the PR URL and the number's decimal text, which reads back as the number, and no other field |
| Tool.RunTool | main.go:389-445 | the whole run's steps and exit status are exactly `Run` of the environment's answers |
| Tool.ExitStatus | main.go:431-445 | after polling the exit code is 0 or 1; it is 0 exactly when fail-fast did not stop on a failure and no FAILED banner was shown; a fail-fast stop on failure exits 1 |
| Tool.ExitCodes | main.go:401-445 | every error stop exits 1, every ending run exits 0 or 1, and only a run that showed its report can exit 0 |
| Tool.KeepGoingExitFollowsReport | main.go:438-445 | with --keep-going the exit code is 0 exactly when the report shows no FAILED banner |
| Tool.ChecksComeFirst | main.go:401-404 | outside a git repository nothing else is consulted, and the run fails with "not in a git repository" |
| Tool.NoUpstreamIsAllowed | main.go:101-105 | a branch without an upstream runs exactly like one with nothing unpushed |
| Tool.UnpushedCommitsStop | main.go:406-409 | unpushed commits stop the tool before the context, discovery or polling |
| Tool.ExplicitRunIDIgnoresListings | main.go:420-429 | with an explicit run ID the whole run does not depend on the run listings and makes no query |
| Tool.FinishedRunPassedChecks | main.go:401-432 | a run that reaches the report passed every check and resolved every part of its context |
| Tool.ReportLinksCommit | main.go:146 | a finished run's report links the full commit in the repository |
| Tool.WatchLinksCommit | main.go:379-380 | once the context is known, the report of a finished run contains its commit link |

## Left out

- Running `git` and `gh` (`runCommand`) is not modelled. Each answer is an input of the model, and a failed command is a `None`, `QueryFailed` or `RepoQueryFailed` answer.
- JSON decoding is not modelled. A decode is either the decoded record or a failure. `gh run view` fetches are a map from run ID to details; a missing key stands for a failed fetch or a failed decode.
- The five-second sleeps are `Wait` and `Sleep` events without a duration. The loop itself is unbounded, so the model runs it over any finite sequence of ticks; when the ticks run out it reports `StillPolling` or `StillWaiting`.
- Colours, separators, headings, blank lines and the informational lines are left out: "Watching specified run", "Finding workflow runs", "Found N workflow run(s)", the run list and `printContext`. The report's events carry the information of each printed line, not its text.
- `flag` parsing and `os.Exit` are left out. The `--keep-going` flag and the first positional argument are fields of the environment. The exit status is the outcome's `code`: 1 for every error stop, 0 or 1 after the report; a run still polling when its ticks run out has none.
- The emoji of a job line is represented by its display kind; the bytes of the emoji are not modelled.
- The counters are unbounded integers. Go's `int` counters cannot overflow for any realistic number of jobs.
- `waitForRuns` never returns a non-nil error, so the model has no error outcome for polling, and the check in `main` after it never fires.
- The PR number text (`prNum`) is computed with `FormatInt` but is not shown anywhere, as in the source.
- Report.FailedLogsIffNotSucceeded: stated only for a run ID that appears once in the list. With duplicate IDs, one run's command can come from the other copy's block.
- `Discovery`: attempts beyond the given answers read as failed queries.
- `Decimal.Atoi`: a syntax error and a range error are both `None`.
