/**
 * The tool as a whole, `main`: repository and push checks, the commit
 * context, run discovery, polling, the report, and the exit status. Every
 * answer of `git` and `gh` is a field of the environment record; a fetch
 * of a run's details is a lookup in a map from run ID to its decoded
 * details, a missing key standing for a failed or undecodable fetch.
 */
module Tool {
  import opened CiTypes
  import opened Decimal
  import opened Discovery
  import opened Poll
  import opened Report

  /** The decoded answer of `gh repo view --json nameWithOwner`. */
  datatype RepoAnswer = RepoQueryFailed | RepoUndecodable | RepoName(nameWithOwner: string)

  datatype Env = Env(
    gitDir: bool,                      // `git rev-parse --git-dir` succeeded
    unpushed: Option<string>,          // trimmed `git log @{u}..HEAD --oneline`; None when it fails
    commit: Option<string>,            // `git rev-parse HEAD`
    shortCommit: Option<string>,       // `git rev-parse --short HEAD`
    branch: Option<string>,            // `git branch --show-current`
    repo: RepoAnswer,
    pr: Option<PRInfo>,                // None when `gh pr view` fails or cannot be decoded
    runArg: string,                    // the first positional argument, "" when absent
    keepGoing: bool,                   // the --keep-going flag
    listings: seq<ListAnswer>,         // answers to the discovery attempts, in order
    pollTicks: seq<map<int, RunDetail>>, // per poll tick, the details each run's fetch returned
    finalDetails: map<int, RunDetail>) // the details fetched for the report

  datatype ToolError =
    | NotAGitRepo                      // "not in a git repository"
    | UnpushedCommits(commits: string) // "push your changes first before waiting for CI"
    | NoCommit                         // "could not get commit"
    | NoShortCommit                    // "could not get short commit"
    | NoBranch                         // "could not get branch"
    | NoRepo                           // "could not determine GitHub repository"
    | RepoUnparsable                   // "could not parse repo info"
    | DiscoveryFailed(error: DiscoveryError)

  datatype Outcome =
    | Failed(error: ToolError, code: int)   // the error is printed, then `os.Exit(1)`
    | StillWaiting                     // the given poll ticks ran out before polling returned
    | Finished(hasFailure: bool, report: seq<ReportEvent>, code: int)

  datatype ToolRun = ToolRun(searchEvents: seq<DiscoveryEvent>, pollEvents: seq<PollEvent>, outcome: Outcome)

  /** `checkPushed`: no upstream is allowed; otherwise any unpushed commit is an error. */
  function CheckPushed(unpushed: Option<string>): (r: Option<ToolError>)
    ensures r.None? <==> unpushed.None? || unpushed.value == ""
    ensures r.Some? ==> r.value == UnpushedCommits(unpushed.value)
  {
    match unpushed
    case None => None
    case Some(log) => if log != "" then Some(UnpushedCommits(log)) else None
  }

  /** The commit link of the report. */
  function CommitURL(repo: string, commit: string): (u: string)
    ensures |u| == |"https://github.com/"| + |repo| + |"/commit/"| + |commit|
    ensures u[..19] == "https://github.com/" && u[19..19 + |repo|] == repo
    ensures u[19 + |repo|..27 + |repo|] == "/commit/" && u[27 + |repo|..] == commit
  {
    "https://github.com/" + repo + "/commit/" + commit
  }

  /** `getContext`: the answers are consulted in order and the first failure is reported. */
  function ResolveContext(env: Env): (r: Result<Context, ToolError>)
    ensures r.Ok? <==> env.commit.Some? && env.shortCommit.Some? && env.branch.Some? && env.repo.RepoName?
    ensures env.commit.None? ==> r == Err(NoCommit)
    ensures env.commit.Some? && env.shortCommit.None? ==> r == Err(NoShortCommit)
    ensures env.commit.Some? && env.shortCommit.Some? && env.branch.None? ==> r == Err(NoBranch)
    ensures env.commit.Some? && env.shortCommit.Some? && env.branch.Some? ==>
              (env.repo.RepoQueryFailed? ==> r == Err(NoRepo)) && (env.repo.RepoUndecodable? ==> r == Err(RepoUnparsable))
    ensures r.Ok? ==> r.value.commit == env.commit.value && r.value.shortCommit == env.shortCommit.value
                      && r.value.branch == env.branch.value && r.value.repo == env.repo.nameWithOwner
    ensures r.Ok? ==> r.value.commitURL == CommitURL(r.value.repo, r.value.commit)
    ensures r.Ok? ==> r.value.prURL == "" && r.value.prNum == ""
  {
    if env.commit.None? then Err(NoCommit)
    else if env.shortCommit.None? then Err(NoShortCommit)
    else if env.branch.None? then Err(NoBranch)
    else match env.repo
      case RepoQueryFailed => Err(NoRepo)
      case RepoUndecodable => Err(RepoUnparsable)
      case RepoName(repo) =>
        Ok(Context(env.commit.value, env.shortCommit.value, env.branch.value, repo,
                   CommitURL(repo, env.commit.value), "", ""))
  }

  /** `getPRInfo`: the PR number and URL are filled in only when the PR lookup succeeded. */
  function WithPR(ctx: Context, pr: Option<PRInfo>): (c: Context)
    ensures pr.None? ==> c == ctx
    ensures c.commit == ctx.commit && c.shortCommit == ctx.shortCommit && c.branch == ctx.branch
            && c.repo == ctx.repo && c.commitURL == ctx.commitURL
    ensures pr.Some? ==> c.prURL == pr.value.url
    ensures pr.Some? && MinInt <= pr.value.number <= MaxInt ==> Atoi(c.prNum) == Some(pr.value.number)
  {
    if pr.Some? then
      var n := pr.value.number;
      var c := ctx.(prNum := FormatInt(n), prURL := pr.value.url);
      if MinInt <= n <= MaxInt then AtoiFormatInt(n); c else c
    else ctx
  }

  /** One fetch per run ID, in run order; a run the map lacks was not fetched. */
  function Fetches(runIDs: seq<int>, details: map<int, RunDetail>): (f: seq<Option<RunDetail>>)
    ensures |f| == |runIDs|
  {
    seq(|runIDs|, i requires 0 <= i < |runIDs| =>
      if runIDs[i] in details then Some(details[runIDs[i]]) else None)
  }

  function PollFetches(runIDs: seq<int>, ticks: seq<map<int, RunDetail>>): (t: seq<seq<Option<RunDetail>>>)
    ensures Aligned(runIDs, t)
  {
    seq(|ticks|, k requires 0 <= k < |ticks| => Fetches(runIDs, ticks[k]))
  }

  /** The exit status once the report is shown: 1 when fail-fast saw a failure, else 1 exactly when the report failed. */
  function ExitCode(failFast: bool, hasFailure: bool, reportOk: bool): int
  {
    if failFast && hasFailure then 1 else if !reportOk then 1 else 0
  }

  /** What the tool does, from start to exit. */
  function Run(env: Env): ToolRun
  {
    if !env.gitDir then ToolRun([], [], Failed(NotAGitRepo, 1))
    else if CheckPushed(env.unpushed).Some? then ToolRun([], [], Failed(CheckPushed(env.unpushed).value, 1))
    else match ResolveContext(env)
      case Err(e) => ToolRun([], [], Failed(e, 1))
      case Ok(c) => Watch(WithPR(c, env.pr), env.runArg, env.listings, env.keepGoing, env.pollTicks, env.finalDetails)
  }

  /** Discovery, polling and the report, once the context is known. */
  function Watch(ctx: Context, runArg: string, listings: seq<ListAnswer>, keepGoing: bool,
                 pollTicks: seq<map<int, RunDetail>>, finalDetails: map<int, RunDetail>): ToolRun
  {
    var d := Discover(runArg, ctx.shortCommit, listings);
    match d.result
    case Err(e) => ToolRun(d.events, [], Failed(DiscoveryFailed(e), 1))
    case Ok(runIDs) =>
      var failFast := !keepGoing;
      var p := PollFrom(Initial, Observations(runIDs, PollFetches(runIDs, pollTicks)), failFast);
      match p.outcome
      case StillPolling(_) => ToolRun(d.events, p.events, StillWaiting)
      case Returned(hasFailure, _) =>
        var fetched := Fetches(runIDs, finalDetails);
        ToolRun(d.events, p.events,
                Finished(hasFailure, ReportEvents(runIDs, fetched, ctx),
                         ExitCode(failFast, hasFailure, AllSucceeded(fetched))))
  }

  method RunTool(env: Env) returns (r: ToolRun)
    ensures r == Run(env)
  {
    if !env.gitDir {
      return ToolRun([], [], Failed(NotAGitRepo, 1));
    }
    var pushed := CheckPushed(env.unpushed);
    if pushed.Some? {
      return ToolRun([], [], Failed(pushed.value, 1));
    }
    var c := ResolveContext(env);
    if c.Err? {
      return ToolRun([], [], Failed(c.error, 1));
    }
    var ctx := WithPR(c.value, env.pr);

    var d := FindRuns(env.runArg, ctx.shortCommit, env.listings);
    if d.result.Err? {
      return ToolRun(d.events, [], Failed(DiscoveryFailed(d.result.error), 1));
    }
    var runIDs := d.result.value;

    var failFast := !env.keepGoing;
    var p := WaitForRuns(runIDs, failFast, PollFetches(runIDs, env.pollTicks));
    if p.outcome.StillPolling? {
      return ToolRun(d.events, p.events, StillWaiting);
    }
    var hasFailure := p.outcome.hasFailure;

    var fetched := Fetches(runIDs, env.finalDetails);
    var ok, report := ShowResults(runIDs, fetched, ctx);
    var code := 0;
    if failFast && hasFailure {
      code := 1;
    } else if !ok {
      code := 1;
    }
    r := ToolRun(d.events, p.events, Finished(hasFailure, report, code));
  }

  // ---------------------------------------------------------------------
  // Properties of the whole run

  /**
   * Once polling returns, the tool exits 0 exactly when fail-fast did not
   * stop on a failure and every run fetched for the report succeeded, and 1
   * otherwise; a fail-fast stop exits 1 even when the report passes.
   */
  lemma ExitStatus(env: Env)
    requires Run(env).outcome.Finished?
    ensures var o := Run(env).outcome;
            o.code in {0, 1}
            && (o.code == 0 <==> !(!env.keepGoing && o.hasFailure)
                                 && forall e :: e in o.report && e.Banner? ==> e.passed)
    ensures var o := Run(env).outcome;
            !env.keepGoing && o.hasFailure ==> o.code == 1
  {
    var c := ResolveContext(env).value;
    var ctx := WithPR(c, env.pr);
    var runIDs := Discover(env.runArg, ctx.shortCommit, env.listings).result.value;
    ReportSucceedsIffNoFailedBanner(runIDs, Fetches(runIDs, env.finalDetails), ctx);
  }

  /**
   * Every error stop exits 1, and every run that exits at all exits 0 or 1;
   * only a report that was shown can exit 0.
   */
  lemma ExitCodes(env: Env)
    ensures Run(env).outcome.Failed? ==> Run(env).outcome.code == 1
    ensures !Run(env).outcome.StillWaiting? ==> Run(env).outcome.code in {0, 1}
    ensures !Run(env).outcome.StillWaiting? && Run(env).outcome.code == 0 ==> Run(env).outcome.Finished?
  {
    if Run(env).outcome.Finished? {
      ExitStatus(env);
    }
  }

  /** With --keep-going a failure seen while polling does not decide the exit status: the report does. */
  lemma KeepGoingExitFollowsReport(env: Env)
    requires env.keepGoing && Run(env).outcome.Finished?
    ensures var o := Run(env).outcome;
            o.code == 0 <==> forall e :: e in o.report && e.Banner? ==> e.passed
  {
    ExitStatus(env);
  }

  /** The checks come in order: outside a repository nothing else is consulted. */
  lemma {:induction false} ChecksComeFirst(env: Env, other: Env)
    requires !env.gitDir && !other.gitDir
    ensures Run(env) == Run(other) == ToolRun([], [], Failed(NotAGitRepo, 1))
  {
  }

  /** A branch without an upstream is treated exactly like one with nothing unpushed. */
  lemma NoUpstreamIsAllowed(env: Env)
    requires env.unpushed.None?
    ensures Run(env) == Run(env.(unpushed := Some("")))
  {
    var other := env.(unpushed := Some(""));
    assert CheckPushed(env.unpushed) == CheckPushed(other.unpushed);
    assert ResolveContext(env) == ResolveContext(other) by {
      assert env.commit == other.commit && env.shortCommit == other.shortCommit;
      assert env.branch == other.branch && env.repo == other.repo;
    }
  }

  /** Unpushed commits stop the tool before the context, discovery or polling. */
  lemma UnpushedCommitsStop(env: Env)
    requires env.gitDir && env.unpushed.Some? && env.unpushed.value != ""
    ensures Run(env) == ToolRun([], [], Failed(UnpushedCommits(env.unpushed.value), 1))
  {
  }

  /** An explicit run ID makes the whole run independent of the discovery listings. */
  lemma ExplicitRunIDIgnoresListings(env: Env, listings: seq<ListAnswer>)
    requires env.runArg != ""
    ensures Run(env) == Run(env.(listings := listings))
    ensures Run(env).searchEvents == []
  {
    var other := env.(listings := listings);
    assert ResolveContext(env) == ResolveContext(other) by {
      assert env.commit == other.commit && env.shortCommit == other.shortCommit;
      assert env.branch == other.branch && env.repo == other.repo;
    }
    if env.gitDir && CheckPushed(env.unpushed).None? && ResolveContext(env).Ok? {
      var ctx := WithPR(ResolveContext(env).value, env.pr);
      ExplicitRunIDSkipsSearch(env.runArg, ctx.shortCommit, env.listings, listings);
      assert Run(env) == Watch(ctx, env.runArg, env.listings, env.keepGoing, env.pollTicks, env.finalDetails);
      assert Run(other) == Watch(ctx, env.runArg, listings, env.keepGoing, env.pollTicks, env.finalDetails);
    }
  }

  /** A run that reaches the report passed every check, and from there on it is discovery, polling and the report. */
  lemma FinishedRunPassedChecks(env: Env)
    requires Run(env).outcome.Finished?
    ensures env.gitDir && CheckPushed(env.unpushed).None?
    ensures env.commit.Some? && env.shortCommit.Some? && env.branch.Some? && env.repo.RepoName?
    ensures Run(env) == Watch(WithPR(ResolveContext(env).value, env.pr), env.runArg, env.listings,
                              env.keepGoing, env.pollTicks, env.finalDetails)
  {
  }

  /** The report's commit link points at the full commit in the repository. */
  lemma ReportLinksCommit(env: Env)
    requires Run(env).outcome.Finished?
    ensures env.commit.Some? && env.repo.RepoName?
    ensures CommitLink(CommitURL(env.repo.nameWithOwner, env.commit.value)) in Run(env).outcome.report
  {
    FinishedRunPassedChecks(env);
    var ctx := WithPR(ResolveContext(env).value, env.pr);
    WatchLinksCommit(ctx, env.runArg, env.listings, env.keepGoing, env.pollTicks, env.finalDetails);
  }

  lemma WatchLinksCommit(ctx: Context, runArg: string, listings: seq<ListAnswer>, keepGoing: bool,
                         pollTicks: seq<map<int, RunDetail>>, finalDetails: map<int, RunDetail>)
    requires Watch(ctx, runArg, listings, keepGoing, pollTicks, finalDetails).outcome.Finished?
    ensures CommitLink(ctx.commitURL) in Watch(ctx, runArg, listings, keepGoing, pollTicks, finalDetails).outcome.report
  {
    var runIDs := Discover(runArg, ctx.shortCommit, listings).result.value;
    ReportEndsWithLinks(runIDs, Fetches(runIDs, finalDetails), ctx);
  }
}
