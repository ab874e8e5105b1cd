/**
 * The final report, `showResults`: a block per run whose details could be
 * fetched (banner, job rows, run URL, and the failed-logs command when the
 * run did not succeed), then the commit and pull-request links. The
 * details fetched for the report are inputs, aligned with the run IDs.
 */
module Report {
  import opened CiTypes
  import opened Classify

  datatype ReportEvent =
    | DetailUnavailable(runID: int)                       // "Could not get run details for <id>"
    | Banner(runName: string, passed: bool)               // "<name> PASSED" / "<name> FAILED"
    | JobRow(icon: Icon, jobName: string, logJob: Option<int>) // the job line, with `gh run view --log --job <id>`
    | RunURL(url: string)
    | FailedLogs(runID: int)                              // "gh run view <id> --log-failed"
    | CommitLink(url: string)
    | PRLink(url: string)

  /** A job's line: icon from its conclusion, and a log command exactly for a failed job. */
  function JobRowFor(j: Job): (e: ReportEvent)
    ensures e.JobRow? && e.jobName == j.name
    ensures e.icon == IconFor(j.conclusion)
    ensures e.logJob.Some? <==> j.conclusion == "failure"
    ensures e.logJob.Some? ==> e.logJob.value == j.databaseId
  {
    JobRow(IconFor(j.conclusion), j.name, if j.conclusion == "failure" then Some(j.databaseId) else None)
  }

  function JobRows(jobs: seq<Job>): seq<ReportEvent>
  {
    seq(|jobs|, k requires 0 <= k < |jobs| => JobRowFor(jobs[k]))
  }

  /** The block of one fetched run. */
  function RunBlock(runID: int, d: RunDetail): seq<ReportEvent>
  {
    [Banner(d.name, d.conclusion == "success")] + JobRows(d.jobs) + [RunURL(d.url)]
      + (if d.conclusion != "success" then [FailedLogs(runID)] else [])
  }

  function RunReport(runID: int, f: Option<RunDetail>): seq<ReportEvent>
  {
    if f.Some? then RunBlock(runID, f.value) else [DetailUnavailable(runID)]
  }

  /** One block per run, in run order. */
  function Blocks(runIDs: seq<int>, fetched: seq<Option<RunDetail>>): (bs: seq<seq<ReportEvent>>)
    requires |runIDs| == |fetched|
    ensures |bs| == |runIDs|
  {
    seq(|runIDs|, i requires 0 <= i < |runIDs| => RunReport(runIDs[i], fetched[i]))
  }

  function Flatten<T>(bs: seq<seq<T>>): seq<T>
  {
    if bs == [] then [] else Flatten(bs[..|bs| - 1]) + bs[|bs| - 1]
  }

  /** The run blocks, one after the other. */
  function Reports(runIDs: seq<int>, fetched: seq<Option<RunDetail>>): seq<ReportEvent>
    requires |runIDs| == |fetched|
  {
    Flatten(Blocks(runIDs, fetched))
  }

  /** The commit link always, the pull-request link only when there is one. */
  function Links(ctx: Context): seq<ReportEvent>
  {
    [CommitLink(ctx.commitURL)] + (if ctx.prURL != "" then [PRLink(ctx.prURL)] else [])
  }

  function ReportEvents(runIDs: seq<int>, fetched: seq<Option<RunDetail>>, ctx: Context): seq<ReportEvent>
    requires |runIDs| == |fetched|
  {
    Reports(runIDs, fetched) + Links(ctx)
  }

  /** Every run whose details were fetched concluded "success"; an unfetchable run is passed over. */
  predicate AllSucceeded(fetched: seq<Option<RunDetail>>)
  {
    forall i :: 0 <= i < |fetched| && fetched[i].Some? ==> fetched[i].value.conclusion == "success"
  }

  lemma ReportsPrefix(runIDs: seq<int>, fetched: seq<Option<RunDetail>>, i: nat)
    requires |runIDs| == |fetched| && i < |runIDs|
    ensures Reports(runIDs[..i + 1], fetched[..i + 1])
            == Reports(runIDs[..i], fetched[..i]) + RunReport(runIDs[i], fetched[i])
  {
    var bs := Blocks(runIDs[..i + 1], fetched[..i + 1]);
    assert bs[..i] == Blocks(runIDs[..i], fetched[..i]);
  }

  lemma AllSucceededPrefix(fetched: seq<Option<RunDetail>>, i: nat)
    requires i < |fetched|
    ensures AllSucceeded(fetched[..i + 1])
            == (AllSucceeded(fetched[..i]) && (fetched[i].Some? ==> fetched[i].value.conclusion == "success"))
  {
    assert forall j :: 0 <= j < i ==> fetched[..i + 1][j] == fetched[..i][j];
    assert fetched[..i + 1][i] == fetched[i];
  }

  lemma JobRowsPrefix(jobs: seq<Job>, k: nat)
    requires k < |jobs|
    ensures JobRows(jobs[..k + 1]) == JobRows(jobs[..k]) + [JobRowFor(jobs[k])]
  {
  }

  /** The block of one run whose details were fetched: the banner, one row per job, the links. */
  method ShowRun(runID: int, detail: RunDetail) returns (passed: bool, events: seq<ReportEvent>)
    ensures passed == (detail.conclusion == "success")
    ensures events == RunBlock(runID, detail)
  {
    passed := true;
    if detail.conclusion == "success" {
      events := [Banner(detail.name, true)];
    } else {
      events := [Banner(detail.name, false)];
      passed := false;
    }
    ghost var banner := events;

    for k := 0 to |detail.jobs|
      invariant events == banner + JobRows(detail.jobs[..k])
    {
      var job := detail.jobs[k];
      var logJob: Option<int> := None;
      if job.conclusion == "failure" {
        logJob := Some(job.databaseId);
      }
      JobRowsPrefix(detail.jobs, k);
      events := events + [JobRow(IconFor(job.conclusion), job.name, logJob)];
    }
    assert detail.jobs[..|detail.jobs|] == detail.jobs;

    events := events + [RunURL(detail.url)];
    if detail.conclusion != "success" {
      events := events + [FailedLogs(runID)];
    }
  }

  method ShowResults(runIDs: seq<int>, fetched: seq<Option<RunDetail>>, ctx: Context)
    returns (allSuccess: bool, events: seq<ReportEvent>)
    requires |runIDs| == |fetched|
    ensures allSuccess == AllSucceeded(fetched)
    ensures events == ReportEvents(runIDs, fetched, ctx)
  {
    allSuccess := true;
    events := [];
    for i := 0 to |runIDs|
      invariant allSuccess == AllSucceeded(fetched[..i])
      invariant events == Reports(runIDs[..i], fetched[..i])
    {
      ReportsPrefix(runIDs, fetched, i);
      AllSucceededPrefix(fetched, i);
      var runID := runIDs[i];
      if fetched[i].None? {
        events := events + [DetailUnavailable(runID)];
      } else {
        var passed, block := ShowRun(runID, fetched[i].value);
        if !passed {
          allSuccess := false;
        }
        events := events + block;
      }
    }
    assert runIDs[..|runIDs|] == runIDs;
    assert fetched[..|fetched|] == fetched;

    events := events + [CommitLink(ctx.commitURL)];
    if ctx.prURL != "" {
      events := events + [PRLink(ctx.prURL)];
    }
  }

  // ---------------------------------------------------------------------
  // Properties of the report

  /** An element of one of the sequences is an element of their concatenation. */
  lemma {:induction false} InFlatten<T>(bs: seq<seq<T>>, i: int, x: T)
    requires 0 <= i < |bs| && x in bs[i]
    ensures x in Flatten(bs)
  {
    var n := |bs| - 1;
    if i < n {
      assert bs[..n][i] == bs[i];
      InFlatten(bs[..n], i, x);
    }
  }

  /** An element of the concatenation comes from one of the sequences. */
  lemma {:induction false} FlattenOwner<T>(bs: seq<seq<T>>, x: T) returns (i: int)
    requires x in Flatten(bs)
    ensures 0 <= i < |bs| && x in bs[i]
  {
    var n := |bs| - 1;
    if x in bs[n] {
      i := n;
    } else {
      i := FlattenOwner(bs[..n], x);
      assert bs[..n][i] == bs[i];
    }
  }

  /** An event of a run's block is an event of the run blocks. */
  lemma InReportsOf(runIDs: seq<int>, fetched: seq<Option<RunDetail>>, i: int, e: ReportEvent)
    requires |runIDs| == |fetched|
    requires 0 <= i < |runIDs| && e in RunReport(runIDs[i], fetched[i])
    ensures e in Reports(runIDs, fetched)
  {
    InFlatten(Blocks(runIDs, fetched), i, e);
  }

  /** An event of the run blocks belongs to the block of some run `i`. */
  lemma ReportOwner(runIDs: seq<int>, fetched: seq<Option<RunDetail>>, e: ReportEvent) returns (i: int)
    requires |runIDs| == |fetched|
    requires e in Reports(runIDs, fetched)
    ensures 0 <= i < |runIDs| && e in RunReport(runIDs[i], fetched[i])
  {
    i := FlattenOwner(Blocks(runIDs, fetched), e);
  }

  /** What a run's block can hold: its own banner, job rows, its URL, and its own failed-logs command. */
  lemma BlockShape(runID: int, f: Option<RunDetail>, e: ReportEvent)
    requires e in RunReport(runID, f)
    ensures e.Banner? ==> f.Some? && !e.passed == (f.value.conclusion != "success")
    ensures e.FailedLogs? ==> f.Some? && e.runID == runID && f.value.conclusion != "success"
  {
    if f.Some? {
      var d := f.value;
      var head := [Banner(d.name, d.conclusion == "success")] + JobRows(d.jobs);
      var tail := if d.conclusion != "success" then [FailedLogs(runID)] else [];
      assert RunBlock(runID, d) == (head + [RunURL(d.url)]) + tail;
      InConcat(head + [RunURL(d.url)], tail, e);
      InConcat(head, [RunURL(d.url)], e);
      InConcat([Banner(d.name, d.conclusion == "success")], JobRows(d.jobs), e);
      if e in JobRows(d.jobs) {
        var k :| 0 <= k < |d.jobs| && JobRows(d.jobs)[k] == e;
      }
    }
  }

  lemma InConcat<T>(a: seq<T>, b: seq<T>, x: T)
    ensures x in a + b <==> x in a || x in b
  {
  }

  /** The report returns true exactly when it shows no FAILED banner. */
  lemma ReportSucceedsIffNoFailedBanner(runIDs: seq<int>, fetched: seq<Option<RunDetail>>, ctx: Context)
    requires |runIDs| == |fetched|
    ensures AllSucceeded(fetched)
            <==> forall e :: e in ReportEvents(runIDs, fetched, ctx) && e.Banner? ==> e.passed
  {
    if !AllSucceeded(fetched) {
      var i :| 0 <= i < |fetched| && fetched[i].Some? && fetched[i].value.conclusion != "success";
      var e := Banner(fetched[i].value.name, false);
      assert e in RunReport(runIDs[i], fetched[i]);
      InReportsOf(runIDs, fetched, i, e);
      InConcat(Reports(runIDs, fetched), Links(ctx), e);
    } else {
      forall e | e in ReportEvents(runIDs, fetched, ctx) && e.Banner?
        ensures e.passed
      {
        InConcat(Reports(runIDs, fetched), Links(ctx), e);
        var i := ReportOwner(runIDs, fetched, e);
        BlockShape(runIDs[i], fetched[i], e);
      }
    }
  }

  /**
   * The failed-logs command of a run appears exactly when its details were
   * fetched and its conclusion is not "success" (given distinct run IDs).
   */
  lemma FailedLogsIffNotSucceeded(runIDs: seq<int>, fetched: seq<Option<RunDetail>>, ctx: Context, i: int)
    requires |runIDs| == |fetched|
    requires 0 <= i < |runIDs|
    requires forall j :: 0 <= j < |runIDs| && j != i ==> runIDs[j] != runIDs[i]
    ensures FailedLogs(runIDs[i]) in ReportEvents(runIDs, fetched, ctx)
            <==> fetched[i].Some? && fetched[i].value.conclusion != "success"
  {
    var e := FailedLogs(runIDs[i]);
    InConcat(Reports(runIDs, fetched), Links(ctx), e);
    if e in Reports(runIDs, fetched) {
      var j := ReportOwner(runIDs, fetched, e);
      BlockShape(runIDs[j], fetched[j], e);
    }
    if fetched[i].Some? && fetched[i].value.conclusion != "success" {
      var block := RunReport(runIDs[i], fetched[i]);
      assert block[|block| - 1] == e;
      InReportsOf(runIDs, fetched, i, e);
    }
  }

  /**
   * A job row carries `gh run view --log --job <id>` exactly when the job's
   * conclusion is "failure", and the id is the job's.
   */
  lemma LogCommandOnlyForFailedJobs(d: RunDetail, runID: int, k: int)
    requires 0 <= k < |d.jobs|
    ensures RunBlock(runID, d)[k + 1] == JobRowFor(d.jobs[k])
    ensures RunBlock(runID, d)[k + 1].logJob.Some? <==> d.jobs[k].conclusion == "failure"
    ensures RunBlock(runID, d)[k + 1].logJob.Some? ==> RunBlock(runID, d)[k + 1].logJob.value == d.jobs[k].databaseId
  {
    assert RunBlock(runID, d)[k + 1] == JobRows(d.jobs)[k];
  }

  lemma {:induction false} FlattenSingletons<T>(bs: seq<seq<T>>)
    requires forall i :: 0 <= i < |bs| ==> |bs[i]| == 1
    ensures Flatten(bs) == seq(|bs|, i requires 0 <= i < |bs| => bs[i][0])
  {
    if bs != [] {
      var n := |bs| - 1;
      FlattenSingletons(bs[..n]);
    }
  }

  /** When no run's details can be fetched the report lists one notice per run and still returns true. */
  lemma NothingFetchedStillSucceeds(runIDs: seq<int>, fetched: seq<Option<RunDetail>>, ctx: Context)
    requires |runIDs| == |fetched|
    requires forall i :: 0 <= i < |fetched| ==> fetched[i].None?
    ensures AllSucceeded(fetched)
    ensures Reports(runIDs, fetched) == seq(|runIDs|, i requires 0 <= i < |runIDs| => DetailUnavailable(runIDs[i]))
  {
    FlattenSingletons(Blocks(runIDs, fetched));
  }

  /** The report always ends with the commit link, followed by the pull-request link when there is one. */
  lemma ReportEndsWithLinks(runIDs: seq<int>, fetched: seq<Option<RunDetail>>, ctx: Context)
    requires |runIDs| == |fetched|
    ensures var evs := ReportEvents(runIDs, fetched, ctx);
            if ctx.prURL == "" then evs[|evs| - 1] == CommitLink(ctx.commitURL)
            else evs[|evs| - 2] == CommitLink(ctx.commitURL) && evs[|evs| - 1] == PRLink(ctx.prURL)
  {
  }
}
