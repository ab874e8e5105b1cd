/**
 * The per-job classification switches of the poll loop and of the final
 * report, and the progress percentage.
 */
module Classify {
  import opened CiTypes

  /**
   * How the poll loop draws one job line (the six branches of its
   * status/conclusion switch); the strings carried are the ones the line
   * shows in parentheses.
   */
  datatype DisplayKind =
    | Passed
    | Skipped
    | Failed(conclusion: string)
    | Running
    | Waiting
    | OtherStatus(status: string)

  /** Every job gets exactly one of the six kinds, decided by its status first and its conclusion second. */
  function Kind(j: Job): (k: DisplayKind)
    ensures k.Passed? <==> j.status == "completed" && j.conclusion == "success"
    ensures k.Skipped? <==> j.status == "completed" && j.conclusion == "skipped"
    ensures k.Failed? <==> j.status == "completed" && j.conclusion != "success" && j.conclusion != "skipped"
    ensures k.Running? <==> j.status == "in_progress"
    ensures k.Waiting? <==> j.status == "queued" || j.status == "waiting"
    ensures k.OtherStatus? <==> j.status !in {"completed", "in_progress", "queued", "waiting"}
    ensures k.Failed? ==> k.conclusion == j.conclusion
    ensures k.OtherStatus? ==> k.status == j.status
  {
    if j.status == "completed" then
      match j.conclusion
      case "success" => Passed
      case "skipped" => Skipped
      case _ => Failed(j.conclusion)
    else if j.status == "in_progress" then Running
    else if j.status == "queued" || j.status == "waiting" then Waiting
    else OtherStatus(j.status)
  }

  /** A job counts towards `completedJobs` exactly when its status is "completed". */
  predicate IsCompleted(j: Job) { j.status == "completed" }

  /** The branch of the switch that sets `hasFailure`: a completed job that neither succeeded nor was skipped. */
  predicate SetsFailure(j: Job) { j.status == "completed" && j.conclusion != "success" && j.conclusion != "skipped" }

  /** The failing branch is exactly the one that draws a job as failed. */
  lemma SetsFailureIffFailedLine(j: Job)
    ensures SetsFailure(j) <==> Kind(j).Failed?
  {
  }

  /** Only completed jobs can set the failure flag. */
  lemma FailureNeedsCompletion(j: Job)
    ensures SetsFailure(j) ==> IsCompleted(j)
  {
  }

  /**
   * `completedJobs*100/totalJobs` with Go's integer division (both operands
   * are non-negative, so it truncates like Dafny's), and 0 with no jobs.
   */
  function Percent(completed: nat, total: nat): nat
  {
    if total == 0 then 0 else completed * 100 / total
  }

  /** The percentage is the floor of the exact ratio, and at most 100 while no more jobs completed than exist. */
  lemma PercentBounds(completed: nat, total: nat)
    ensures total == 0 ==> Percent(completed, total) == 0
    ensures total > 0 ==> Percent(completed, total) * total <= completed * 100 < (Percent(completed, total) + 1) * total
    ensures completed <= total ==> Percent(completed, total) <= 100
  {
    if total > 0 {
      var p := Percent(completed, total);
      assert p * total + (completed * 100) % total == completed * 100;
      if completed <= total && p > 100 {
        MulMono(101, p, total);
        assert false;
      }
    }
  }

  lemma MulMono(a: nat, b: nat, c: nat)
    requires a <= b
    ensures a * c <= b * c
  {
  }

  /** The icon of a job line in the final report, keyed on the conclusion alone. */
  datatype Icon = PassIcon | FailIcon | SkipIcon | PendingIcon

  function IconFor(conclusion: string): (i: Icon)
    ensures i == PassIcon <==> conclusion == "success"
    ensures i == FailIcon <==> conclusion == "failure"
    ensures i == SkipIcon <==> conclusion == "skipped"
    ensures i == PendingIcon <==> conclusion !in {"success", "failure", "skipped"}
  {
    match conclusion
    case "success" => PassIcon
    case "failure" => FailIcon
    case "skipped" => SkipIcon
    case _ => PendingIcon
  }
}
