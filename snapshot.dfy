/**
 * One poll tick's view of the monitored runs. The tick walks the runs in
 * order and, inside each run that was fetched, its jobs in order; the
 * sequence of entries below is that walk written out, and every count and
 * string built by the tick is a function of it.
 */
module Snapshot {
  import opened CiTypes
  import opened Decimal
  import opened Classify

  /** One job as the tick sees it: the run it belongs to and that run's name. */
  datatype Entry = Entry(runID: int, runName: string, job: Job)

  function RunEntries(runID: int, d: RunDetail): seq<Entry>
  {
    seq(|d.jobs|, k requires 0 <= k < |d.jobs| => Entry(runID, d.name, d.jobs[k]))
  }

  /** A run's entries when its fetch succeeded, none when it failed. */
  function FetchedEntries(runID: int, f: Option<RunDetail>): seq<Entry>
  {
    if f.Some? then RunEntries(runID, f.value) else []
  }

  /** All entries of a tick: run order, then job order; failed fetches contribute nothing. */
  function Entries(runIDs: seq<int>, fetched: seq<Option<RunDetail>>): seq<Entry>
    requires |runIDs| == |fetched|
  {
    if runIDs == [] then []
    else
      var n := |runIDs| - 1;
      Entries(runIDs[..n], fetched[..n]) + FetchedEntries(runIDs[n], fetched[n])
  }

  /** `completedJobs` of a tick, over its entries. */
  function CountCompleted(es: seq<Entry>): nat
  {
    if es == [] then 0
    else CountCompleted(es[..|es| - 1]) + (if IsCompleted(es[|es| - 1].job) then 1 else 0)
  }

  /** The `runID:name:status:conclusion|` record of one job. */
  function Record(e: Entry): string
  {
    FormatInt(e.runID) + ":" + e.job.name + ":" + e.job.status + ":" + e.job.conclusion + "|"
  }

  /** The fingerprint `currentState`: one record per entry, concatenated in order. */
  function Fingerprint(es: seq<Entry>): string
  {
    if es == [] then "" else Fingerprint(es[..|es| - 1]) + Record(es[|es| - 1])
  }

  /** The part of an entry the fingerprint reads. */
  function Key(e: Entry): (int, string, string, string)
  {
    (e.runID, e.job.name, e.job.status, e.job.conclusion)
  }

  /** Some job of the tick takes the failing branch (the tick sets `hasFailure`). */
  predicate AnyFailing(es: seq<Entry>)
  {
    exists i :: 0 <= i < |es| && SetsFailure(es[i].job)
  }

  /** `allDone`: every run fetched this tick has status "completed" (vacuous when none was). */
  predicate AllDone(fetched: seq<Option<RunDetail>>)
  {
    forall i :: 0 <= i < |fetched| && fetched[i].Some? ==> fetched[i].value.status == "completed"
  }

  // ---------------------------------------------------------------------
  // Properties of the tick's bookkeeping

  /** A job is only counted as completed once it is counted at all. */
  lemma {:induction false} CompletedAtMostTotal(es: seq<Entry>)
    ensures CountCompleted(es) <= |es|
  {
    if es != [] {
      CompletedAtMostTotal(es[..|es| - 1]);
    }
  }

  /** Completed jobs are exactly the entries whose status is "completed": all of them iff every one is. */
  lemma {:induction false} AllCompletedIffCountIsTotal(es: seq<Entry>)
    ensures CountCompleted(es) == |es| <==> forall i :: 0 <= i < |es| ==> IsCompleted(es[i].job)
  {
    if es != [] {
      var p := es[..|es| - 1];
      AllCompletedIffCountIsTotal(p);
      CompletedAtMostTotal(p);
      assert forall i :: 0 <= i < |p| ==> p[i] == es[i];
    }
  }

  /** One more run at the end adds its own entries at the end. */
  lemma EntriesSnoc(ids: seq<int>, f: seq<Option<RunDetail>>, id: int, x: Option<RunDetail>)
    requires |ids| == |f|
    ensures Entries(ids + [id], f + [x]) == Entries(ids, f) + FetchedEntries(id, x)
  {
    assert (ids + [id])[..|ids|] == ids;
    assert (f + [x])[..|f|] == f;
  }

  /** The entries of runs listed one after another are the entries of each, in that order. */
  lemma {:induction false} EntriesAppend(ids1: seq<int>, f1: seq<Option<RunDetail>>, ids2: seq<int>, f2: seq<Option<RunDetail>>)
    requires |ids1| == |f1| && |ids2| == |f2|
    ensures Entries(ids1 + ids2, f1 + f2) == Entries(ids1, f1) + Entries(ids2, f2)
    decreases |ids2|
  {
    if ids2 == [] {
      assert ids1 + ids2 == ids1 && f1 + f2 == f1;
    } else {
      var n := |ids2| - 1;
      var (pi, pf) := (ids2[..n], f2[..n]);
      assert ids2 == pi + [ids2[n]] && f2 == pf + [f2[n]];
      assert ids1 + ids2 == (ids1 + pi) + [ids2[n]];
      assert f1 + f2 == (f1 + pf) + [f2[n]];
      EntriesSnoc(ids1 + pi, f1 + pf, ids2[n], f2[n]);
      EntriesSnoc(pi, pf, ids2[n], f2[n]);
      EntriesAppend(ids1, f1, pi, pf);
    }
  }

  /** A tick in which every fetch failed sees no jobs at all. */
  lemma {:induction false} AllFetchesFailedNoEntries(runIDs: seq<int>, fetched: seq<Option<RunDetail>>)
    requires |runIDs| == |fetched|
    requires forall i :: 0 <= i < |fetched| ==> fetched[i].None?
    ensures Entries(runIDs, fetched) == []
  {
    if runIDs != [] {
      var n := |runIDs| - 1;
      AllFetchesFailedNoEntries(runIDs[..n], fetched[..n]);
    }
  }

  /**
   * The fingerprint is a function of the (run, job name, status, conclusion)
   * sequence alone: run names and job ids never change it.
   */
  lemma {:induction false} FingerprintDependsOnKeysOnly(es1: seq<Entry>, es2: seq<Entry>)
    requires |es1| == |es2|
    requires forall i :: 0 <= i < |es1| ==> Key(es1[i]) == Key(es2[i])
    ensures Fingerprint(es1) == Fingerprint(es2)
  {
    if es1 != [] {
      var n := |es1| - 1;
      FingerprintDependsOnKeysOnly(es1[..n], es2[..n]);
      assert Record(es1[n]) == Record(es2[n]);
    }
  }

  /** The fingerprint is empty exactly when the tick saw no job (every record ends in '|'). */
  lemma {:induction false} FingerprintEmptyIffNoJobs(es: seq<Entry>)
    ensures Fingerprint(es) == "" <==> es == []
    ensures es != [] ==> Fingerprint(es)[|Fingerprint(es)| - 1] == '|'
  {
  }

  /**
   * The fingerprint does not tell all key sequences apart: a ':' inside a
   * job name can produce the record of a different job.
   */
  lemma FingerprintNotInjective()
    ensures var a := [Entry(1, "ci", Job(10, "a", "b:c", "d"))];
            var b := [Entry(1, "ci", Job(10, "a:b", "c", "d"))];
            Key(a[0]) != Key(b[0]) && Fingerprint(a) == Fingerprint(b)
  {
    var a := [Entry(1, "ci", Job(10, "a", "b:c", "d"))];
    var b := [Entry(1, "ci", Job(10, "a:b", "c", "d"))];
    assert a[..0] == [] && b[..0] == [];
    assert FormatInt(1) == "1";
  }
}
