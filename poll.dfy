/**
 * The poll loop `waitForRuns`: one tick fetches every monitored run,
 * folds the fetched snapshots into counts, a fingerprint and job lines,
 * re-renders only when the fingerprint changed, and decides whether to
 * stop. The loop is driven by a finite sequence of fetch outcomes, one
 * sequence per tick; running out of them stands for "still polling".
 */
module Poll {
  import opened CiTypes
  import opened Classify
  import opened Snapshot

  datatype ProgressLine = Progress(completed: nat, total: nat, percent: nat)

  /** One job line of a rendered block: `<run name> / <job name>` and its kind. */
  datatype JobLine = JobLine(runName: string, jobName: string, kind: DisplayKind)

  datatype PollEvent =
    | EraseLine   // one `cursor up, erase line` sequence of the clear loop
    | Block(header: ProgressLine, lines: seq<JobLine>)
    | FailFastNotice   // "Failure detected, exiting early ..."
    | Sleep   // the 5-second pause between ticks

  /** The variables the loop keeps across ticks. */
  datatype PollState = PollState(lastState: string, firstPrint: bool, hasFailure: bool)

  const Initial := PollState("", true, false)

  datatype Decision = KeepPolling | StopOnFailure | StopAllDone

  datatype TickResult = TickResult(state: PollState, events: seq<PollEvent>, decision: Decision)

  function Line(e: Entry): JobLine { JobLine(e.runName, e.job.name, Kind(e.job)) }

  function Lines(es: seq<Entry>): seq<JobLine>
  {
    seq(|es|, i requires 0 <= i < |es| => Line(es[i]))
  }

  /**
   * What one tick's fold over the fetched runs yields: `totalJobs`,
   * `completedJobs`, `currentState`, the job lines of `output`, whether a
   * job took the failing branch, and `allDone`.
   */
  datatype Observation = Observation(
    totalJobs: nat,
    completedJobs: nat,
    currentState: string,
    output: seq<JobLine>,
    anyFailing: bool,
    allDone: bool)

  function Observe(runIDs: seq<int>, fetched: seq<Option<RunDetail>>): Observation
    requires |runIDs| == |fetched|
  {
    var es := Entries(runIDs, fetched);
    Observation(|es|, CountCompleted(es), Fingerprint(es), Lines(es), AnyFailing(es), AllDone(fetched))
  }

  /** The fold's counts keep `completedJobs <= totalJobs`, so the percentage lies in 0..100. */
  lemma ObservedPercentInRange(runIDs: seq<int>, fetched: seq<Option<RunDetail>>)
    requires |runIDs| == |fetched|
    ensures var o := Observe(runIDs, fetched);
            o.completedJobs <= o.totalJobs && 0 <= Percent(o.completedJobs, o.totalJobs) <= 100
  {
    CompletedAtMostTotal(Entries(runIDs, fetched));
    var o := Observe(runIDs, fetched);
    PercentBounds(o.completedJobs, o.totalJobs);
  }

  function Erasures(n: nat): seq<PollEvent>
  {
    seq(n, _ => EraseLine)
  }

  /** The number of lines a sequence of events erases. */
  function ErasedCount(evs: seq<PollEvent>): nat
  {
    if evs == [] then 0
    else ErasedCount(evs[..|evs| - 1]) + (if evs[|evs| - 1] == EraseLine then 1 else 0)
  }

  /** The lines a rendered block puts on the terminal: its header and one per job. */
  function BlockHeight(ev: PollEvent): nat
  {
    if ev.Block? then |ev.lines| + 1 else 0
  }

  /** The block a tick renders. */
  function BlockOf(o: Observation): PollEvent
  {
    Block(Progress(o.completedJobs, o.totalJobs, Percent(o.completedJobs, o.totalJobs)), o.output)
  }

  /** One tick of the loop, as a function of the state before it and of what the fold observed. */
  function Tick(st: PollState, o: Observation, failFast: bool): (r: TickResult)
    // the render policy
    ensures r.events != [] <==> o.currentState != st.lastState
    ensures r.state.lastState == o.currentState
    ensures r.state.firstPrint == (st.firstPrint && r.events == [])
    // the sticky failure flag and the stop decision
    ensures r.state.hasFailure == (st.hasFailure || o.anyFailing)
    ensures r.decision == (if failFast && r.state.hasFailure then StopOnFailure
                           else if o.allDone then StopAllDone
                           else KeepPolling)
  {
    var render := o.currentState != st.lastState;
    var hasFailure := st.hasFailure || o.anyFailing;
    var cleared := if st.firstPrint then 0 else o.totalJobs + 1;
    var events := if render then Erasures(cleared) + [BlockOf(o)] else [];
    var decision := if failFast && hasFailure then StopOnFailure
                    else if o.allDone then StopAllDone
                    else KeepPolling;
    TickResult(PollState(o.currentState, st.firstPrint && !render, hasFailure), events, decision)
  }

  /**
   * What a render writes: the first render erases nothing, every later one
   * erases exactly the current tick's `totalJobs + 1` lines (not the size
   * of the block drawn before), and then draws a block of that many lines.
   */
  lemma RenderedBlock(st: PollState, o: Observation, failFast: bool)
    requires |o.output| == o.totalJobs
    ensures var r := Tick(st, o, failFast);
            r.events != [] ==>
              r.events == Erasures(if st.firstPrint then 0 else o.totalJobs + 1) + [BlockOf(o)]
              && BlockHeight(r.events[|r.events| - 1]) == o.totalJobs + 1
              && ErasedCount(r.events) == (if st.firstPrint then 0 else o.totalJobs + 1)
  {
    ErasuresThenBlock(if st.firstPrint then 0 else o.totalJobs + 1, BlockOf(o));
  }

  lemma {:induction false} ErasuresThenBlock(n: nat, block: PollEvent)
    requires block.Block?
    ensures ErasedCount(Erasures(n) + [block]) == n
  {
    var s := Erasures(n) + [block];
    assert s[..|s| - 1] == Erasures(n);
    ErasedCountOfErasures(n);
  }

  lemma {:induction false} ErasedCountOfErasures(n: nat)
    ensures ErasedCount(Erasures(n)) == n
  {
    if n > 0 {
      assert Erasures(n)[..n - 1] == Erasures(n - 1);
      ErasedCountOfErasures(n - 1);
    }
  }

  /** The very first tick renders exactly when it sees at least one job. */
  lemma FirstTickRendersIffJobs(runIDs: seq<int>, fetched: seq<Option<RunDetail>>, failFast: bool)
    requires |runIDs| == |fetched|
    ensures var r := Tick(Initial, Observe(runIDs, fetched), failFast);
            (r.events != [] <==> Entries(runIDs, fetched) != [])
            && (r.events != [] ==> |r.events| == 1 && r.events[0].Block?)
  {
    FingerprintEmptyIffNoJobs(Entries(runIDs, fetched));
  }

  /**
   * A tick in which every fetch failed sees no job, so `allDone` stays true
   * and the loop stops there; the sticky flag is all it returns.
   */
  lemma AllFetchesFailedStops(st: PollState, runIDs: seq<int>, fetched: seq<Option<RunDetail>>, failFast: bool)
    requires |runIDs| == |fetched|
    requires forall i :: 0 <= i < |fetched| ==> fetched[i].None?
    ensures var r := Tick(st, Observe(runIDs, fetched), failFast);
            r.state.hasFailure == st.hasFailure
            && r.decision == (if failFast && st.hasFailure then StopOnFailure else StopAllDone)
  {
    AllFetchesFailedNoEntries(runIDs, fetched);
  }

  // ---------------------------------------------------------------------
  // The tick as the Go code computes it: nested loops over runs and jobs

  /** The per-tick accumulators `totalJobs`, `completedJobs`, `currentState`, `output`, with `hasFailure`. */
  datatype Tally = Tally(totalJobs: nat, completedJobs: nat, currentState: string, output: seq<JobLine>, hasFailure: bool)

  /** What the accumulators hold after seeing the entries `es`, starting from a clear tally and flag `h`. */
  function TallyOf(h: bool, es: seq<Entry>): Tally
  {
    Tally(|es|, CountCompleted(es), Fingerprint(es), Lines(es), h || AnyFailing(es))
  }

  /** The accumulators after one more job. */
  function Step(t: Tally, e: Entry): Tally
  {
    Tally(t.totalJobs + 1,
          t.completedJobs + (if IsCompleted(e.job) then 1 else 0),
          t.currentState + Record(e),
          t.output + [Line(e)],
          t.hasFailure || SetsFailure(e.job))
  }

  /** How each fold of the tick grows when one more entry is seen. */
  lemma SnocFacts(es: seq<Entry>, e: Entry)
    ensures CountCompleted(es + [e]) == CountCompleted(es) + (if IsCompleted(e.job) then 1 else 0)
    ensures Fingerprint(es + [e]) == Fingerprint(es) + Record(e)
    ensures Lines(es + [e]) == Lines(es) + [Line(e)]
    ensures AnyFailing(es + [e]) == (AnyFailing(es) || SetsFailure(e.job))
  {
    assert (es + [e])[..|es|] == es;
    AnyFailingSnoc(es, e);
  }

  lemma AnyFailingSnoc(es: seq<Entry>, e: Entry)
    ensures AnyFailing(es + [e]) == (AnyFailing(es) || SetsFailure(e.job))
  {
    if AnyFailing(es + [e]) && !SetsFailure(e.job) {
      var i :| 0 <= i < |es| + 1 && SetsFailure((es + [e])[i].job);
      assert (es + [e])[i] == es[i];
    }
    if AnyFailing(es) {
      var i :| 0 <= i < |es| && SetsFailure(es[i].job);
      assert (es + [e])[i] == es[i];
    }
    if SetsFailure(e.job) {
      assert (es + [e])[|es|] == e;
    }
  }

  /** One more entry: the tally of the entries seen so far takes one step. */
  lemma TallyStep(h: bool, es: seq<Entry>, e: Entry)
    ensures TallyOf(h, es + [e]) == Step(TallyOf(h, es), e)
  {
    SnocFacts(es, e);
  }

  /** The accumulators after taking one step per entry of `es`, from `t`. */
  function Fold(t: Tally, es: seq<Entry>): Tally
  {
    if es == [] then t else Step(Fold(t, es[..|es| - 1]), es[|es| - 1])
  }

  lemma FoldSnoc(t: Tally, es: seq<Entry>, k: nat)
    requires k < |es|
    ensures Fold(t, es[..k + 1]) == Step(Fold(t, es[..k]), es[k])
  {
    assert es[..k + 1][..k] == es[..k];
  }

  /** Stepping through more entries is the same as the tally of all entries so far. */
  lemma {:induction false} FoldIsTally(h: bool, before: seq<Entry>, es: seq<Entry>)
    ensures Fold(TallyOf(h, before), es) == TallyOf(h, before + es)
    decreases |es|
  {
    if es == [] {
      assert before + es == before;
    } else {
      var n := |es| - 1;
      var seen := before + es[..n];
      assert before + es == seen + [es[n]];
      calc {
        Fold(TallyOf(h, before), es);
        Step(Fold(TallyOf(h, before), es[..n]), es[n]);
        { FoldIsTally(h, before, es[..n]); }
        Step(TallyOf(h, seen), es[n]);
        { TallyStep(h, seen, es[n]); }
        TallyOf(h, seen + [es[n]]);
      }
    }
  }

  /** The inner loop: fold the jobs of one fetched run into the accumulators. */
  method AddRunJobs(t: Tally, ghost h: bool, ghost before: seq<Entry>, runID: int, detail: RunDetail) returns (t': Tally)
    requires t == TallyOf(h, before)
    ensures t' == TallyOf(h, before + RunEntries(runID, detail))
  {
    var totalJobs, completedJobs, currentState, output, hasFailure :=
      t.totalJobs, t.completedJobs, t.currentState, t.output, t.hasFailure;
    ghost var es := RunEntries(runID, detail);
    var k := 0;
    while k < |detail.jobs|
      invariant 0 <= k <= |detail.jobs|
      invariant Tally(totalJobs, completedJobs, currentState, output, hasFailure) == Fold(t, es[..k])
    {
      var job := detail.jobs[k];
      var entry := Entry(runID, detail.name, job);
      FoldSnoc(t, es, k);
      FailureNeedsCompletion(job);
      totalJobs := totalJobs + 1;
      currentState := currentState + Record(entry);
      if IsCompleted(job) {
        completedJobs := completedJobs + 1;
        if SetsFailure(job) {
          hasFailure := true;
        }
      }
      output := output + [Line(entry)];
      k := k + 1;
    }
    assert es[..k] == es;
    FoldIsTally(h, before, es);
    t' := Tally(totalJobs, completedJobs, currentState, output, hasFailure);
  }

  lemma EntriesPrefix(runIDs: seq<int>, fetched: seq<Option<RunDetail>>, i: nat)
    requires |runIDs| == |fetched| && i < |runIDs|
    ensures Entries(runIDs[..i + 1], fetched[..i + 1])
            == Entries(runIDs[..i], fetched[..i]) + FetchedEntries(runIDs[i], fetched[i])
  {
    assert runIDs[..i + 1][..i] == runIDs[..i] && fetched[..i + 1][..i] == fetched[..i];
  }

  lemma AllDonePrefix(fetched: seq<Option<RunDetail>>, i: nat)
    requires i < |fetched|
    ensures AllDone(fetched[..i + 1])
            == (AllDone(fetched[..i]) && (fetched[i].Some? ==> fetched[i].value.status == "completed"))
  {
    assert forall j :: 0 <= j < i ==> fetched[..i + 1][j] == fetched[..i][j];
    assert fetched[..i + 1][i] == fetched[i];
  }

  /** One iteration of the outer loop: a run whose fetch failed is skipped for this tick. */
  method FoldRun(t: Tally, allDone: bool, ghost h: bool, ghost seen: seq<Entry>, runID: int, f: Option<RunDetail>)
    returns (t': Tally, allDone': bool)
    requires t == TallyOf(h, seen)
    ensures t' == TallyOf(h, seen + FetchedEntries(runID, f))
    ensures allDone' == (allDone && (f.Some? ==> f.value.status == "completed"))
  {
    t', allDone' := t, allDone;
    if f.Some? {
      var detail := f.value;
      t' := AddRunJobs(t, h, seen, runID, detail);
      if detail.status != "completed" {
        allDone' := false;
      }
    } else {
      assert seen + FetchedEntries(runID, f) == seen;
    }
  }

  /** The outer loop: fold every run that was fetched, and compute `allDone`. */
  method FoldRuns(hasFailure: bool, runIDs: seq<int>, fetched: seq<Option<RunDetail>>) returns (t: Tally, allDone: bool)
    requires |runIDs| == |fetched|
    ensures t == TallyOf(hasFailure, Entries(runIDs, fetched))
    ensures allDone == AllDone(fetched)
  {
    allDone := true;
    t := Tally(0, 0, "", [], hasFailure);
    ghost var seen: seq<Entry> := [];
    var i := 0;
    while i < |runIDs|
      invariant 0 <= i <= |runIDs|
      invariant seen == Entries(runIDs[..i], fetched[..i])
      invariant t == TallyOf(hasFailure, seen)
      invariant allDone == AllDone(fetched[..i])
    {
      EntriesPrefix(runIDs, fetched, i);
      AllDonePrefix(fetched, i);
      t, allDone := FoldRun(t, allDone, hasFailure, seen, runIDs[i], fetched[i]);
      seen := seen + FetchedEntries(runIDs[i], fetched[i]);
      i := i + 1;
    }
    assert runIDs[..i] == runIDs && fetched[..i] == fetched;
  }

  /** One iteration of the `for` loop of `waitForRuns`, up to the stop decision. */
  method PollTick(st: PollState, runIDs: seq<int>, fetched: seq<Option<RunDetail>>, failFast: bool) returns (r: TickResult)
    requires |runIDs| == |fetched|
    ensures r == Tick(st, Observe(runIDs, fetched), failFast)
  {
    var t, allDone := FoldRuns(st.hasFailure, runIDs, fetched);
    r := Render(st, Observe(runIDs, fetched), t, allDone, failFast);
  }

  /** The rest of the iteration once the runs are folded: percentage, redraw when changed, stop decision. */
  method Render(st: PollState, ghost o: Observation, t: Tally, allDone: bool, failFast: bool) returns (r: TickResult)
    requires t.totalJobs == o.totalJobs && t.completedJobs == o.completedJobs
    requires t.currentState == o.currentState && t.output == o.output
    requires t.hasFailure == (st.hasFailure || o.anyFailing) && allDone == o.allDone
    ensures r == Tick(st, o, failFast)
  {
    var totalJobs, completedJobs, currentState := t.totalJobs, t.completedJobs, t.currentState;

    var percent := Percent(completedJobs, totalJobs);
    var events: seq<PollEvent> := [];
    var lastState, firstPrint := st.lastState, st.firstPrint;
    if currentState != lastState {
      if !firstPrint {
        var linesToClear := totalJobs + 1;
        var c := 0;
        while c < linesToClear
          invariant 0 <= c <= linesToClear
          invariant events == Erasures(c)
        {
          events := events + [EraseLine];
          c := c + 1;
        }
      }
      firstPrint := false;
      events := events + [Block(Progress(completedJobs, totalJobs, percent), t.output)];
      lastState := currentState;
    }

    var decision := if failFast && t.hasFailure then StopOnFailure
                    else if allDone then StopAllDone
                    else KeepPolling;
    r := TickResult(PollState(lastState, firstPrint, t.hasFailure), events, decision);
  }

  // ---------------------------------------------------------------------
  // The whole loop over a finite sequence of ticks

  /** Each tick fetched one outcome per monitored run. */
  predicate Aligned(runIDs: seq<int>, ticks: seq<seq<Option<RunDetail>>>)
  {
    forall t :: 0 <= t < |ticks| ==> |ticks[t]| == |runIDs|
  }

  function Observations(runIDs: seq<int>, ticks: seq<seq<Option<RunDetail>>>): (obs: seq<Observation>)
    requires Aligned(runIDs, ticks)
  {
    seq(|ticks|, t requires 0 <= t < |ticks| => Observe(runIDs, ticks[t]))
  }

  /** A tick's output has one line per job it counted. */
  lemma ObserveWellFormed(runIDs: seq<int>, fetched: seq<Option<RunDetail>>)
    requires |runIDs| == |fetched|
    ensures |Observe(runIDs, fetched).output| == Observe(runIDs, fetched).totalJobs
  {
  }

  /**
   * `waitForRuns` returns `(hasFailure, nil)` after some number of ticks;
   * when the given ticks run out first the loop is still polling. There is
   * no error outcome: the Go function never returns a non-nil error.
   */
  datatype PollOutcome = Returned(hasFailure: bool, ticks: nat) | StillPolling(state: PollState)

  datatype PollRun = PollRun(outcome: PollOutcome, events: seq<PollEvent>)

  function Later(o: PollOutcome, n: nat): PollOutcome
  {
    if o.Returned? then Returned(o.hasFailure, o.ticks + n) else o
  }

  /** What the loop does from state `st` on, over the ticks still to come. */
  function PollFrom(st: PollState, obs: seq<Observation>, failFast: bool): PollRun
    decreases |obs|
  {
    if obs == [] then PollRun(StillPolling(st), [])
    else
      var t := Tick(st, obs[0], failFast);
      match t.decision
      case StopOnFailure => PollRun(Returned(true, 1), t.events + [FailFastNotice])
      case StopAllDone => PollRun(Returned(t.state.hasFailure, 1), t.events)
      case KeepPolling =>
        var rest := PollFrom(t.state, obs[1..], failFast);
        PollRun(Later(rest.outcome, 1), t.events + [Sleep] + rest.events)
  }

  /** After `i` ticks in state `st` with `events` written, the loop goes on as `PollFrom` from there. */
  ghost predicate Resumes(whole: PollRun, obs: seq<Observation>, failFast: bool, i: nat, st: PollState, events: seq<PollEvent>)
    requires i <= |obs|
  {
    var rest := PollFrom(st, obs[i..], failFast);
    whole == PollRun(Later(rest.outcome, i), events + rest.events)
  }

  /** `PollFrom` over ticks whose first does not stop: that tick, a pause, then the rest. */
  lemma PollKeeps(st: PollState, obs: seq<Observation>, failFast: bool)
    requires obs != []
    requires Tick(st, obs[0], failFast).decision == KeepPolling
    ensures var t := Tick(st, obs[0], failFast);
            var rest := PollFrom(t.state, obs[1..], failFast);
            PollFrom(st, obs, failFast) == PollRun(Later(rest.outcome, 1), t.events + [Sleep] + rest.events)
  {
  }

  lemma AdvanceAlgebra(whole: PollRun, here: PollRun, rest: PollRun, tick: seq<PollEvent>, events: seq<PollEvent>, i: nat)
    requires whole == PollRun(Later(here.outcome, i), events + here.events)
    requires here == PollRun(Later(rest.outcome, 1), tick + [Sleep] + rest.events)
    ensures whole == PollRun(Later(rest.outcome, i + 1), (events + tick + [Sleep]) + rest.events)
  {
    assert events + (tick + [Sleep] + rest.events) == (events + tick + [Sleep]) + rest.events;
  }

  /** A tick that does not stop the loop keeps `Resumes`. */
  lemma AdvanceKeep(whole: PollRun, obs: seq<Observation>, failFast: bool, i: nat, st: PollState, events: seq<PollEvent>)
    requires i < |obs|
    requires Resumes(whole, obs, failFast, i, st, events)
    requires Tick(st, obs[i], failFast).decision == KeepPolling
    ensures var t := Tick(st, obs[i], failFast);
            Resumes(whole, obs, failFast, i + 1, t.state, events + t.events + [Sleep])
  {
    var t := Tick(st, obs[i], failFast);
    var rest := PollFrom(t.state, obs[i + 1..], failFast);
    AdvanceAlgebra(whole, PollFrom(st, obs[i..], failFast), rest, t.events, events, i);
    var here := obs[i..];
    assert here[0] == obs[i] && here[1..] == obs[i + 1..];
    PollKeeps(st, here, failFast);
  }

  /** A tick that stops the loop ends it with what `PollFrom` returns. */
  lemma AdvanceStop(whole: PollRun, obs: seq<Observation>, failFast: bool, i: nat, st: PollState, events: seq<PollEvent>)
    requires i < |obs|
    requires Resumes(whole, obs, failFast, i, st, events)
    requires Tick(st, obs[i], failFast).decision != KeepPolling
    ensures var t := Tick(st, obs[i], failFast);
            t.decision == StopOnFailure ==>
              whole == PollRun(Returned(true, i + 1), events + (t.events + [FailFastNotice]))
    ensures var t := Tick(st, obs[i], failFast);
            t.decision == StopAllDone ==>
              whole == PollRun(Returned(t.state.hasFailure, i + 1), events + t.events)
  {
    assert obs[i..][0] == obs[i];
  }

  /** The loop of `waitForRuns`, one `PollTick` per iteration. */
  method WaitForRuns(runIDs: seq<int>, failFast: bool, ticks: seq<seq<Option<RunDetail>>>) returns (r: PollRun)
    requires Aligned(runIDs, ticks)
    ensures r == PollFrom(Initial, Observations(runIDs, ticks), failFast)
  {
    ghost var obs := Observations(runIDs, ticks);
    ghost var whole := PollFrom(Initial, obs, failFast);
    var st := Initial;
    var events: seq<PollEvent> := [];
    var i := 0;
    ResumesAtStart(whole, obs, failFast);
    while i < |ticks|
      invariant 0 <= i <= |ticks|
      invariant Resumes(whole, obs, failFast, i, st, events)
    {
      var stop;
      stop, r, st, events := PollIteration(whole, runIDs, ticks, failFast, i, st, events);
      if stop {
        return;
      }
      i := i + 1;
    }
    ResumesAtEnd(whole, obs, failFast, st, events);
    r := PollRun(StillPolling(st), events);
  }

  lemma ResumesAtStart(whole: PollRun, obs: seq<Observation>, failFast: bool)
    requires whole == PollFrom(Initial, obs, failFast)
    ensures Resumes(whole, obs, failFast, 0, Initial, [])
  {
    assert obs[0..] == obs;
  }

  lemma ResumesAtEnd(whole: PollRun, obs: seq<Observation>, failFast: bool, st: PollState, events: seq<PollEvent>)
    requires Resumes(whole, obs, failFast, |obs|, st, events)
    ensures whole == PollRun(StillPolling(st), events)
  {
    assert obs[|obs|..] == [];
  }

  /**
   * One pass of the loop at tick `i`: either the run ends here with the
   * whole result, or the state and the events so far resume at tick `i + 1`.
   */
  method PollIteration(ghost whole: PollRun, runIDs: seq<int>, ticks: seq<seq<Option<RunDetail>>>, failFast: bool,
                       i: nat, st: PollState, events: seq<PollEvent>)
    returns (stop: bool, r: PollRun, st': PollState, events': seq<PollEvent>)
    requires Aligned(runIDs, ticks) && i < |ticks|
    requires Resumes(whole, Observations(runIDs, ticks), failFast, i, st, events)
    ensures stop ==> r == whole
    ensures !stop ==> Resumes(whole, Observations(runIDs, ticks), failFast, i + 1, st', events')
  {
    ghost var obs := Observations(runIDs, ticks);
    assert obs[i] == Observe(runIDs, ticks[i]);
    var t := PollTick(st, runIDs, ticks[i], failFast);
    st', events' := st, events;
    if t.decision == StopOnFailure {
      AdvanceStop(whole, obs, failFast, i, st, events);
      return true, PollRun(Returned(true, i + 1), events + (t.events + [FailFastNotice])), st', events';
    }
    if t.decision == StopAllDone {
      AdvanceStop(whole, obs, failFast, i, st, events);
      return true, PollRun(Returned(t.state.hasFailure, i + 1), events + t.events), st', events';
    }
    AdvanceKeep(whole, obs, failFast, i, st, events);
    stop, r := false, PollRun(StillPolling(t.state), []);
    st', events' := t.state, events + t.events + [Sleep];
  }

  // ---------------------------------------------------------------------
  // When the loop stops, and what it returns

  /** Some tick up to and including tick `k` saw a failing job (or the flag was already set). */
  ghost predicate FailureBy(h: bool, obs: seq<Observation>, k: nat)
    requires k < |obs|
  {
    h || exists j :: 0 <= j <= k && obs[j].anyFailing
  }

  /** Tick `k` ends the loop: a failure seen under fail-fast, or every fetched run completed. */
  ghost predicate StopsAt(h: bool, obs: seq<Observation>, failFast: bool, k: nat)
    requires k < |obs|
  {
    (failFast && FailureBy(h, obs, k)) || obs[k].allDone
  }

  lemma FailureByShift(h: bool, obs: seq<Observation>, k: nat)
    requires k + 1 < |obs|
    ensures FailureBy(h || obs[0].anyFailing, obs[1..], k) == FailureBy(h, obs, k + 1)
  {
    if FailureBy(h, obs, k + 1) && !h && !obs[0].anyFailing {
      var j :| 0 <= j <= k + 1 && obs[j].anyFailing;
      assert obs[1..][j - 1] == obs[j];
    }
    if FailureBy(h || obs[0].anyFailing, obs[1..], k) && !h && !obs[0].anyFailing {
      var j :| 0 <= j <= k && obs[1..][j].anyFailing;
      assert obs[1..][j] == obs[j + 1];
    }
  }

  /**
   * The loop returns right after the first tick that stops it, and what it
   * returns is whether any tick up to then saw a failing job. Under
   * fail-fast that first tick is the first one with a failure or with every
   * fetched run completed; otherwise it is the first with every fetched run
   * completed, and the sticky flag reports failures of all earlier ticks.
   */
  lemma {:induction false} PollStopsAtFirstStop(st: PollState, obs: seq<Observation>, failFast: bool, k: nat)
    requires k < |obs|
    requires StopsAt(st.hasFailure, obs, failFast, k)
    requires forall j :: 0 <= j < k ==> !StopsAt(st.hasFailure, obs, failFast, j)
    ensures PollFrom(st, obs, failFast).outcome == Returned(FailureBy(st.hasFailure, obs, k), k + 1)
    decreases k
  {
    var t := Tick(st, obs[0], failFast);
    if k > 0 {
      assert !StopsAt(st.hasFailure, obs, failFast, 0);
      assert t.decision == KeepPolling;
      forall j | 0 <= j <= k - 1
        ensures StopsAt(t.state.hasFailure, obs[1..], failFast, j) == StopsAt(st.hasFailure, obs, failFast, j + 1)
      {
        FailureByShift(st.hasFailure, obs, j);
        assert obs[1..][j] == obs[j + 1];
      }
      PollStopsAtFirstStop(t.state, obs[1..], failFast, k - 1);
      FailureByShift(st.hasFailure, obs, k - 1);
    }
  }

  /** When no tick stops it, the loop is still polling after the last one. */
  lemma {:induction false} PollWithoutStop(st: PollState, obs: seq<Observation>, failFast: bool)
    requires forall j :: 0 <= j < |obs| ==> !StopsAt(st.hasFailure, obs, failFast, j)
    ensures PollFrom(st, obs, failFast).outcome.StillPolling?
    decreases |obs|
  {
    if obs != [] {
      var t := Tick(st, obs[0], failFast);
      assert !StopsAt(st.hasFailure, obs, failFast, 0);
      forall j | 0 <= j < |obs| - 1
        ensures !StopsAt(t.state.hasFailure, obs[1..], failFast, j)
      {
        assert !StopsAt(st.hasFailure, obs, failFast, j + 1);
        FailureByShift(st.hasFailure, obs, j);
        assert obs[1..][j] == obs[j + 1];
      }
      PollWithoutStop(t.state, obs[1..], failFast);
    }
  }
}
