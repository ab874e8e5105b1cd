/**
 * Run discovery, `findRuns`: an explicit run ID is parsed and used as it
 * is; otherwise the runs of the commit are listed up to five times, with a
 * pause between attempts, until a listing is non-empty. Each attempt's
 * answer is an input; the queries and pauses are recorded as events.
 */
module Discovery {
  import opened CiTypes
  import opened Decimal

  const MaxAttempts: nat := 5

  /** What one `gh run list --commit <sha> --json ... --limit 10` attempt gave. */
  datatype ListAnswer = QueryFailed | Undecodable | Listed(runs: seq<RunInfo>)

  /** The runs an answer yields: a failed query reads as `[]`, an undecodable answer as no runs. */
  function Found(a: ListAnswer): seq<RunInfo>
  {
    if a.Listed? then a.runs else []
  }

  /** The answer to attempt `attempt` (counted from 1); answers not given read as failed queries. */
  function AnswerAt(answers: seq<ListAnswer>, attempt: nat): ListAnswer
  {
    if 1 <= attempt <= |answers| then answers[attempt - 1] else QueryFailed
  }

  datatype DiscoveryEvent = Query(attempt: nat) | Wait(attempt: nat)

  datatype DiscoveryError = InvalidRunID(arg: string) | NoRunsFound(shortCommit: string)

  datatype DiscoveryResult = DiscoveryResult(events: seq<DiscoveryEvent>, result: Result<seq<int>, DiscoveryError>)

  /** The `DatabaseID`s of the listed runs, in listing order. */
  function Ids(runs: seq<RunInfo>): seq<int>
  {
    seq(|runs|, i requires 0 <= i < |runs| => runs[i].databaseId)
  }

  /** The retry loop from attempt `attempt` on: what it records, and the runs of its last query. */
  function Search(answers: seq<ListAnswer>, attempt: nat): (seq<DiscoveryEvent>, seq<RunInfo>)
    requires 1 <= attempt <= MaxAttempts
    decreases MaxAttempts - attempt
  {
    var runs := Found(AnswerAt(answers, attempt));
    if |runs| > 0 || attempt == MaxAttempts then ([Query(attempt)], runs)
    else
      var rest := Search(answers, attempt + 1);
      ([Query(attempt), Wait(attempt)] + rest.0, rest.1)
  }

  function Discover(runArg: string, shortCommit: string, answers: seq<ListAnswer>): DiscoveryResult
  {
    if runArg != "" then
      match Atoi(runArg)
      case Some(id) => DiscoveryResult([], Ok([id]))
      case None => DiscoveryResult([], Err(InvalidRunID(runArg)))
    else
      var (events, runs) := Search(answers, 1);
      if runs == [] then DiscoveryResult(events, Err(NoRunsFound(shortCommit)))
      else DiscoveryResult(events, Ok(Ids(runs)))
  }

  /** One attempt of the retry loop, seen from the events recorded before it. */
  lemma SearchStep(whole: (seq<DiscoveryEvent>, seq<RunInfo>), answers: seq<ListAnswer>, i: nat, events: seq<DiscoveryEvent>)
    requires 1 <= i <= MaxAttempts
    requires whole == (events + Search(answers, i).0, Search(answers, i).1)
    ensures Found(AnswerAt(answers, i)) != [] || i == MaxAttempts ==>
              whole == (events + [Query(i)], Found(AnswerAt(answers, i)))
    ensures Found(AnswerAt(answers, i)) == [] && i < MaxAttempts ==>
              whole == (events + [Query(i)] + [Wait(i)] + Search(answers, i + 1).0, Search(answers, i + 1).1)
  {
    if Found(AnswerAt(answers, i)) == [] && i < MaxAttempts {
      var rest := Search(answers, i + 1);
      assert events + ([Query(i), Wait(i)] + rest.0) == events + [Query(i)] + [Wait(i)] + rest.0;
    }
  }

  method FindRuns(runArg: string, shortCommit: string, answers: seq<ListAnswer>) returns (d: DiscoveryResult)
    ensures d == Discover(runArg, shortCommit, answers)
  {
    if runArg != "" {
      var id := Atoi(runArg);
      if id.None? {
        return DiscoveryResult([], Err(InvalidRunID(runArg)));
      }
      return DiscoveryResult([], Ok([id.value]));
    }

    ghost var whole := Search(answers, 1);
    var events: seq<DiscoveryEvent> := [];
    var runs: seq<RunInfo> := [];
    var i := 1;
    assert events + whole.0 == whole.0;
    while i <= MaxAttempts
      invariant 1 <= i <= MaxAttempts + 1
      invariant runs == []
      invariant i <= MaxAttempts ==> whole == (events + Search(answers, i).0, Search(answers, i).1)
      invariant i == MaxAttempts + 1 ==> whole == (events, [])
    {
      SearchStep(whole, answers, i, events);
      events := events + [Query(i)];
      runs := Found(AnswerAt(answers, i));
      if |runs| > 0 {
        break;
      }
      if i < MaxAttempts {
        events := events + [Wait(i)];
      }
      i := i + 1;
    }

    if |runs| == 0 {
      return DiscoveryResult(events, Err(NoRunsFound(shortCommit)));
    }

    var runIDs := new int[|runs|];
    for j := 0 to |runs|
      invariant forall m :: 0 <= m < j ==> runIDs[m] == runs[m].databaseId
    {
      runIDs[j] := runs[j].databaseId;
    }
    assert runIDs[..] == Ids(runs);
    d := DiscoveryResult(events, Ok(runIDs[..]));
  }

  // ---------------------------------------------------------------------
  // Properties of discovery

  /** An explicit run ID makes no query at all, whatever the listings would have been. */
  lemma ExplicitRunIDSkipsSearch(runArg: string, shortCommit: string, answers: seq<ListAnswer>, others: seq<ListAnswer>)
    requires runArg != ""
    ensures Discover(runArg, shortCommit, answers).events == []
    ensures Discover(runArg, shortCommit, answers) == Discover(runArg, shortCommit, others)
    ensures Discover(runArg, shortCommit, answers).result
            == (if Atoi(runArg).Some? then Ok([Atoi(runArg).value]) else Err(InvalidRunID(runArg)))
  {
  }

  /** Query `first`, then a pause and the next query, up to query `last`: no pause after the last query. */
  function Trace(first: nat, last: nat): seq<DiscoveryEvent>
    requires first <= last
    decreases last - first
  {
    if first == last then [Query(first)] else [Query(first), Wait(first)] + Trace(first + 1, last)
  }

  function Queries(evs: seq<DiscoveryEvent>): nat
  {
    if evs == [] then 0 else (if evs[0].Query? then 1 else 0) + Queries(evs[1..])
  }

  function Waits(evs: seq<DiscoveryEvent>): nat
  {
    if evs == [] then 0 else (if evs[0].Wait? then 1 else 0) + Waits(evs[1..])
  }

  lemma CountsCons(e: DiscoveryEvent, evs: seq<DiscoveryEvent>)
    ensures Queries([e] + evs) == (if e.Query? then 1 else 0) + Queries(evs)
    ensures Waits([e] + evs) == (if e.Wait? then 1 else 0) + Waits(evs)
  {
    assert ([e] + evs)[1..] == evs;
  }

  /** A trace makes one query per attempt and pauses one time fewer. */
  lemma {:induction false} TraceCounts(first: nat, last: nat)
    requires first <= last
    ensures Queries(Trace(first, last)) == last - first + 1
    ensures Waits(Trace(first, last)) == last - first
    decreases last - first
  {
    if first == last {
      CountsCons(Query(first), []);
      assert Trace(first, last) == [Query(first)] + [];
    } else {
      var rest := Trace(first + 1, last);
      TraceCounts(first + 1, last);
      CountsCons(Wait(first), rest);
      CountsCons(Query(first), [Wait(first)] + rest);
      assert Trace(first, last) == [Query(first)] + ([Wait(first)] + rest);
    }
  }

  /** The last event of a trace is its last query: there is no pause after it. */
  lemma {:induction false} TraceEndsWithQuery(first: nat, last: nat)
    requires first <= last
    ensures |Trace(first, last)| >= 1 && Trace(first, last)[|Trace(first, last)| - 1] == Query(last)
    decreases last - first
  {
    if first < last {
      TraceEndsWithQuery(first + 1, last);
    }
  }

  /**
   * The search stops at the first attempt whose listing is non-empty and
   * returns that listing.
   */
  lemma {:induction false} SearchStopsAtFirstFound(answers: seq<ListAnswer>, first: nat, a: nat)
    requires 1 <= first <= a <= MaxAttempts
    requires Found(AnswerAt(answers, a)) != []
    requires forall b :: first <= b < a ==> Found(AnswerAt(answers, b)) == []
    ensures Search(answers, first) == (Trace(first, a), Found(AnswerAt(answers, a)))
    decreases a - first
  {
    if first < a {
      SearchStopsAtFirstFound(answers, first + 1, a);
    }
  }

  /** When every listing is empty, the search makes all five queries and finds nothing. */
  lemma {:induction false} SearchFindsNothing(answers: seq<ListAnswer>, first: nat)
    requires 1 <= first <= MaxAttempts
    requires forall b :: first <= b <= MaxAttempts ==> Found(AnswerAt(answers, b)) == []
    ensures Search(answers, first) == (Trace(first, MaxAttempts), [])
    decreases MaxAttempts - first
  {
    if first < MaxAttempts {
      SearchFindsNothing(answers, first + 1);
    }
  }

  /** Attempt `a` is the first whose listing is non-empty. */
  ghost predicate FirstFound(answers: seq<ListAnswer>, a: nat)
  {
    1 <= a <= MaxAttempts && Found(AnswerAt(answers, a)) != []
    && forall b :: 1 <= b < a ==> Found(AnswerAt(answers, b)) == []
  }

  ghost predicate NoneFound(answers: seq<ListAnswer>)
  {
    forall b :: 1 <= b <= MaxAttempts ==> Found(AnswerAt(answers, b)) == []
  }

  /** Some listing is non-empty, so there is a first. */
  lemma FirstFoundExists(answers: seq<ListAnswer>) returns (a: nat)
    requires !NoneFound(answers)
    ensures FirstFound(answers, a)
  {
    var w :| 1 <= w <= MaxAttempts && Found(AnswerAt(answers, w)) != [];
    a := 1;
    while Found(AnswerAt(answers, a)) == []
      invariant 1 <= a <= w
      invariant forall b :: 1 <= b < a ==> Found(AnswerAt(answers, b)) == []
      decreases w - a
    {
      a := a + 1;
    }
  }

  /** Without a run ID and a first non-empty listing at attempt `a`: `a` queries, `a - 1` pauses, its IDs in order. */
  lemma DiscoveryFindsFirst(shortCommit: string, answers: seq<ListAnswer>, a: nat)
    requires FirstFound(answers, a)
    ensures var d := Discover("", shortCommit, answers);
            d.result == Ok(Ids(Found(AnswerAt(answers, a))))
            && Queries(d.events) == a && Waits(d.events) == a - 1
            && |d.events| >= 1 && d.events[|d.events| - 1] == Query(a)
  {
    SearchStopsAtFirstFound(answers, 1, a);
    TraceCounts(1, a);
    TraceEndsWithQuery(1, a);
  }

  /** Without a run ID and only empty listings: five queries, four pauses, and "no workflow runs found". */
  lemma DiscoveryFindsNothing(shortCommit: string, answers: seq<ListAnswer>)
    requires NoneFound(answers)
    ensures var d := Discover("", shortCommit, answers);
            d.result == Err(NoRunsFound(shortCommit))
            && Queries(d.events) == MaxAttempts && Waits(d.events) == MaxAttempts - 1
            && |d.events| >= 1 && d.events[|d.events| - 1] == Query(MaxAttempts)
  {
    SearchFindsNothing(answers, 1);
    TraceCounts(1, MaxAttempts);
    TraceEndsWithQuery(1, MaxAttempts);
  }

  /**
   * Without a run ID, discovery makes between one and five queries, pauses
   * between consecutive queries only, and fails exactly when every
   * listing is empty.
   */
  lemma DiscoverySearchOutcome(shortCommit: string, answers: seq<ListAnswer>)
    ensures var d := Discover("", shortCommit, answers);
            1 <= Queries(d.events) <= MaxAttempts && Waits(d.events) == Queries(d.events) - 1
            && |d.events| >= 1 && d.events[|d.events| - 1] == Query(Queries(d.events))
    ensures Discover("", shortCommit, answers).result.Err? <==> NoneFound(answers)
  {
    if NoneFound(answers) {
      DiscoveryFindsNothing(shortCommit, answers);
    } else {
      var a := FirstFoundExists(answers);
      DiscoveryFindsFirst(shortCommit, answers, a);
    }
  }
}
