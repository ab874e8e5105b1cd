/**
 * The terminal as the poll loop's output leaves it. Each erase sequence
 * (`cursor up`, `erase line`) takes back the last line written; a block
 * writes its progress header and one line per job. This is what the
 * render policy is for: redrawing the progress block in place. The
 * lemmas take any observation with one line per job, which is what every
 * tick observes (`ObserveWellFormed`).
 */
module Screen {
  import opened Poll

  datatype Row = HeaderRow(progress: ProgressLine) | JobRow(line: JobLine) | NoticeRow

  /** The rows a rendered block writes. */
  function Rows(b: PollEvent): (rows: seq<Row>)
    requires b.Block?
    ensures |rows| == BlockHeight(b)
  {
    [HeaderRow(b.header)] + seq(|b.lines|, i requires 0 <= i < |b.lines| => JobRow(b.lines[i]))
  }

  function Show(screen: seq<Row>, ev: PollEvent): seq<Row>
  {
    match ev
    case EraseLine => if screen == [] then [] else screen[..|screen| - 1]
    case Block(_, _) => screen + Rows(ev)
    case FailFastNotice => screen + [NoticeRow]
    case Sleep => screen
  }

  /** The screen after a sequence of events, written in order. */
  function Apply(screen: seq<Row>, evs: seq<PollEvent>): seq<Row>
    decreases |evs|
  {
    if evs == [] then screen else Apply(Show(screen, evs[0]), evs[1..])
  }

  /** Erasing `n` lines takes back exactly the last `n` rows written. */
  lemma {:induction false} EraseLast(screen: seq<Row>, n: nat)
    requires n <= |screen|
    ensures Apply(screen, Erasures(n)) == screen[..|screen| - n]
    decreases n
  {
    if n > 0 {
      var shorter := screen[..|screen| - 1];
      assert Erasures(n)[0] == EraseLine && Erasures(n)[1..] == Erasures(n - 1);
      EraseLast(shorter, n - 1);
      assert shorter[..|shorter| - (n - 1)] == screen[..|screen| - n];
    }
  }

  lemma ApplyThenBlock(screen: seq<Row>, evs: seq<PollEvent>, b: PollEvent)
    requires b.Block?
    ensures Apply(screen, evs + [b]) == Apply(screen, evs) + Rows(b)
    decreases |evs|
  {
    if evs == [] {
      assert ([] + [b])[1..] == [];
    } else {
      assert (evs + [b])[0] == evs[0] && (evs + [b])[1..] == evs[1..] + [b];
      ApplyThenBlock(Show(screen, evs[0]), evs[1..], b);
    }
  }

  /** A tick that does not render leaves the screen as it was. */
  lemma NoRenderKeepsScreen(screen: seq<Row>, st: PollState, o: Observation, failFast: bool)
    requires |o.output| == o.totalJobs
    requires o.currentState == st.lastState
    ensures Apply(screen, Tick(st, o, failFast).events) == screen
  {
  }

  /** The first render writes its block below whatever is on the screen. */
  lemma FirstRenderAppends(screen: seq<Row>, st: PollState, o: Observation, failFast: bool)
    requires |o.output| == o.totalJobs
    requires st.firstPrint && o.currentState != st.lastState
    ensures Apply(screen, Tick(st, o, failFast).events) == screen + Rows(BlockOf(o))
  {
    RenderedBlock(st, o, failFast);
    ApplyThenBlock(screen, [], BlockOf(o));
  }

  /**
   * A later render takes back the current tick's `totalJobs + 1` rows,
   * whatever the previous block's height, and writes the new block.
   */
  lemma {:induction false} LaterRenderReplacesRows(screen: seq<Row>, st: PollState, o: Observation, failFast: bool)
    requires |o.output| == o.totalJobs
    requires !st.firstPrint && o.currentState != st.lastState
    requires o.totalJobs + 1 <= |screen|
    ensures Apply(screen, Tick(st, o, failFast).events)
            == screen[..|screen| - (o.totalJobs + 1)] + Rows(BlockOf(o))
  {
    var n := o.totalJobs + 1;
    RenderedBlock(st, o, failFast);
    ApplyThenBlock(screen, Erasures(n), BlockOf(o));
    EraseLast(screen, n);
  }

  /** When the number of jobs has not changed, the new block replaces the old one exactly. */
  lemma SameJobCountKeepsOneBlock(base: seq<Row>, previous: PollEvent, st: PollState, o: Observation, failFast: bool)
    requires |o.output| == o.totalJobs && previous.Block?
    requires !st.firstPrint && o.currentState != st.lastState
    requires |previous.lines| == o.totalJobs
    ensures Apply(base + Rows(previous), Tick(st, o, failFast).events) == base + Rows(BlockOf(o))
  {
    var screen := base + Rows(previous);
    LaterRenderReplacesRows(screen, st, o, failFast);
    assert screen[..|screen| - (o.totalJobs + 1)] == base;
  }

  /**
   * When a tick sees fewer jobs than the block on the screen (a run whose
   * fetch failed this time, say), the top rows of the old block stay
   * above the new one.
   */
  lemma FewerJobsLeaveStaleRows(base: seq<Row>, previous: PollEvent, st: PollState, o: Observation, failFast: bool)
    requires |o.output| == o.totalJobs && previous.Block?
    requires !st.firstPrint && o.currentState != st.lastState
    requires |previous.lines| > o.totalJobs
    ensures var stale := |previous.lines| - o.totalJobs;
            Apply(base + Rows(previous), Tick(st, o, failFast).events)
            == base + Rows(previous)[..stale] + Rows(BlockOf(o))
  {
    var screen := base + Rows(previous);
    LaterRenderReplacesRows(screen, st, o, failFast);
    var stale := |previous.lines| - o.totalJobs;
    assert screen[..|screen| - (o.totalJobs + 1)] == base + Rows(previous)[..stale];
  }

  /**
   * When a tick sees more jobs than the block on the screen, the erasing
   * reaches above the old block and removes rows written before it.
   */
  lemma MoreJobsEraseEarlierRows(base: seq<Row>, previous: PollEvent, st: PollState, o: Observation, failFast: bool)
    requires |o.output| == o.totalJobs && previous.Block?
    requires !st.firstPrint && o.currentState != st.lastState
    requires |previous.lines| < o.totalJobs <= |previous.lines| + |base|
    ensures var lost := o.totalJobs - |previous.lines|;
            Apply(base + Rows(previous), Tick(st, o, failFast).events)
            == base[..|base| - lost] + Rows(BlockOf(o))
  {
    var screen := base + Rows(previous);
    LaterRenderReplacesRows(screen, st, o, failFast);
    var lost := o.totalJobs - |previous.lines|;
    assert screen[..|screen| - (o.totalJobs + 1)] == base[..|base| - lost];
  }
}
