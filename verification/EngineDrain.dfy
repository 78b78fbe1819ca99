/** Draining: with the foreground idle the background does a bounded amount of
    work and stops only when nothing is pending. */
module EngineDrain {
  import opened Engine
  import opened EngineInv
  import opened EngineSafety
  import opened EngineProgress

  function Stage1Work(s1: Stage1): nat {
    match s1
    case S1Idle => 0
    case Popped(_) => 59
    case Waiting(_, _) => 58
    case Reading(_, _, todo, _, _) => 25 + |todo|
    case Ready(_) => 24
    case Entered(_) => 23
  }

  /** Steps Stage-2 still owes the pages in its hands. */
  function Stage2Work(s2: Stage2): int {
    match s2
    case S2Idle => 0
    case Collecting(batch) => 16 * |batch| + 2
    case Detaching(batch, k, unlinked) => 16 * |batch| + 1 - 2 * k - (if unlinked then 1 else 0)
    case Writing(batch, calls) => 5 * |batch| - calls + 3 * |batch| + 1
    case Retiring(batch, sub) => 3 * |batch| - (if sub.ToFree? then 0 else if sub.ToLeave? then 1 else 2)
  }

  /** An upper bound on the background steps left while no call is in flight. */
  function Work(s: State): int {
    60 * |s.q1| + Stage1Work(s.s1) + 20 * |s.q2| + Stage2Work(s.s2)
  }

  lemma WorkIsNat(s: State)
    requires S2Shape(s)
    ensures Work(s) >= 0
  {
  }

  lemma Stage1Falls(s: State, st: Stage1Step)
    requires S1Shape(s) && CanStage1(s, st) && !CanS1Busy(s)
    ensures Work(DoStage1(s, st)) < Work(s)
  {
  }

  lemma Stage2Falls(s: State, st: Stage2Step)
    requires S2Shape(s) && CanStage2(s, st) && !CanS2Busy(s) && !CanS2Reject(s)
    ensures Work(DoStage2(s, st)) < Work(s)
  {
  }

  ghost predicate BackgroundOnly(steps: seq<Step>) {
    forall k :: 0 <= k < |steps| ==> steps[k].First? || steps[k].Second?
  }

  lemma BackgroundFalls(s: State, st: Step)
    requires Reached(s) && Enabled(s, st) && (st.First? || st.Second?)
    ensures Work(Next(s, st)) < Work(s)
  {
    ReachedInv(s);
    NoRequeue(s);
    if st.First? { Stage1Falls(s, st.s1); } else { Stage2Falls(s, st.s2); }
  }

  /** Background work is bounded, read and write failures included: no run of the
      two stages alone is longer than the measure of the state it starts in. */
  lemma {:induction false} DrainBounded(s: State, steps: seq<Step>)
    requires Reached(s) && ValidRun(s, steps) && BackgroundOnly(steps)
    ensures |steps| <= Work(s)
    decreases |steps|
  {
    if steps == [] {
      ReachedInv(s);
      WorkIsNat(s);
    } else {
      BackgroundFalls(s, steps[0]);
      ReachedNext(s, steps[0]);
      DrainBounded(Next(s, steps[0]), steps[1..]);
    }
  }

  /** otflush_drain returns: in every run, failures included, once the foreground is
      idle the stages stop only with nothing pending. */
  lemma DrainCompletes(s: State)
    requires Reached(s) && AllIdle(s)
    requires forall st: Step :: st.First? || st.Second? ==> !Enabled(s, st)
    ensures s.pending == 0
  {
    ReachedInv(s);
    if !Jammed(s) {
      var st := Progress(s);
    }
  }

  /** No deadlock: as long as a page is pending, or a call is in flight and failed reads
      have lost no more pages than the low mark, some productive step is enabled. */
  lemma NoDeadlock(s: State)
    requires Reached(s) && (s.pending > 0 || (!AllIdle(s) && |LostPages(s)| <= s.gate.low))
    ensures exists st: Step :: Enabled(s, st) && Productive(s, st)
  {
    ReachedInv(s);
    if Jammed(s) { JamNeedsLosses(s); }
    ProgressIff(s);
  }
}
