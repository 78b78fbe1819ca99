/** Calls made of whole pages cost no read: they never go through Stage-1. */
module EngineWhole {
  import opened Geometry
  import opened Engine
  import opened EngineInv
  import opened EngineSafety
  import opened WriterMerges
  import opened WriterCommits

  /** The range is made of whole 256 KB pages. */
  predicate WholePages(off: nat, size: nat) {
    off % 262144 == 0 && size % 262144 == 0
  }

  ghost predicate WholeCalls(steps: seq<Step>) {
    forall k :: 0 <= k < |steps| && steps[k].Foreground? && steps[k].fg.Start? ==>
      WholePages(steps[k].fg.off, |steps[k].fg.buf|)
  }

  /** Stage-1 has nothing, and every call in flight is at the start of a page. */
  ghost predicate Stage1Unused(s: State) {
    && s.q1 == [] && s.s1.S1Idle?
    && forall t :: 0 <= t < |s.writers| && s.writers[t].Active? ==>
         WholePages(s.writers[t].off, |s.writers[t].buf|) && s.writers[t].done % 262144 == 0
  }

  lemma WholeChunk(w: Writer)
    requires w.Active? && WriterOk(w) && WholePages(w.off, |w.buf|) && w.done % 262144 == 0
    ensures FullChunk(w) && ChunkSpan(w) == FullZone() && (w.done + ChunkLen(w)) % 262144 == 0
  {
  }

  lemma WholeMerge(s: State, t: nat)
    requires Shape(s) && Stage1Unused(s) && CanCommit(s, t)
    ensures ToQ1(s, t) == []
  {
    var w, p := s.writers[t], s.pages[Held(s, t)];
    WholeChunk(w);
    assert p.cov + ChunkSpan(w) == FullZone();
  }

  lemma CommitUnused(s: State, t: nat, s': State)
    requires Shape(s) && Stage1Unused(s) && Takes(s, t, s')
    ensures Stage1Unused(s')
  {
    WholeMerge(s, t);
    WholeChunk(s.writers[t]);
  }

  lemma ForegroundUnused(s: State, t: nat, st: ForegroundStep)
    requires Shape(s) && Stage1Unused(s) && CanForeground(s, t, st)
    requires st.Start? ==> WholePages(st.off, |st.buf|)
    ensures Stage1Unused(DoForeground(s, t, st))
  {
    if st.Commit? {
      CommitTakes(s, t);
      CommitUnused(s, t, DoCommit(s, t));
    } else {
      NeverOverflows(s, t);
    }
  }

  lemma NeverOverflows(s: State, t: nat)
    requires Shape(s) && Stage1Unused(s)
    ensures !CanOverflow(s, t)
  {
    if HasPage(s, t) {
      WholeChunk(s.writers[t]);
      OneEntry(s, t);
    }
  }

  lemma Stage2Unused(s: State, st: Stage2Step)
    requires Stage1Unused(s) && CanStage2(s, st)
    ensures Stage1Unused(DoStage2(s, st))
  {
  }

  lemma StepUnused(s: State, st: Step)
    requires Shape(s) && Stage1Unused(s) && Enabled(s, st)
    requires st.Foreground? && st.fg.Start? ==> WholePages(st.fg.off, |st.fg.buf|)
    ensures !st.First? && Stage1Unused(Next(s, st))
  {
    match st
    case Foreground(t, fg) => ForegroundUnused(s, t, fg);
    case First(_) =>
    case Second(s2) => Stage2Unused(s, s2);
    case Caller(c) =>
  }

  lemma ReachedUnused(s: State, st: Step)
    requires Reached(s) && Stage1Unused(s) && Enabled(s, st)
    requires st.Foreground? && st.fg.Start? ==> WholePages(st.fg.off, |st.fg.buf|)
    ensures !st.First? && Stage1Unused(Next(s, st)) && Reached(Next(s, st))
  {
    ReachedInv(s);
    StepUnused(s, st);
    ReachedNext(s, st);
  }

  lemma {:induction false} RunUnused(s: State, steps: seq<Step>, k: nat)
    requires Reached(s) && Stage1Unused(s) && ValidRun(s, steps) && WholeCalls(steps) && k < |steps|
    ensures !steps[k].First?
    decreases |steps|
  {
    ReachedUnused(s, steps[0]);
    if k > 0 {
      RunUnused(Next(s, steps[0]), steps[1..], k - 1);
    }
  }

  /** In every run whose calls are made of whole pages, for any number of threads, Stage-1
      takes no step: such pages are born full, go straight to Q2 and are never read. */
  lemma WholePagesNeverRead(s0: State, steps: seq<Step>, k: nat)
    requires Init(s0) && ValidRun(s0, steps) && WholeCalls(steps) && k < |steps|
    ensures !steps[k].First?
  {
    InitReached(s0);
    RunUnused(s0, steps, k);
  }
}
