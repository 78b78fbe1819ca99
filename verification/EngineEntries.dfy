/** When the entry array of a page can run out, over whole runs of the engine. */
module EngineEntries {
  import opened Geometry
  import opened Segments
  import opened Engine
  import opened EngineInv
  import opened EngineSafety
  import opened NoxWrite
  import opened WriterMerges
  import opened WriterCommits

  // ------------------------------------------------------ sets made of blocks

  /** Offset i lies in a covered stretch of a block or more. */
  ghost predicate InBlock(cov: set<nat>, i: nat) {
    exists a: nat :: a <= i < a + BLOCK && Span(a, BLOCK) <= cov
  }

  /** Offset i is covered together with everything to one end of the zone. */
  ghost predicate ToEdge(cov: set<nat>, i: nat) {
    Span(0, i + 1) <= cov || (i < ZONE && Span(i, ZONE - i) <= cov)
  }

  /** Every covered stretch is a block or more or, with `edges`, reaches an end of the zone. */
  ghost predicate Coarse(cov: set<nat>, edges: bool) {
    forall i :: i in cov ==> InBlock(cov, i) || (edges && ToEdge(cov, i))
  }

  lemma CoarseGrows(small: set<nat>, big: set<nat>, edges: bool, i: nat)
    requires small <= big && (InBlock(small, i) || (edges && ToEdge(small, i)))
    ensures InBlock(big, i) || (edges && ToEdge(big, i))
  {
    if InBlock(small, i) {
      var a: nat :| a <= i < a + BLOCK && Span(a, BLOCK) <= small;
      assert Span(a, BLOCK) <= big;
    }
  }

  lemma CoarseUnion(a: set<nat>, b: set<nat>, edges: bool)
    requires Coarse(a, edges) && Coarse(b, edges)
    ensures Coarse(a + b, edges)
  {
    forall i | i in a + b
      ensures InBlock(a + b, i) || (edges && ToEdge(a + b, i))
    {
      CoarseGrows(if i in a then a else b, a + b, edges, i);
    }
  }

  predicate CoarseSeg(e: Seg, edges: bool) {
    e.End() <= ZONE && (e.size >= BLOCK || (edges && BlockOrEdge(e, ZONE, BLOCK)))
  }

  lemma SpanCoarse(e: Seg, edges: bool)
    requires CoarseSeg(e, edges)
    ensures Coarse(Span(e.off, e.size), edges)
  {
    forall i | i in Span(e.off, e.size)
      ensures InBlock(Span(e.off, e.size), i) || (edges && ToEdge(Span(e.off, e.size), i))
    {
      if e.size >= BLOCK {
        var a := if i + BLOCK <= e.End() then i else e.End() - BLOCK;
        assert a <= i < a + BLOCK && Span(a, BLOCK) <= Span(e.off, e.size);
      }
    }
  }

  // --------------------------------------------------------------- counting

  /** A block and the gap after it. */
  const GAP: nat := 4097

  ghost predicate Spread(xs: set<nat>) {
    forall x, y :: x in xs && y in xs && x < y ==> y - x >= GAP
  }

  /** At most one of them fits in each stretch of a block and a gap. */
  lemma {:induction false} SpreadCount(xs: set<nat>, lo: nat, n: nat)
    requires Spread(xs) && forall x :: x in xs ==> lo <= x < lo + n * GAP
    ensures |xs| <= n
  {
    if n == 0 {
      assert xs == {};
    } else if x :| x in xs && x >= lo + (n - 1) * GAP {
      assert xs == (xs - {x}) + {x};
      SpreadCount(xs - {x}, lo, n - 1);
    } else {
      SpreadCount(xs, lo, n - 1);
    }
  }

  /** How many stretches of a block, with gaps between them, fit into a zone: 63. */
  const BLOCK_RUNS: nat := (ZONE + 1) / GAP

  /** How many entries such a page can need; one byte at each end makes 65. */
  function Needed(edges: bool): nat {
    if edges then ZONE / BLOCK + 1 else BLOCK_RUNS
  }

  /** Two ends of covered stretches are more than a block apart, unless the second one
      is the end of the zone. */
  lemma EndsApart(cov: set<nat>, edges: bool, x: nat, y: nat)
    requires Coarse(cov, edges) && cov <= FullZone() && x in RunEnds(cov) && y in RunEnds(cov) && x < y
    requires edges ==> y != ZONE - 1
    ensures y - x > BLOCK
  {
    assert x + 1 in Span(0, y + 1) && (y < ZONE - 1 ==> y + 1 in Span(y, ZONE - y));
    if InBlock(cov, y) {
      var a: nat :| a <= y < a + BLOCK && Span(a, BLOCK) <= cov;
      assert y + 1 !in Span(a, BLOCK) && x + 1 !in Span(a, BLOCK);
    }
  }

  /** Without edges the first stretch is a block, so no end comes before that. */
  lemma EndsLate(cov: set<nat>, x: nat)
    requires Coarse(cov, false) && x in RunEnds(cov)
    ensures x >= BLOCK - 1
  {
    var a: nat :| a <= x < a + BLOCK && Span(a, BLOCK) <= cov;
    assert x + 1 !in Span(a, BLOCK);
  }

  lemma CoarseCount(cov: set<nat>, edges: bool)
    requires Coarse(cov, edges) && cov <= FullZone()
    ensures RunCount(cov) <= Needed(edges)
  {
    var ends := if edges then RunEnds(cov) - {ZONE - 1} else RunEnds(cov);
    forall x, y | x in ends && y in ends && x < y
      ensures y - x >= GAP
    {
      EndsApart(cov, edges, x, y);
    }
    if edges {
      SpreadCount(ends, 0, ZONE / BLOCK);
      SubsetSize(RunEnds(cov), ends + {ZONE - 1});
    } else {
      forall x | x in ends
        ensures BLOCK - 1 <= x
      {
        EndsLate(cov, x);
      }
      SpreadCount(ends, BLOCK - 1, BLOCK_RUNS);
    }
  }

  // ------------------------------------------------------------------- runs

  /** Every chunk still to be merged is coarse. */
  ghost predicate CoarseCall(off: nat, buf: seq<byte>, done: nat, edges: bool)
    requires done <= |buf|
  {
    forall c :: c in ChunksFrom(off, buf, done) ==> CoarseSeg(SegOf(c), edges)
  }

  ghost predicate CoarseState(s: State, edges: bool) {
    && (forall j :: 0 <= j < |s.pages| ==> Coarse(s.pages[j].cov, edges))
    && (forall t :: 0 <= t < |s.writers| && s.writers[t].Active? && WriterOk(s.writers[t]) ==>
          CoarseCall(s.writers[t].off, s.writers[t].buf, s.writers[t].done, edges))
  }

  ghost predicate CoarseStep(st: Step, edges: bool) {
    st.Foreground? && st.fg.Start? ==> CoarseCall(st.fg.off, st.fg.buf, 0, edges)
  }

  ghost predicate CoarseRun(steps: seq<Step>, edges: bool) {
    forall k :: 0 <= k < |steps| ==> CoarseStep(steps[k], edges)
  }

  /** The chunk at hand is the first of those to be merged. */
  lemma ChunkAtHand(w: Writer, edges: bool)
    requires w.Active? && WriterOk(w) && CoarseCall(w.off, w.buf, w.done, edges)
    ensures CoarseSeg(Seg(CurIntra(w), ChunkLen(w)), edges) && ChunkLen(w) > 0
    ensures w.done + ChunkLen(w) <= |w.buf| && CoarseCall(w.off, w.buf, w.done + ChunkLen(w), edges)
  {
    var v := Active(w.off, w.buf, w.done, AtGate, 0);
    var c := Write(w.off + w.done, ChunkBytes(v));
    assert ChunksFrom(w.off, w.buf, w.done) == [c] + ChunksFrom(w.off, w.buf, w.done + ChunkLen(v));
    assert c in ChunksFrom(w.off, w.buf, w.done);
    assert SegOf(c) == Seg(CurIntra(w), ChunkLen(w));
  }

  lemma CommitCoarse(s: State, t: nat, edges: bool)
    requires Shape(s) && CoarseState(s, edges) && CanCommit(s, t)
    ensures CoarseState(DoCommit(s, t), edges)
  {
    CommitTakes(s, t);
    TakenPage(s, t);
    MergeCoarse(s, t, edges);
    TakesCoarse(s, t, DoCommit(s, t), edges);
  }

  lemma TakesCoarse(s: State, t: nat, s': State, edges: bool)
    requires CoarseState(s, edges) && Takes(s, t, s') && Coarse(Taken(s, t).cov, edges)
    requires var w := s.writers[t]; w.done + ChunkLen(w) <= |w.buf| && CoarseCall(w.off, w.buf, w.done + ChunkLen(w), edges)
    ensures CoarseState(s', edges)
  {
    forall u | 0 <= u < |s'.writers| && s'.writers[u].Active? && WriterOk(s'.writers[u])
      ensures CoarseCall(s'.writers[u].off, s'.writers[u].buf, s'.writers[u].done, edges)
    {
      assert u != t ==> s'.writers[u] == s.writers[u];
    }
  }

  lemma MergeCoarse(s: State, t: nat, edges: bool)
    requires CoarseState(s, edges) && HasPage(s, t)
    ensures Coarse(s.pages[Held(s, t)].cov + ChunkSpan(s.writers[t]), edges)
    ensures var w := s.writers[t]; ChunkLen(w) > 0 && w.done + ChunkLen(w) <= |w.buf|
                                   && CoarseCall(w.off, w.buf, w.done + ChunkLen(w), edges)
  {
    var w := s.writers[t];
    ChunkAtHand(w, edges);
    SpanCoarse(Seg(CurIntra(w), ChunkLen(w)), edges);
    CoarseUnion(s.pages[Held(s, t)].cov, ChunkSpan(w), edges);
  }

  lemma ForegroundCoarse(s: State, t: nat, st: ForegroundStep, edges: bool)
    requires Shape(s) && CoarseState(s, edges) && CanForeground(s, t, st) && CoarseStep(Foreground(t, st), edges)
    ensures CoarseState(DoForeground(s, t, st), edges)
  {
    match st
    case Commit => CommitCoarse(s, t, edges);
    case Overflow => OverflowSeals(s, t);
    case _ =>
  }

  lemma Stage1Coarse(s: State, st: Stage1Step, edges: bool)
    requires CoarseState(s, edges) && CanStage1(s, st)
    ensures CoarseState(DoStage1(s, st), edges)
  {
    SpanCoarse(Seg(0, ZONE), edges);
  }

  lemma Stage2Coarse(s: State, st: Stage2Step, edges: bool)
    requires CoarseState(s, edges) && CanStage2(s, st)
    ensures CoarseState(DoStage2(s, st), edges)
  {
  }

  lemma StepCoarse(s: State, st: Step, edges: bool)
    requires Shape(s) && CoarseState(s, edges) && Enabled(s, st) && CoarseStep(st, edges)
    ensures CoarseState(Next(s, st), edges)
  {
    match st
    case Foreground(t, fg) => ForegroundCoarse(s, t, fg, edges);
    case First(s1) => Stage1Coarse(s, s1, edges);
    case Second(s2) => Stage2Coarse(s, s2, edges);
    case Caller(c) => CallerCoarse(s, c, edges);
  }

  lemma CallerCoarse(s: State, st: CallerStep, edges: bool)
    requires CoarseState(s, edges) && CanCaller(s, st)
    ensures CoarseState(DoCaller(s, st), edges)
  {
  }

  lemma Stage1Entries(s: State, st: Stage1Step)
    requires CanStage1(s, st)
    ensures DoStage1(s, st).maxEntries == s.maxEntries
  {
  }

  lemma Stage2Entries(s: State, st: Stage2Step)
    requires CanStage2(s, st)
    ensures DoStage2(s, st).maxEntries == s.maxEntries
  {
  }

  lemma StepEntries(s: State, st: Step)
    requires Enabled(s, st)
    ensures Next(s, st).maxEntries == s.maxEntries
  {
    match st
    case Foreground(t, fg) => ForegroundEntries(s, t, fg);
    case First(s1) => Stage1Entries(s, s1);
    case Second(s2) => Stage2Entries(s, s2);
    case Caller(c) =>
  }

  lemma ForegroundEntries(s: State, t: nat, st: ForegroundStep)
    requires CanForeground(s, t, st)
    ensures DoForeground(s, t, st).maxEntries == s.maxEntries
  {
    match st
    case Commit => CommitTakes(s, t);
    case Overflow => OverflowSeals(s, t);
    case _ =>
  }

  lemma {:induction false} RunCoarse(s: State, steps: seq<Step>, edges: bool)
    requires Reached(s) && CoarseState(s, edges) && ValidRun(s, steps) && CoarseRun(steps, edges)
    ensures CoarseState(Run(s, steps), edges) && Run(s, steps).maxEntries == s.maxEntries
    decreases |steps|
  {
    if steps != [] {
      ReachedInv(s);
      StepCoarse(s, steps[0], edges);
      StepEntries(s, steps[0]);
      ReachedNext(s, steps[0]);
      RunCoarse(Next(s, steps[0]), steps[1..], edges);
    }
  }

  lemma CoarseFits(s: State, t: nat, edges: bool)
    requires Shape(s) && Threads(s) && CoarseState(s, edges) && HasPage(s, t)
    requires s.maxEntries >= Needed(edges)
    ensures !CanOverflow(s, t)
  {
    MergeCoarse(s, t, edges);
    ChunkAtHand(s.writers[t], edges);
    CoarseCount(s.pages[Held(s, t)].cov + ChunkSpan(s.writers[t]), edges);
  }

  lemma RunNeverOverflows(s0: State, steps: seq<Step>, t: nat, edges: bool)
    requires Init(s0) && ValidRun(s0, steps) && CoarseRun(steps, edges)
    requires s0.maxEntries >= Needed(edges)
    ensures !CanOverflow(Run(s0, steps), t)
  {
    InitReached(s0);
    RunCoarse(s0, steps, edges);
    RunReached(s0, steps);
    ReachedInv(Run(s0, steps));
    if HasPage(Run(s0, steps), t) { CoarseFits(Run(s0, steps), t, edges); }
  }

  /** The entry array never binds for chunks of a block or more: in no run whose calls
      are split into such chunks is a page ever sealed. */
  lemma BlockChunksNeverOverflow(s0: State, steps: seq<Step>, t: nat)
    requires Init(s0) && ValidRun(s0, steps) && s0.maxEntries >= BLOCK_RUNS
    requires forall k :: 0 <= k < |steps| && steps[k].Foreground? && steps[k].fg.Start? ==>
               forall c :: c in ChunksFrom(steps[k].fg.off, steps[k].fg.buf, 0) ==> |c.bytes| >= BLOCK
    ensures !CanOverflow(Run(s0, steps), t)
  {
    forall k | 0 <= k < |steps|
      ensures CoarseStep(steps[k], false)
    {
      if steps[k].Foreground? && steps[k].fg.Start? { ChunksInPages(steps[k].fg.off, steps[k].fg.buf, 0); }
    }
    RunNeverOverflows(s0, steps, t, false);
  }

  /** For calls of a block or more, however they straddle pages, one entry more than
      zone / block is enough in every run. */
  lemma BlockCallsNeverOverflow(s0: State, steps: seq<Step>, t: nat)
    requires Init(s0) && ValidRun(s0, steps) && s0.maxEntries > ZONE / BLOCK
    requires forall k :: 0 <= k < |steps| && steps[k].Foreground? && steps[k].fg.Start? ==> |steps[k].fg.buf| >= BLOCK
    ensures !CanOverflow(Run(s0, steps), t)
  {
    forall k | 0 <= k < |steps|
      ensures CoarseStep(steps[k], true)
    {
      if steps[k].Foreground? && steps[k].fg.Start? {
        ChunksInPages(steps[k].fg.off, steps[k].fg.buf, 0);
        BigCallChunks(steps[k].fg.off, steps[k].fg.buf, 0);
      }
    }
    RunNeverOverflows(s0, steps, t, true);
  }
}
