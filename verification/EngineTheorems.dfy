/** What the invariant means for a caller: the engine refines a flat file. */
module EngineTheorems {
  import opened Geometry
  import opened Engine
  import opened EngineInv
  import opened EngineSafety
  import opened WriterMerges
  import opened WriterCommits

  // -------------------------------------------------------------- refinement

  /** The disk with the live pages among the first n laid over it, oldest first. */
  function Overlay(s: State, b: nat, i: nat, n: nat): byte
    requires n <= |s.pages|
  {
    if n == 0 then DiskByte(s.disk, b, i)
    else
      var p := s.pages[n - 1];
      if n - 1 !in s.freed && p.base == b && i in p.cov && i < |p.zone| then p.zone[i]
      else Overlay(s, b, i, n - 1)
  }

  /** What the engine holds at an address. */
  function View(s: State, b: nat, i: nat): byte {
    Overlay(s, b, i, |s.pages|)
  }

  ghost predicate Refines(s: State) {
    forall b: nat, i: nat {:trigger View(s, b, i)} :: i < ZONE ==> View(s, b, i) == Flat(s.init, s.log, b, i)
  }

  /** Above n nothing covers the address, so the overlay of n pages is the view. */
  lemma {:induction false} OverlayShows(s: State, b: nat, i: nat, n: nat)
    requires Shape(s) && PagesFaithful(s) && DiskFaithful(s) && i < ZONE && n <= |s.pages|
    requires forall k :: n <= k < |s.pages| && k !in s.freed && s.pages[k].base == b ==> i !in s.pages[k].cov
    ensures Overlay(s, b, i, n) == Flat(s.init, s.log, b, i)
    decreases n
  {
    if n == 0 {
      assert Bare(s, b, i);
    } else if n - 1 !in s.freed && s.pages[n - 1].base == b && i in s.pages[n - 1].cov {
      assert Shows(s, n - 1, i);
    } else {
      OverlayShows(s, b, i, n - 1);
    }
  }

  lemma InvRefines(s: State)
    requires Shape(s) && Faithful(s) && !s.ioErr
    ensures Refines(s)
  {
    forall b: nat, i: nat | i < ZONE
      ensures View(s, b, i) == Flat(s.init, s.log, b, i)
    {
      OverlayShows(s, b, i, |s.pages|);
    }
  }

  /** Refinement over all runs: however the foreground threads, Stage-1 and
      Stage-2 interleave, disk and live pages together hold exactly the flat file
      that the merged chunks define. */
  lemma Refinement(s: State)
    requires Reached(s) && !s.ioErr
    ensures Refines(s)
  {
    ReachedInv(s);
    InvRefines(s);
  }

  lemma Stage1Log(s: State, st: Stage1Step)
    requires CanStage1(s, st)
    ensures DoStage1(s, st).log == s.log && DoStage1(s, st).init == s.init
  {
  }

  lemma Stage2Log(s: State, st: Stage2Step)
    requires CanStage2(s, st)
    ensures DoStage2(s, st).log == s.log && DoStage2(s, st).init == s.init
  {
  }

  /** No background step changes what the engine holds anywhere. */
  lemma BackgroundInvisible(s: State, st: Step, b: nat, i: nat)
    requires Reached(s) && Enabled(s, st) && (st.First? || st.Second?) && !Next(s, st).ioErr && !s.ioErr && i < ZONE
    ensures View(Next(s, st), b, i) == View(s, b, i)
  {
    var s' := Next(s, st);
    ReachedNext(s, st);
    Refinement(s);
    Refinement(s');
    if st.First? { Stage1Log(s, st.s1); } else { Stage2Log(s, st.s2); }
    assert View(s, b, i) == Flat(s.init, s.log, b, i);
    assert View(s', b, i) == Flat(s'.init, s'.log, b, i);
  }

  lemma ForegroundLog(s: State, t: nat, st: ForegroundStep)
    requires CanForeground(s, t, st) && !st.Commit?
    ensures DoForeground(s, t, st).log == s.log && DoForeground(s, t, st).init == s.init
    ensures DoForeground(s, t, st).ioErr == s.ioErr
  {
    if st.Overflow? { OverflowSeals(s, t); }
  }

  /** Nor does any step of a writer but the merge: not creating, sealing or unlinking a page. */
  lemma ForegroundInvisible(s: State, t: nat, st: ForegroundStep, b: nat, i: nat)
    requires Reached(s) && CanForeground(s, t, st) && !st.Commit? && !s.ioErr && i < ZONE
    ensures View(DoForeground(s, t, st), b, i) == View(s, b, i)
  {
    var s' := DoForeground(s, t, st);
    ReachedNext(s, Foreground(t, st));
    ForegroundLog(s, t, st);
    Refinement(s);
    Refinement(s');
    assert View(s, b, i) == Flat(s.init, s.log, b, i);
    assert View(s', b, i) == Flat(s'.init, s'.log, b, i);
  }

  /** A commit changes exactly the bytes of its chunk. */
  lemma CommitVisibleExactly(s: State, t: nat, b: nat, i: nat)
    requires Reached(s) && CanCommit(s, t) && !s.ioErr && i < ZONE
    ensures var s' := DoCommit(s, t); var w := s.writers[t];
            if b == CurBase(w) && i in ChunkSpan(w)
            then CurIntra(w) <= i && i - CurIntra(w) < |ChunkBytes(w)| && View(s', b, i) == ChunkBytes(w)[i - CurIntra(w)]
            else View(s', b, i) == View(s, b, i)
  {
    var s' := DoCommit(s, t);
    CommitTakes(s, t);
    Refinement(s);
    ReachedNext(s, Foreground(t, Commit));
    Refinement(s');
    FlatAfter(s, t, s', b, i);
    ChunkHits(s.writers[t], b, i);
    assert View(s, b, i) == Flat(s.init, s.log, b, i);
    assert View(s', b, i) == Flat(s'.init, s'.log, b, i);
  }

  lemma CallReturned(s: State, t: nat, s': State, b: nat, i: nat)
    requires Threads(s) && Exclusive(s) && Takes(s, t, s') && Advance(s.writers[t]).Idle?
    requires InRange(s.writers[t], b, i)
    ensures Untouched(s', b, i)
    ensures Flat(s'.init, s'.returned, b, i) == s.writers[t].buf[b * ZONE + i - s.writers[t].off]
  {
    var w := s.writers[t];
    assert s'.returned == s.returned + [Write(w.off, w.buf)];
    FlatAppend(s.init, s.returned, Write(w.off, w.buf), b, i);
    forall u | 0 <= u < |s'.writers| && s'.writers[u].Active?
      ensures !InDone(s'.writers[u], b, i)
    {
      assert u != t && s'.writers[u] == s.writers[u];
      assert Apart(w.off, |w.buf|, s.writers[u].off, |s.writers[u].buf|);
    }
  }

  lemma ReturnShows(s: State, t: nat, s': State, call: Write, b: nat, i: nat)
    requires Threads(s) && Exclusive(s) && Takes(s, t, s') && Advance(s.writers[t]).Idle?
    requires Shape(s') && Faithful(s') && Visible(s') && !s'.ioErr && i < ZONE
    requires call == Write(s.writers[t].off, s.writers[t].buf) && Hits(call, b, i)
    ensures View(s', b, i) == call.bytes[b * ZONE + i - call.off]
  {
    CallReturned(s, t, s', b, i);
    UntouchedShows(s', b, i);
  }

  /** Where no call in flight has been, the engine holds what the returned calls made. */
  lemma UntouchedShows(s: State, b: nat, i: nat)
    requires Shape(s) && Faithful(s) && Visible(s) && !s.ioErr && i < ZONE && Untouched(s, b, i)
    ensures View(s, b, i) == Flat(s.init, s.returned, b, i)
  {
    InvRefines(s);
    assert View(s, b, i) == Flat(s.init, s.log, b, i);
  }

  /** When a thread's call returns, the engine holds its whole buffer: no call that was
      in flight beside it has touched those bytes. */
  lemma ReturnVisible(s: State, t: nat, s': State, call: Write, b: nat, i: nat)
    requires Inv(s) && !s.ioErr && CanCommit(s, t) && s' == DoCommit(s, t) && s'.writers[t].Idle? && i < ZONE
    requires call == Write(s.writers[t].off, s.writers[t].buf) && Hits(call, b, i)
    ensures View(s', b, i) == call.bytes[b * ZONE + i - call.off]
  {
    CommitTakes(s, t);
    CommitKeeps(s, t);
    ReturnShows(s, t, s', call, b, i);
  }

  // ------------------------------------------------------------------- close

  lemma ForegroundInit(s: State, t: nat, st: ForegroundStep)
    requires CanForeground(s, t, st)
    ensures DoForeground(s, t, st).init == s.init
  {
    match st
    case Commit => CommitTakes(s, t);
    case Overflow => OverflowSeals(s, t);
    case _ =>
  }

  lemma StepInit(s: State, st: Step)
    requires Enabled(s, st)
    ensures Next(s, st).init == s.init
  {
    match st
    case Foreground(t, fg) => ForegroundInit(s, t, fg);
    case First(s1) => Stage1Log(s, s1);
    case Second(s2) => Stage2Log(s, s2);
    case Caller(c) =>
  }

  lemma {:induction false} RunInit(s: State, steps: seq<Step>)
    requires ValidRun(s, steps)
    ensures Run(s, steps).init == s.init
    decreases |steps|
  {
    if steps != [] {
      StepInit(s, steps[0]);
      RunInit(Next(s, steps[0]), steps[1..]);
    }
  }

  /** With no failed read, an empty line means no live page and an empty index:
      the sweep of nox_close finds nothing. */
  lemma DrainedEmpty(s: State)
    requires Shape(s) && Indexed(s) && Threads(s) && Accounted(s) && Counters(s)
    requires s.pending == 0 && AllIdle(s) && !s.dropped
    ensures Line(s) == [] && s.index == map[]
    ensures forall j :: 0 <= j < |s.pages| ==> j in s.freed
  {
  }

  lemma {:induction false} Unwritten(init: Disk, log: seq<Write>, b: nat, i: nat)
    requires forall k :: 0 <= k < |log| ==> !Hits(log[k], b, i)
    ensures Flat(init, log, b, i) == DiskByte(init, b, i)
  {
    if log != [] { Unwritten(init, log[..|log| - 1], b, i); }
  }

  lemma ClosedFlat(s: State)
    requires Inv(s) && s.closer == Closed(false)
    ensures !s.ioErr && s.index == map[] && Line(s) == []
    ensures forall b: nat, i: nat :: i < ZONE ==> DiskByte(s.disk, b, i) == Flat(s.init, s.returned, b, i)
  {
    DrainedEmpty(s);
    forall b: nat, i: nat | i < ZONE
      ensures DiskByte(s.disk, b, i) == Flat(s.init, s.returned, b, i)
    {
      assert Bare(s, b, i) && Untouched(s, b, i);
      assert DiskByte(s.disk, b, i) == Flat(s.init, s.log, b, i);
    }
  }

  /** What a finished call wrote is the call, except that a direct write may have got
      only a prefix done, and then it returned an error. */
  ghost predicate WroteItsCall(call: Write, effect: Write) {
    effect == call || (FastPath(call.off, |call.bytes|) && effect.off == call.off && effect.bytes < call.bytes)
  }

  /** The k-th entry of `returned` is what the k-th call wrote. */
  ghost predicate Effects(calls: seq<Write>, returned: seq<Write>) {
    |returned| == |calls| && forall k :: 0 <= k < |calls| ==> WroteItsCall(calls[k], returned[k])
  }

  ghost predicate CallsKept(s: State) {
    Effects(s.calls, s.returned)
  }

  lemma ForegroundCalls(s: State, t: nat, st: ForegroundStep)
    requires CallsKept(s) && CanForeground(s, t, st)
    ensures CallsKept(DoForeground(s, t, st))
  {
    match st
    case Commit => CommitTakes(s, t);
    case Overflow => OverflowSeals(s, t);
    case _ =>
  }

  lemma Stage1Calls(s: State, st: Stage1Step)
    requires CanStage1(s, st)
    ensures DoStage1(s, st).calls == s.calls && DoStage1(s, st).returned == s.returned
  {
  }

  lemma Stage2Calls(s: State, st: Stage2Step)
    requires CanStage2(s, st)
    ensures DoStage2(s, st).calls == s.calls && DoStage2(s, st).returned == s.returned
  {
  }

  lemma CallerCalls(s: State, st: CallerStep)
    requires CallsKept(s) && CanCaller(s, st)
    ensures CallsKept(DoCaller(s, st))
  {
  }

  lemma StepCalls(s: State, st: Step)
    requires CallsKept(s) && Enabled(s, st)
    ensures CallsKept(Next(s, st))
  {
    match st
    case Foreground(t, fg) => ForegroundCalls(s, t, fg);
    case First(s1) => Stage1Calls(s, s1);
    case Second(s2) => Stage2Calls(s, s2);
    case Caller(c) => CallerCalls(s, c);
  }

  lemma {:induction false} RunCalls(s: State, steps: seq<Step>)
    requires CallsKept(s) && ValidRun(s, steps)
    ensures CallsKept(Run(s, steps))
    decreases |steps|
  {
    if steps != [] {
      StepCalls(s, steps[0]);
      RunCalls(Next(s, steps[0]), steps[1..]);
    }
  }

  /** In every run, failures included, if nox_close returns 0 the file is its initial
      contents with the recorded effects of all calls applied in the order they returned.
      The effect of a call is the call itself; only a direct write that returned an error
      has less, a prefix, because close does not report it. A byte no effect hits is the
      one that was there. */
  lemma ClosedFile(s0: State, steps: seq<Step>)
    requires Init(s0) && ValidRun(s0, steps) && Run(s0, steps).closer == Closed(false)
    ensures var s := Run(s0, steps);
            && CallsKept(s)
            && (forall b: nat, i: nat :: i < ZONE ==> DiskByte(s.disk, b, i) == Flat(s0.disk, s.returned, b, i))
            && (forall b: nat, i: nat :: i < ZONE && (forall k :: 0 <= k < |s.returned| ==> !Hits(s.returned[k], b, i)) ==>
                  DiskByte(s.disk, b, i) == DiskByte(s0.disk, b, i))
  {
    var s := Run(s0, steps);
    InitReached(s0);
    RunCalls(s0, steps);
    RunInit(s0, steps);
    ReachedInv(s);
    ClosedFlat(s);
    forall b: nat, i: nat | i < ZONE && (forall k :: 0 <= k < |s.returned| ==> !Hits(s.returned[k], b, i))
      ensures DiskByte(s.disk, b, i) == DiskByte(s0.disk, b, i)
    {
      Unwritten(s0.disk, s.returned, b, i);
    }
  }
}
