/** What callers can count on: from every state in which nothing has failed yet, the calls
    in flight can all be finished and the engine closed with 0, and a new call is taken. */
module EngineServe {
  import opened Geometry
  import opened Engine
  import opened EngineInv
  import opened EngineSafety
  import opened EngineTheorems
  import opened EngineProgress
  import opened EngineLive
  import opened EngineOrder
  import opened EngineCalls
  import opened NoxWrite
  import opened WriterMerges
  import opened WriterCommits
  import G = Gate

  // ------------------------------------------------------- steps without failure

  /** The batch in hand has used up its five calls per page and is not on disk: the only
      way on is to report the failure. */
  ghost predicate Doomed(s: State) {
    s.s2.Writing? && s.s2.calls >= 5 * |s.s2.batch| && !AllLanded(s.pages, s.s2.batch, s.disk)
  }

  lemma LandingAll(s: State)
    requires BatchKnown(s) && S2Shape(s)
    ensures AllLanded(s.pages, s.s2.batch, Landing(s))
  {
    forall k: nat, i: nat | k < |s.s2.batch| && i < ZONE
      ensures DiskByte(Landing(s), s.s2.batch[k].base, i) == s.pages[s.s2.batch[k].id].zone[i]
    {
      assert Batch(s.s2)[k].base == Batch(s.s2)[0].base + k;
      LandingByte(s, s.s2.batch[k].base, i);
    }
  }

  /** A write that lands the whole batch at once. */
  lemma WritingClean(s: State) returns (st: Step)
    requires Shape(s) && Counters(s) && s.s2.Writing? && !Doomed(s)
    ensures Enabled(s, st) && Productive(s, st) && !Fails(st) && !Doomed(Next(s, st))
  {
    if AllLanded(s.pages, s.s2.batch, s.disk) {
      st := Second(S2Landed);
    } else {
      LandingLands(s);
      LandingAll(s);
      st := Second(S2Issue(Landing(s)));
    }
  }

  lemma ForegroundBatch(s: State, t: nat, st: ForegroundStep)
    requires CanForeground(s, t, st)
    ensures DoForeground(s, t, st).s2 == s.s2 && DoForeground(s, t, st).disk == s.disk
    ensures DoForeground(s, t, st).closer == s.closer
  {
    match st
    case Commit => CommitTakes(s, t);
    case Overflow => OverflowSeals(s, t);
    case _ =>
  }

  lemma Stage1Batch(s: State, st: Stage1Step)
    requires CanStage1(s, st)
    ensures DoStage1(s, st).s2 == s.s2 && DoStage1(s, st).disk == s.disk && DoStage1(s, st).closer == s.closer
  {
  }

  lemma Stage2Batch(s: State, st: Stage2Step)
    requires S2Shape(s) && CanStage2(s, st)
    ensures DoStage2(s, st).closer == s.closer
    ensures !s.s2.Writing? && DoStage2(s, st).s2.Writing? ==> DoStage2(s, st).s2.calls == 0 && DoStage2(s, st).s2.batch != []
  {
  }

  lemma StepBatch(s: State, st: Step)
    requires S2Shape(s) && Enabled(s, st) && !st.Caller?
    ensures Next(s, st).closer == s.closer
    ensures !s.s2.Writing? ==> !Doomed(Next(s, st))
  {
    match st
    case Foreground(t, fg) => ForegroundBatch(s, t, fg);
    case First(s1) => Stage1Batch(s, s1);
    case Second(s2) => Stage2Batch(s, s2);
  }

  lemma CleanStep(s: State) returns (st: Step)
    requires Inv(s) && !Jammed(s) && !Doomed(s)
    ensures Enabled(s, st) && Productive(s, st) && !Fails(st) && !Doomed(Next(s, st))
  {
    if s.s2.Writing? {
      st := WritingClean(s);
    } else {
      st := Progress(s);
      StepBatch(s, st);
    }
  }

  /** Steps the engine takes by itself, none of which fails. */
  predicate Clean(st: Step) {
    !Fails(st) && !st.Caller? && !(st.Foreground? && st.fg.Start?)
  }

  predicate AllClean(steps: seq<Step>) {
    forall k :: 0 <= k < |steps| ==> Clean(steps[k])
  }

  /** Nothing left to do. */
  ghost predicate Quiet(s: State) {
    AllIdle(s) && s.pending == 0
  }

  lemma JammedIsQuiet(s: State)
    requires Reached(s) && Jammed(s) && !s.ioErr
    ensures Quiet(s)
  {
    ReachedInv(s);
    if !AllIdle(s) { JamNeedsLosses(s); }
  }

  lemma AllCleanCons(st: Step, rest: seq<Step>)
    requires Clean(st) && AllClean(rest)
    ensures AllClean([st] + rest)
  {
  }

  lemma NextClean(s: State) returns (st: Step, s': State)
    requires Reached(s) && !s.ioErr && !Doomed(s) && !Jammed(s)
    ensures Enabled(s, st) && Clean(st) && s' == Next(s, st) && 0 <= Effort(s') < Effort(s)
    ensures Reached(s') && !s'.ioErr && !Doomed(s') && s'.closer == s.closer
  {
    ReachedInv(s);
    st := CleanStep(s);
    s' := Next(s, st);
    StepEffort(s, st);
    StepErr(s, st);
    StepBatch(s, st);
    ReachedNext(s, st);
    ReachedInv(s');
    EffortIsNat(s');
  }

  /** All calls in flight return and every page is written, without a failure. */
  lemma {:induction false} Finish(s: State) returns (steps: seq<Step>)
    requires Reached(s) && !s.ioErr && !Doomed(s)
    ensures ValidRun(s, steps) && AllClean(steps)
    ensures var s' := Run(s, steps); Reached(s') && Quiet(s') && !s'.ioErr && s'.closer == s.closer
    decreases if Effort(s) >= 0 then Effort(s) else 0
  {
    if Jammed(s) {
      JammedIsQuiet(s);
      steps := [];
    } else {
      var st, s' := NextClean(s);
      var rest := Finish(s');
      AllCleanCons(st, rest);
      OneStep(s, st);
      RunAppend(s, [st], rest);
      steps := [st] + rest;
    }
  }

  // --------------------------------------------------------------------- close

  /** With nothing left to do, the sections of nox_close run through. */
  lemma CloseRuns(s: State) returns (steps: seq<Step>)
    requires Reached(s) && Quiet(s) && !s.ioErr
    ensures ValidRun(s, steps) && (forall k :: 0 <= k < |steps| ==> steps[k].Caller? && !steps[k].c.FastWrite?)
    ensures Run(s, steps) == s.(closer := Closed(false), gate := Run(s, steps).gate)
  {
    match s.closer
    case Running =>
      var rest := CloseFrom(DoCloseBegin(s));
      OneStep(s, Caller(CloseBegin));
      RunAppend(s, [Caller(CloseBegin)], rest);
      steps := [Caller(CloseBegin)] + rest;
    case Closed(err) =>
      ReachedInv(s);
      steps := [];
    case Stopping(err) =>
      ReachedInv(s);
      steps := CloseFrom(s);
    case Draining => steps := CloseFrom(s);
  }

  lemma CloseFrom(s: State) returns (steps: seq<Step>)
    requires s.pending == 0 && !s.ioErr && (s.closer.Draining? || s.closer == Stopping(false))
    ensures ValidRun(s, steps) && (forall k :: 0 <= k < |steps| ==> steps[k].Caller? && !steps[k].c.FastWrite?)
    ensures Run(s, steps) == s.(closer := Closed(false))
    decreases s.closer.Draining?
  {
    if s.closer.Draining? {
      var rest := CloseFrom(DoCloseDrain(s));
      OneStep(s, Caller(CloseDrain));
      RunAppend(s, [Caller(CloseDrain)], rest);
      steps := [Caller(CloseDrain)] + rest;
    } else {
      OneStep(s, Caller(CloseStop));
      steps := [Caller(CloseStop)];
    }
  }

  // ------------------------------------------------------ what a close will leave

  /** The byte at the address once all calls in flight have returned: the one a call in
      flight has for it, or else what the returned calls made it. */
  ghost predicate Due(s: State, b: nat, i: nat, v: byte) {
    && (forall t :: 0 <= t < |s.writers| && s.writers[t].Active? && InRange(s.writers[t], b, i) ==>
          s.writers[t].buf[b * ZONE + i - s.writers[t].off] == v)
    && ((forall t :: 0 <= t < |s.writers| && s.writers[t].Active? ==> !InRange(s.writers[t], b, i)) ==>
          Flat(s.init, s.returned, b, i) == v)
  }

  /** The same calls in flight with the same buffers, and the same calls returned. */
  ghost predicate SameBuffers(s: State, s': State) {
    && s'.init == s.init && s'.returned == s.returned && |s'.writers| == |s.writers|
    && forall t :: 0 <= t < |s.writers| ==>
         && s'.writers[t].Active? == s.writers[t].Active?
         && (s.writers[t].Active? ==> s'.writers[t].off == s.writers[t].off && s'.writers[t].buf == s.writers[t].buf)
  }

  lemma SameDue(s: State, s': State, b: nat, i: nat, v: byte)
    requires SameBuffers(s, s') && Due(s, b, i, v)
    ensures Due(s', b, i, v)
  {
    assert forall t :: 0 <= t < |s.writers| && s.writers[t].Active? ==>
        s'.writers[t].Active? && InRange(s'.writers[t], b, i) == InRange(s.writers[t], b, i);
  }

  lemma ReturnDue(s: State, t: nat, s': State, b: nat, i: nat, v: byte)
    requires t < |s.writers| && s.writers[t].Active? && Exclusive(s) && Due(s, b, i, v)
    requires s'.init == s.init && s'.writers == s.writers[t := Idle]
    requires s'.returned == s.returned + [Write(s.writers[t].off, s.writers[t].buf)]
    ensures Due(s', b, i, v)
  {
    var w := s.writers[t];
    FlatAppend(s.init, s.returned, Write(w.off, w.buf), b, i);
    forall u | 0 <= u < |s.writers| && u != t && s.writers[u].Active? && InRange(w, b, i)
      ensures !InRange(s.writers[u], b, i)
    {
      assert Apart(w.off, |w.buf|, s.writers[u].off, |s.writers[u].buf|);
    }
    assert forall u :: 0 <= u < |s.writers| && u != t ==> s'.writers[u] == s.writers[u];
  }

  lemma CommitDue(s: State, t: nat, s': State, b: nat, i: nat, v: byte)
    requires Exclusive(s) && Takes(s, t, s') && Due(s, b, i, v)
    ensures Due(s', b, i, v)
  {
    if Advance(s.writers[t]).Idle? {
      ReturnDue(s, t, s', b, i, v);
    } else {
      assert SameBuffers(s, s');
      SameDue(s, s', b, i, v);
    }
  }

  lemma StepDue(s: State, st: Step, b: nat, i: nat, v: byte)
    requires Exclusive(s) && Enabled(s, st) && Due(s, b, i, v)
    requires !(st.Foreground? && st.fg.Start?) && !(st.Caller? && st.c.FastWrite?)
    ensures Due(Next(s, st), b, i, v)
  {
    StepInit(s, st);
    match st
    case Foreground(t, fg) =>
      if fg.Commit? {
        CommitTakes(s, t);
        CommitDue(s, t, DoCommit(s, t), b, i, v);
      } else {
        InsideCall(s, t, fg);
        SameDue(s, Next(s, st), b, i, v);
      }
    case First(s1) =>
      Stage1Outside(s, s1);
      SameDue(s, Next(s, st), b, i, v);
    case Second(s2) =>
      Stage2Outside(s, s2);
      SameDue(s, Next(s, st), b, i, v);
    case Caller(c) => SameDue(s, Next(s, st), b, i, v);
  }

  /** Steps that bring no new bytes. */
  predicate NoNewCall(steps: seq<Step>) {
    forall k :: 0 <= k < |steps| ==>
      !(steps[k].Foreground? && steps[k].fg.Start?) && !(steps[k].Caller? && steps[k].c.FastWrite?)
  }

  lemma {:induction false} RunDue(s: State, steps: seq<Step>, b: nat, i: nat, v: byte)
    requires Reached(s) && ValidRun(s, steps) && NoNewCall(steps) && Due(s, b, i, v)
    ensures Due(Run(s, steps), b, i, v)
    decreases |steps|
  {
    if steps != [] {
      ReachedDue(s, steps[0], b, i, v);
      RunDue(Next(s, steps[0]), steps[1..], b, i, v);
    }
  }

  lemma ReachedDue(s: State, st: Step, b: nat, i: nat, v: byte)
    requires Reached(s) && Enabled(s, st) && Due(s, b, i, v) && NoNewCall([st])
    ensures Reached(Next(s, st)) && Due(Next(s, st), b, i, v)
  {
    ReachedInv(s);
    assert [st][0] == st;
    StepDue(s, st, b, i, v);
    ReachedNext(s, st);
  }

  /** From every state in which nothing has failed and no batch is doomed, for any number
      of threads: without new calls the engine can finish and close with 0, and then the
      file holds at every address what was due there. */
  lemma ClosesWithAll(s: State) returns (steps: seq<Step>)
    requires Reached(s) && !s.ioErr && !Doomed(s)
    ensures ValidRun(s, steps) && NoNewCall(steps) && !Failed(steps) && Run(s, steps).closer == Closed(false)
    ensures forall b: nat, i: nat, v: byte :: i < ZONE && Due(s, b, i, v) ==> DiskByte(Run(s, steps).disk, b, i) == v
  {
    var finish := Finish(s);
    var close := CloseRuns(Run(s, finish));
    RunAppend(s, finish, close);
    steps := finish + close;
    ClosedDue(s, steps, Run(s, steps));
  }

  lemma ClosedDue(s: State, steps: seq<Step>, s': State)
    requires Reached(s) && ValidRun(s, steps) && NoNewCall(steps) && s' == Run(s, steps) && s'.closer == Closed(false)
    ensures forall b: nat, i: nat, v: byte :: i < ZONE && Due(s, b, i, v) ==> DiskByte(s'.disk, b, i) == v
  {
    RunReached(s, steps);
    ReachedInv(s');
    ClosedFlat(s');
    forall b: nat, i: nat, v: byte | i < ZONE && Due(s, b, i, v)
      ensures DiskByte(s'.disk, b, i) == v
    {
      RunDue(s, steps, b, i, v);
      assert AllIdle(s') && Flat(s'.init, s'.returned, b, i) == v;
    }
  }

  // ------------------------------------------------------------- exactly when

  ghost predicate NotLanded(s: State, k: nat, i: nat) {
    && s.s2.Writing? && k < |s.s2.batch| && i < ZONE && s.s2.batch[k].id < |s.pages|
    && |s.pages[s.s2.batch[k].id].zone| == ZONE
    && DiskByte(s.disk, s.s2.batch[k].base, i) != s.pages[s.s2.batch[k].id].zone[i]
  }

  lemma DoomedByte(s: State) returns (k: nat, i: nat)
    requires Shape(s) && Doomed(s)
    ensures NotLanded(s, k, i)
  {
    k, i :| k < |s.s2.batch| && i < ZONE && !(s.s2.batch[k].id < |s.pages| && i < |s.pages[s.s2.batch[k].id].zone| &&
        DiskByte(s.disk, s.s2.batch[k].base, i) == s.pages[s.s2.batch[k].id].zone[i]);
    assert s.s2.batch[k] in Line(s);
  }

  lemma CallerMisses(s: State, c: CallerStep, k: nat, i: nat)
    requires Inv(s) && CanCaller(s, c) && NotLanded(s, k, i)
    ensures DoCaller(s, c).s2 == s.s2
    ensures DiskByte(DoCaller(s, c).disk, s.s2.batch[k].base, i) == DiskByte(s.disk, s.s2.batch[k].base, i)
  {
    if c.FastWrite? {
      var r := s.s2.batch[k];
      assert r in Line(s) && r in Batch(s.s2) + s.q2;
      assert r.id !in s.freed;
      FastMisses(s, c.w, c.rest, c.disk', r.id, i);
    }
  }

  lemma Stage2Doomed(s: State, st: Stage2Step)
    requires s.s2.Writing? && s.s2.calls >= 5 * |s.s2.batch| && !AllLanded(s.pages, s.s2.batch, s.disk)
    requires CanStage2(s, st)
    ensures st.S2Failed?
  {
  }

  /** Nothing but the report of the failure gets a doomed batch out of the way. */
  lemma DoomedStays(s: State, st: Step)
    requires Reached(s) && Doomed(s) && Enabled(s, st) && !Fails(st)
    ensures Doomed(Next(s, st))
  {
    ReachedInv(s);
    var k, i := DoomedByte(s);
    StableSource(s, st, k);
    match st
    case Foreground(t, fg) => ForegroundBatch(s, t, fg);
    case First(s1) => Stage1Batch(s, s1);
    case Second(s2) => Stage2Doomed(s, s2);
    case Caller(c) => CallerMisses(s, c, k, i);
    StillNotLanded(s, Next(s, st), k, i);
  }

  lemma StillNotLanded(s: State, s': State, k: nat, i: nat)
    requires Doomed(s) && NotLanded(s, k, i) && s'.s2 == s.s2 && s.s2.batch[k].id < |s'.pages|
    requires s'.pages[s.s2.batch[k].id].zone == s.pages[s.s2.batch[k].id].zone
    requires DiskByte(s'.disk, s.s2.batch[k].base, i) == DiskByte(s.disk, s.s2.batch[k].base, i)
    ensures Doomed(s')
  {
    assert DiskByte(s'.disk, s'.s2.batch[k].base, i) != s'.pages[s'.s2.batch[k].id].zone[i];
  }

  lemma {:induction false} RunDoomed(s: State, steps: seq<Step>)
    requires Reached(s) && Doomed(s) && ValidRun(s, steps) && !Failed(steps)
    ensures Doomed(Run(s, steps))
    decreases |steps|
  {
    if steps != [] {
      FailedCons(steps);
      DoomedStays(s, steps[0]);
      ReachedNext(s, steps[0]);
      RunDoomed(Next(s, steps[0]), steps[1..]);
    }
  }

  lemma ClosedNotDoomed(s: State, steps: seq<Step>)
    requires Reached(s) && ValidRun(s, steps) && Run(s, steps).closer == Closed(false)
    ensures !s.ioErr && !Doomed(s)
  {
    RunReached(s, steps);
    ReachedInv(Run(s, steps));
    RunErr(s, steps);
    if Doomed(s) { RunDoomed(s, steps); }
  }

  /** Exactly when nox_close can still return 0, in every run and for any number of threads:
      if and only if no system call has failed and no batch is out of calls. */
  lemma ClosesIff(s: State)
    requires Reached(s)
    ensures (exists steps: seq<Step> :: ValidRun(s, steps) && Run(s, steps).closer == Closed(false)) <==> !s.ioErr && !Doomed(s)
  {
    if !s.ioErr && !Doomed(s) {
      var steps := ClosesWithAll(s);
    }
    forall steps: seq<Step> | ValidRun(s, steps) && Run(s, steps).closer == Closed(false)
      ensures !s.ioErr && !Doomed(s)
    {
      ClosedNotDoomed(s, steps);
    }
  }

  // ------------------------------------------------------------------ a new call

  lemma StartDue(s: State, t: nat, off: nat, buf: seq<byte>, b: nat, i: nat, v: byte)
    requires CanStart(s, t, off, buf)
    requires if Within(off, |buf|, b, i) then v == buf[b * ZONE + i - off] else Due(s, b, i, v)
    ensures Due(DoStart(s, t, off, buf), b, i, v)
  {
    var s' := DoStart(s, t, off, buf);
    assert s'.writers[t] == Active(off, buf, 0, AtGate, 0);
    forall u | 0 <= u < |s.writers| && u != t && s.writers[u].Active?
      ensures s'.writers[u] == s.writers[u] && Apart(off, |buf|, s.writers[u].off, |s.writers[u].buf|)
    {
    }
    assert InRange(s'.writers[t], b, i) == Within(off, |buf|, b, i);
  }

  /** What a new call leaves behind: its own bytes, and elsewhere what was due. */
  ghost predicate Serves(s: State, off: nat, buf: seq<byte>, disk: Disk) {
    forall b: nat, i: nat, v: byte {:trigger Due(s, b, i, v)} :: i < ZONE ==>
      if Within(off, |buf|, b, i) then DiskByte(disk, b, i) == buf[b * ZONE + i - off]
      else Due(s, b, i, v) ==> DiskByte(disk, b, i) == v
  }

  lemma StartServes(s: State, t: nat, off: nat, buf: seq<byte>, disk: Disk)
    requires CanStart(s, t, off, buf)
    requires forall b: nat, i: nat, v: byte :: i < ZONE && Due(DoStart(s, t, off, buf), b, i, v) ==> DiskByte(disk, b, i) == v
    ensures Serves(s, off, buf, disk)
  {
    forall b: nat, i: nat, v: byte | i < ZONE
      ensures if Within(off, |buf|, b, i) then DiskByte(disk, b, i) == buf[b * ZONE + i - off]
              else Due(s, b, i, v) ==> DiskByte(disk, b, i) == v
    {
      if Within(off, |buf|, b, i) {
        StartDue(s, t, off, buf, b, i, buf[b * ZONE + i - off]);
      } else if Due(s, b, i, v) {
        StartDue(s, t, off, buf, b, i, v);
      }
    }
  }

  /** Every call is served: in every run, as long as nothing has failed, an idle thread may
      write any buffer that is not for the direct path and clear of the calls in flight;
      some run then closes with 0 and leaves the buffer in the file. */
  lemma WriteServed(s: State, t: nat, off: nat, buf: seq<byte>) returns (steps: seq<Step>)
    requires Reached(s) && !s.ioErr && !Doomed(s) && s.closer.Running? && t < |s.writers| && s.writers[t].Idle?
    requires |buf| > 0 && !(|buf| >= 1048576 && OnBlocks(off, |buf|)) && ClearOfCalls(s, off, |buf|)
    ensures ValidRun(s, [Foreground(t, Start(off, buf))] + steps) && NoNewCall(steps) && !Failed(steps)
    ensures var s' := Run(s, [Foreground(t, Start(off, buf))] + steps);
            s'.closer == Closed(false) && Serves(s, off, buf, s'.disk)
  {
    FastPathIs(off, |buf|);
    var st := Foreground(t, Start(off, buf));
    var s1 := DoStart(s, t, off, buf);
    ReachedNext(s, st);
    steps := ClosesWithAll(s1);
    OneStep(s, st);
    RunAppend(s, [st], steps);
    StartServes(s, t, off, buf, Run(s1, steps).disk);
  }

  lemma DirectDue(s: State, w: Write, rest: seq<byte>, disk': Disk, b: nat, i: nat, v: byte)
    requires ClearOfCalls(s, w.off, |w.bytes| + |rest|)
    requires if Hits(w, b, i) then v == w.bytes[b * ZONE + i - w.off] else Due(s, b, i, v)
    ensures Due(DoFastWrite(s, w, rest, disk'), b, i, v)
  {
    FlatAppend(s.init, s.returned, w, b, i);
    forall u | 0 <= u < |s.writers| && s.writers[u].Active? && Hits(w, b, i)
      ensures !InRange(s.writers[u], b, i)
    {
      assert Apart(w.off, |w.bytes| + |rest|, s.writers[u].off, |s.writers[u].buf|);
    }
  }

  lemma DirectServes(s: State, w: Write, rest: seq<byte>, disk': Disk, disk: Disk)
    requires ClearOfCalls(s, w.off, |w.bytes| + |rest|)
    requires forall b: nat, i: nat, v: byte ::
               i < ZONE && Due(DoFastWrite(s, w, rest, disk'), b, i, v) ==> DiskByte(disk, b, i) == v
    ensures Serves(s, w.off, w.bytes, disk)
  {
    forall b: nat, i: nat, v: byte | i < ZONE
      ensures if Within(w.off, |w.bytes|, b, i) then DiskByte(disk, b, i) == w.bytes[b * ZONE + i - w.off]
              else Due(s, b, i, v) ==> DiskByte(disk, b, i) == v
    {
      if Within(w.off, |w.bytes|, b, i) {
        DirectDue(s, w, rest, disk', b, i, w.bytes[b * ZONE + i - w.off]);
      } else if Due(s, b, i, v) {
        DirectDue(s, w, rest, disk', b, i, v);
      }
    }
  }

  lemma DirectNotDoomed(s: State, w: Write, rest: seq<byte>, disk': Disk)
    requires Inv(s) && CanFastWrite(s, w, rest, disk') && !Doomed(s)
    ensures !Doomed(DoFastWrite(s, w, rest, disk'))
  {
    if s.s2.Writing? {
      forall k: nat, i: nat | k < |s.s2.batch| && i < ZONE
        ensures DiskByte(disk', s.s2.batch[k].base, i) == DiskByte(s.disk, s.s2.batch[k].base, i)
      {
        BatchMissed(s, w, rest, disk', k, i);
      }
    }
  }

  lemma BatchMissed(s: State, w: Write, rest: seq<byte>, disk': Disk, k: nat, i: nat)
    requires Inv(s) && CanFastWrite(s, w, rest, disk') && s.s2.Writing? && k < |s.s2.batch| && i < ZONE
    ensures DiskByte(disk', s.s2.batch[k].base, i) == DiskByte(s.disk, s.s2.batch[k].base, i)
  {
    var r := s.s2.batch[k];
    assert r in Line(s) && r in Batch(s.s2) + s.q2;
    assert r.id !in s.freed;
    FastMisses(s, w, rest, disk', r.id, i);
  }

  /** So is every direct call that is clear of scrap pages and of the calls in flight,
      whatever prefix of it lands. */
  lemma DirectServed(s: State, w: Write, rest: seq<byte>, disk': Disk) returns (steps: seq<Step>)
    requires Reached(s) && !s.ioErr && !Doomed(s) && s.closer.Running?
    requires var size := |w.bytes| + |rest|;
             && size >= 1048576 && OnBlocks(w.off, size) && ClearOfCalls(s, w.off, size) && ClearOfScrap(s, w.off, size)
    requires DiskAfter(s.disk, w, disk')
    ensures ValidRun(s, [Caller(FastWrite(w, rest, disk'))] + steps) && NoNewCall(steps) && !Failed(steps)
    ensures var s' := Run(s, [Caller(FastWrite(w, rest, disk'))] + steps);
            s'.closer == Closed(false) && Serves(s, w.off, w.bytes, s'.disk)
  {
    FastPathIs(w.off, |w.bytes| + |rest|);
    var s1 := DoFastWrite(s, w, rest, disk');
    DirectTaken(s, w, rest, disk');
    steps := ClosesWithAll(s1);
    RunAppend(s, [Caller(FastWrite(w, rest, disk'))], steps);
    DirectServes(s, w, rest, disk', Run(s1, steps).disk);
  }

  lemma DirectTaken(s: State, w: Write, rest: seq<byte>, disk': Disk)
    requires Reached(s) && !s.ioErr && !Doomed(s) && CanFastWrite(s, w, rest, disk')
    ensures var s1, st := DoFastWrite(s, w, rest, disk'), Caller(FastWrite(w, rest, disk'));
            ValidRun(s, [st]) && Run(s, [st]) == s1 && Reached(s1) && !s1.ioErr && !Doomed(s1)
  {
    ReachedInv(s);
    DirectNotDoomed(s, w, rest, disk');
    OneStep(s, Caller(FastWrite(w, rest, disk')));
    RunReached(s, [Caller(FastWrite(w, rest, disk'))]);
  }

  /** A new engine over any file, with any marks and any number of threads. */
  lemma Opens(disk: Disk, high: nat, low: nat, n: nat, entries: nat) returns (s: State)
    requires low < high && entries >= 1
    ensures Init(s) && s.disk == disk && |s.writers| == n && s.maxEntries == entries
    ensures s.gate.high == high && s.gate.low == low && s.gate.armed
    ensures forall b: nat, i: nat :: i < ZONE ==> Due(s, b, i, DiskByte(disk, b, i))
  {
    s := State(disk, [], {}, map[], [], [], S1Idle, S2Idle, seq(n, _ => Idle),
               G.Gate(true, high, low, 0, seq(n, _ => G.Outside), 0), seq(WB_SLOTS, _ => 0), 0, 0,
               false, Running, entries, disk, [], [], [], false);
  }
}
