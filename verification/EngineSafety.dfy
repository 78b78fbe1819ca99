/** Every step of the engine keeps the invariant, so every reachable state has it. */
module EngineSafety {
  import opened Geometry
  import opened Engine
  import opened EngineInv
  import opened WriterSteps
  import opened WriterPages
  import opened WriterMerges
  import opened WriterCommits
  import opened Stage1Shifts
  import opened Stage1Pages
  import opened Stage2Shifts
  import opened Stage2Pages
  import G = Gate

  // --------------------------------------------------------------- fast path

  lemma FlatAppend(init: Disk, log: seq<Write>, w: Write, b: nat, i: nat)
    ensures Flat(init, log + [w], b, i) == if Hits(w, b, i) then w.bytes[b * ZONE + i - w.off] else Flat(init, log, b, i)
  {
  }

  /** A fast write that is clear of the scrap pages misses every covered byte. */
  lemma FastMisses(s: State, w: Write, rest: seq<byte>, disk': Disk, j: nat, i: nat)
    requires CanFastWrite(s, w, rest, disk') && j < |s.pages| && j !in s.freed && i < ZONE && i in s.pages[j].cov
    ensures !Hits(w, s.pages[j].base, i)
  {
    assert !Within(w.off, |w.bytes| + |rest|, s.pages[j].base, i);
  }

  lemma FastContent(s: State, w: Write, rest: seq<byte>, disk': Disk)
    requires CanFastWrite(s, w, rest, disk') && PagesFaithful(s) && DiskFaithful(s)
    ensures PagesFaithful(DoFastWrite(s, w, rest, disk')) && DiskFaithful(DoFastWrite(s, w, rest, disk'))
  {
    var s' := DoFastWrite(s, w, rest, disk');
    forall j: nat, i: nat | Shows(s', j, i) && |s'.pages[j].zone| == ZONE
      ensures s'.pages[j].zone[i] == Flat(s'.init, s'.log, s'.pages[j].base, i)
    {
      assert Shows(s, j, i);
      FastMisses(s, w, rest, disk', j, i);
      FlatAppend(s.init, s.log, w, s.pages[j].base, i);
    }
    forall b: nat, i: nat | i < ZONE && Bare(s', b, i)
      ensures DiskByte(s'.disk, b, i) == Flat(s'.init, s'.log, b, i)
    {
      assert Bare(s, b, i);
      FlatAppend(s.init, s.log, w, b, i);
    }
  }

  lemma FastStages(s: State, w: Write, rest: seq<byte>, disk': Disk)
    requires Shape(s) && Complete(s) && CanFastWrite(s, w, rest, disk') && FreshRead(s) && OnDisk(s)
    ensures FreshRead(DoFastWrite(s, w, rest, disk')) && OnDisk(DoFastWrite(s, w, rest, disk'))
  {
    var s' := DoFastWrite(s, w, rest, disk');
    if s.s1.Reading? {
      forall i: nat | i in s.s1.got && i < ZONE
        ensures DiskByte(disk', s.s1.r.base, i) == DiskByte(s.disk, s.s1.r.base, i)
      {
        assert !Within(w.off, |w.bytes| + |rest|, s.s1.r.base, i);
      }
    }
    if s.s2.Retiring? {
      forall k: nat, i: nat | k < |s.s2.batch| && i < ZONE && s.s2.batch[k].id < |s.pages| && s.s2.batch[k].id !in s.freed
        ensures DiskByte(disk', s.s2.batch[k].base, i) == DiskByte(s.disk, s.s2.batch[k].base, i)
      {
        assert s.s2.batch[k] in Line(s) && s.s2.batch[k] in Batch(s.s2) + s.q2;
        FastMisses(s, w, rest, disk', s.s2.batch[k].id, i);
      }
    }
  }

  lemma FastVisible(s: State, w: Write, rest: seq<byte>, disk': Disk)
    requires CanFastWrite(s, w, rest, disk') && Visible(s)
    ensures Visible(DoFastWrite(s, w, rest, disk'))
  {
  }

  lemma FastRest(s: State, w: Write, rest: seq<byte>, disk': Disk)
    requires Shape(s) && Complete(s) && Counters(s) && Flags(s) && Indexed(s) && Threads(s) && Exclusive(s)
    ensures var s' := DoFastWrite(s, w, rest, disk');
            && Shape(s') && Complete(s') && Counters(s') && Flags(s') && Indexed(s') && Threads(s') && Exclusive(s')
  {
    var s' := DoFastWrite(s, w, rest, disk');
    assert Line(s') == Line(s) && Guarded(s') == Guarded(s);
    assert forall j :: 0 <= j < |s.pages| ==> Of(s', j) == Of(s, j);
    forall t | 0 <= t < |s.writers| && s.writers[t].Active?
      ensures PcOk(s', s'.writers[t])
    {
      assert PcOk(s, s.writers[t]);
    }
  }

  /** The ordering groups look at neither the disk nor the gate. */
  lemma SameDiscipline(s: State, s': State)
    requires Discipline(s)
    requires s' == s.(disk := s'.disk, log := s'.log, returned := s'.returned, calls := s'.calls,
                      closer := s'.closer, gate := s'.gate)
    ensures Discipline(s')
  {
  }

  lemma FastWriteKeeps(s: State, w: Write, rest: seq<byte>, disk': Disk)
    requires Inv(s) && CanFastWrite(s, w, rest, disk')
    ensures Inv(DoFastWrite(s, w, rest, disk'))
  {
    var s' := DoFastWrite(s, w, rest, disk');
    FastRest(s, w, rest, disk');
    SameDiscipline(s, s');
    FastVisible(s, w, rest, disk');
    if !s.ioErr {
      FastContent(s, w, rest, disk');
      FastStages(s, w, rest, disk');
      assert Undisturbed(s');
    }
  }

  // ------------------------------------------------------------------- close

  lemma CloseRest(s: State, s': State)
    requires Shape(s) && Complete(s) && Counters(s) && Flags(s) && Indexed(s) && Threads(s) && Exclusive(s)
    requires s' == s.(closer := s'.closer, gate := s'.gate) && s'.gate.live == s.gate.live
    requires |s'.gate.threads| == |s.gate.threads|
    requires forall t :: 0 <= t < |s.gate.threads| ==>
               (s'.gate.threads[t].Admitted? <==> s.gate.threads[t].Admitted?) &&
               (s'.gate.threads[t].Asleep? <==> s.gate.threads[t].Asleep?)
    ensures Shape(s') && Complete(s') && Counters(s') && Flags(s') && Indexed(s') && Threads(s') && Exclusive(s')
  {
    assert Line(s') == Line(s) && Guarded(s') == Guarded(s);
    assert forall j :: 0 <= j < |s.pages| ==> Of(s', j) == Of(s, j);
    forall t | 0 <= t < |s.writers| && s.writers[t].Active?
      ensures PcOk(s', s'.writers[t])
    {
      assert PcOk(s, s.writers[t]);
    }
  }

  lemma CloseContent(s: State, s': State)
    requires Faithful(s) && Visible(s) && OneRetry(s)
    requires s' == s.(closer := s'.closer, gate := s'.gate)
    ensures Faithful(s') && Visible(s') && OneRetry(s')
  {
  }

  lemma CloseBeginKeeps(s: State)
    requires Inv(s) && CanCloseBegin(s)
    ensures Inv(DoCloseBegin(s))
  {
    var s' := DoCloseBegin(s);
    CloseRest(s, s');
    CloseContent(s, s');
    SameDiscipline(s, s');
    G.DisarmKeeps(s.gate);
  }

  lemma CloseDrainKeeps(s: State)
    requires Inv(s) && CanCloseDrain(s)
    ensures Inv(DoCloseDrain(s))
  {
    var s' := DoCloseDrain(s);
    CloseRest(s, s');
    CloseContent(s, s');
    SameDiscipline(s, s');
  }

  lemma CloseStopKeeps(s: State)
    requires Inv(s) && CanCloseStop(s)
    ensures Inv(DoCloseStop(s))
  {
    var s' := DoCloseStop(s);
    CloseRest(s, s');
    CloseContent(s, s');
    SameDiscipline(s, s');
    assert |Line(s)| == 0 && Line(s') == Line(s);
  }

  // --------------------------------------------------------------- every step

  /** The branches that would break the order of a queue never run. */
  lemma NoRequeue(s: State)
    requires Inv(s)
    ensures !CanS1Busy(s) && !CanS2Busy(s) && !CanS2Reject(s)
  {
    NeverBusy(s);
    NeverRejects(s);
  }

  lemma ForegroundKeeps(s: State, t: nat, st: ForegroundStep)
    requires Inv(s) && CanForeground(s, t, st)
    ensures Inv(DoForeground(s, t, st))
  {
    match st
    case Start(off, buf) => StartKeeps(s, t, off, buf);
    case GateEnter => GateEnterKeeps(s, t);
    case GateWake => GateWakeKeeps(s, t);
    case Find => FindKeeps(s, t);
    case Create(junk) => CreateKeeps(s, t, junk);
    case Lock => LockKeeps(s, t);
    case SeeSealed => SeeSealedKeeps(s, t);
    case Overflow => OverflowKeeps(s, t);
    case Commit => CommitKeeps(s, t);
    case Unlink => UnlinkKeeps(s, t);
  }

  lemma Stage1Keeps(s: State, st: Stage1Step)
    requires Inv(s) && CanStage1(s, st)
    ensures Inv(DoStage1(s, st))
  {
    NoRequeue(s);
    match st
    case S1Pop => S1PopKeeps(s);
    case S1Forward => S1ForwardKeeps(s);
    case S1Busy =>
    case S1Snapshot => S1SnapshotKeeps(s);
    case S1Guard(plan, stale) => S1GuardKeeps(s, plan, stale);
    case S1Read => S1ReadKeeps(s);
    case S1Fail => S1FailKeeps(s);
    case S1Fill => S1FillKeeps(s);
    case S1Enter => S1EnterKeeps(s);
    case S1Push => S1PushKeeps(s);
  }

  lemma Stage2Keeps(s: State, st: Stage2Step)
    requires Inv(s) && CanStage2(s, st)
    ensures Inv(DoStage2(s, st))
  {
    NoRequeue(s);
    match st
    case S2Pop => S2PopKeeps(s);
    case S2Busy =>
    case S2Gather => S2GatherKeeps(s);
    case S2Reject =>
    case S2EndCollect => S2EndCollectKeeps(s);
    case S2Unlink => S2UnlinkKeeps(s);
    case S2Claim => S2ClaimKeeps(s);
    case S2Issue(disk') => S2IssueKeeps(s, disk');
    case S2Landed => S2LandedKeeps(s);
    case S2Failed => S2FailedKeeps(s);
    case S2Free => S2FreeKeeps(s);
    case S2Leave => S2LeaveKeeps(s);
    case S2Dec => S2DecKeeps(s);
  }

  lemma CallerKeeps(s: State, st: CallerStep)
    requires Inv(s) && CanCaller(s, st)
    ensures Inv(DoCaller(s, st))
  {
    match st
    case FastWrite(w, rest, disk') => FastWriteKeeps(s, w, rest, disk');
    case CloseBegin => CloseBeginKeeps(s);
    case CloseDrain => CloseDrainKeeps(s);
    case CloseStop => CloseStopKeeps(s);
  }

  lemma StepKeeps(s: State, st: Step)
    requires Inv(s) && Enabled(s, st)
    ensures Inv(Next(s, st))
  {
    match st
    case Foreground(t, fg) => ForegroundKeeps(s, t, fg);
    case First(s1) => Stage1Keeps(s, s1);
    case Second(s2) => Stage2Keeps(s, s2);
    case Caller(c) => CallerKeeps(s, c);
  }

  lemma InitStructure(s: State)
    requires Init(s)
    ensures Shape(s) && Complete(s) && Flags(s) && Indexed(s) && Threads(s) && Exclusive(s) && Discipline(s)
  {
  }

  lemma InitCounts(s: State)
    requires Init(s)
    ensures Counters(s) && G.GateOk(s.gate)
  {
  }

  lemma InitInv(s: State)
    requires Init(s)
    ensures Inv(s)
  {
    InitStructure(s);
    InitCounts(s);
    assert Faithful(s);
    assert Visible(s);
  }

  /** Whatever the interleaving, every state a run reaches satisfies the invariant. */
  lemma {:induction false} RunSafe(s: State, steps: seq<Step>)
    requires Inv(s) && ValidRun(s, steps)
    ensures Inv(Run(s, steps))
    decreases |steps|
  {
    if steps != [] {
      StepKeeps(s, steps[0]);
      RunSafe(Next(s, steps[0]), steps[1..]);
    }
  }

  /** A state some run of the engine leads to. */
  ghost predicate Reached(s: State) {
    exists s0: State, steps: seq<Step> :: Init(s0) && ValidRun(s0, steps) && Run(s0, steps) == s
  }

  /** The invariant holds in every state of every run. */
  lemma ReachedInv(s: State)
    requires Reached(s)
    ensures Inv(s)
  {
    var s0: State, steps: seq<Step> :| Init(s0) && ValidRun(s0, steps) && Run(s0, steps) == s;
    InitInv(s0);
    RunSafe(s0, steps);
  }

  lemma InitReached(s: State)
    requires Init(s)
    ensures Reached(s)
  {
    assert ValidRun(s, []) && Run(s, []) == s;
  }

  /** Two runs end to end are a run. */
  lemma {:induction false} RunAppend(s: State, first: seq<Step>, rest: seq<Step>)
    requires ValidRun(s, first) && ValidRun(Run(s, first), rest)
    ensures ValidRun(s, first + rest) && Run(s, first + rest) == Run(Run(s, first), rest)
    decreases |first|
  {
    if first == [] {
      assert first + rest == rest;
    } else {
      assert (first + rest)[0] == first[0] && (first + rest)[1..] == first[1..] + rest;
      RunAppend(Next(s, first[0]), first[1..], rest);
    }
  }

  lemma OneStep(s: State, st: Step)
    requires Enabled(s, st)
    ensures ValidRun(s, [st]) && Run(s, [st]) == Next(s, st)
  {
    assert [st][1..] == [];
    assert ValidRun(Next(s, st), []);
  }

  lemma RunReached(s: State, steps: seq<Step>)
    requires Reached(s) && ValidRun(s, steps)
    ensures Reached(Run(s, steps))
  {
    var s0: State, before: seq<Step> :| Init(s0) && ValidRun(s0, before) && Run(s0, before) == s;
    RunAppend(s0, before, steps);
  }

  lemma ReachedNext(s: State, st: Step)
    requires Reached(s) && Enabled(s, st)
    ensures Reached(Next(s, st))
  {
    OneStep(s, st);
    RunReached(s, [st]);
  }
}
