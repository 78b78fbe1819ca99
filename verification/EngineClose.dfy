/** What a close that returns 0 promises about the calls themselves, and exactly when. */
module EngineClose {
  import opened Geometry
  import opened Engine
  import opened EngineSafety
  import opened EngineTheorems
  import opened EngineExample
  import opened WriterMerges
  import opened WriterCommits

  // --------------------------------------------------------- calls and effects

  /** Every call that should have written the address and did not is followed by one
      that did: the caller repeated it, or wrote over it. */
  ghost predicate MadeGood(calls: seq<Write>, returned: seq<Write>, b: nat, i: nat)
    requires |returned| == |calls|
  {
    forall k :: 0 <= k < |calls| && Hits(calls[k], b, i) && !Hits(returned[k], b, i) ==>
      exists m :: k < m < |returned| && Hits(returned[m], b, i)
  }

  lemma EffectBytes(call: Write, effect: Write, b: nat, i: nat)
    requires WroteItsCall(call, effect) && Hits(effect, b, i)
    ensures Hits(call, b, i) && call.bytes[b * ZONE + i - call.off] == effect.bytes[b * ZONE + i - effect.off]
  {
  }

  /** Then the calls and their effects make the same byte. */
  lemma {:induction false} MadeGoodAgrees(init: Disk, calls: seq<Write>, returned: seq<Write>, b: nat, i: nat)
    requires Effects(calls, returned) && MadeGood(calls, returned, b, i)
    ensures Flat(init, calls, b, i) == Flat(init, returned, b, i)
    decreases |calls|
  {
    if calls != [] {
      var n := |calls| - 1;
      assert WroteItsCall(calls[n], returned[n]);
      if Hits(returned[n], b, i) {
        EffectBytes(calls[n], returned[n], b, i);
      } else {
        assert !Hits(calls[n], b, i);
        MadeGoodShorter(calls, returned, b, i);
        MadeGoodAgrees(init, calls[..n], returned[..n], b, i);
      }
    }
  }

  lemma MadeGoodShorter(calls: seq<Write>, returned: seq<Write>, b: nat, i: nat)
    requires |returned| == |calls| > 0 && MadeGood(calls, returned, b, i) && !Hits(returned[|calls| - 1], b, i)
    ensures MadeGood(calls[..|calls| - 1], returned[..|calls| - 1], b, i)
  {
    var n := |calls| - 1;
    forall k | 0 <= k < n && Hits(calls[k], b, i) && !Hits(returned[k], b, i)
      ensures exists m :: k < m < n && Hits(returned[..n][m], b, i)
    {
      var m :| k < m < |returned| && Hits(returned[m], b, i);
      assert returned[..n][m] == returned[m];
    }
  }

  /** The last call that hits the address. */
  lemma {:induction false} LastHit(init: Disk, calls: seq<Write>, b: nat, i: nat, k: nat) returns (m: nat)
    requires k < |calls| && Hits(calls[k], b, i)
    ensures k <= m < |calls| && Hits(calls[m], b, i) && Flat(init, calls, b, i) == calls[m].bytes[b * ZONE + i - calls[m].off]
    ensures forall k :: m < k < |calls| ==> !Hits(calls[k], b, i)
    decreases |calls|
  {
    var n := |calls| - 1;
    if Hits(calls[n], b, i) {
      m := n;
    } else {
      m := LastHit(init, calls[..n], b, i, k);
    }
  }

  // ------------------------------------------- runs with other bytes not landed

  /** The same step, but for the bytes of a direct write that did not land. */
  ghost predicate SameLanding(st: Step, zt: Step) {
    || zt == st
    || (st.Caller? && zt.Caller? && st.c.FastWrite? && zt.c.FastWrite?
        && zt.c.w == st.c.w && zt.c.disk' == st.c.disk' && |zt.c.rest| == |st.c.rest|)
  }

  ghost predicate SameLandings(steps: seq<Step>, zteps: seq<Step>) {
    |zteps| == |steps| && forall k :: 0 <= k < |steps| ==> SameLanding(steps[k], zteps[k])
  }

  /** The call a step completes. */
  function NewCalls(s: State, st: Step): seq<Write> {
    if st.Foreground? && st.fg.Commit? && ThreadAt(s, st.t) && Advance(s.writers[st.t]).Idle?
      then [Write(s.writers[st.t].off, s.writers[st.t].buf)]
    else if st.Caller? && st.c.FastWrite? then [Write(st.c.w.off, st.c.w.bytes + st.c.rest)]
    else []
  }

  lemma CommitFree(s: State, z: State, t: nat)
    requires z == s.(calls := z.calls) && CanCommit(s, t)
    ensures CanCommit(z, t) && DoCommit(s, t).calls == s.calls + NewCalls(s, Foreground(t, Commit))
    ensures DoCommit(z, t) == DoCommit(s, t).(calls := z.calls + NewCalls(s, Foreground(t, Commit)))
  {
    assert CanCommit(z, t) && Taken(z, t) == Taken(s, t) && ToQ1(z, t) == ToQ1(s, t) && ToQ2(z, t) == ToQ2(s, t);
    CommitTakes(s, t);
    CommitTakes(z, t);
    TakesFree(s, z, t, DoCommit(s, t), DoCommit(z, t));
  }

  lemma TakesFree(s: State, z: State, t: nat, s': State, z': State)
    requires z == s.(calls := z.calls) && Takes(s, t, s') && Takes(z, t, z')
    requires Taken(z, t) == Taken(s, t) && ToQ1(z, t) == ToQ1(s, t) && ToQ2(z, t) == ToQ2(s, t)
    ensures s'.calls == s.calls + NewCalls(s, Foreground(t, Commit))
    ensures z' == s'.(calls := z.calls + NewCalls(s, Foreground(t, Commit)))
  {
  }

  lemma OverflowFree(s: State, z: State, t: nat)
    requires z == s.(calls := z.calls) && CanOverflow(s, t)
    ensures CanOverflow(z, t) && DoOverflow(s, t).calls == s.calls && DoOverflow(z, t) == DoOverflow(s, t).(calls := z.calls)
  {
    OverflowSeals(s, t);
    OverflowSeals(z, t);
  }

  lemma ForegroundFree(s: State, z: State, t: nat, st: ForegroundStep)
    requires z == s.(calls := z.calls) && CanForeground(s, t, st)
    ensures CanForeground(z, t, st) && DoForeground(s, t, st).calls == s.calls + NewCalls(s, Foreground(t, st))
    ensures DoForeground(z, t, st) == DoForeground(s, t, st).(calls := z.calls + NewCalls(s, Foreground(t, st)))
  {
    match st
    case Commit => CommitFree(s, z, t);
    case Overflow => OverflowFree(s, z, t);
    case _ =>
  }

  lemma Stage1Free(s: State, z: State, st: Stage1Step)
    requires z == s.(calls := z.calls) && CanStage1(s, st)
    ensures CanStage1(z, st) && DoStage1(s, st).calls == s.calls && DoStage1(z, st) == DoStage1(s, st).(calls := z.calls)
  {
  }

  lemma Stage2Free(s: State, z: State, st: Stage2Step)
    requires z == s.(calls := z.calls) && CanStage2(s, st)
    ensures CanStage2(z, st) && DoStage2(s, st).calls == s.calls && DoStage2(z, st) == DoStage2(s, st).(calls := z.calls)
  {
  }

  /** A direct write does not look at what did not land. */
  lemma FastFree(s: State, z: State, c: CallerStep, zc: CallerStep)
    requires z == s.(calls := z.calls) && CanCaller(s, c) && SameLanding(Caller(c), Caller(zc))
    ensures CanCaller(z, zc) && DoCaller(s, c).calls == s.calls + NewCalls(s, Caller(c))
    ensures DoCaller(z, zc) == DoCaller(s, c).(calls := z.calls + NewCalls(z, Caller(zc)))
  {
  }

  /** No step looks at the recorded calls. */
  lemma StepFree(s: State, z: State, st: Step, zt: Step)
    requires z == s.(calls := z.calls) && Enabled(s, st) && SameLanding(st, zt)
    ensures Enabled(z, zt) && Next(s, st).calls == s.calls + NewCalls(s, st)
    ensures Next(z, zt) == Next(s, st).(calls := z.calls + NewCalls(z, zt))
    ensures |NewCalls(z, zt)| == |NewCalls(s, st)|
    ensures forall k :: 0 <= k < |NewCalls(s, st)| ==>
              NewCalls(z, zt)[k].off == NewCalls(s, st)[k].off && |NewCalls(z, zt)[k].bytes| == |NewCalls(s, st)[k].bytes|
  {
    match st
    case Foreground(t, fg) => ForegroundFree(s, z, t, fg);
    case First(s1) => Stage1Free(s, z, s1);
    case Second(s2) => Stage2Free(s, z, s2);
    case Caller(c) => FastFree(s, z, c, zt.c);
  }

  // --------------------------------------------------------- sufficient: any rest

  ghost predicate SameRanges(calls: seq<Write>, zalls: seq<Write>) {
    |zalls| == |calls| && forall k :: 0 <= k < |calls| ==> zalls[k].off == calls[k].off && |zalls[k].bytes| == |calls[k].bytes|
  }

  lemma {:induction false} RunFree(s: State, z: State, steps: seq<Step>, zteps: seq<Step>)
    requires z == s.(calls := z.calls) && SameRanges(s.calls, z.calls) && ValidRun(s, steps) && SameLandings(steps, zteps)
    ensures ValidRun(z, zteps) && Run(z, zteps) == Run(s, steps).(calls := Run(z, zteps).calls)
    ensures SameRanges(Run(s, steps).calls, Run(z, zteps).calls)
    decreases |steps|
  {
    if steps != [] {
      StepFree(s, z, steps[0], zteps[0]);
      RunFree(Next(s, steps[0]), Next(z, zteps[0]), steps[1..], zteps[1..]);
    }
  }

  lemma RangesMadeGood(calls: seq<Write>, zalls: seq<Write>, returned: seq<Write>, b: nat, i: nat)
    requires |returned| == |calls| && SameRanges(calls, zalls) && MadeGood(calls, returned, b, i)
    ensures MadeGood(zalls, returned, b, i)
  {
    forall k | 0 <= k < |zalls| && Hits(zalls[k], b, i) && !Hits(returned[k], b, i)
      ensures exists m :: k < m < |returned| && Hits(returned[m], b, i)
    {
      assert Hits(calls[k], b, i);
    }
  }

  /** The file holds what the calls make at the address. */
  ghost predicate Kept(s: State, init: Disk, b: nat, i: nat) {
    DiskByte(s.disk, b, i) == Flat(init, s.calls, b, i)
  }

  lemma MadeGoodKept(s0: State, steps: seq<Step>, zteps: seq<Step>, b: nat, i: nat)
    requires Init(s0) && ValidRun(s0, steps) && Run(s0, steps).closer == Closed(false) && i < ZONE
    requires CallsKept(Run(s0, steps)) && MadeGood(Run(s0, steps).calls, Run(s0, steps).returned, b, i)
    requires SameLandings(steps, zteps)
    ensures ValidRun(s0, zteps) && Kept(Run(s0, zteps), s0.disk, b, i)
  {
    RunFree(s0, s0, steps, zteps);
    var s, z := Run(s0, steps), Run(s0, zteps);
    ClosedFile(s0, zteps);
    RangesMadeGood(s.calls, z.calls, s.returned, b, i);
    MadeGoodAgrees(s0.disk, z.calls, z.returned, b, i);
  }

  // -------------------------------------------------------- necessary: some rest

  /** Calls with the same ranges and effects, whatever they meant to write beyond. */
  ghost predicate Possible(calls: seq<Write>, returned: seq<Write>, zalls: seq<Write>) {
    && SameRanges(calls, zalls) && |returned| == |calls|
    && forall k :: 0 <= k < |calls| ==>
         returned[k].bytes <= zalls[k].bytes && (returned[k] == calls[k] ==> zalls[k] == calls[k])
  }

  lemma StepGrows(s: State, st: Step)
    requires Enabled(s, st) && CallsKept(s)
    ensures CallsKept(Next(s, st)) && s.calls <= Next(s, st).calls && s.returned <= Next(s, st).returned
    ensures Next(s, st).calls == s.calls + NewCalls(s, st)
    ensures st.Caller? && st.c.FastWrite? ==> Next(s, st).returned == s.returned + [st.c.w]
    ensures !(st.Caller? && st.c.FastWrite?) ==> Next(s, st).returned == s.returned + NewCalls(s, st)
  {
    StepFree(s, s, st, st);
    StepCalls(s, st);
    StepReturned(s, st);
  }

  lemma StepReturned(s: State, st: Step)
    requires Enabled(s, st)
    ensures Next(s, st).returned == s.returned + if st.Caller? && st.c.FastWrite? then [st.c.w] else NewCalls(s, st)
  {
    match st
    case Foreground(t, fg) => ForegroundReturned(s, t, fg);
    case First(s1) => Stage1Calls(s, s1);
    case Second(s2) => Stage2Calls(s, s2);
    case Caller(c) =>
  }

  lemma ForegroundReturned(s: State, t: nat, st: ForegroundStep)
    requires CanForeground(s, t, st)
    ensures DoForeground(s, t, st).returned == s.returned + NewCalls(s, Foreground(t, st))
  {
    match st
    case Commit => CommitTakes(s, t);
    case Overflow => OverflowSeals(s, t);
    case _ =>
  }

  lemma {:induction false} RunGrows(s: State, steps: seq<Step>)
    requires ValidRun(s, steps) && CallsKept(s)
    ensures s.calls <= Run(s, steps).calls && s.returned <= Run(s, steps).returned
    decreases |steps|
  {
    if steps != [] {
      StepGrows(s, steps[0]);
      RunGrows(Next(s, steps[0]), steps[1..]);
    }
  }

  /** The step that makes call |s.calls| the one of `zalls`. */
  function Realising(s: State, st: Step, zalls: seq<Write>): Step {
    if st.Caller? && st.c.FastWrite? && |s.calls| < |zalls| && |st.c.w.bytes| <= |zalls[|s.calls|].bytes|
      then Caller(FastWrite(st.c.w, zalls[|s.calls|].bytes[|st.c.w.bytes|..], st.c.disk'))
    else st
  }

  lemma RealisedCall(s: State, st: Step, calls: seq<Write>, returned: seq<Write>, zalls: seq<Write>)
    requires CallsKept(s) && Possible(calls, returned, zalls)
    requires s.calls + NewCalls(s, st) <= calls
    requires s.returned + (if st.Caller? && st.c.FastWrite? then [st.c.w] else NewCalls(s, st)) <= returned
    ensures SameLanding(st, Realising(s, st, zalls))
    ensures zalls[..|s.calls|] + NewCalls(s, Realising(s, st, zalls)) == zalls[..|s.calls| + |NewCalls(s, st)|]
  {
    var n := |s.calls|;
    if NewCalls(s, st) != [] {
      assert (s.calls + NewCalls(s, st))[n] == calls[n];
      assert zalls[..n + 1] == zalls[..n] + [zalls[n]];
      if st.Caller? && st.c.FastWrite? {
        assert (s.returned + [st.c.w])[n] == returned[n];
        assert st.c.w.bytes + zalls[n].bytes[|st.c.w.bytes|..] == zalls[n].bytes;
      } else {
        assert (s.returned + NewCalls(s, st))[n] == returned[n];
      }
    }
  }

  lemma RealiseStep(s: State, st: Step, calls: seq<Write>, returned: seq<Write>, zalls: seq<Write>, z: State, zt: Step)
    requires CallsKept(s) && Enabled(s, st) && Possible(calls, returned, zalls)
    requires Next(s, st).calls <= calls && Next(s, st).returned <= returned
    requires zt == Realising(s, st, zalls) && |s.calls| <= |zalls| && z == s.(calls := zalls[..|s.calls|])
    ensures SameLanding(st, zt) && Enabled(z, zt) && |Next(s, st).calls| <= |zalls|
    ensures Next(z, zt) == Next(s, st).(calls := zalls[..|Next(s, st).calls|])
  {
    StepGrows(s, st);
    RealisedCall(s, st, calls, returned, zalls);
    NewCallsFree(s, z, zt);
    StepFree(s, z, st, zt);
  }

  lemma NewCallsFree(s: State, z: State, st: Step)
    requires z == s.(calls := z.calls)
    ensures NewCalls(z, st) == NewCalls(s, st)
  {
  }

  lemma {:induction false} Realise(s: State, steps: seq<Step>, zalls: seq<Write>) returns (zteps: seq<Step>)
    requires CallsKept(s) && ValidRun(s, steps) && Possible(Run(s, steps).calls, Run(s, steps).returned, zalls)
    requires |s.calls| <= |zalls|
    ensures SameLandings(steps, zteps) && ValidRun(s.(calls := zalls[..|s.calls|]), zteps)
    ensures Run(s.(calls := zalls[..|s.calls|]), zteps) == Run(s, steps).(calls := zalls)
    decreases |steps|
  {
    var z := s.(calls := zalls[..|s.calls|]);
    if steps == [] {
      zteps := [];
      assert zalls[..|s.calls|] == zalls;
    } else {
      var next := Next(s, steps[0]);
      StepGrows(s, steps[0]);
      RunGrows(next, steps[1..]);
      var zt := Realising(s, steps[0], zalls);
      RealiseStep(s, steps[0], Run(s, steps).calls, Run(s, steps).returned, zalls, z, zt);
      var rest := Realise(next, steps[1..], zalls);
      zteps := [zt] + rest;
      assert zteps[1..] == rest && ValidRun(z, zteps);
    }
  }

  /** A byte that no call made good: with another value in the buffer that did not land,
      the file is not what the calls make. */
  lemma MissedIsLost(s0: State, steps: seq<Step>, b: nat, i: nat) returns (zteps: seq<Step>)
    requires Init(s0) && ValidRun(s0, steps) && CallsKept(Run(s0, steps)) && i < ZONE
    requires !MadeGood(Run(s0, steps).calls, Run(s0, steps).returned, b, i)
    ensures SameLandings(steps, zteps) && ValidRun(s0, zteps) && !Kept(Run(s0, zteps), s0.disk, b, i)
  {
    var s := Run(s0, steps);
    var zalls := OtherCalls(s0.disk, s.calls, s.returned, b, i, DiskByte(s.disk, b, i));
    assert s0.(calls := zalls[..0]) == s0;
    zteps := Realise(s0, steps, zalls);
  }

  lemma OtherCalls(init: Disk, calls: seq<Write>, returned: seq<Write>, b: nat, i: nat, was: byte) returns (zalls: seq<Write>)
    requires Effects(calls, returned) && !MadeGood(calls, returned, b, i)
    ensures Possible(calls, returned, zalls) && Flat(init, zalls, b, i) != was
  {
    var k :| 0 <= k < |calls| && Hits(calls[k], b, i) && !Hits(returned[k], b, i)
             && forall m :: k < m < |returned| ==> !Hits(returned[m], b, i);
    var m := LastHit(init, calls, b, i, k);
    zalls := Changed(calls, returned, b, i, m, was);
    var last := LastHit(init, zalls, b, i, m);
  }

  /** The calls with one byte beyond an effect replaced by another value. */
  lemma Changed(calls: seq<Write>, returned: seq<Write>, b: nat, i: nat, m: nat, was: byte) returns (zalls: seq<Write>)
    requires Effects(calls, returned) && m < |calls| && Hits(calls[m], b, i) && !Hits(returned[m], b, i)
    requires forall k :: m < k < |calls| ==> !Hits(calls[k], b, i)
    ensures Possible(calls, returned, zalls)
    ensures Hits(zalls[m], b, i) && zalls[m].bytes[b * ZONE + i - zalls[m].off] != was
    ensures forall k :: m < k < |calls| ==> !Hits(zalls[k], b, i)
  {
    var c, at := calls[m], b * ZONE + i - calls[m].off;
    var other: byte := if was == 0 then 1 else 0;
    assert WroteItsCall(c, returned[m]);
    zalls := calls[m := Write(c.off, c.bytes[at := other])];
    assert forall k :: 0 <= k < |calls| ==> WroteItsCall(calls[k], returned[k]);
  }

  /** The promise of close, exactly. For a run that closes with 0 and an address: whatever
      the direct writes meant to write where they failed, the file holds there what the
      calls make, if and only if every miss at the address was made good. */
  lemma ClosePromiseIff(s0: State, steps: seq<Step>, b: nat, i: nat)
    requires Init(s0) && ValidRun(s0, steps) && Run(s0, steps).closer == Closed(false) && i < ZONE
    ensures CallsKept(Run(s0, steps))
    ensures MadeGood(Run(s0, steps).calls, Run(s0, steps).returned, b, i) <==>
            forall zteps: seq<Step> :: SameLandings(steps, zteps) ==> ValidRun(s0, zteps) && Kept(Run(s0, zteps), s0.disk, b, i)
  {
    ClosedFile(s0, steps);
    if MadeGood(Run(s0, steps).calls, Run(s0, steps).returned, b, i) {
      forall zteps: seq<Step> | SameLandings(steps, zteps)
        ensures ValidRun(s0, zteps) && Kept(Run(s0, zteps), s0.disk, b, i)
      {
        MadeGoodKept(s0, steps, zteps, b, i);
      }
    } else {
      var zteps := MissedIsLost(s0, steps, b, i);
    }
  }

  /** So wherever misses were made good, and everywhere if no direct write failed, the
      file is what the calls make. */
  lemma ClosePromise(s0: State, steps: seq<Step>)
    requires Init(s0) && ValidRun(s0, steps) && Run(s0, steps).closer == Closed(false)
    ensures var s := Run(s0, steps);
            CallsKept(s) && forall b: nat, i: nat :: i < ZONE && MadeGood(s.calls, s.returned, b, i) ==> Kept(s, s0.disk, b, i)
  {
    var s := Run(s0, steps);
    ClosedFile(s0, steps);
    forall b: nat, i: nat | i < ZONE && MadeGood(s.calls, s.returned, b, i)
      ensures Kept(s, s0.disk, b, i)
    {
      MadeGoodAgrees(s0.disk, s.calls, s.returned, b, i);
    }
  }

  // --------------------------------------------------------------------- a witness

  /** The promise can fail: a direct write of which nothing lands, then a close that
      returns 0, and the file does not hold the call. */
  lemma ShortWriteLost() returns (s: State)
    ensures Reached(s) && s.closer == Closed(false) && DiskByte(s.disk, 0, 0) != Flat(s.init, s.calls, 0, 0)
  {
    var s0 := Opened(2, 1, 64);
    InitReached(s0);
    var rest: seq<byte> := seq(DIRECT_THRESHOLD, _ => 1);
    var w := Write(0, []);
    assert CanFastWrite(s0, w, rest, s0.disk);
    var s1 := DoFastWrite(s0, w, rest, s0.disk);
    ReachedNext(s0, Caller(FastWrite(w, rest, s0.disk)));
    s := ThenClose(s1);
    assert [] + rest == rest;
    FlatAppend(s.init, [], Write(0, rest), 0, 0);
    assert s.calls == [] + [Write(0, rest)];
  }

  lemma ThenClose(s: State) returns (s': State)
    requires Reached(s) && s.closer.Running? && s.writers == [Idle] && s.pending == 0 && !s.ioErr
    ensures Reached(s') && s'.closer == Closed(false) && s'.disk == s.disk && s'.init == s.init && s'.calls == s.calls
  {
    var s1 := DoCloseBegin(s);
    ReachedNext(s, Caller(CloseBegin));
    var s2 := DoCloseDrain(s1);
    ReachedNext(s1, Caller(CloseDrain));
    s' := DoCloseStop(s2);
    ReachedNext(s2, Caller(CloseStop));
  }
}
