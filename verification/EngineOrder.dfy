/** Ordering, freshness and ownership along every run. */
module EngineOrder {
  import opened Geometry
  import opened Segments
  import opened Engine
  import opened EngineInv
  import opened EngineSafety
  import opened WriterMerges
  import opened WriterCommits
  import opened Stage1Shifts
  import G = Gate

  // ---------------------------------------------------------------- ordering

  lemma BatchOrder(s: State, k: nat, j: nat)
    requires Shape(s) && OldestFirst(s) && Ordered(Line(s)) && Flags(s) && s.s2.Writing?
    requires k < |s.s2.batch| && j < |s.pages| && s.pages[j].base == s.s2.batch[k].base
    ensures j in s.freed ==> j < s.s2.batch[k].id
    ensures Of(s, j) in Line(s) && j != s.s2.batch[k].id ==> s.s2.batch[k].id < j
  {
    var r := s.s2.batch[k];
    assert Line(s)[k] == r && r in Line(s);
    assert forall m :: 0 <= m < |s.s2.batch| ==> Line(s)[m] == s.s2.batch[m];
    if Of(s, j) in Line(s) && j != r.id {
      var m :| 0 <= m < |Line(s)| && Line(s)[m] == Of(s, j);
    }
  }

  /** Generations of a base reach the disk in order, in every run: while Stage-2
      writes a page, all pages of its base that have been retired are older and
      all that are still to be written are newer. */
  lemma WritesInOrder(s: State, k: nat, j: nat)
    requires Reached(s) && s.s2.Writing? && k < |s.s2.batch|
    requires j < |s.pages| && s.pages[j].base == s.s2.batch[k].base
    ensures j in s.freed ==> j < s.s2.batch[k].id
    ensures Of(s, j) in Line(s) && j != s.s2.batch[k].id ==> s.s2.batch[k].id < j
  {
    ReachedInv(s);
    BatchOrder(s, k, j);
  }

  /** The order the previous result rests on: along Stage-2's batch, Q2, Stage-1's
      hand and Q1 the generations of a base strictly increase, and the indexed page
      of a base is the newest of all. */
  lemma GenerationsInLine(s: State)
    requires Reached(s)
    ensures forall i, j :: 0 <= i < j < |Line(s)| && Line(s)[i].base == Line(s)[j].base ==> Line(s)[i].id < Line(s)[j].id
    ensures forall b, j :: b in s.index && 0 <= j < |s.pages| && s.pages[j].base == b ==> j <= s.index[b]
  {
    ReachedInv(s);
  }

  /** Single membership: a page is in at most one place on the way to disk,
      `in_queue` says exactly which pages are in a queue, in Stage-1's hand or not
      yet claimed by Stage-2, and `pending` counts them all. */
  lemma SingleMembership(s: State)
    requires Reached(s)
    ensures forall i, j :: 0 <= i < j < |Line(s)| ==> Line(s)[i] != Line(s)[j]
    ensures forall j :: 0 <= j < |s.pages| ==> (s.pages[j].inQueue <==> Of(s, j) in Line(s) && Of(s, j) !in Claimed(s.s2))
    ensures s.pending == |Line(s)|
  {
    ReachedInv(s);
  }

  /** The bytes in flight are exactly one zone for a Stage-1 read and the batch of a
      Stage-2 write, so the device never counts as busy. */
  lemma BytesInFlight(s: State)
    requires Reached(s)
    ensures s.bcount == (if s.s1.Reading? then ZONE else 0) + (if s.s2.Writing? then |s.s2.batch| * ZONE else 0)
    ensures s.bcount <= 9 * 262144 < 4194304
  {
    ReachedInv(s);
    NeverBusy(s);
  }

  /** Neither queue is ever reordered: in every run the device is never busy and
      every page in Q2 is complete. */
  lemma QueuesStayFifo(s: State)
    requires Reached(s)
    ensures s.bcount <= ZONE + MAX_IOV * ZONE && !CanS1Busy(s) && !CanS2Busy(s) && !CanS2Reject(s)
  {
    ReachedInv(s);
    NeverBusy(s);
    NoRequeue(s);
  }

  // --------------------------------------------------------------- freshness

  /** Each slot of the guard counts the pages pending writeback that hash to it. */
  lemma GuardExact(s: State, slot: nat)
    requires Reached(s) && slot < WB_SLOTS
    ensures |s.wb| == WB_SLOTS && s.wb[slot] == SlotCount(Guarded(s), slot)
  {
    ReachedInv(s);
  }

  /** The writeback guard has no false negatives: a page from its entry into Q2
      until its guard is left keeps its slot above zero. */
  lemma GuardCovers(s: State, r: Ref)
    requires Reached(s) && r in Guarded(s)
    ensures |s.wb| == WB_SLOTS && s.wb[WbSlot(r.base)] > 0
  {
    ReachedInv(s);
    CountsMember(Guarded(s), r);
  }

  /** Stage-1 gets past the guard exactly when no page that hashes to its slot is pending
      writeback, whatever it plans to read. */
  lemma {:induction false} GuardPasses(s: State, plan: seq<Seg>, stale: seq<byte>)
    requires Reached(s) && s.s1.Waiting? && |stale| == ZONE
    requires s.s1.holes <= Cov(plan) && InOrder(plan) && |plan| <= 32
    ensures CanS1Guard(s, plan, stale) <==> NoneInSlot(Guarded(s), WbSlot(s.s1.r.base))
  {
    ReachedInv(s);
    SlotFree(Guarded(s), WbSlot(s.s1.r.base));
  }

  predicate NoneInSlot(refs: seq<Ref>, slot: nat) {
    forall r :: r in refs ==> WbSlot(r.base) != slot
  }

  lemma {:induction false} SlotFree(refs: seq<Ref>, slot: nat)
    ensures SlotCount(refs, slot) == 0 <==> NoneInSlot(refs, slot)
  {
    if refs != [] {
      var n := |refs| - 1;
      SlotFree(refs[..n], slot);
      assert refs == refs[..n] + [refs[n]];
    }
  }

  /** Stage-2 stops collecting exactly when its batch is maximal: eight pages, or nothing
      in Q2, or a head that is not the page after its last. */
  lemma BatchMaximal(s: State)
    requires Reached(s) && s.s2.Collecting?
    ensures 1 <= |s.s2.batch| <= 8
    ensures CanS2EndCollect(s) <==>
              |s.s2.batch| == 8 || s.q2 == [] || s.q2[0].base != s.s2.batch[|s.s2.batch| - 1].base + 1
  {
    ReachedInv(s);
    NextIsAfterLast(s);
  }

  lemma NextIsAfterLast(s: State)
    requires S2Shape(s) && s.s2.Collecting?
    ensures 1 <= |s.s2.batch| <= 8 && s.s2.batch[|s.s2.batch| - 1].base + 1 == s.s2.batch[0].base + |s.s2.batch|
  {
    assert Batch(s.s2)[|s.s2.batch| - 1].base == Batch(s.s2)[0].base + (|s.s2.batch| - 1);
  }

  // --------------------------------------------------------------- ownership

  /** A page Stage-2 has claimed is in nobody else's reach: not indexed, not in a
      queue, not in Stage-1's hand, and no thread holds its lock or waits for it. */
  ghost predicate Owned(s: State, r: Ref) {
    && r.id < |s.pages| && !InIndex(s, r.id) && r !in s.q2 + Tail(s)
    && PageFree(s, r.id)
    && forall u :: 0 <= u < |s.writers| && s.writers[u].Active? ==> s.writers[u].pc != Coupling(r.id)
  }

  lemma ClaimedUnqueued(s: State, k: nat)
    requires Ordered(Line(s)) && k < |Batch(s.s2)|
    ensures Batch(s.s2)[k] !in s.q2 + Tail(s)
  {
    var r := Batch(s.s2)[k];
    assert Line(s)[k] == r;
    forall m | 0 <= m < |s.q2 + Tail(s)|
      ensures (s.q2 + Tail(s))[m] != r
    {
      assert Line(s)[|Batch(s.s2)| + m] == (s.q2 + Tail(s))[m];
    }
  }

  lemma ClaimedOwned(s: State, k: nat)
    requires Shape(s) && Flags(s) && Indexed(s) && Threads(s) && Ordered(Line(s)) && k < |Claimed(s.s2)|
    ensures Owned(s, Claimed(s.s2)[k])
  {
    var r := Claimed(s.s2)[k];
    assert r == Batch(s.s2)[k] && r in Line(s) && r == Of(s, r.id) && r in Claimed(s.s2) && r in Unlinked(s.s2);
    assert s.pages[r.id].detached;
    ClaimedUnqueued(s, k);
    forall u | 0 <= u < |s.writers| && s.writers[u].Active?
      ensures s.writers[u].pc != Coupling(r.id)
      ensures s.writers[u].pc.Holding? ==> s.writers[u].pc.id != r.id
    {
      assert PcOk(s, s.writers[u]);
    }
  }

  /** Free safety in every run, failures included: from the moment Stage-2 starts
      its I/O until a page is freed, Stage-2 is its only owner. */
  lemma FreeSafety(s: State, k: nat)
    requires Reached(s) && (s.s2.Writing? || s.s2.Retiring?) && k < |s.s2.batch|
    ensures Owned(s, s.s2.batch[k])
  {
    ReachedInv(s);
    ClaimedOwned(s, k);
  }

  lemma CommitLeaves(s: State, t: nat, id: nat)
    requires CanCommit(s, t) && id < |s.pages| && Held(s, t) != id
    ensures DoCommit(s, t).pages[id] == s.pages[id]
  {
    CommitTakes(s, t);
  }

  lemma ForegroundLeaves(s: State, t: nat, st: ForegroundStep, id: nat)
    requires CanForeground(s, t, st) && id < |s.pages| && PageFree(s, id)
    ensures var s' := DoForeground(s, t, st); id < |s'.pages| && s'.pages[id].zone == s.pages[id].zone
  {
    match st
    case Commit => CommitLeaves(s, t, id);
    case Overflow => OverflowSeals(s, t);
    case _ =>
  }

  lemma Stage1Leaves(s: State, st: Stage1Step, id: nat)
    requires CanStage1(s, st) && id < |s.pages| && (s.s1.S1Idle? || s.s1.r.id != id)
    ensures var s' := DoStage1(s, st); id < |s'.pages| && s'.pages[id].zone == s.pages[id].zone
  {
  }

  lemma Stage2Leaves(s: State, st: Stage2Step, id: nat)
    requires CanStage2(s, st) && id < |s.pages|
    ensures var s' := DoStage2(s, st); id < |s'.pages| && s'.pages[id].zone == s.pages[id].zone
  {
  }

  lemma StepLeavesPage(s: State, st: Step, id: nat)
    requires Enabled(s, st) && id < |s.pages| && PageFree(s, id) && (s.s1.S1Idle? || s.s1.r.id != id)
    ensures var s' := Next(s, st); id < |s'.pages| && s'.pages[id].zone == s.pages[id].zone
  {
    match st
    case Foreground(t, fg) => ForegroundLeaves(s, t, fg, id);
    case First(s1) => Stage1Leaves(s, s1, id);
    case Second(s2) => Stage2Leaves(s, s2, id);
    case Caller(c) =>
  }

  lemma SourceOwned(s: State, k: nat)
    requires Shape(s) && Flags(s) && Indexed(s) && Threads(s) && Ordered(Line(s)) && s.s2.Writing? && k < |s.s2.batch|
    ensures var id := s.s2.batch[k].id; id < |s.pages| && PageFree(s, id) && (s.s1.S1Idle? || s.s1.r.id != id)
  {
    ClaimedOwned(s, k);
    if !s.s1.S1Idle? { HandDiffers(s, s.s2.batch[k]); }
  }

  /** Stable source: no step changes the bytes of a page under writeback, which is
      what resuming a short write at iovec granularity relies on. */
  lemma StableSource(s: State, st: Step, k: nat)
    requires Reached(s) && Enabled(s, st) && s.s2.Writing? && k < |s.s2.batch|
    ensures var s' := Next(s, st); var id := s.s2.batch[k].id;
            id < |s.pages| && id < |s'.pages| && s'.pages[id].zone == s.pages[id].zone
  {
    ReachedInv(s);
    SourceOwned(s, k);
    StepLeavesPage(s, st, s.s2.batch[k].id);
  }

  lemma HandDiffers(s: State, r: Ref)
    requires Shape(s) && r in Line(s) && r !in Tail(s) && !s.s1.S1Idle?
    ensures s.s1.r.id != r.id
  {
  }

  // ------------------------------------------------------------- gate, retry

  /** In every run, while the gate is armed, the live pages never exceed the high
      mark by more than the number of foreground threads less one, and a parked
      thread nobody signalled is parked above the low mark. */
  lemma GateHolds(s: State)
    requires Reached(s)
    ensures s.gate.armed ==> |s.pages| - |s.freed| <= s.gate.high + |s.writers| - 1
    ensures forall t :: 0 <= t < |s.gate.threads| && s.gate.threads[t] == G.Asleep(false) ==>
              s.gate.armed && |s.pages| - |s.freed| > s.gate.low
  {
    ReachedInv(s);
  }

  /** In every run, a thread that comes to the gate passes at once exactly when the gate is
      disarmed or the live pages are below the high mark; otherwise it is parked there and
      one stall is counted. Nobody else notices. */
  lemma GateAdmits(s: State, t: nat)
    requires Reached(s) && CanGateEnter(s, t)
    ensures var s' := DoGateEnter(s, t); var passes := !s.gate.armed || |s.pages| - |s.freed| < s.gate.high;
            && s' == s.(writers := s'.writers, gate := s'.gate) && G.OnlyThread(s.gate, s'.gate, t)
            && s'.gate.threads[t] == (if passes then G.Admitted else G.Asleep(false))
            && s'.writers == s.writers[t := s.writers[t].(pc := if passes then Admitted else AtGate)]
            && s'.gate.blocked == s.gate.blocked + if passes then 0 else 1
  {
    ReachedInv(s);
    G.EnterKeeps(s.gate, t);
  }

  /** With a single foreground thread, a chunk that overflows is merged on the
      next attempt. */
  lemma RetriesOnce(s: State)
    requires Reached(s) && |s.writers| == 1
    ensures s.writers[0].Active? ==> s.writers[0].retries <= 1 && (s.writers[0].retries == 1 ==> !CanOverflow(s, 0))
  {
    ReachedInv(s);
    if s.writers[0].Active? && s.writers[0].retries == 1 && HasPage(s, 0) {
      assert PcOk(s, s.writers[0]);
      OneEntry(s, 0);
    }
  }

  /** Overflows since the last start or merge, with n before these steps. */
  function Overflowed(n: nat, steps: seq<Step>): nat
    decreases |steps|
  {
    if steps == [] then n else Overflowed(CountOverflow(n, steps[0]), steps[1..])
  }

  function CountOverflow(n: nat, st: Step): nat {
    if st.Foreground? && (st.fg.Start? || st.fg.Commit?) then 0
    else if st.Foreground? && st.fg.Overflow? then n + 1
    else n
  }

  ghost predicate OnceSoFar(s: State, n: nat) {
    && |s.writers| == 1 && n <= 1
    && (s.writers[0].Active? && s.writers[0].retries == 0 && !s.writers[0].pc.Unlinking? ==> n == 0)
  }

  lemma ForegroundOnce(s: State, n: nat, t: nat, st: ForegroundStep)
    requires OnceSoFar(s, n) && CanForeground(s, t, st)
    requires st.Overflow? ==> s.writers[0].retries == 0
    ensures OnceSoFar(DoForeground(s, t, st), CountOverflow(n, Foreground(t, st)))
  {
    match st
    case Commit => CommitTakes(s, t);
    case Overflow => OverflowSeals(s, t);
    case _ =>
  }

  lemma Stage1Writers(s: State, st: Stage1Step)
    requires CanStage1(s, st)
    ensures DoStage1(s, st).writers == s.writers
  {
  }

  lemma Stage2Writers(s: State, st: Stage2Step)
    requires CanStage2(s, st)
    ensures DoStage2(s, st).writers == s.writers
  {
  }

  lemma StagesOnce(s: State, n: nat, st: Step)
    requires OnceSoFar(s, n) && Enabled(s, st) && !st.Foreground?
    ensures OnceSoFar(Next(s, st), n)
  {
    match st
    case First(s1) => Stage1Writers(s, s1);
    case Second(s2) => Stage2Writers(s, s2);
    case Caller(c) => assert DoCaller(s, c).writers == s.writers;
  }

  /** In every run with one foreground thread there is at most one overflow between two
      steps that start a call or merge a chunk. */
  lemma {:induction false} OverflowsOnce(s: State, n: nat, steps: seq<Step>)
    requires Reached(s) && OnceSoFar(s, n) && ValidRun(s, steps)
    ensures Overflowed(n, steps) <= 1
    decreases |steps|
  {
    if steps != [] {
      var st := steps[0];
      if st.Foreground? {
        RetriesOnce(s);
        ForegroundOnce(s, n, st.t, st.fg);
      } else {
        StagesOnce(s, n, st);
      }
      ReachedNext(s, st);
      OverflowsOnce(Next(s, st), CountOverflow(n, st), steps[1..]);
    }
  }

  lemma RetriedAtMostOnce(s0: State, steps: seq<Step>)
    requires Init(s0) && ValidRun(s0, steps) && |s0.writers| == 1
    ensures Overflowed(0, steps) <= 1
  {
    InitReached(s0);
    OverflowsOnce(s0, 0, steps);
  }
}
