/** From the moment the writeback guard lets Stage-1 read a zone until that page is
    written back itself, nothing the engine does changes the zone on disk. */
module EngineReads {
  import opened Geometry
  import opened Segments
  import opened Engine
  import opened EngineInv
  import opened EngineSafety
  import opened WriterMerges
  import opened WriterCommits
  import opened Stage1Shifts
  import opened Stage2Shifts

  // ------------------------------------------------------- first of its base

  /** No page of the base is still to be written before r. */
  ghost predicate Foremost(s: State, r: Ref) {
    forall q :: q in Line(s) && q.base == r.base && q.id < r.id ==> q.id in s.freed
  }

  /** The indexed page of its base, which is the newest one. */
  predicate Current(s: State, r: Ref) {
    r.id < |s.pages| && r == Of(s, r.id) && InIndex(s, r.id)
  }

  /** Only an indexed page joins the line. */
  ghost predicate OnlyCurrentJoins(s: State, s': State) {
    forall r :: r in Line(s') ==> r in Line(s) || Current(s, r)
  }

  lemma CommitJoins(s: State, t: nat)
    requires Shape(s) && Flags(s) && Threads(s) && Exclusive(s) && Accounted(s) && BornFull(s) && CanCommit(s, t)
    ensures OnlyCurrentJoins(s, DoCommit(s, t)) && DoCommit(s, t).freed == s.freed
  {
    CommitTakes(s, t);
    CommitLine(s, t, DoCommit(s, t));
    CommitFacts(s, t);
  }

  lemma OverflowJoins(s: State, t: nat)
    requires Shape(s) && Flags(s) && Threads(s) && Exclusive(s) && Accounted(s) && CanOverflow(s, t)
    ensures OnlyCurrentJoins(s, DoOverflow(s, t)) && DoOverflow(s, t).freed == s.freed
  {
    OverflowSeals(s, t);
    OverflowFacts(s, t);
    assert Line(DoOverflow(s, t)) == Line(s) + Pushed(s, t);
  }

  lemma ForegroundJoins(s: State, t: nat, st: ForegroundStep)
    requires Shape(s) && Flags(s) && Threads(s) && Exclusive(s) && Accounted(s) && BornFull(s) && CanForeground(s, t, st)
    ensures OnlyCurrentJoins(s, DoForeground(s, t, st)) && DoForeground(s, t, st).freed == s.freed
  {
    match st
    case Commit => CommitJoins(s, t);
    case Overflow => OverflowJoins(s, t);
    case _ => assert Line(DoForeground(s, t, st)) == Line(s);
  }

  lemma Stage1Joins(s: State, st: Stage1Step)
    requires CanStage1(s, st)
    ensures OnlyCurrentJoins(s, DoStage1(s, st)) && DoStage1(s, st).freed == s.freed
  {
  }

  lemma Stage2Joins(s: State, st: Stage2Step)
    requires CanStage2(s, st)
    ensures OnlyCurrentJoins(s, DoStage2(s, st)) && s.freed <= DoStage2(s, st).freed
  {
  }

  lemma StepJoins(s: State, st: Step)
    requires Shape(s) && Flags(s) && Threads(s) && Exclusive(s) && Accounted(s) && BornFull(s) && Enabled(s, st)
    ensures OnlyCurrentJoins(s, Next(s, st)) && s.freed <= Next(s, st).freed
  {
    match st
    case Foreground(t, fg) => ForegroundJoins(s, t, fg);
    case First(s1) => Stage1Joins(s, s1);
    case Second(s2) => Stage2Joins(s, s2);
    case Caller(c) => assert Line(Next(s, st)) == Line(s);
  }

  lemma JoinKeepsForemost(s: State, s': State, r: Ref)
    requires Shape(s) && Indexed(s) && OnlyCurrentJoins(s, s') && s.freed <= s'.freed && r in Line(s) && Foremost(s, r)
    ensures Foremost(s', r)
  {
    assert s.pages[r.id].base == r.base;
  }

  /** Once first, a page stays first. */
  lemma ForemostStays(s: State, st: Step, r: Ref)
    requires Reached(s) && Enabled(s, st) && r in Line(s) && Foremost(s, r)
    ensures Foremost(Next(s, st), r)
  {
    ReachedInv(s);
    StepJoins(s, st);
    JoinKeepsForemost(s, Next(s, st), r);
  }

  // ------------------------------------------------------ what Stage-1 reads

  /** A reading Stage-1 works on the first page of its base still to be written, and
      what it has read it will not read again. */
  ghost predicate ReadsFirst(s: State) {
    s.s1.Reading? ==> Foremost(s, s.s1.r) && InOrder(s.s1.todo) && s.s1.got !! Cov(s.s1.todo)
  }

  lemma GuardForemost(s: State)
    requires Shape(s) && Flags(s) && Ordered(Line(s)) && Counters(s)
    requires s.s1.Waiting? && s.wb[WbSlot(s.s1.r.base)] == 0
    ensures Foremost(s, s.s1.r)
  {
    forall q | q in Line(s) && q.base == s.s1.r.base && q.id < s.s1.r.id
      ensures q.id in s.freed
    {
      assert q == Of(s, q.id);
      OlderIsAhead(s, q.id);
      if q.id !in s.freed {
        if s.s2.Retiring? && s.s2.sub.ToDec? {
          assert s.s2.batch == [s.s2.batch[0]] + s.s2.batch[1..];
        }
        CountsMember(Guarded(s), q);
      }
    }
  }

  lemma {:induction false} AfterFirst(es: seq<Seg>, at: nat)
    requires InOrder(es) && forall k :: 0 <= k < |es| ==> at <= es[k].off
    ensures forall i :: i in Cov(es) ==> at <= i
  {
    if es != [] {
      AfterFirst(es[1..], at);
    }
  }

  /** The next read is disjoint from those after it. */
  lemma NextReadApart(todo: seq<Seg>)
    requires todo != [] && InOrder(todo)
    ensures InOrder(todo[1..]) && Span(todo[0].off, todo[0].size) !! Cov(todo[1..])
  {
    AfterFirst(todo[1..], todo[0].End());
  }

  lemma Stage1ReadsFirst(s: State, st: Stage1Step)
    requires Shape(s) && Flags(s) && Ordered(Line(s)) && Counters(s) && ReadsFirst(s) && CanStage1(s, st)
    requires s.s1.Reading? ==> Foremost(DoStage1(s, st), s.s1.r)
    ensures ReadsFirst(DoStage1(s, st))
  {
    match st
    case S1Guard(plan, stale) =>
      GuardForemost(s);
      assert Line(DoS1Guard(s, plan, stale)) == Line(s);
    case S1Read => NextReadApart(s.s1.todo);
    case _ =>
  }

  lemma OthersLeaveStage1(s: State, st: Step)
    requires Enabled(s, st) && !st.First?
    ensures Next(s, st).s1 == s.s1
  {
    match st
    case Foreground(t, fg) => ForegroundLeavesStage1(s, t, fg);
    case Second(s2) => Stage2LeavesStage1(s, s2);
    case Caller(c) =>
  }

  lemma ForegroundLeavesStage1(s: State, t: nat, st: ForegroundStep)
    requires CanForeground(s, t, st)
    ensures DoForeground(s, t, st).s1 == s.s1
  {
    match st
    case Commit => CommitTakes(s, t);
    case Overflow => OverflowSeals(s, t);
    case _ =>
  }

  lemma Stage2LeavesStage1(s: State, st: Stage2Step)
    requires CanStage2(s, st)
    ensures DoStage2(s, st).s1 == s.s1
  {
  }

  lemma StepReadsFirst(s: State, st: Step)
    requires Reached(s) && ReadsFirst(s) && Enabled(s, st)
    ensures ReadsFirst(Next(s, st))
  {
    ReachedInv(s);
    if s.s1.Reading? {
      assert s.s1.r in Line(s);
      ForemostStays(s, st, s.s1.r);
    }
    if st.First? { Stage1ReadsFirst(s, st.s1); } else { OthersLeaveStage1(s, st); }
  }

  lemma {:induction false} RunReadsFirst(s: State, steps: seq<Step>)
    requires Reached(s) && ReadsFirst(s) && ValidRun(s, steps)
    ensures ReadsFirst(Run(s, steps))
    decreases |steps|
  {
    if steps != [] {
      StepReadsFirst(s, steps[0]);
      ReachedNext(s, steps[0]);
      RunReadsFirst(Next(s, steps[0]), steps[1..]);
    }
  }

  lemma ReachedReadsFirst(s: State)
    requires Reached(s)
    ensures ReadsFirst(s)
  {
    var s0: State, steps: seq<Step> :| Init(s0) && ValidRun(s0, steps) && Run(s0, steps) == s;
    InitReached(s0);
    RunReadsFirst(s0, steps);
  }

  lemma FreshIsCurrent(s: State, j: nat)
    requires Threads(s) && Fresh(s, j)
    ensures j < |s.pages| && InIndex(s, j)
  {
    var u :| 0 <= u < |s.writers| && s.writers[u].Active? && s.writers[u].pc == Holding(j, true);
    assert PcOk(s, s.writers[u]);
  }

  /** Hole-read freshness, in every run: when Stage-1 reads, every other live page of
      the base is newer, or lost to a failed read and never to be written. */
  lemma HoleReadFresh(s: State, j: nat)
    requires Reached(s) && s.s1.Reading? && j < |s.pages| && j !in s.freed && s.pages[j].base == s.s1.r.base
    ensures s.s1.r.id <= j || Lost(s, j)
  {
    ReachedInv(s);
    ReachedReadsFirst(s);
    assert s.s1.r in Line(s);
    if Fresh(s, j) { FreshIsCurrent(s, j); }
  }

  // ----------------------------------------------------------- the zone on disk

  /** A write call leaves the zone of a page that is first of its base and not in the
      batch. */
  lemma IssueLeavesZone(s: State, disk': Disk, r: Ref, i: nat)
    requires Shape(s) && Flags(s) && Ordered(Line(s)) && CanS2Issue(s, disk')
    requires r in Line(s) && Foremost(s, r) && r !in s.s2.batch && i < ZONE
    ensures DiskByte(disk', r.base, i) == DiskByte(s.disk, r.base, i)
  {
    var m :| 0 <= m < |Line(s)| && Line(s)[m] == r;
    assert forall k :: 0 <= k < |s.s2.batch| ==> Line(s)[k] == s.s2.batch[k] && s.s2.batch[k] in Line(s);
    if LandedAt(s.pages, s.s2.batch, disk', r.base, i) {
      var k := LandedBase(s, disk', r.base, i);
    }
  }

  lemma FastLeavesZone(s: State, w: Write, rest: seq<byte>, disk': Disk, i: nat)
    requires CanFastWrite(s, w, rest, disk') && s.s1.Reading? && i < ZONE && i in s.s1.got
    ensures DiskByte(disk', s.s1.r.base, i) == DiskByte(s.disk, s.s1.r.base, i)
  {
    assert !Within(w.off, |w.bytes| + |rest|, s.s1.r.base, i);
  }

  lemma ForegroundDisk(s: State, t: nat, st: ForegroundStep)
    requires CanForeground(s, t, st)
    ensures DoForeground(s, t, st).disk == s.disk
  {
    match st
    case Commit => CommitTakes(s, t);
    case Overflow => OverflowSeals(s, t);
    case _ =>
  }

  lemma Stage1Disk(s: State, st: Stage1Step)
    requires CanStage1(s, st)
    ensures DoStage1(s, st).disk == s.disk
  {
  }

  lemma Stage2Disk(s: State, st: Stage2Step)
    requires CanStage2(s, st) && !st.S2Issue?
    ensures DoStage2(s, st).disk == s.disk
  {
  }

  /** The step is a direct write over the byte. */
  predicate Overwrites(st: Step, b: nat, i: nat) {
    st.Caller? && st.c.FastWrite? && Hits(st.c.w, b, i)
  }

  /** The step is a system call that writes page r back. */
  predicate WritesBack(s: State, st: Step, r: Ref) {
    st.Second? && st.s2.S2Issue? && r in Batch(s.s2)
  }

  lemma StepLeavesZone(s: State, st: Step, r: Ref, i: nat)
    requires Shape(s) && Flags(s) && Ordered(Line(s)) && Enabled(s, st) && i < ZONE
    requires r in Line(s) && Foremost(s, r) && !Overwrites(st, r.base, i) && !WritesBack(s, st, r)
    ensures DiskByte(Next(s, st).disk, r.base, i) == DiskByte(s.disk, r.base, i)
  {
    match st
    case Foreground(t, fg) => ForegroundDisk(s, t, fg);
    case First(s1) => Stage1Disk(s, s1);
    case Second(s2) =>
      if s2.S2Issue? { IssueLeavesZone(s, s2.disk', r, i); } else { Stage2Disk(s, s2); }
    case Caller(c) =>
  }

  /** While a page that is first of its base waits for its writeback, no step of any
      run changes a byte of its zone on disk, except a direct write over that byte. */
  lemma ZoneWaits(s: State, st: Step, r: Ref, i: nat)
    requires Reached(s) && Enabled(s, st) && i < ZONE
    requires r in Line(s) && Foremost(s, r) && !Overwrites(st, r.base, i) && !WritesBack(s, st, r)
    ensures DiskByte(Next(s, st).disk, r.base, i) == DiskByte(s.disk, r.base, i)
  {
    ReachedInv(s);
    StepLeavesZone(s, st, r, i);
  }

  /** While Stage-1 reads, not even a fast write changes what it has read. */
  lemma ZoneFixed(s: State, st: Step, i: nat)
    requires Reached(s) && Enabled(s, st) && s.s1.Reading? && i < ZONE
    requires Overwrites(st, s.s1.r.base, i) ==> i in s.s1.got
    ensures DiskByte(Next(s, st).disk, s.s1.r.base, i) == DiskByte(s.disk, s.s1.r.base, i)
  {
    ReachedInv(s);
    ReachedReadsFirst(s);
    if Overwrites(st, s.s1.r.base, i) {
      FastLeavesZone(s, st.c.w, st.c.rest, st.c.disk', i);
    } else {
      HandNotInBatch(s);
      StepLeavesZone(s, st, s.s1.r, i);
    }
  }

  lemma HandNotInBatch(s: State)
    requires Ordered(Line(s)) && !s.s1.S1Idle?
    ensures s.s1.r in Line(s) && s.s1.r !in Batch(s.s2)
  {
    assert Line(s)[|Batch(s.s2) + s.q2|] == s.s1.r;
    forall k | 0 <= k < |Batch(s.s2)|
      ensures Batch(s.s2)[k] != s.s1.r
    {
      assert Line(s)[k] == Batch(s.s2)[k];
    }
  }

  /** A run during which page r stays in the line, is not written back, and no direct
      write goes over byte i of its zone. */
  ghost predicate Waits(s: State, steps: seq<Step>, r: Ref, i: nat)
    requires ValidRun(s, steps)
    decreases |steps|
  {
    steps != [] ==>
      && r in Line(s) && !Overwrites(steps[0], r.base, i) && !WritesBack(s, steps[0], r)
      && Waits(Next(s, steps[0]), steps[1..], r, i)
  }

  /** Over whole runs: from the guard on, whatever the other threads do and whatever
      fails, the zone on disk is fixed until the page's own writeback. */
  lemma {:induction false} FixedUntilWriteback(s: State, steps: seq<Step>, r: Ref, i: nat)
    requires Reached(s) && ValidRun(s, steps) && Foremost(s, r) && Waits(s, steps, r, i) && i < ZONE
    ensures DiskByte(Run(s, steps).disk, r.base, i) == DiskByte(s.disk, r.base, i)
    decreases |steps|
  {
    if steps != [] {
      ZoneWaits(s, steps[0], r, i);
      ForemostStays(s, steps[0], r);
      ReachedNext(s, steps[0]);
      FixedUntilWriteback(Next(s, steps[0]), steps[1..], r, i);
    }
  }

  /** The page Stage-1 completes is such a page. */
  lemma ReadStaysTrue(s: State, steps: seq<Step>, i: nat)
    requires Reached(s) && s.s1.Reading? && ValidRun(s, steps) && Waits(s, steps, s.s1.r, i) && i < ZONE
    ensures DiskByte(Run(s, steps).disk, s.s1.r.base, i) == DiskByte(s.disk, s.s1.r.base, i)
  {
    ReachedReadsFirst(s);
    FixedUntilWriteback(s, steps, s.s1.r, i);
  }
}
