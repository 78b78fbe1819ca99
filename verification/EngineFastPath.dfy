/** The fast path never looks at the scrap pages. When is that harmless? */
module EngineFastPath {
  import opened Geometry
  import opened Segments
  import opened Engine
  import opened EngineInv
  import opened EngineSafety
  import opened EngineTheorems
  import opened EngineReads
  import opened EngineExample
  import opened WriterMerges
  import opened WriterCommits

  /** No live page covers a byte of the range. */
  ghost predicate Uncovered(s: State, off: nat, size: nat) {
    forall j: nat, i: nat {:trigger i in s.pages[j].cov} ::
      j < |s.pages| && j !in s.freed && i < ZONE && i in s.pages[j].cov ==>
        !(off <= s.pages[j].base * ZONE + i < off + size)
  }

  /** Whatever the buffer holds, right after the write the engine holds it. */
  ghost predicate AlwaysVisible(s: State, off: nat, size: nat) {
    forall bytes: seq<byte>, disk': Disk :: |bytes| == size && DiskAfter(s.disk, Write(off, bytes), disk') ==>
      Refines(DoFastWrite(s, Write(off, bytes), [], disk'))
  }

  // ------------------------------------------------------- sufficient, necessary

  /** The overlay looks at the disk only where no page covers the address. */
  lemma {:induction false} OverlayDisk(s: State, s': State, b: nat, i: nat, n: nat)
    requires s'.pages == s.pages && s'.freed == s.freed && n <= |s.pages| && Shape(s) && i < ZONE
    ensures (exists k :: 0 <= k < n && k !in s.freed && s.pages[k].base == b && i in s.pages[k].cov) ==>
              Overlay(s', b, i, n) == Overlay(s, b, i, n)
    ensures (forall k :: 0 <= k < n && k !in s.freed && s.pages[k].base == b ==> i !in s.pages[k].cov) ==>
              Overlay(s', b, i, n) == DiskByte(s'.disk, b, i)
  {
    if n > 0 {
      OverlayDisk(s, s', b, i, n - 1);
    }
  }

  lemma UncoveredVisible(s: State, w: Write, disk': Disk)
    requires Shape(s) && Refines(s) && Uncovered(s, w.off, |w.bytes|) && DiskAfter(s.disk, w, disk')
    ensures Refines(DoFastWrite(s, w, [], disk'))
  {
    var s' := DoFastWrite(s, w, [], disk');
    forall b: nat, i: nat | i < ZONE
      ensures View(s', b, i) == Flat(s'.init, s'.log, b, i)
    {
      FlatAppend(s.init, s.log, w, b, i);
      OverlayDisk(s, s', b, i, |s.pages|);
      OverlayDisk(s, s, b, i, |s.pages|);
      assert View(s, b, i) == Flat(s.init, s.log, b, i);
      assert Hits(w, b, i) ==> Bare(s, b, i);
    }
  }

  function Overwrite(disk: Disk, w: Write, b: nat): seq<byte> {
    seq(ZONE, i requires 0 <= i < ZONE =>
      if Hits(w, b, i) then w.bytes[b * ZONE + i - w.off] else DiskByte(disk, b, i))
  }

  function Overwritten(disk: Disk, w: Write): Disk {
    disk + map b: nat {:trigger Offset(b)} | BaseOf(w.off) <= b <= BaseOf(w.off + |w.bytes|) :: Overwrite(disk, w, b)
  }

  lemma HitsBase(w: Write, b: nat, i: nat)
    requires Hits(w, b, i) && i < ZONE
    ensures BaseOf(w.off) <= b <= BaseOf(w.off + |w.bytes|)
  {
  }

  lemma OverwrittenIsAfter(disk: Disk, w: Write)
    ensures DiskAfter(disk, w, Overwritten(disk, w))
  {
    forall b: nat, i: nat | i < ZONE
      ensures DiskByte(Overwritten(disk, w), b, i) ==
              if Hits(w, b, i) then w.bytes[b * ZONE + i - w.off] else DiskByte(disk, b, i)
    {
      if Hits(w, b, i) { HitsBase(w, b, i); }
      if BaseOf(w.off) <= b <= BaseOf(w.off + |w.bytes|) {
        assert Overwritten(disk, w)[b] == Overwrite(disk, w, b);
      } else {
        assert b in Overwritten(disk, w) <==> b in disk;
      }
    }
  }

  /** Over a covered byte, a buffer of any other value is lost at once. */
  lemma CoveredHidden(s: State, off: nat, size: nat, j: nat, i: nat) returns (w: Write, disk': Disk)
    requires Shape(s) && j < |s.pages| && j !in s.freed && i < ZONE && i in s.pages[j].cov
    requires off <= s.pages[j].base * ZONE + i < off + size
    ensures w.off == off && |w.bytes| == size && DiskAfter(s.disk, w, disk') && !Refines(DoFastWrite(s, w, [], disk'))
  {
    var b := s.pages[j].base;
    var shown := View(s, b, i);
    var other: byte := if shown == 0 then 1 else 0;
    w := Write(off, seq(size, _ => other));
    disk' := Overwritten(s.disk, w);
    OverwrittenIsAfter(s.disk, w);
    var s' := DoFastWrite(s, w, [], disk');
    OverlayDisk(s, s', b, i, |s.pages|);
    FlatAppend(s.init, s.log, w, b, i);
    assert Hits(w, b, i) && View(s', b, i) == shown && Flat(s'.init, s'.log, b, i) == other;
  }

  /** Exactly when a fast write is seen: no live page covers any of its bytes. */
  lemma FastVisibleIff(s: State, off: nat, size: nat)
    requires Shape(s) && Refines(s)
    ensures AlwaysVisible(s, off, size) <==> Uncovered(s, off, size)
  {
    if Uncovered(s, off, size) {
      forall bytes: seq<byte>, disk': Disk | |bytes| == size && DiskAfter(s.disk, Write(off, bytes), disk')
        ensures Refines(DoFastWrite(s, Write(off, bytes), [], disk'))
      {
        UncoveredVisible(s, Write(off, bytes), disk');
      }
    } else {
      var j: nat, i: nat :| j < |s.pages| && j !in s.freed && i < ZONE && i in s.pages[j].cov
                            && off <= s.pages[j].base * ZONE + i < off + size;
      var w, disk' := CoveredHidden(s, off, size, j, i);
      assert w == Write(off, w.bytes);
    }
  }

  // ------------------------------------------------------ seen and kept, over runs

  /** Every run that goes on from here without an I/O failure refines the flat file. */
  ghost predicate StaysRefined(s: State) {
    forall steps: seq<Step> :: ValidRun(s, steps) && !Run(s, steps).ioErr ==> Refines(Run(s, steps))
  }

  /** Whatever the buffer holds and however much of it lands, no run loses a byte. */
  ghost predicate NeverLost(s: State, off: nat, size: nat) {
    forall bytes: seq<byte>, rest: seq<byte>, disk': Disk ::
      |bytes| + |rest| == size && DiskAfter(s.disk, Write(off, bytes), disk') ==>
        StaysRefined(DoFastWrite(s, Write(off, bytes), rest, disk'))
  }

  lemma ClearIsKept(s: State, w: Write, rest: seq<byte>, disk': Disk)
    requires Reached(s) && CanFastWrite(s, w, rest, disk')
    ensures StaysRefined(DoFastWrite(s, w, rest, disk'))
  {
    var st := Caller(FastWrite(w, rest, disk'));
    ReachedNext(s, st);
    forall steps: seq<Step> | ValidRun(Next(s, st), steps) && !Run(Next(s, st), steps).ioErr
      ensures Refines(Run(Next(s, st), steps))
    {
      RunReached(Next(s, st), steps);
      Refinement(Run(Next(s, st), steps));
    }
  }

  /** A short run that frees the lock of page `id` and leaves address (b, i) alone. */
  ghost predicate Releases(s: State, s': State, id: nat, b: nat, i: nat) {
    && PageFree(s', id)
    && s' == s.(pages := s'.pages, index := s'.index, q1 := s'.q1, q2 := s'.q2, pending := s'.pending, wb := s'.wb,
                writers := s'.writers, log := s'.log, calls := s'.calls, returned := s'.returned)
    && |s'.pages| == |s.pages|
    && (forall j :: 0 <= j < |s.pages| ==>
          && s'.pages[j].base == s.pages[j].base && |s'.pages[j].zone| == |s.pages[j].zone|
          && (s.pages[j].base == b ==> (i in s'.pages[j].cov <==> i in s.pages[j].cov)))
    && Flat(s'.init, s'.log, b, i) == Flat(s.init, s.log, b, i)
  }

  ghost predicate NobodyWrites(s: State, b: nat, i: nat) {
    forall u :: 0 <= u < |s.writers| && s.writers[u].Active? ==> !InRange(s.writers[u], b, i)
  }

  lemma CommitReleases(s: State, t: nat, b: nat, i: nat)
    requires Shape(s) && Threads(s) && Exclusive(s) && CanCommit(s, t) && NobodyWrites(s, b, i) && i < ZONE
    ensures Releases(s, DoCommit(s, t), Held(s, t), b, i)
  {
    var s' := DoCommit(s, t);
    CommitTakes(s, t);
    TakenPage(s, t);
    FlatAfter(s, t, s', b, i);
    ChunkHits(s.writers[t], b, i);
    assert PcOk(s, s.writers[t]);
  }

  lemma OverflowReleases(s: State, t: nat, b: nat, i: nat)
    requires Threads(s) && Exclusive(s) && CanOverflow(s, t)
    ensures Releases(s, DoOverflow(s, t), Held(s, t), b, i)
  {
    OverflowSeals(s, t);
  }

  lemma HolderReleases(s: State, t: nat, b: nat, i: nat) returns (st: Step)
    requires Shape(s) && Threads(s) && Exclusive(s) && NobodyWrites(s, b, i) && i < ZONE && HasPage(s, t)
    ensures Enabled(s, st) && Releases(s, Next(s, st), Held(s, t), b, i)
  {
    if CanSeeSealed(s, t) {
      st := Foreground(t, SeeSealed);
    } else if CanOverflow(s, t) {
      OverflowReleases(s, t, b, i);
      st := Foreground(t, Overflow);
    } else {
      CommitReleases(s, t, b, i);
      st := Foreground(t, Commit);
    }
  }

  lemma ReleaseLock(s: State, id: nat, b: nat, i: nat) returns (steps: seq<Step>)
    requires Shape(s) && Threads(s) && Exclusive(s) && NobodyWrites(s, b, i) && i < ZONE
    ensures ValidRun(s, steps) && Releases(s, Run(s, steps), id, b, i)
  {
    if PageFree(s, id) {
      steps := [];
    } else {
      var t :| 0 <= t < |s.writers| && s.writers[t].Active? && s.writers[t].pc.Holding? && s.writers[t].pc.id == id;
      assert PcOk(s, s.writers[t]);
      var st := HolderReleases(s, t, b, i);
      OneStep(s, st);
      steps := [st];
    }
  }

  /** The remaining reads do not touch what has been read. */
  lemma {:induction false} FinishReads(s: State, i: nat) returns (steps: seq<Step>)
    requires s.s1.Reading? && |s.s1.scratch| == ZONE && i < ZONE
    requires i in s.s1.got && InOrder(s.s1.todo) && s.s1.got !! Cov(s.s1.todo)
    ensures ValidRun(s, steps)
    ensures var s' := Run(s, steps);
            && s' == s.(s1 := s'.s1) && s'.s1.Reading? && s'.s1.r == s.s1.r && s'.s1.todo == []
            && |s'.s1.scratch| == ZONE && s'.s1.scratch[i] == s.s1.scratch[i]
    decreases |s.s1.todo|
  {
    if s.s1.todo == [] {
      steps := [];
    } else {
      NextReadApart(s.s1.todo);
      var next := DoS1Read(s);
      assert i !in Span(s.s1.todo[0].off, s.s1.todo[0].size);
      var rest := FinishReads(next, i);
      OneStep(s, First(S1Read));
      RunAppend(s, [First(S1Read)], rest);
      steps := [First(S1Read)] + rest;
    }
  }

  /** Stage-1 completes its page with what it has read, and that is then seen. */
  lemma FillShows(s: State, i: nat)
    requires CanS1Fill(s) && i < ZONE && s.s1.r.id !in s.freed && s.pages[s.s1.r.id].base == s.s1.r.base
    requires Bare(s, s.s1.r.base, i)
    ensures View(DoS1Fill(s), s.s1.r.base, i) == s.s1.scratch[i]
  {
    var t := DoS1Fill(s);
    OverlayFrom(t, s.s1.r.base, i, s.s1.r.id, |t.pages|);
  }

  lemma {:induction false} OverlayFrom(s: State, b: nat, i: nat, id: nat, n: nat)
    requires id < n <= |s.pages| && id !in s.freed && s.pages[id].base == b && i in s.pages[id].cov && i < |s.pages[id].zone|
    requires forall k :: id < k < n && k !in s.freed && s.pages[k].base == b ==> i !in s.pages[k].cov
    ensures Overlay(s, b, i, n) == s.pages[id].zone[i]
    decreases n
  {
    if n > id + 1 { OverlayFrom(s, b, i, id, n - 1); }
  }

  lemma HandLive(s: State)
    requires Shape(s) && Flags(s) && Ordered(Line(s)) && !s.s1.S1Idle?
    ensures s.s1.r in Line(s) && s.s1.r.id !in s.freed && s.pages[s.s1.r.id].base == s.s1.r.base
  {
    HandNotInBatch(s);
  }

  /** Being seen is not being kept: over a byte Stage-1 has read for the page it is
      completing, a buffer of any other value is seen, and a run goes on to undo it. */
  lemma FastUndone(s: State, off: nat, size: nat, i: nat) returns (w: Write, disk': Disk, steps: seq<Step>)
    requires Reached(s) && !s.ioErr && ClearOfCalls(s, off, size) && Uncovered(s, off, size)
    requires s.s1.Reading? && i in s.s1.got && i < ZONE && Within(off, size, s.s1.r.base, i)
    ensures w.off == off && |w.bytes| == size && DiskAfter(s.disk, w, disk')
    ensures var s' := DoFastWrite(s, w, [], disk');
            Refines(s') && ValidRun(s', steps) && !Run(s', steps).ioErr && !Refines(Run(s', steps))
  {
    var b := s.s1.r.base;
    var other: byte := if DiskByte(s.disk, b, i) == 0 then 1 else 0;
    w := Write(off, seq(size, _ => other));
    disk' := Overwritten(s.disk, w);
    OverwrittenIsAfter(s.disk, w);
    Refinement(s);
    ReachedInv(s);
    UncoveredVisible(s, w, disk');
    steps := UndoRun(s, w, disk', i);
  }

  /** Stage-1 has read offset i for a live page, and nothing covers it yet. */
  ghost predicate HasRead(s: State, i: nat) {
    && s.s1.Reading? && |s.s1.scratch| == ZONE && i < ZONE
    && i in s.s1.got && InOrder(s.s1.todo) && s.s1.got !! Cov(s.s1.todo) && s.bcount >= ZONE
    && s.s1.r.id < |s.pages| && s.s1.r.id !in s.freed && s.pages[s.s1.r.id].base == s.s1.r.base
    && |s.pages[s.s1.r.id].zone| == ZONE && Bare(s, s.s1.r.base, i)
  }

  lemma FinishAndFill(s: State, i: nat) returns (steps: seq<Step>)
    requires HasRead(s, i) && PageFree(s, s.s1.r.id)
    ensures ValidRun(s, steps)
    ensures var s' := Run(s, steps);
            && s'.ioErr == s.ioErr && s'.init == s.init && s'.log == s.log
            && View(s', s.s1.r.base, i) == s.s1.scratch[i]
  {
    var finish := FinishReads(s, i);
    var s3 := Run(s, finish);
    FillShows(s3, i);
    OneStep(s3, First(S1Fill));
    RunAppend(s, finish, [First(S1Fill)]);
    steps := finish + [First(S1Fill)];
  }

  lemma UndoFrom(s: State, i: nat) returns (steps: seq<Step>)
    requires Shape(s) && Threads(s) && Exclusive(s) && HasRead(s, i) && NobodyWrites(s, s.s1.r.base, i)
    ensures ValidRun(s, steps)
    ensures var s' := Run(s, steps);
            && s'.ioErr == s.ioErr && View(s', s.s1.r.base, i) == s.s1.scratch[i]
            && Flat(s'.init, s'.log, s.s1.r.base, i) == Flat(s.init, s.log, s.s1.r.base, i)
  {
    var release := ReleaseLock(s, s.s1.r.id, s.s1.r.base, i);
    var s2 := Run(s, release);
    var rest := FinishAndFill(s2, i);
    RunAppend(s, release, rest);
    steps := release + rest;
  }

  lemma ReadBefore(s: State, off: nat, size: nat, i: nat)
    requires Reached(s) && !s.ioErr && ClearOfCalls(s, off, size) && Uncovered(s, off, size)
    requires s.s1.Reading? && i in s.s1.got && i < ZONE && Within(off, size, s.s1.r.base, i)
    ensures Shape(s) && Complete(s) && Counters(s) && Flags(s) && Indexed(s) && Threads(s) && Exclusive(s)
    ensures HasRead(s, i) && NobodyWrites(s, s.s1.r.base, i) && s.s1.scratch[i] == DiskByte(s.disk, s.s1.r.base, i)
  {
    ReachedInv(s);
    ReachedReadsFirst(s);
    HandLive(s);
  }

  lemma UndoRun(s: State, w: Write, disk': Disk, i: nat) returns (steps: seq<Step>)
    requires Reached(s) && !s.ioErr && ClearOfCalls(s, w.off, |w.bytes|) && Uncovered(s, w.off, |w.bytes|)
    requires s.s1.Reading? && i in s.s1.got && i < ZONE && Within(w.off, |w.bytes|, s.s1.r.base, i)
    requires w.bytes[s.s1.r.base * ZONE + i - w.off] != DiskByte(s.disk, s.s1.r.base, i)
    ensures var s' := DoFastWrite(s, w, [], disk');
            ValidRun(s', steps) && !Run(s', steps).ioErr && !Refines(Run(s', steps))
  {
    ReadBefore(s, w.off, |w.bytes|, i);
    var s' := DoFastWrite(s, w, [], disk');
    StillRead(s, w, disk', i);
    steps := UndoFrom(s', i);
    NotRefined(Run(s', steps), s.s1.r.base, i);
  }

  /** A direct write leaves Stage-1 and the pages as they are and sets the flat byte. */
  lemma StillRead(s: State, w: Write, disk': Disk, i: nat)
    requires Shape(s) && Complete(s) && Counters(s) && Flags(s) && Indexed(s) && Threads(s) && Exclusive(s)
    requires HasRead(s, i) && NobodyWrites(s, s.s1.r.base, i) && Hits(w, s.s1.r.base, i)
    ensures var s' := DoFastWrite(s, w, [], disk');
            && Shape(s') && Threads(s') && Exclusive(s') && HasRead(s', i) && NobodyWrites(s', s.s1.r.base, i)
            && Flat(s'.init, s'.log, s.s1.r.base, i) == w.bytes[s.s1.r.base * ZONE + i - w.off]
  {
    var s' := DoFastWrite(s, w, [], disk');
    FastRest(s, w, [], disk');
    SameRead(s, s', i);
    FlatSet(s, s', w, s.s1.r.base, i);
  }

  lemma SameRead(s: State, s': State, i: nat)
    requires s' == s.(disk := s'.disk, log := s'.log, returned := s'.returned, calls := s'.calls)
    requires HasRead(s, i) && NobodyWrites(s, s.s1.r.base, i)
    ensures HasRead(s', i) && NobodyWrites(s', s.s1.r.base, i)
  {
    assert Bare(s', s.s1.r.base, i) by {
      assert Bare(s, s.s1.r.base, i);
    }
  }

  lemma FlatSet(s: State, s': State, w: Write, b: nat, i: nat)
    requires s'.init == s.init && s'.log == s.log + [w] && Hits(w, b, i)
    ensures Flat(s'.init, s'.log, b, i) == w.bytes[b * ZONE + i - w.off]
  {
    FlatAppend(s.init, s.log, w, b, i);
  }

  lemma NotRefined(s: State, b: nat, i: nat)
    requires i < ZONE && View(s, b, i) != Flat(s.init, s.log, b, i)
    ensures !Refines(s)
  {
  }

  /** Exactly when a direct write is safe: no byte of any buffer is ever lost, in any
      run that goes on from it, if and only if the write is clear of scrap pages. */
  lemma FastKeptIff(s: State, off: nat, size: nat)
    requires Reached(s) && !s.ioErr && s.closer.Running? && FastPath(off, size) && ClearOfCalls(s, off, size)
    ensures NeverLost(s, off, size) <==> ClearOfScrap(s, off, size)
  {
    if ClearOfScrap(s, off, size) {
      forall bytes: seq<byte>, rest: seq<byte>, disk': Disk
        | |bytes| + |rest| == size && DiskAfter(s.disk, Write(off, bytes), disk')
        ensures StaysRefined(DoFastWrite(s, Write(off, bytes), rest, disk'))
      {
        ClearIsKept(s, Write(off, bytes), rest, disk');
      }
    } else {
      NotClear(s, off, size);
    }
  }

  lemma NotClear(s: State, off: nat, size: nat)
    requires Reached(s) && !s.ioErr && ClearOfCalls(s, off, size) && !ClearOfScrap(s, off, size)
    ensures !NeverLost(s, off, size)
  {
    ReachedInv(s);
    var w, disk', steps := SomeLoss(s, off, size);
    var s' := DoFastWrite(s, Write(off, w.bytes), [], disk');
    assert w == Write(off, w.bytes) && !StaysRefined(s');
  }

  /** A buffer and a run that lose a byte of a write that is not clear of scrap pages. */
  lemma SomeLoss(s: State, off: nat, size: nat) returns (w: Write, disk': Disk, steps: seq<Step>)
    requires Reached(s) && Shape(s) && !s.ioErr && ClearOfCalls(s, off, size) && !ClearOfScrap(s, off, size)
    ensures w.off == off && |w.bytes| == size && DiskAfter(s.disk, w, disk')
    ensures var s' := DoFastWrite(s, w, [], disk');
            ValidRun(s', steps) && !Run(s', steps).ioErr && !Refines(Run(s', steps))
  {
    if Uncovered(s, off, size) {
      var i := ReadByte(s, off, size);
      w, disk', steps := FastUndone(s, off, size, i);
    } else {
      var j: nat, i: nat :| j < |s.pages| && j !in s.freed && i < ZONE && i in s.pages[j].cov
                            && off <= s.pages[j].base * ZONE + i < off + size;
      w, disk' := CoveredHidden(s, off, size, j, i);
      steps := [];
    }
  }

  lemma ReadByte(s: State, off: nat, size: nat) returns (i: nat)
    requires Shape(s) && Uncovered(s, off, size) && !ClearOfScrap(s, off, size)
    ensures s.s1.Reading? && i < ZONE && i in s.s1.got && Within(off, size, s.s1.r.base, i)
  {
    var b: nat;
    b, i :| i < ZONE && Within(off, size, b, i) &&
      ((exists j :: 0 <= j < |s.pages| && j !in s.freed && s.pages[j].base == b && i in s.pages[j].cov)
       || (s.s1.Reading? && s.s1.r.base == b && i in s.s1.got));
  }

  /** The direct path is documented as unrestricted. It is not: after one small
      write has returned, with no call in flight, a fast write over the same bytes
      can be lost to the live page. */
  lemma FastPathRestricted(s0: State) returns (s: State, w: Write, disk': Disk)
    requires Init(s0) && |s0.writers| >= 1
    ensures Reached(s) && AllIdle(s) && FastPath(w.off, |w.bytes|)
    ensures DiskAfter(s.disk, w, disk') && !Refines(DoFastWrite(s, w, [], disk'))
  {
    s := SmallWriteDone(s0);
    ReachedInv(s);
    w, disk' := CoveredHidden(s, 0, DIRECT_THRESHOLD, 0, 0);
  }
}
