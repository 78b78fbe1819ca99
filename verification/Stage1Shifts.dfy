/** Stage-1 steps that only hand a page on. */
module Stage1Shifts {
  import opened Geometry
  import opened Segments
  import opened Engine
  import opened EngineInv
  import opened ShiftSteps

  /** A page in the line means the engine is not closed yet. */
  lemma LineOpen(s: State)
    requires Closing(s) && Line(s) != []
    ensures s.closer.Running? || s.closer.Draining?
  {
  }

  lemma {:induction false} SlotCountConcat(a: seq<Ref>, b: seq<Ref>, slot: nat)
    ensures SlotCount(a + b, slot) == SlotCount(a, slot) + SlotCount(b, slot)
  {
    if b == [] {
      assert a + b == a;
    } else {
      var n := |b| - 1;
      assert (a + b)[..|a + b| - 1] == a + b[..n];
      SlotCountConcat(a, b[..n], slot);
    }
  }

  lemma SlotCountOne(r: Ref, slot: nat)
    ensures SlotCount([r], slot) == if WbSlot(r.base) == slot then 1 else 0
  {
  }

  // ------------------------------------------------------------------ S1Pop

  lemma S1PopShifts(s: State)
    requires Shape(s) && Complete(s) && Counters(s) && CanS1Pop(s)
    ensures Shifts(s, DoS1Pop(s)) && Shape(DoS1Pop(s)) && Complete(DoS1Pop(s)) && Counters(DoS1Pop(s))
  {
  }

  lemma S1PopKeeps(s: State)
    requires Inv(s) && CanS1Pop(s)
    ensures Inv(DoS1Pop(s))
  {
    var s' := DoS1Pop(s);
    LineOpen(s);
    S1PopShifts(s);
    ShiftFaithful(s, s');
    ShiftKeeps(s, s');
  }

  // -------------------------------------------------------- S1Forward, S1Snapshot

  lemma S1ForwardShifts(s: State)
    requires Shape(s) && Complete(s) && Counters(s) && CanS1Forward(s)
    ensures Shifts(s, DoS1Forward(s)) && Shape(DoS1Forward(s)) && Complete(DoS1Forward(s)) && Counters(DoS1Forward(s))
  {
  }

  lemma S1ForwardKeeps(s: State)
    requires Inv(s) && CanS1Forward(s)
    ensures Inv(DoS1Forward(s))
  {
    var s' := DoS1Forward(s);
    LineOpen(s);
    S1ForwardShifts(s);
    ShiftFaithful(s, s');
    ShiftKeeps(s, s');
  }

  lemma S1SnapshotShifts(s: State)
    requires Shape(s) && Complete(s) && Counters(s) && CanS1Snapshot(s)
    ensures Shifts(s, DoS1Snapshot(s)) && Shape(DoS1Snapshot(s)) && Complete(DoS1Snapshot(s)) && Counters(DoS1Snapshot(s))
  {
  }

  lemma S1SnapshotKeeps(s: State)
    requires Inv(s) && CanS1Snapshot(s)
    ensures Inv(DoS1Snapshot(s))
  {
    var s' := DoS1Snapshot(s);
    LineOpen(s);
    S1SnapshotShifts(s);
    ShiftFaithful(s, s');
    ShiftKeeps(s, s');
  }

  // ----------------------------------------------------------------- S1Guard

  lemma S1GuardShifts(s: State, plan: seq<Seg>, stale: seq<byte>)
    requires Shape(s) && Complete(s) && Counters(s) && CanS1Guard(s, plan, stale)
    ensures var s' := DoS1Guard(s, plan, stale); Shifts(s, s') && Shape(s') && Complete(s') && Counters(s')
  {
    var s' := DoS1Guard(s, plan, stale);
    assert Line(s') == Line(s);
    assert Guarded(s') == Guarded(s);
  }

  /** A member of a list is counted in its slot. */
  lemma {:induction false} CountsMember(refs: seq<Ref>, r: Ref)
    requires r in refs
    ensures SlotCount(refs, WbSlot(r.base)) > 0
  {
    var n := |refs| - 1;
    if refs[n] != r {
      assert r in refs[..n];
      CountsMember(refs[..n], r);
    }
  }

  /** Without failed reads, an older live page of the base Stage-1 works on is in
      the line. */
  lemma OlderInLine(s: State, j: nat)
    requires Shape(s) && Indexed(s) && Threads(s) && Accounted(s) && !s.dropped && !s.s1.S1Idle?
    requires j < |s.pages| && s.pages[j].base == s.s1.r.base && j < s.s1.r.id && j !in s.freed
    ensures Of(s, j) in Line(s)
  {
  }

  /** When the writeback guard lets Stage-1 through, every older page of the base
      has been written back and freed. */
  lemma GuardFresh(s: State, j: nat)
    requires Shape(s) && Flags(s) && Indexed(s) && Threads(s) && Discipline(s) && Counters(s) && !s.dropped
    requires s.s1.Waiting? && s.wb[WbSlot(s.s1.r.base)] == 0
    requires j < |s.pages| && s.pages[j].base == s.s1.r.base && j < s.s1.r.id
    ensures j in s.freed
  {
    if j !in s.freed {
      OlderInLine(s, j);
      OlderIsAhead(s, j);
      if s.s2.Retiring? && s.s2.sub.ToDec? {
        assert s.s2.batch == [s.s2.batch[0]] + s.s2.batch[1..];
      }
      CountsMember(Guarded(s), Of(s, j));
    }
  }

  /** An older page of the base Stage-1 works on is in the batch or in Q2. */
  lemma OlderIsAhead(s: State, j: nat)
    requires Ordered(Line(s)) && !s.s1.S1Idle?
    requires j < |s.pages| && s.pages[j].base == s.s1.r.base && j < s.s1.r.id && Of(s, j) in Line(s)
    ensures Of(s, j) in Batch(s.s2) + s.q2
  {
    var front := Batch(s.s2) + s.q2;
    assert Line(s)[|front|] == s.s1.r;
    var k :| 0 <= k < |Line(s)| && Line(s)[k] == Of(s, j);
    if k < |front| {
      assert front[k] == Of(s, j);
    }
  }

  lemma S1GuardKeeps(s: State, plan: seq<Seg>, stale: seq<byte>)
    requires Inv(s) && CanS1Guard(s, plan, stale)
    ensures Inv(DoS1Guard(s, plan, stale))
  {
    var s' := DoS1Guard(s, plan, stale);
    LineOpen(s);
    S1GuardShifts(s, plan, stale);
    if !s.ioErr {
      ShiftContent(s, s');
      forall j | 0 <= j < |s.pages| && s.pages[j].base == s.s1.r.base && j < s.s1.r.id
        ensures j in s.freed
      {
        GuardFresh(s, j);
      }
      assert FreshRead(s') && OnDisk(s');
    }
    ShiftKeeps(s, s');
  }

  // ------------------------------------------------------------------ S1Read

  lemma S1ReadShifts(s: State)
    requires Shape(s) && Complete(s) && Counters(s) && CanS1Read(s)
    ensures Shifts(s, DoS1Read(s)) && Shape(DoS1Read(s)) && Complete(DoS1Read(s)) && Counters(DoS1Read(s))
  {
  }

  lemma S1ReadKeeps(s: State)
    requires Inv(s) && CanS1Read(s)
    ensures Inv(DoS1Read(s))
  {
    var s' := DoS1Read(s);
    LineOpen(s);
    S1ReadShifts(s);
    if !s.ioErr {
      ShiftContent(s, s');
      S1ReadFresh(s);
      assert OnDisk(s');
    }
    ShiftKeeps(s, s');
  }

  lemma S1ReadFresh(s: State)
    requires FreshRead(s) && CanS1Read(s)
    ensures FreshRead(DoS1Read(s))
  {
  }

  // -------------------------------------------------------- S1Enter, S1Push

  lemma S1EnterShifts(s: State)
    requires Shape(s) && Complete(s) && CanS1Enter(s)
    ensures Shifts(s, DoS1Enter(s)) && Shape(DoS1Enter(s)) && Complete(DoS1Enter(s))
  {
  }

  lemma S1EnterCounts(s: State)
    requires Counters(s) && CanS1Enter(s)
    ensures Counters(DoS1Enter(s))
  {
    var s' := DoS1Enter(s);
    assert |Line(s')| == |Line(s)|;
    assert Guarded(s') == Guarded(s) + [s.s1.r];
    forall k | 0 <= k < WB_SLOTS
      ensures s'.wb[k] == SlotCount(Guarded(s'), k)
    {
      SlotCountConcat(Guarded(s), [s.s1.r], k);
      SlotCountOne(s.s1.r, k);
    }
  }

  lemma S1EnterKeeps(s: State)
    requires Inv(s) && CanS1Enter(s)
    ensures Inv(DoS1Enter(s))
  {
    var s' := DoS1Enter(s);
    LineOpen(s);
    S1EnterShifts(s);
    S1EnterCounts(s);
    ShiftFaithful(s, s');
    ShiftKeeps(s, s');
  }

  lemma S1PushShifts(s: State)
    requires Shape(s) && Complete(s) && Counters(s) && CanS1Push(s)
    ensures Shifts(s, DoS1Push(s)) && Shape(DoS1Push(s)) && Complete(DoS1Push(s)) && Counters(DoS1Push(s))
  {
    var s' := DoS1Push(s);
    assert Line(s') == Line(s);
    assert Guarded(s') == Guarded(s);
  }

  lemma S1PushKeeps(s: State)
    requires Inv(s) && CanS1Push(s)
    ensures Inv(DoS1Push(s))
  {
    var s' := DoS1Push(s);
    LineOpen(s);
    S1PushShifts(s);
    ShiftFaithful(s, s');
    ShiftKeeps(s, s');
  }

  // ---------------------------------------------------------- the busy branch

  /** Bytes in flight never reach the busy threshold, so neither stage ever sends
      a page back to the tail of its queue. */
  lemma NeverBusy(s: State)
    requires Shape(s) && Counters(s)
    ensures s.bcount <= ZONE + MAX_IOV * ZONE && !SsdBusy(s)
  {
  }
}
