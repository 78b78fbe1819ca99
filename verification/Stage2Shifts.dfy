/** Stage-2 steps that only hand pages on or touch the device. */
module Stage2Shifts {
  import opened Geometry
  import opened Engine
  import opened EngineInv
  import opened ShiftSteps
  import opened Stage1Shifts

  lemma BatchOpen(s: State)
    requires Closing(s) && S2Shape(s) && !s.s2.S2Idle?
    ensures s.closer.Running? || s.closer.Draining?
  {
  }

  lemma S2PopShifts(s: State)
    requires Shape(s) && Complete(s) && Counters(s) && CanS2Pop(s)
    ensures Shifts(s, DoS2Pop(s)) && Shape(DoS2Pop(s)) && Complete(DoS2Pop(s)) && Counters(DoS2Pop(s))
  {
    var s' := DoS2Pop(s);
    assert s.q2 == [s.q2[0]] + s.q2[1..];
    assert Line(s') == Line(s);
    assert Guarded(s') == Guarded(s);
  }

  lemma S2PopKeeps(s: State)
    requires Inv(s) && CanS2Pop(s)
    ensures Inv(DoS2Pop(s))
  {
    var s' := DoS2Pop(s);
    LineOpen(s);
    S2PopShifts(s);
    ShiftFaithful(s, s');
    ShiftKeeps(s, s');
  }

  lemma S2GatherShifts(s: State)
    requires Shape(s) && Complete(s) && Counters(s) && CanS2Gather(s)
    ensures Shifts(s, DoS2Gather(s)) && Shape(DoS2Gather(s)) && Complete(DoS2Gather(s)) && Counters(DoS2Gather(s))
  {
    var s' := DoS2Gather(s);
    GatherLine(s);
    assert Batch(s'.s2) + s'.q2 == Batch(s.s2) + s.q2;
  }

  lemma GatherLine(s: State)
    requires CanS2Gather(s)
    ensures Line(DoS2Gather(s)) == Line(s) && Guarded(DoS2Gather(s)) == Guarded(s)
  {
    assert s.q2 == [s.q2[0]] + s.q2[1..];
  }

  lemma S2GatherKeeps(s: State)
    requires Inv(s) && CanS2Gather(s)
    ensures Inv(DoS2Gather(s))
  {
    var s' := DoS2Gather(s);
    BatchOpen(s);
    S2GatherShifts(s);
    ShiftFaithful(s, s');
    ShiftKeeps(s, s');
  }

  /** The page that would be sent back to the tail of Q2 is always complete. */
  lemma NeverRejects(s: State)
    requires Shape(s) && Complete(s)
    ensures !CanS2Reject(s)
  {
  }

  lemma S2EndCollectShifts(s: State)
    requires Shape(s) && Complete(s) && Counters(s) && CanS2EndCollect(s)
    ensures var s' := DoS2EndCollect(s); Shifts(s, s') && Shape(s') && Complete(s') && Counters(s')
  {
  }

  lemma S2EndCollectKeeps(s: State)
    requires Inv(s) && CanS2EndCollect(s)
    ensures Inv(DoS2EndCollect(s))
  {
    var s' := DoS2EndCollect(s);
    BatchOpen(s);
    S2EndCollectShifts(s);
    ShiftFaithful(s, s');
    ShiftKeeps(s, s');
  }

  // ---------------------------------------------------------------- device

  lemma S2IssueShifts(s: State, disk': Disk)
    requires Shape(s) && Complete(s) && Counters(s) && CanS2Issue(s, disk')
    ensures var s' := DoS2Issue(s, disk'); Shifts(s, s') && Shape(s') && Complete(s') && Counters(s')
  {
  }

  /** Stage-2 writes only where a live page covers the disk. */
  lemma BatchCovers(s: State, b: nat, i: nat)
    requires Shape(s) && Complete(s) && Flags(s) && s.s2.Writing? && i < ZONE
    requires s.s2.batch[0].base <= b < s.s2.batch[0].base + |s.s2.batch|
    ensures !Bare(s, b, i)
  {
    var r := s.s2.batch[b - s.s2.batch[0].base];
    assert r in Line(s) && r in Batch(s.s2) + s.q2;
    assert r.base == b && r.id !in s.freed && i in s.pages[r.id].cov;
  }

  /** Stage-2 never writes the zone Stage-1 is reading. */
  lemma ReadsApart(s: State)
    requires Shape(s) && Flags(s) && Ordered(Line(s)) && FreshRead(s) && s.s1.Reading? && s.s2.Writing?
    ensures forall k :: 0 <= k < |s.s2.batch| ==> s.s2.batch[k].base != s.s1.r.base
  {
    assert Line(s)[|Batch(s.s2) + s.q2|] == s.s1.r;
    forall k | 0 <= k < |s.s2.batch|
      ensures s.s2.batch[k].base != s.s1.r.base
    {
      assert s.s2.batch[k] in Line(s) && Line(s)[k] == s.s2.batch[k];
    }
  }

  /** A byte that lands belongs to the base of some page of the batch. */
  lemma LandedBase(s: State, disk': Disk, b: nat, i: nat) returns (k: nat)
    requires S2Shape(s) && s.s2.Writing? && LandedAt(s.pages, s.s2.batch, disk', b, i)
    ensures k < |s.s2.batch| && s.s2.batch[k].base == b
  {
    k := b - s.s2.batch[0].base;
    assert Batch(s.s2)[k].base == Batch(s.s2)[0].base + k;
  }

  lemma S2IssueFresh(s: State, disk': Disk)
    requires Shape(s) && Flags(s) && Ordered(Line(s)) && FreshRead(s) && CanS2Issue(s, disk')
    ensures FreshRead(DoS2Issue(s, disk'))
  {
    if s.s1.Reading? {
      ReadsApart(s);
      forall i: nat | i in s.s1.got && i < ZONE
        ensures DiskByte(disk', s.s1.r.base, i) == DiskByte(s.disk, s.s1.r.base, i)
      {
        if LandedAt(s.pages, s.s2.batch, disk', s.s1.r.base, i) {
          var k := LandedBase(s, disk', s.s1.r.base, i);
        }
      }
    }
  }

  lemma S2IssueContent(s: State, disk': Disk)
    requires Shape(s) && Complete(s) && Flags(s) && Ordered(Line(s)) && CanS2Issue(s, disk')
    requires PagesFaithful(s) && DiskFaithful(s) && Undisturbed(s) && FreshRead(s)
    ensures var s' := DoS2Issue(s, disk'); PagesFaithful(s') && DiskFaithful(s') && Undisturbed(s') && FreshRead(s')
  {
    var s' := DoS2Issue(s, disk');
    forall j: nat, i: nat | Shows(s', j, i) && |s'.pages[j].zone| == ZONE
      ensures s'.pages[j].zone[i] == Flat(s'.init, s'.log, s'.pages[j].base, i)
    {
      assert Shows(s, j, i);
    }
    forall b: nat, i: nat | i < ZONE && Bare(s', b, i)
      ensures DiskByte(s'.disk, b, i) == Flat(s'.init, s'.log, b, i)
    {
      assert Bare(s, b, i);
      if LandedAt(s.pages, s.s2.batch, disk', b, i) { BatchCovers(s, b, i); }
      assert DiskByte(disk', b, i) == DiskByte(s.disk, b, i);
    }
    S2IssueFresh(s, disk');
  }

  lemma S2IssueKeeps(s: State, disk': Disk)
    requires Inv(s) && CanS2Issue(s, disk')
    ensures Inv(DoS2Issue(s, disk'))
  {
    var s' := DoS2Issue(s, disk');
    BatchOpen(s);
    S2IssueShifts(s, disk');
    if !s.ioErr { S2IssueContent(s, disk'); }
    ShiftKeeps(s, s');
  }

  lemma S2LandedShifts(s: State)
    requires Shape(s) && Complete(s) && Counters(s) && CanS2Landed(s)
    ensures var s' := DoS2Landed(s); Shifts(s, s') && Shape(s') && Complete(s') && Counters(s')
  {
  }

  lemma S2LandedFaithful(s: State)
    requires Faithful(s) && CanS2Landed(s) && Shifts(s, DoS2Landed(s))
    ensures Faithful(DoS2Landed(s))
  {
  }

  lemma S2LandedKeeps(s: State)
    requires Inv(s) && CanS2Landed(s)
    ensures Inv(DoS2Landed(s))
  {
    var s' := DoS2Landed(s);
    BatchOpen(s);
    S2LandedShifts(s);
    S2LandedFaithful(s);
    ShiftKeeps(s, s');
  }

  lemma S2FailedShifts(s: State)
    requires Shape(s) && Complete(s) && Counters(s) && CanS2Failed(s)
    ensures var s' := DoS2Failed(s); Shifts(s, s') && Shape(s') && Complete(s') && Counters(s')
  {
  }

  lemma S2FailedKeeps(s: State)
    requires Inv(s) && CanS2Failed(s)
    ensures Inv(DoS2Failed(s))
  {
    BatchOpen(s);
    S2FailedShifts(s);
    ShiftKeeps(s, DoS2Failed(s));
  }

  // ------------------------------------------------------------------ leave

  lemma S2LeaveShifts(s: State)
    requires Shape(s) && Complete(s) && CanS2Leave(s)
    ensures Shifts(s, DoS2Leave(s)) && Shape(DoS2Leave(s)) && Complete(DoS2Leave(s))
  {
  }

  lemma S2LeaveCounts(s: State)
    requires Counters(s) && CanS2Leave(s)
    ensures Counters(DoS2Leave(s))
  {
    var s' := DoS2Leave(s);
    var head := s.s2.batch[0];
    assert |Line(s')| == |Line(s)|;
    assert Guarded(s) == [head] + Guarded(s') by {
      assert s.s2.batch == [head] + s.s2.batch[1..];
    }
    forall k | 0 <= k < WB_SLOTS
      ensures s'.wb[k] == SlotCount(Guarded(s'), k)
    {
      SlotCountConcat([head], Guarded(s'), k);
      SlotCountOne(head, k);
    }
  }

  lemma S2LeaveKeeps(s: State)
    requires Inv(s) && CanS2Leave(s)
    ensures Inv(DoS2Leave(s))
  {
    var s' := DoS2Leave(s);
    BatchOpen(s);
    S2LeaveShifts(s);
    S2LeaveCounts(s);
    ShiftFaithful(s, s');
    ShiftKeeps(s, s');
  }
}
