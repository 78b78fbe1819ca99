/** The file behind the step system: system calls on a byte sequence are the disk
    changes the steps allow. */
module EngineDevice {
  import opened Geometry
  import opened Segments
  import opened Zones
  import opened HoleReads
  import opened Engine
  import opened EngineSafety
  import opened IoDirect

  /** The file holds what the disk holds, zero past its end. */
  ghost predicate Stores(file: seq<byte>, disk: Disk) {
    forall base: nat, i: nat {:trigger DiskByte(disk, base, i)} :: i < ZONE ==>
      DiskByte(disk, base, i) == FileByte(file, base * ZONE + i)
  }

  /** The data zones of a batch, as stage2_loop puts them into its iovecs. */
  function ZonesOf(pages: seq<Page>, batch: seq<Ref>): seq<seq<byte>>
    requires forall k :: 0 <= k < |batch| ==> batch[k].id < |pages|
  {
    seq(|batch|, k requires 0 <= k < |batch| => pages[batch[k].id].zone)
  }

  ghost predicate WholeZones(iov: seq<seq<byte>>) {
    forall k :: 0 <= k < |iov| ==> |iov[k]| == ZONE
  }

  /** Byte i of zone k is where the gathered buffer has it. */
  lemma {:induction false} GatheredZone(iov: seq<seq<byte>>, k: nat, i: nat)
    requires WholeZones(iov) && k < |iov| && i < ZONE
    ensures |Gathered(iov)| == |iov| * ZONE && Gathered(iov)[k * ZONE + i] == iov[k][i]
    decreases |iov|
  {
    var tail := iov[1..];
    assert |iov[0]| == ZONE && Gathered(iov) == iov[0] + Gathered(tail);
    assert forall m :: 0 <= m < |tail| ==> tail[m] == iov[m + 1];
    if tail != [] {
      GatheredZone(tail, if k > 0 then k - 1 else 0, i);
    }
  }

  /** The batch the step system writes: consecutive bases, complete zones. */
  ghost predicate BatchOf(pages: seq<Page>, batch: seq<Ref>) {
    && batch != []
    && forall k :: 0 <= k < |batch| ==>
         batch[k].id < |pages| && |pages[batch[k].id].zone| == ZONE && batch[k].base == batch[0].base + k
  }

  /** One pwritev of the batch, from any buffer on and however short, is a step the step
      system allows. */
  lemma CallLands(file: seq<byte>, file': seq<byte>, disk: Disk, disk': Disk, pages: seq<Page>, batch: seq<Ref>,
                  from: nat, to: nat)
    requires BatchOf(pages, batch) && Stores(file, disk) && Stores(file', disk')
    requires from <= to <= |Gathered(ZonesOf(pages, batch))|
    requires file' == WriteAt(file, batch[0].base * ZONE + from, Gathered(ZonesOf(pages, batch))[from..to])
    ensures Lands(pages, batch, disk, disk')
  {
    forall base: nat, i: nat | i < ZONE
      ensures DiskByte(disk', base, i) == DiskByte(disk, base, i) || LandedAt(pages, batch, disk', base, i)
    {
      LandsByte(file, file', disk, disk', pages, batch, from, to, base, i);
    }
  }

  lemma LandsByte(file: seq<byte>, file': seq<byte>, disk: Disk, disk': Disk, pages: seq<Page>, batch: seq<Ref>,
                  from: nat, to: nat, base: nat, i: nat)
    requires BatchOf(pages, batch) && Stores(file, disk) && Stores(file', disk') && i < ZONE
    requires from <= to <= |Gathered(ZonesOf(pages, batch))|
    requires file' == WriteAt(file, batch[0].base * ZONE + from, Gathered(ZonesOf(pages, batch))[from..to])
    ensures DiskByte(disk', base, i) ==
            if batch[0].base * ZONE + from <= base * ZONE + i < batch[0].base * ZONE + to
            then Gathered(ZonesOf(pages, batch))[(base - batch[0].base) * ZONE + i] else DiskByte(disk, base, i)
    ensures DiskByte(disk', base, i) == DiskByte(disk, base, i) || LandedAt(pages, batch, disk', base, i)
  {
    var iov, first := ZonesOf(pages, batch), batch[0].base;
    assert FileByte(file', base * ZONE + i) == DiskByte(disk', base, i);
    GatheredZone(iov, 0, i);
    if first * ZONE + from <= base * ZONE + i < first * ZONE + to {
      var k := base - first;
      GatheredZone(iov, k, i);
      assert Gathered(iov)[from..to][k * ZONE + i - from] == Gathered(iov)[k * ZONE + i];
    }
  }

  /** What io_direct_pwritev_all leaves on success is a batch that has landed. */
  lemma DoneIsLanded(file: seq<byte>, file': seq<byte>, disk: Disk, disk': Disk, pages: seq<Page>, batch: seq<Ref>)
    requires BatchOf(pages, batch) && Stores(file, disk) && Stores(file', disk')
    requires file' == WriteAt(file, batch[0].base * ZONE, Gathered(ZonesOf(pages, batch)))
    ensures AllLanded(pages, batch, disk')
  {
    var iov := ZonesOf(pages, batch);
    assert Gathered(iov) == Gathered(iov)[0..|Gathered(iov)|];
    forall k: nat, i: nat | k < |batch| && i < ZONE
      ensures DiskByte(disk', batch[k].base, i) == pages[batch[k].id].zone[i]
    {
      GatheredZone(iov, k, i);
      LandsByte(file, file', disk, disk', pages, batch, 0, |Gathered(iov)|, batch[k].base, i);
    }
  }

  /** The single pwrite of the direct path is the step's change of the disk. */
  lemma DirectIsAfter(file: seq<byte>, disk: Disk, disk': Disk, w: Write)
    requires Stores(file, disk) && Stores(WriteAt(file, w.off, w.bytes), disk')
    ensures DiskAfter(disk, w, disk')
  {
    forall base: nat, i: nat | i < ZONE
      ensures DiskByte(disk', base, i) == if Hits(w, base, i) then w.bytes[base * ZONE + i - w.off] else DiskByte(disk, base, i)
    {
      assert FileByte(WriteAt(file, w.off, w.bytes), base * ZONE + i) == DiskByte(disk', base, i);
      assert DiskByte(disk, base, i) == FileByte(file, base * ZONE + i);
    }
  }

  /** What read_run leaves in the scratch zone is what the step leaves there. */
  lemma ReadRunIsRead(s: State, file: seq<byte>, scratch: seq<byte>)
    requires CanS1Read(s) && Stores(file, s.disk) && |scratch| == ZONE
    requires var run := s.s1.todo[0];
             forall i :: 0 <= i < ZONE ==>
               scratch[i] == if run.off <= i < run.End() then FileByte(file, s.s1.r.base * ZONE + i) else s.s1.scratch[i]
    ensures DoS1Read(s).s1.scratch == scratch
  {
    forall i: nat | i < ZONE
      ensures DoS1Read(s).s1.scratch[i] == scratch[i]
    {
      assert DiskByte(s.disk, s.s1.r.base, i) == FileByte(file, s.s1.r.base * ZONE + i);
    }
  }

  // ------------------------------------------------- every answer is a step

  /** In every run, a pwritev within the five calls per page, from any buffer on and
      however short, is a step. */
  lemma CallIsStep(s: State, file: seq<byte>, file': seq<byte>, disk': Disk, from: nat, to: nat)
    requires Reached(s) && s.s2.Writing? && s.s2.calls < 5 * |s.s2.batch|
    requires BatchOf(s.pages, s.s2.batch) && Stores(file, s.disk) && Stores(file', disk')
    requires from <= to <= |Gathered(ZonesOf(s.pages, s.s2.batch))|
    requires file' == WriteAt(file, s.s2.batch[0].base * ZONE + from, Gathered(ZonesOf(s.pages, s.s2.batch))[from..to])
    ensures Enabled(s, Second(S2Issue(disk')))
  {
    CallLands(file, file', s.disk, disk', s.pages, s.s2.batch, from, to);
  }

  lemma BatchKept(s: State)
    requires Reached(s) && s.s2.Writing?
    ensures BatchOf(s.pages, s.s2.batch)
  {
    ReachedInv(s);
    assert forall k :: 0 <= k < |s.s2.batch| ==> s.s2.batch[k] in Line(s) && Batch(s.s2)[k] == s.s2.batch[k];
  }

  /** In every run, a gathered write may fail at any call and a read at any pread: the
      step system excludes no failure. */
  lemma FailuresAreSteps(s: State)
    requires Reached(s)
    ensures s.s2.Writing? ==> Enabled(s, Second(S2Failed))
    ensures s.s1.Reading? && s.s1.todo != [] && PageFree(s, s.s1.r.id) ==> Enabled(s, First(S1Fail))
  {
    ReachedInv(s);
    if s.s1.Reading? { assert s.s1.r in Line(s); }
  }

  /** The plan scrap_page_read_holes makes for the page Stage-1 snapshots is one the guard
      step takes. */
  lemma {:induction false} SnapshotPlan(s: State, es: seq<Seg>, stale: seq<byte>)
    requires CanS1Snapshot(s) && Canonical(es, ZONE) && Cov(es) == s.pages[s.s1.r.id].cov
    requires |s.wb| == WB_SLOTS && s.wb[WbSlot(s.s1.r.base)] == 0 && |stale| == ZONE
    ensures Canonical(HolesFrom(es, 0, ZONE), ZONE) && CanS1Guard(DoS1Snapshot(s), Plan(HolesFrom(es, 0, ZONE)), stale)
    ensures DoS1Snapshot(s).s1.holes == Cov(HolesFrom(es, 0, ZONE))
  {
    HolesComplement(es, ZONE);
    PlanAdmissible(HolesFrom(es, 0, ZONE));
  }
}
