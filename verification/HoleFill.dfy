/** scrap_page_read_holes and what it means for a page that is written to while
    Stage-1 reads without holding its lock. */
module HoleFill {
  import opened Geometry
  import opened Segments
  import opened Zones
  import opened HoleReads
  import opened ScrapPage

  /** read_run: one pread of [off, end) of the zone at file offset `start`. A short
      read means the end of the file; the rest stays zero. */
  method ReadRun(file: seq<byte>, start: nat, dst: array<byte>, off: nat, end: nat)
    requires dst.Length == ZONE && off <= end <= ZONE
    modifies dst
    ensures forall i :: 0 <= i < ZONE ==> dst[i] == if off <= i < end then FileByte(file, start + i) else old(dst[i])
  {
    var i := off;
    while i < end
      invariant off <= i <= end
      invariant forall k :: 0 <= k < ZONE ==> dst[k] == if off <= k < i then 0 else old(dst[k])
    {
      dst[i] := 0;
      i := i + 1;
    }
    i := off;
    while i < end && start + i < |file|
      invariant off <= i <= end
      invariant forall k :: 0 <= k < ZONE ==>
                  dst[k] == if off <= k < i then FileByte(file, start + k) else if i <= k < end then 0 else old(dst[k])
    {
      dst[i] := file[start + i];
      i := i + 1;
    }
  }

  /** What has been read is what the file holds. */
  ghost predicate Holds(scratch: seq<byte>, offsets: set<nat>, file: seq<byte>, start: nat) {
    forall i :: i in offsets && i < |scratch| ==> scratch[i] == FileByte(file, start + i)
  }

  ghost predicate Served(fails: nat -> bool, n: nat) {
    forall j: nat :: j < n ==> !fails(j)
  }

  /** The preads so far: their bytes are in the scratch zone, none failed, all counted. */
  ghost predicate Fetched(scratch: seq<byte>, issued: seq<Seg>, asked: nat, file: seq<byte>, start: nat, fails: nat -> bool) {
    Holds(scratch, Cov(issued), file, start) && asked == TotalSize(issued) && Served(fails, |issued|)
  }

  /** Issue the open run, unless the device reports an error. */
  method Issue(file: seq<byte>, start: nat, scratch: array<byte>, off: nat, end: nat,
               issued: seq<Seg>, asked: nat, fails: nat -> bool)
    returns (ok: bool, issued': seq<Seg>, asked': nat)
    requires scratch.Length == ZONE && off <= end <= ZONE
    requires Fetched(scratch[..], issued, asked, file, start, fails)
    modifies scratch
    ensures ok <==> !fails(|issued|)
    ensures issued' == if ok then issued + [Seg(off, end - off)] else issued
    ensures Fetched(scratch[..], issued', asked', file, start, fails)
  {
    if fails(|issued|) {
      return false, issued, asked;
    }
    ReadRun(file, start, scratch, off, end);
    CovAppend(issued, Seg(off, end - off));
    TotalSizeAppend(issued, Seg(off, end - off));
    ok, issued', asked' := true, issued + [Seg(off, end - off)], asked + (end - off);
  }

  /** The reads still to come at hole k: with a run open, and before the first one. */
  ghost function Remaining(holes: seq<Seg>, k: nat, haveRun: bool, off: nat, end: nat): seq<Seg>
    requires InZone(holes) && k <= |holes| && (haveRun ==> off < end)
  {
    if haveRun then RunsFrom(holes[k..], off, end) else Plan(holes[k..])
  }

  lemma RemainingStep(holes: seq<Seg>, k: nat, haveRun: bool, off: nat, end: nat)
    requires InZone(holes) && k < |holes| && (haveRun ==> off < end)
    ensures var from, to := RoundDown(holes[k].off), RoundUp(holes[k].End());
            from < to <= ZONE &&
            Remaining(holes, k, haveRun, off, end) ==
            if !haveRun then Remaining(holes, k + 1, true, from, to)
            else if from <= end then Remaining(holes, k + 1, true, off, if to > end then to else end)
            else [Seg(off, end - off)] + Remaining(holes, k + 1, true, from, to)
  {
  }

  lemma RemainingEnd(holes: seq<Seg>, haveRun: bool, off: nat, end: nat)
    requires InZone(holes) && (haveRun ==> off < end)
    ensures Remaining(holes, |holes|, haveRun, off, end) == if haveRun then [Seg(off, end - off)] else []
  {
  }

  /** The planned reads bring in every hole, within the bounds the source states. */
  lemma PlanServes(holes: seq<Seg>, scratch: seq<byte>, file: seq<byte>, start: nat)
    requires Canonical(holes, ZONE) && Holds(scratch, Cov(Plan(holes)), file, start)
    ensures Holds(scratch, Cov(holes), file, start)
    ensures TotalSize(Plan(holes)) <= ZONE && |Plan(holes)| <= ZONE / BLOCK / 2
  {
    PlanAdmissible(holes);
    PlanBounds(holes);
  }

  lemma OneMore(done: seq<Seg>, e: Seg, rest: seq<Seg>)
    ensures done + ([e] + rest) == (done + [e]) + rest && done < done + ([e] + rest)
  {
  }

  /** One hole of the loop: extend the open run, or issue it and open the next. */
  method NextHole(file: seq<byte>, start: nat, holes: seq<Seg>, i: nat, scratch: array<byte>, fails: nat -> bool,
                  haveRun: bool, runOff: nat, runEnd: nat, issued: seq<Seg>, asked: nat)
    returns (ok: bool, runOff': nat, runEnd': nat, issued': seq<Seg>, asked': nat)
    requires scratch.Length == ZONE && InZone(holes) && i < |holes| && (haveRun ==> runOff < runEnd <= ZONE)
    requires Plan(holes) == issued + Remaining(holes, i, haveRun, runOff, runEnd)
    requires Fetched(scratch[..], issued, asked, file, start, fails)
    modifies scratch
    ensures Fetched(scratch[..], issued', asked', file, start, fails)
    ensures ok ==> runOff' < runEnd' <= ZONE && Plan(holes) == issued' + Remaining(holes, i + 1, true, runOff', runEnd')
    ensures !ok ==> issued' < Plan(holes) && fails(|issued'|)
  {
    RemainingStep(holes, i, haveRun, runOff, runEnd);
    var from, to := RoundDown(holes[i].off), Min(RoundUp(holes[i].End()), ZONE);
    ok, runOff', runEnd', issued', asked' := true, runOff, runEnd, issued, asked;
    if haveRun && from <= runEnd {
      if to > runEnd { runEnd' := to; }
      return;
    }
    if haveRun {
      OneMore(issued, Seg(runOff, runEnd - runOff), Remaining(holes, i + 1, true, from, to));
      ok, issued', asked' := Issue(file, start, scratch, runOff, runEnd, issued, asked, fails);
    }
    runOff', runEnd' := from, to;
  }

  /** scrap_page_read_holes: one pread per run. `fails(j)` says whether the j-th
      pread reports an error; `issued` lists the preads that succeeded. */
  method ReadRuns(file: seq<byte>, start: nat, holes: seq<Seg>, scratch: array<byte>, fails: nat -> bool)
    returns (ok: bool, issued: seq<Seg>, asked: nat)
    requires scratch.Length == ZONE && InZone(holes)
    modifies scratch
    ensures Fetched(scratch[..], issued, asked, file, start, fails)
    ensures if ok then issued == Plan(holes) else issued < Plan(holes) && fails(|issued|)
  {
    issued, asked := [], 0;
    var runOff: nat, runEnd: nat, i := 0, 0, 0;
    while i < |holes|
      invariant i <= |holes| && (i > 0 ==> runOff < runEnd <= ZONE)
      invariant Plan(holes) == issued + Remaining(holes, i, i > 0, runOff, runEnd)
      invariant Fetched(scratch[..], issued, asked, file, start, fails)
    {
      ok, runOff, runEnd, issued, asked :=
        NextHole(file, start, holes, i, scratch, fails, i > 0, runOff, runEnd, issued, asked);
      if !ok {
        return;
      }
      i := i + 1;
    }
    RemainingEnd(holes, i > 0, runOff, runEnd);
    ok := true;
    if i > 0 {
      OneMore(issued, Seg(runOff, runEnd - runOff), []);
      ok, issued, asked := Issue(file, start, scratch, runOff, runEnd, issued, asked, fails);
    }
  }

  /** On success every hole is in the scratch zone, and the device was asked for at
      most one zone's bytes in at most 32 reads. */
  method ReadHoles(file: seq<byte>, start: nat, holes: seq<Seg>, scratch: array<byte>, fails: nat -> bool)
    returns (ok: bool, issued: seq<Seg>, asked: nat)
    requires scratch.Length == ZONE && Canonical(holes, ZONE)
    modifies scratch
    ensures if ok then issued == Plan(holes) else issued < Plan(holes) && fails(|issued|)
    ensures Fetched(scratch[..], issued, asked, file, start, fails)
    ensures ok ==> Holds(scratch[..], Cov(holes), file, start) && asked <= ZONE && |issued| <= ZONE / BLOCK / 2
  {
    ok, issued, asked := ReadRuns(file, start, holes, scratch, fails);
    if ok {
      PlanServes(holes, scratch[..], file, start);
    }
  }

  /** The holes of a page are exactly what it does not cover. */
  lemma HolesOf(es: seq<Seg>)
    requires Canonical(es, ZONE)
    ensures var holes := HolesFrom(es, 0, ZONE);
            Canonical(holes, ZONE) && |holes| <= |es| + 1 && Cov(holes) == FullZone() - Cov(es) &&
            (holes == [] ==> Cov(es) == FullZone())
  {
    HolesComplement(es, ZONE);
    CanonicalCounts(es, ZONE);
    assert HolesFrom(es, 0, ZONE) == [] ==> FullZone() - Cov(es) == {};
  }

  /** The preads that complete a page with these entries. */
  ghost function ReadsFor(es: seq<Seg>): seq<Seg>
    requires Canonical(es, ZONE)
  {
    HolesOf(es);
    Plan(HolesFrom(es, 0, ZONE))
  }

  /** A page is complete over a file: user bytes where there are any, the file's elsewhere. */
  ghost predicate CompleteOver(zone: seq<byte>, before: seq<byte>, cov: set<nat>, file: seq<byte>, start: nat)
    requires |zone| == |before| == ZONE
  {
    forall i :: 0 <= i < ZONE ==> zone[i] == if i in cov then before[i] else FileByte(file, start + i)
  }

  lemma CompletedOver(before: seq<byte>, cov: set<nat>, scratch: seq<byte>, file: seq<byte>, start: nat)
    requires |before| == |scratch| == ZONE && Holds(scratch, FullZone() - cov, file, start)
    ensures CompleteOver(Completed(before, cov, scratch), before, cov, file, start)
  {
  }

  /** scrap_page_fill_holes: on success the page holds the user's bytes where there
      are any and the file's bytes everywhere else; on failure it is unchanged. */
  method FillHoles(p: Page, file: seq<byte>, start: nat, fails: nat -> bool) returns (ok: bool)
    requires p.Valid()
    modifies p.hdr, p.hdr.entries, p.data
    ensures p.Valid()
    ensures ok <==> Served(fails, |old(ReadsFor(p.hdr.Segs()))|)
    ensures !ok ==> p.Covered() == old(p.Covered()) && p.data[..] == old(p.data[..])
    ensures ok ==> p.Covered() == FullZone() && CompleteOver(p.data[..], old(p.data[..]), old(p.Covered()), file, start)
  {
    var max := p.hdr.entries.Length + 1;
    var out := new Seg[max](_ => Seg(0, 0));
    HolesOf(p.hdr.Segs());
    var nh := p.HoleRanges(out, max);
    var holes := out[..nh];
    assert holes == HolesFrom(p.hdr.Segs(), 0, ZONE);
    if nh == 0 {
      return true;
    }
    var scratch := new byte[ZONE];
    var issued, asked;
    ok, issued, asked := ReadHoles(file, start, holes, scratch, fails);
    if ok {
      CompletedOver(p.data[..], p.Covered(), scratch[..], file, start);
      p.ApplyHoles(scratch);
    }
  }

  // ------------------------------------------------------ unlocked hole fill

  /** A merge: bytes at an offset of the zone. */
  datatype Chunk = Chunk(at: nat, bytes: seq<byte>)

  function MergedCov(cov: set<nat>, cs: seq<Chunk>): set<nat>
    decreases |cs|
  {
    if cs == [] then cov else MergedCov(cov + Span(cs[0].at, |cs[0].bytes|), cs[1..])
  }

  function MergedZone(zone: seq<byte>, cs: seq<Chunk>): (r: seq<byte>)
    requires |zone| == ZONE
    ensures |r| == ZONE
    decreases |cs|
  {
    if cs == [] then zone else MergedZone(Patch(zone, cs[0].at, cs[0].bytes), cs[1..])
  }

  /** The byte the last merge over offset i wrote there, if any did. */
  datatype Latest = Nothing | Byte(value: byte)

  function LatestAt(cs: seq<Chunk>, i: nat): Latest {
    if cs == [] then Nothing
    else
      var last := cs[|cs| - 1];
      if last.at <= i < last.at + |last.bytes| then Byte(last.bytes[i - last.at]) else LatestAt(cs[..|cs| - 1], i)
  }

  lemma {:induction false} MergedLast(zone: seq<byte>, cov: set<nat>, cs: seq<Chunk>, c: Chunk)
    requires |zone| == ZONE
    ensures MergedZone(zone, cs + [c]) == Patch(MergedZone(zone, cs), c.at, c.bytes)
    ensures MergedCov(cov, cs + [c]) == MergedCov(cov, cs) + Span(c.at, |c.bytes|)
    decreases |cs|
  {
    if cs == [] {
      assert ([] + [c])[1..] == [];
    } else {
      assert (cs + [c])[1..] == cs[1..] + [c];
      MergedLast(Patch(zone, cs[0].at, cs[0].bytes), cov + Span(cs[0].at, |cs[0].bytes|), cs[1..], c);
    }
  }

  lemma {:induction false} MergedAt(zone: seq<byte>, cov: set<nat>, cs: seq<Chunk>, i: nat)
    requires |zone| == ZONE && i < ZONE
    ensures MergedZone(zone, cs)[i] == if LatestAt(cs, i).Byte? then LatestAt(cs, i).value else zone[i]
    ensures i in MergedCov(cov, cs) <==> i in cov || LatestAt(cs, i).Byte?
    decreases |cs|
  {
    if cs != [] {
      var front, c := cs[..|cs| - 1], cs[|cs| - 1];
      assert cs == front + [c];
      MergedLast(zone, cov, front, c);
      MergedAt(zone, cov, front, i);
    }
  }

  /** Unlocked hole fill. Stage-1 snapshots the holes, reads them without the lock
      while any merges land, then completes the page under the lock: the result
      holds the latest user byte wherever one was written, before or during the
      read, and the file's byte, zero past its end, everywhere else. */
  lemma UnlockedFill(zone: seq<byte>, cov: set<nat>, during: seq<Chunk>, scratch: seq<byte>, file: seq<byte>,
                     start: nat, i: nat)
    requires |zone| == |scratch| == ZONE && i < ZONE
    requires Holds(scratch, FullZone() - cov, file, start)
    ensures Completed(MergedZone(zone, during), MergedCov(cov, during), scratch)[i] ==
            (if LatestAt(during, i).Byte? then LatestAt(during, i).value
             else if i in cov then zone[i] else FileByte(file, start + i))
  {
    MergedAt(zone, cov, during, i);
  }
}
