/** Which blocks Stage-1 reads for a list of holes: widened to block boundaries,
    neighbours that touch or overlap merged into one read. */
module HoleReads {
  import opened Geometry
  import opened Segments

  function RoundDown(at: nat): nat {
    at - at % BLOCK
  }

  function RoundUp(at: nat): nat {
    RoundDown(at + BLOCK - 1)
  }

  lemma WidenBounds(h: Seg)
    requires h.size > 0 && h.End() <= ZONE
    ensures RoundDown(h.off) <= h.off && h.End() <= RoundUp(h.End()) <= ZONE
    ensures RoundDown(h.off) % BLOCK == 0 && RoundUp(h.End()) % BLOCK == 0 && RoundDown(h.off) < RoundUp(h.End())
  {
  }

  /** Rounding down stays above every block boundary, and blocks do not overlap. */
  lemma RoundAbove(lo: nat, at: nat)
    requires lo % BLOCK == 0 && lo <= at
    ensures lo <= RoundDown(at) && (lo < RoundDown(at) ==> lo + BLOCK <= RoundDown(at))
  {
  }

  predicate InZone(holes: seq<Seg>) {
    forall k :: 0 <= k < |holes| ==> holes[k].size > 0 && holes[k].End() <= ZONE
  }

  /** The reads issued for the remaining holes, with the run [lo, hi) still open. */
  function RunsFrom(holes: seq<Seg>, lo: nat, hi: nat): seq<Seg>
    requires InZone(holes) && lo < hi
    decreases |holes|
  {
    if holes == [] then [Seg(lo, hi - lo)]
    else
      WidenBounds(holes[0]);
      var from, to := RoundDown(holes[0].off), RoundUp(holes[0].End());
      if from <= hi then RunsFrom(holes[1..], lo, if to > hi then to else hi)
      else [Seg(lo, hi - lo)] + RunsFrom(holes[1..], from, to)
  }

  function Plan(holes: seq<Seg>): seq<Seg>
    requires InZone(holes)
  {
    if holes == [] then []
    else
      WidenBounds(holes[0]);
      RunsFrom(holes[1..], RoundDown(holes[0].off), RoundUp(holes[0].End()))
  }

  /** The blocks a set of offsets touches. */
  function Blocks(offsets: set<nat>): set<nat> {
    set i | i in offsets :: i / BLOCK
  }

  predicate Aligned(e: Seg) {
    e.off % BLOCK == 0 && e.size % BLOCK == 0
  }

  lemma WidenIn(h: Seg, i: nat)
    requires h.size > 0 && h.End() <= ZONE && RoundDown(h.off) <= i < RoundUp(h.End())
    ensures i / BLOCK in Blocks(Span(h.off, h.size))
  {
    var j := if i < h.off then h.off else if i >= h.End() then h.End() - 1 else i;
    assert j in Span(h.off, h.size) && j / BLOCK == i / BLOCK;
  }

  lemma WidenOut(h: Seg, i: nat)
    requires h.size > 0 && h.End() <= ZONE && i / BLOCK in Blocks(Span(h.off, h.size))
    ensures RoundDown(h.off) <= i < RoundUp(h.End())
  {
  }

  /** The widened hole is exactly the blocks the hole touches. */
  lemma WidenExact(h: Seg, i: nat)
    requires h.size > 0 && h.End() <= ZONE
    ensures RoundDown(h.off) <= i < RoundUp(h.End()) <==> i / BLOCK in Blocks(Span(h.off, h.size))
  {
    if RoundDown(h.off) <= i < RoundUp(h.End()) { WidenIn(h, i); }
    if i / BLOCK in Blocks(Span(h.off, h.size)) { WidenOut(h, i); }
  }

  lemma BlocksUnion(a: set<nat>, b: set<nat>)
    ensures Blocks(a + b) == Blocks(a) + Blocks(b)
  {
  }

  // ------------------------------------------------------------ what is read

  lemma {:induction false} RunsCov(holes: seq<Seg>, lo: nat, hi: nat, i: nat)
    requires Canonical(holes, ZONE) && lo < hi && lo % BLOCK == 0 && forall k :: 0 <= k < |holes| ==> lo <= holes[k].off
    ensures i in Cov(RunsFrom(holes, lo, hi)) <==> lo <= i < hi || i / BLOCK in Blocks(Cov(holes))
    decreases |holes|
  {
    if holes == [] {
      CovCons(Seg(lo, hi - lo), [], i);
      assert Blocks({}) == {};
    } else {
      var h, rest := holes[0], holes[1..];
      HoleBlocks(holes, i);
      WidenBounds(h);
      CanonicalTail(holes, ZONE);
      var from, to := RoundDown(h.off), RoundUp(h.End());
      RoundAbove(lo, h.off);
      if from <= hi {
        RunsCov(rest, lo, if to > hi then to else hi, i);
      } else {
        RunsCov(rest, from, to, i);
        CovCons(Seg(lo, hi - lo), RunsFrom(rest, from, to), i);
      }
    }
  }

  lemma CovCons(e: Seg, es: seq<Seg>, i: nat)
    ensures i in Cov([e] + es) <==> e.off <= i < e.End() || i in Cov(es)
  {
  }

  /** A block is touched by the first hole, widened, or by one of the others. */
  lemma HoleBlocks(holes: seq<Seg>, i: nat)
    requires Canonical(holes, ZONE) && holes != []
    ensures i / BLOCK in Blocks(Cov(holes)) <==>
              RoundDown(holes[0].off) <= i < RoundUp(holes[0].End()) || i / BLOCK in Blocks(Cov(holes[1..]))
  {
    WidenExact(holes[0], i);
    BlocksUnion(Span(holes[0].off, holes[0].size), Cov(holes[1..]));
  }

  /** The reads cover exactly the blocks that hold a byte of some hole. */
  lemma PlanCov(holes: seq<Seg>, i: nat)
    requires Canonical(holes, ZONE)
    ensures i in Cov(Plan(holes)) <==> i / BLOCK in Blocks(Cov(holes))
  {
    if holes == [] {
      assert Blocks({}) == {};
    } else {
      var h, rest := holes[0], holes[1..];
      HoleBlocks(holes, i);
      WidenBounds(h);
      CanonicalTail(holes, ZONE);
      RunsCov(rest, RoundDown(h.off), RoundUp(h.End()), i);
    }
  }

  // ----------------------------------------------------------------- its shape

  /** Aligned reads, in order, at least one whole block apart. */
  ghost predicate Separated(runs: seq<Seg>, floor: int) {
    && (forall k :: 0 <= k < |runs| ==> Aligned(runs[k]) && runs[k].size > 0 && runs[k].End() <= ZONE && floor <= runs[k].off)
    && (forall j, k :: 0 <= j < k < |runs| ==> runs[j].End() + BLOCK <= runs[k].off)
  }

  lemma FirstSeparated(e: Seg, runs: seq<Seg>, floor: nat)
    requires Separated(runs, floor) && Aligned(e) && e.size > 0 && e.End() + BLOCK <= floor <= ZONE
    ensures Separated([e] + runs, e.off)
  {
  }

  lemma {:induction false} RunsShape(holes: seq<Seg>, lo: nat, hi: nat)
    requires Canonical(holes, ZONE) && lo < hi <= ZONE && lo % BLOCK == 0 && hi % BLOCK == 0
    requires forall k :: 0 <= k < |holes| ==> lo <= holes[k].off
    ensures Separated(RunsFrom(holes, lo, hi), lo)
    decreases |holes|
  {
    if holes != [] {
      var h, rest := holes[0], holes[1..];
      WidenBounds(h);
      CanonicalTail(holes, ZONE);
      var from, to := RoundDown(h.off), RoundUp(h.End());
      if from <= hi {
        RunsShape(rest, lo, if to > hi then to else hi);
      } else {
        RunsShape(rest, from, to);
        RoundAbove(hi, h.off);
        FirstSeparated(Seg(lo, hi - lo), RunsFrom(rest, from, to), from);
      }
    }
  }

  lemma PlanShape(holes: seq<Seg>)
    requires Canonical(holes, ZONE)
    ensures Separated(Plan(holes), 0)
  {
    if holes != [] {
      WidenBounds(holes[0]);
      CanonicalTail(holes, ZONE);
      RunsShape(holes[1..], RoundDown(holes[0].off), RoundUp(holes[0].End()));
    }
  }

  lemma {:induction false} SeparatedRoom(runs: seq<Seg>)
    requires Separated(runs, 0) && runs != []
    ensures TotalSize(runs) + (|runs| - 1) * BLOCK <= runs[|runs| - 1].End() - runs[0].off
    ensures TotalSize(runs) >= |runs| * BLOCK
    decreases |runs|
  {
    if |runs| == 1 {
      assert runs[1..] == [];
    } else {
      var rest := runs[1..];
      SeparatedRoom(rest);
      assert rest[|rest| - 1] == runs[|runs| - 1] && rest[0] == runs[1];
    }
  }

  /** At most the zone is read in all, in at most half as many reads as the zone
      has blocks: 32, where 64 are documented. */
  lemma PlanBounds(holes: seq<Seg>)
    requires Canonical(holes, ZONE)
    ensures TotalSize(Plan(holes)) <= 262144 == ZONE && |Plan(holes)| <= 32 == ZONE / BLOCK / 2
  {
    PlanShape(holes);
    if Plan(holes) != [] { SeparatedRoom(Plan(holes)); }
  }

  /** Every hole is read, so the plan is one the engine's step system admits. */
  lemma PlanAdmissible(holes: seq<Seg>)
    requires Canonical(holes, ZONE)
    ensures Cov(holes) <= Cov(Plan(holes)) && InOrder(Plan(holes)) && |Plan(holes)| <= ZONE / BLOCK / 2
  {
    PlanShape(holes);
    PlanBounds(holes);
    forall i | i in Cov(holes)
      ensures i in Cov(Plan(holes))
    {
      PlanCov(holes, i);
    }
  }

  /** No block is read twice. */
  lemma NoBlockTwice(holes: seq<Seg>, j: nat, k: nat, x: nat, y: nat)
    requires Canonical(holes, ZONE) && j < |Plan(holes)| && k < |Plan(holes)| && j != k
    requires Plan(holes)[j].off <= x < Plan(holes)[j].End() && Plan(holes)[k].off <= y < Plan(holes)[k].End()
    ensures x / BLOCK != y / BLOCK
  {
    PlanShape(holes);
  }
}
