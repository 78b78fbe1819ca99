/** Segment lists of a scrap page header and the byte sets they stand for. */
module Segments {
  import opened Geometry

  /** One header entry: a valid data segment inside the data zone. */
  datatype Seg = Seg(off: nat, size: nat) {
    function End(): nat {
      off + size
    }
  }

  /** The offsets a list of segments covers. */
  function Cov(es: seq<Seg>): set<nat> {
    if es == [] then {} else Span(es[0].off, es[0].size) + Cov(es[1..])
  }

  /** Last offset of each maximal run of covered offsets. */
  function RunEnds(cov: set<nat>): set<nat> {
    set i {:trigger Offset(i)} | i in cov && i + 1 !in cov
  }

  /** How many separate segments a set of offsets needs. */
  function RunCount(cov: set<nat>): nat {
    |RunEnds(cov)|
  }

  lemma OneRun(at: nat, size: nat)
    requires size > 0
    ensures RunCount(Span(at, size)) == 1
  {
    assert RunEnds(Span(at, size)) == {at + size - 1};
  }

  // --------------------------------------------------------- canonical lists

  /** Sorted, disjoint, not even touching, inside [0, limit). */
  ghost predicate Canonical(es: seq<Seg>, limit: nat) {
    && (forall k :: 0 <= k < |es| ==> es[k].size > 0 && es[k].End() <= limit)
    && (forall j, k :: 0 <= j < k < |es| ==> es[j].End() < es[k].off)
  }

  /** Runs in order that do not overlap. */
  predicate InOrder(es: seq<Seg>) {
    forall j, k :: 0 <= j < k < |es| ==> es[j].End() <= es[k].off
  }

  function TotalSize(es: seq<Seg>): nat {
    if es == [] then 0 else es[0].size + TotalSize(es[1..])
  }

  lemma {:induction false} CovAt(es: seq<Seg>, i: nat)
    ensures i in Cov(es) <==> exists k :: 0 <= k < |es| && es[k].off <= i < es[k].End()
  {
    if es != [] {
      CovAt(es[1..], i);
      if i in Cov(es[1..]) {
        var k :| 0 <= k < |es[1..]| && es[1..][k].off <= i < es[1..][k].End();
        assert es[k + 1] == es[1..][k];
      }
      if k :| 0 <= k < |es| && es[k].off <= i < es[k].End() {
        if k > 0 { assert es[1..][k - 1] == es[k]; }
      }
    }
  }

  lemma {:induction false} CovAppend(es: seq<Seg>, e: Seg)
    ensures Cov(es + [e]) == Cov(es) + Span(e.off, e.size)
  {
    if es == [] {
      assert (es + [e])[1..] == [];
    } else {
      assert (es + [e])[1..] == es[1..] + [e];
      CovAppend(es[1..], e);
    }
  }

  lemma CanonicalTail(es: seq<Seg>, limit: nat)
    requires Canonical(es, limit) && es != []
    ensures Canonical(es[1..], limit)
    ensures forall i :: i in Cov(es[1..]) ==> es[0].End() < i < limit
  {
    forall i | i in Cov(es[1..])
      ensures es[0].End() < i < limit
    {
      CovAt(es[1..], i);
    }
  }

  lemma SpanSize(at: nat, size: nat)
    ensures |Span(at, size)| == size
    decreases size
  {
    if size > 0 {
      SpanSize(at, size - 1);
      assert Span(at, size) == Span(at, size - 1) + {at + size - 1};
    } else {
      assert Span(at, size) == {};
    }
  }

  lemma {:induction false} SubsetSize(a: set<nat>, b: set<nat>)
    requires a <= b
    ensures |a| <= |b|
  {
    if a != {} {
      var x :| x in a;
      SubsetSize(a - {x}, b - {x});
    }
  }

  lemma RunEndsHead(at: nat, size: nat, tail: set<nat>)
    requires size > 0 && forall i :: i in tail ==> at + size < i
    ensures RunCount(Span(at, size) + tail) == 1 + RunCount(tail)
    ensures |Span(at, size) + tail| == size + |tail|
  {
    var head := Span(at, size);
    SpanSize(at, size);
    assert head !! tail;
    assert RunEnds(head + tail) == {at + size - 1} + RunEnds(tail);
  }

  /** The header's `counter` and `number`, read off the covered set alone. */
  lemma {:induction false} CanonicalCounts(es: seq<Seg>, limit: nat)
    requires Canonical(es, limit)
    ensures |es| == RunCount(Cov(es)) && TotalSize(es) == |Cov(es)| && Cov(es) <= Span(0, limit)
  {
    if es == [] {
      assert RunEnds({}) == {};
    } else {
      CanonicalTail(es, limit);
      CanonicalCounts(es[1..], limit);
      RunEndsHead(es[0].off, es[0].size, Cov(es[1..]));
    }
  }

  /** A canonical list is determined by what it covers. */
  lemma {:induction false} CanonicalUnique(a: seq<Seg>, b: seq<Seg>, limit: nat)
    requires Canonical(a, limit) && Canonical(b, limit) && Cov(a) == Cov(b)
    ensures a == b
  {
    if a != [] { assert a[0].off in Cov(a); }
    if b != [] { assert b[0].off in Cov(b); }
    if a != [] && b != [] {
      CanonicalTail(a, limit);
      CanonicalTail(b, limit);
      HeadsAgree(a, b, limit);
      forall i
        ensures i in Cov(a[1..]) <==> i in Cov(b[1..])
      {
        assert i in Cov(a) <==> i in Cov(b);
      }
      assert Cov(a[1..]) == Cov(b[1..]);
      CanonicalUnique(a[1..], b[1..], limit);
    }
  }

  lemma HeadsAgree(a: seq<Seg>, b: seq<Seg>, limit: nat)
    requires Canonical(a, limit) && Canonical(b, limit) && a != [] && b != [] && Cov(a) == Cov(b)
    ensures a[0] == b[0]
  {
    CanonicalTail(a, limit);
    CanonicalTail(b, limit);
    assert a[0].off in Cov(a) && b[0].off in Cov(b);
    assert a[0].off in Cov(b) && b[0].off in Cov(a);
    assert a[0].End() - 1 in Cov(a) && b[0].End() - 1 in Cov(b);
    assert a[0].End() !in Cov(a) && b[0].End() !in Cov(b);
    assert b[0].End() - 1 in Cov(a) && a[0].End() - 1 in Cov(b);
  }

  // ------------------------------------------------------------- coalescing

  /** The list with [lo, hi) inserted and everything it overlaps or touches merged. */
  function Insert(es: seq<Seg>, lo: nat, hi: nat): seq<Seg>
    requires lo < hi
  {
    if es == [] then [Seg(lo, hi - lo)]
    else if es[0].End() < lo then [es[0]] + Insert(es[1..], lo, hi)
    else if es[0].off <= hi then Insert(es[1..], Min(lo, es[0].off), if hi < es[0].End() then es[0].End() else hi)
    else [Seg(lo, hi - lo)] + es
  }

  /** All segments start after `floor`. */
  ghost predicate Above(es: seq<Seg>, floor: int) {
    forall k :: 0 <= k < |es| ==> floor < es[k].off
  }

  lemma {:induction false} InsertCanonical(es: seq<Seg>, lo: nat, hi: nat, limit: nat, floor: int)
    requires Canonical(es, limit) && lo < hi <= limit && Above(es, floor) && floor < lo
    ensures Canonical(Insert(es, lo, hi), limit) && Above(Insert(es, lo, hi), floor)
    decreases |es|
  {
    if es != [] {
      CanonicalTail(es, limit);
      var rest := es[1..];
      if es[0].End() < lo {
        InsertCanonical(rest, lo, hi, limit, es[0].End());
      } else if es[0].off <= hi {
        InsertCanonical(rest, Min(lo, es[0].off), if hi < es[0].End() then es[0].End() else hi, limit, floor);
      }
    }
  }

  lemma {:induction false} InsertCov(es: seq<Seg>, lo: nat, hi: nat)
    requires lo < hi
    ensures Cov(Insert(es, lo, hi)) == Cov(es) + Span(lo, hi - lo)
    decreases |es|
  {
    if es != [] {
      var e, rest := es[0], es[1..];
      if e.End() < lo {
        InsertCov(rest, lo, hi);
        assert ([e] + Insert(rest, lo, hi))[1..] == Insert(rest, lo, hi);
      } else if e.off <= hi {
        var l, h := Min(lo, e.off), if hi < e.End() then e.End() else hi;
        InsertCov(rest, l, h);
        assert Span(l, h - l) == Span(lo, hi - lo) + Span(e.off, e.size);
      } else {
        assert ([Seg(lo, hi - lo)] + es)[1..] == es;
      }
    }
  }

  /** Everything a merge promises of the header: the new list is the canonical
      list of the union, so its length is the run count of the union. */
  lemma InsertIsUnion(es: seq<Seg>, lo: nat, hi: nat, limit: nat)
    requires Canonical(es, limit) && lo < hi <= limit
    ensures Canonical(Insert(es, lo, hi), limit)
    ensures Cov(Insert(es, lo, hi)) == Cov(es) + Span(lo, hi - lo)
    ensures |Insert(es, lo, hi)| == RunCount(Cov(es) + Span(lo, hi - lo))
    ensures TotalSize(Insert(es, lo, hi)) == |Cov(es) + Span(lo, hi - lo)|
  {
    InsertCanonical(es, lo, hi, limit, -1);
    InsertCov(es, lo, hi);
    CanonicalCounts(Insert(es, lo, hi), limit);
  }

  // -------------------------------------------------------- order of merging

  /** The header after a list of merges. */
  function InsertAll(es: seq<Seg>, spans: seq<Seg>): seq<Seg>
    requires forall k :: 0 <= k < |spans| ==> spans[k].size > 0
    decreases |spans|
  {
    if spans == [] then es else InsertAll(Insert(es, spans[0].off, spans[0].End()), spans[1..])
  }

  lemma {:induction false} InsertAllCov(es: seq<Seg>, spans: seq<Seg>, limit: nat)
    requires Canonical(es, limit)
    requires forall k :: 0 <= k < |spans| ==> spans[k].size > 0 && spans[k].End() <= limit
    ensures Canonical(InsertAll(es, spans), limit) && Cov(InsertAll(es, spans)) == Cov(es) + Cov(spans)
    decreases |spans|
  {
    if spans != [] {
      InsertIsUnion(es, spans[0].off, spans[0].End(), limit);
      InsertAllCov(Insert(es, spans[0].off, spans[0].End()), spans[1..], limit);
    }
  }

  /** The entry list depends only on what has been written, not on the order or
      the grouping of the merges. */
  lemma MergeOrderIrrelevant(a: seq<Seg>, b: seq<Seg>, limit: nat)
    requires forall k :: 0 <= k < |a| ==> a[k].size > 0 && a[k].End() <= limit
    requires forall k :: 0 <= k < |b| ==> b[k].size > 0 && b[k].End() <= limit
    requires Cov(a) == Cov(b)
    ensures InsertAll([], a) == InsertAll([], b)
  {
    InsertAllCov([], a, limit);
    InsertAllCov([], b, limit);
    CanonicalUnique(InsertAll([], a), InsertAll([], b), limit);
  }

  // ------------------------------------------------------------ block bound

  ghost predicate AtLeast(es: seq<Seg>, size: nat) {
    forall k :: 0 <= k < |es| ==> es[k].size >= size
  }

  lemma {:induction false} InsertAtLeast(es: seq<Seg>, lo: nat, hi: nat, size: nat)
    requires AtLeast(es, size) && lo < hi && hi - lo >= size
    ensures AtLeast(Insert(es, lo, hi), size)
    decreases |es|
  {
    if es != [] {
      if es[0].End() < lo {
        InsertAtLeast(es[1..], lo, hi, size);
      } else if es[0].off <= hi {
        InsertAtLeast(es[1..], Min(lo, es[0].off), if hi < es[0].End() then es[0].End() else hi, size);
      }
    }
  }

  /** n segments of at least `size` bytes with gaps between them need room. */
  lemma {:induction false} RoomNeeded(es: seq<Seg>, limit: nat, size: nat)
    requires Canonical(es, limit) && AtLeast(es, size) && es != []
    ensures |es| * size + |es| - 1 <= es[|es| - 1].End() - es[0].off
    decreases |es|
  {
    if |es| > 1 {
      var front := es[..|es| - 1];
      RoomNeeded(front, limit, size);
      assert front[|front| - 1].End() < es[|es| - 1].off;
      assert |es| * size == |front| * size + size;
    }
  }

  /** The entry array cannot bind for segments of a block or more: with room for
      zone / block entries, no list of merges of that size ever overflows. */
  lemma BlocksNeverOverflow(es: seq<Seg>, lo: nat, hi: nat, limit: nat, size: nat, maxEntries: nat)
    requires Canonical(es, limit) && AtLeast(es, size) && lo < hi <= limit && hi - lo >= size && size > 0
    requires maxEntries * size >= limit
    ensures |Insert(es, lo, hi)| <= maxEntries && AtLeast(Insert(es, lo, hi), size)
  {
    var r := Insert(es, lo, hi);
    InsertIsUnion(es, lo, hi, limit);
    InsertAtLeast(es, lo, hi, size);
    if r != [] {
      RoomNeeded(r, limit, size);
      FitsIn(|r|, maxEntries, size, limit);
    }
  }

  // A call of a block or more that straddles a zone boundary leaves smaller chunks,
  // but only at the edges of a zone.

  predicate BlockOrEdge(e: Seg, limit: nat, size: nat) {
    e.size >= size || e.off == 0 || e.End() == limit
  }

  ghost predicate BlocksOrEdges(es: seq<Seg>, limit: nat, size: nat) {
    forall k :: 0 <= k < |es| ==> BlockOrEdge(es[k], limit, size)
  }

  lemma {:induction false} InsertBlocksOrEdges(es: seq<Seg>, lo: nat, hi: nat, limit: nat, size: nat)
    requires Canonical(es, limit) && BlocksOrEdges(es, limit, size) && lo < hi <= limit
    requires BlockOrEdge(Seg(lo, hi - lo), limit, size)
    ensures BlocksOrEdges(Insert(es, lo, hi), limit, size)
    decreases |es|
  {
    if es != [] {
      CanonicalTail(es, limit);
      if es[0].End() < lo {
        InsertBlocksOrEdges(es[1..], lo, hi, limit, size);
      } else if es[0].off <= hi {
        InsertBlocksOrEdges(es[1..], Min(lo, es[0].off), if hi < es[0].End() then es[0].End() else hi, limit, size);
      }
    }
  }

  /** For calls of a block or more, one entry above zone / block is always enough. */
  lemma OneMoreEntrySuffices(es: seq<Seg>, lo: nat, hi: nat, limit: nat, size: nat, maxEntries: nat)
    requires Canonical(es, limit) && BlocksOrEdges(es, limit, size) && lo < hi <= limit && size > 0
    requires BlockOrEdge(Seg(lo, hi - lo), limit, size) && maxEntries >= 2 && (maxEntries - 1) * size >= limit
    ensures |Insert(es, lo, hi)| <= maxEntries && BlocksOrEdges(Insert(es, lo, hi), limit, size)
  {
    var r := Insert(es, lo, hi);
    InsertIsUnion(es, lo, hi, limit);
    InsertBlocksOrEdges(es, lo, hi, limit, size);
    if |r| > 2 {
      MiddleIsBlocks(r, limit, size);
      var mid := r[1..|r| - 1];
      RoomNeeded(mid, limit, size);
      FewerThan(|mid|, maxEntries - 1, size, limit);
    }
  }

  /** Only the first and the last segment of a canonical list can lie at an edge. */
  lemma MiddleIsBlocks(r: seq<Seg>, limit: nat, size: nat)
    requires Canonical(r, limit) && BlocksOrEdges(r, limit, size) && |r| > 2
    ensures var mid := r[1..|r| - 1]; Canonical(mid, limit) && AtLeast(mid, size)
  {
    var mid := r[1..|r| - 1];
    forall k | 0 <= k < |mid|
      ensures mid[k].size >= size
    {
      assert mid[k] == r[k + 1] && r[0].End() < r[k + 1].off && r[k + 1].End() < r[|r| - 1].off;
    }
  }

  lemma FitsIn(n: nat, m: nat, size: nat, limit: nat)
    requires 0 < n && 0 < size && n * size + n - 1 <= limit <= m * size
    ensures n <= m
  {
    if n > m {
      MulMonotone(m + 1, n, size);
    }
  }

  lemma FewerThan(n: nat, m: nat, size: nat, limit: nat)
    requires n * size < limit <= m * size
    ensures n < m
  {
  }

  lemma {:induction false} InsertLast(es: seq<Seg>, lo: nat, hi: nat)
    requires lo < hi && forall k :: 0 <= k < |es| ==> es[k].End() < lo
    ensures Insert(es, lo, hi) == es + [Seg(lo, hi - lo)]
  {
    if es != [] { InsertLast(es[1..], lo, hi); }
  }

  /** A zone with 64 segments: one byte at its start, then 63 blocks. */
  function CrowdedZone(): seq<Seg> {
    seq(64, k requires 0 <= k < 64 => if k == 0 then Seg(0, 1) else Seg(2 + 4097 * (k - 1), BLOCK))
  }

  /** Merged one by one, its segments make exactly this list. */
  lemma CrowdedBuilt()
    ensures InsertAll([], CrowdedZone()) == CrowdedZone()
  {
    BuildsItself(CrowdedZone(), ZONE);
  }

  /** zone / block entries are not enough for calls of a block or more: the last
      byte of this zone, the first of a straddling call, needs a 65th entry. */
  lemma StraddlingOverflows()
    ensures Canonical(CrowdedZone(), ZONE) && BlocksOrEdges(CrowdedZone(), ZONE, BLOCK)
    ensures BlockOrEdge(Seg(ZONE - 1, 1), ZONE, BLOCK)
    ensures |CrowdedZone()| == ZONE / BLOCK && |Insert(CrowdedZone(), ZONE - 1, ZONE)| == ZONE / BLOCK + 1
  {
    InsertLast(CrowdedZone(), ZONE - 1, ZONE);
  }

  // Whole histories of a header: merges, and fills that complete the zone.

  datatype Op = MergeOp(seg: Seg) | FillOp

  /** The header after a history. A fill collapses it to one segment. */
  function After(es: seq<Seg>, ops: seq<Op>, limit: nat): seq<Seg>
    requires forall k :: 0 <= k < |ops| && ops[k].MergeOp? ==> ops[k].seg.size > 0
    decreases |ops|
  {
    if ops == [] then es
    else if ops[0].FillOp? then After([Seg(0, limit)], ops[1..], limit)
    else After(Insert(es, ops[0].seg.off, ops[0].seg.End()), ops[1..], limit)
  }

  ghost predicate BlockOps(ops: seq<Op>, limit: nat, size: nat) {
    forall k :: 0 <= k < |ops| && ops[k].MergeOp? ==> ops[k].seg.size >= size && ops[k].seg.End() <= limit
  }

  /** No history of block-sized merges and fills ever needs more than zone / block
      entries: the entry array cannot bind. */
  lemma {:induction false} BlockHistoryFits(es: seq<Seg>, ops: seq<Op>, limit: nat, size: nat, maxEntries: nat)
    requires Canonical(es, limit) && AtLeast(es, size) && |es| <= maxEntries
    requires BlockOps(ops, limit, size) && 0 < size <= limit <= maxEntries * size
    ensures Canonical(After(es, ops, limit), limit) && AtLeast(After(es, ops, limit), size)
    ensures |After(es, ops, limit)| <= maxEntries
    decreases |ops|
  {
    if ops != [] {
      var next := if ops[0].FillOp? then [Seg(0, limit)] else Insert(es, ops[0].seg.off, ops[0].seg.End());
      if ops[0].MergeOp? {
        InsertIsUnion(es, ops[0].seg.off, ops[0].seg.End(), limit);
        BlocksNeverOverflow(es, ops[0].seg.off, ops[0].seg.End(), limit, size, maxEntries);
      }
      BlockHistoryFits(next, ops[1..], limit, size, maxEntries);
    }
  }

  ghost predicate BlockOrEdgeOps(ops: seq<Op>, limit: nat, size: nat) {
    forall k :: 0 <= k < |ops| && ops[k].MergeOp? ==>
      ops[k].seg.size > 0 && ops[k].seg.End() <= limit && BlockOrEdge(ops[k].seg, limit, size)
  }

  /** For merges that are a block or lie at an edge, one entry more is always enough. */
  lemma {:induction false} EdgeHistoryFits(es: seq<Seg>, ops: seq<Op>, limit: nat, size: nat, maxEntries: nat)
    requires Canonical(es, limit) && BlocksOrEdges(es, limit, size) && |es| <= maxEntries
    requires BlockOrEdgeOps(ops, limit, size) && 0 < size && 0 < limit && maxEntries >= 2 && limit <= (maxEntries - 1) * size
    ensures Canonical(After(es, ops, limit), limit) && |After(es, ops, limit)| <= maxEntries
    decreases |ops|
  {
    if ops != [] {
      var next := if ops[0].FillOp? then [Seg(0, limit)] else Insert(es, ops[0].seg.off, ops[0].seg.End());
      if ops[0].MergeOp? {
        var e := ops[0].seg;
        assert e == Seg(e.off, e.End() - e.off);
        InsertIsUnion(es, e.off, e.End(), limit);
        OneMoreEntrySuffices(es, e.off, e.End(), limit, size, maxEntries);
      }
      EdgeHistoryFits(next, ops[1..], limit, size, maxEntries);
    }
  }

  /** Merging the segments of a canonical list builds that list. */
  lemma BuildsItself(es: seq<Seg>, limit: nat)
    requires Canonical(es, limit)
    ensures InsertAll([], es) == es
  {
    InsertAllCov([], es, limit);
    CanonicalUnique(InsertAll([], es), es, limit);
  }

  lemma MulMonotone(a: nat, b: nat, c: nat)
    requires a <= b
    ensures a * c <= b * c
  {
  }

  // ------------------------------------------------------------------- holes

  /** The complement of a sorted list from `cursor` on. */
  function HolesFrom(es: seq<Seg>, cursor: nat, limit: nat): seq<Seg> {
    if es == [] then (if cursor < limit then [Seg(cursor, limit - cursor)] else [])
    else (if es[0].off > cursor then [Seg(cursor, es[0].off - cursor)] else []) + HolesFrom(es[1..], es[0].End(), limit)
  }

  lemma {:induction false} HolesCanonical(es: seq<Seg>, cursor: nat, limit: nat)
    requires Canonical(es, limit) && cursor <= limit && (es != [] ==> cursor <= es[0].off)
    ensures Canonical(HolesFrom(es, cursor, limit), limit) && Above(HolesFrom(es, cursor, limit), cursor - 1)
    ensures |HolesFrom(es, cursor, limit)| <= |es| + 1
    decreases |es|
  {
    if es != [] {
      CanonicalTail(es, limit);
      HolesCanonical(es[1..], es[0].End(), limit);
    }
  }

  lemma ComplementSplit(cursor: nat, at: nat, size: nat, limit: nat, tail: set<nat>)
    requires cursor <= at && at + size <= limit && forall i :: i in tail ==> at + size < i
    ensures Span(cursor, at - cursor) + (Span(at + size, limit - (at + size)) - tail)
         == Span(cursor, limit - cursor) - (Span(at, size) + tail)
  {
  }

  /** The gap before the first segment, and the holes after it. */
  lemma HolesHead(es: seq<Seg>, cursor: nat, limit: nat)
    requires es != [] && cursor <= es[0].off
    ensures Cov(HolesFrom(es, cursor, limit)) ==
            Span(cursor, es[0].off - cursor) + Cov(HolesFrom(es[1..], es[0].End(), limit))
  {
    var holes, rest := HolesFrom(es, cursor, limit), HolesFrom(es[1..], es[0].End(), limit);
    if es[0].off > cursor {
      assert holes[0] == Seg(cursor, es[0].off - cursor) && holes[1..] == rest;
    } else {
      assert holes == rest && Span(cursor, 0) == {};
    }
  }

  lemma {:induction false} HolesCov(es: seq<Seg>, cursor: nat, limit: nat)
    requires Canonical(es, limit) && cursor <= limit && (es != [] ==> cursor <= es[0].off)
    ensures Cov(HolesFrom(es, cursor, limit)) == Span(cursor, limit - cursor) - Cov(es)
    decreases |es|
  {
    if es == [] {
      assert cursor < limit ==> HolesFrom(es, cursor, limit)[1..] == [];
    } else {
      CanonicalTail(es, limit);
      HolesHead(es, cursor, limit);
      HolesCov(es[1..], es[0].End(), limit);
      ComplementSplit(cursor, es[0].off, es[0].size, limit, Cov(es[1..]));
    }
  }

  /** The holes are the canonical list of exactly what is not covered. */
  lemma HolesComplement(es: seq<Seg>, limit: nat)
    requires Canonical(es, limit)
    ensures Canonical(HolesFrom(es, 0, limit), limit) && |HolesFrom(es, 0, limit)| <= |es| + 1
    ensures Cov(HolesFrom(es, 0, limit)) == Span(0, limit) - Cov(es)
  {
    HolesCanonical(es, 0, limit);
    HolesCov(es, 0, limit);
  }
}
