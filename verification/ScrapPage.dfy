/** scrap_page.c: the page header with its entry array, the data zone, and the
    operations on them. */
module ScrapPage {
  import opened Geometry
  import opened Segments
  import opened Zones

  /** scrap_header_t: `number` valid entries in a fixed array, `counter` bytes. */
  class Header {
    const entries: array<Seg>
    var number: nat
    var counter: nat

    ghost predicate Valid()
      reads this, entries
    {
      && 1 <= entries.Length && number <= entries.Length
      && Canonical(entries[..number], ZONE)
      && counter == TotalSize(entries[..number])
    }

    ghost function Segs(): seq<Seg>
      requires number <= entries.Length
      reads this, entries
    {
      entries[..number]
    }

    constructor (maxEntries: nat)
      requires maxEntries >= 1
      ensures Valid() && fresh(entries) && entries.Length == maxEntries && Segs() == []
    {
      entries := new Seg[maxEntries](_ => Seg(0, 0));
      number, counter := 0, 0;
    }

    /** Struct copy of another header. */
    constructor Copy(h: Header)
      requires h.Valid()
      ensures Valid() && fresh(entries) && entries.Length == h.entries.Length
      ensures Segs() == h.Segs() && counter == h.counter
    {
      var m := h.entries.Length;
      entries := new Seg[m](k requires 0 <= k < m reads h.entries => h.entries[k]);
      number, counter := h.number, h.counter;
      new;
      assert entries[..number] == h.entries[..number];
    }

    /** Copies the segments that end strictly before [off, end). */
    method Skip(off: nat, end: nat, out: array<Seg>) returns (n: nat)
      requires number <= entries.Length && off < end && out.Length == entries.Length + 1 && out != entries
      modifies out
      ensures n <= number && out[..n] == Segs()[..n] && (n < number ==> off <= entries[n].End())
      ensures Insert(Segs(), off, end) == Segs()[..n] + Insert(Segs()[n..], off, end)
    {
      ghost var es := Segs();
      n := 0;
      while n < number && entries[n].End() < off
        invariant n <= number && out[..n] == es[..n]
        invariant Insert(es, off, end) == es[..n] + Insert(es[n..], off, end)
      {
        InsertSkip(es, n, off, end);
        out[n] := entries[n];
        n := n + 1;
      }
    }

    /** Grows [off, end) over every segment from n on that it overlaps or touches;
        `i` is the first segment strictly after the result. */
    method Absorb(off: nat, end: nat, n: nat) returns (i: nat, lo: nat, hi: nat)
      requires Valid() && off < end && n <= number && (n < number ==> off <= entries[n].End())
      ensures n <= i <= number && lo < hi
      ensures Insert(Segs()[n..], off, end) == [Seg(lo, hi - lo)] + Segs()[i..]
    {
      ghost var es := Segs();
      i, lo, hi := n, off, end;
      while i < number && entries[i].off <= hi
        invariant n <= i <= number && lo < hi
        invariant Insert(es[n..], off, end) == Insert(es[i..], lo, hi)
        invariant i < number ==> lo <= es[i].End()
      {
        var e := entries[i];
        InsertAbsorb(es, i, lo, hi);
        if e.off < lo { lo := e.off; }
        if e.End() > hi { hi := e.End(); }
        i := i + 1;
      }
      InsertStop(es, i, lo, hi);
    }

    /** The coalesced list in a scratch array with room for one entry too many. */
    method Assemble(off: nat, end: nat) returns (out: array<Seg>, n: nat)
      requires Valid() && off < end
      ensures fresh(out) && n <= out.Length == entries.Length + 1 && out[..n] == Insert(Segs(), off, end)
    {
      ghost var es := Segs();
      out := new Seg[entries.Length + 1](_ => Seg(0, 0));
      n := Skip(off, end, out);
      var i, lo, hi := Absorb(off, end, n);

      // (3) the merged range
      assert out[..n] == es[..n];
      out[n] := Seg(lo, hi - lo);
      assert out[..n + 1] == es[..n] + [Seg(lo, hi - lo)];
      Joined(Insert(es, off, end), es[..n], Seg(lo, hi - lo), es[i..]);

      // (4) segments strictly after it
      n := CopyTail(out, n + 1, i);
    }

    /** Appends the segments from i on to the first n of `out`. */
    method CopyTail(out: array<Seg>, n: nat, i: nat) returns (n': nat)
      requires i <= number <= entries.Length && n + number - i <= out.Length && out != entries
      modifies out
      ensures n' == n + number - i && out[..n'] == old(out[..n]) + Segs()[i..]
    {
      ghost var es := Segs();
      var k := i;
      n' := n;
      while k < number
        invariant i <= k <= number && n' == n + (k - i)
        invariant out[..n'] == old(out[..n]) + es[i..k]
      {
        assert es[i..k + 1] == es[i..k] + [es[k]];
        out[n'] := entries[k];
        n', k := n' + 1, k + 1;
      }
      assert es[i..k] == es[i..];
    }

    /** Copy the scratch list back and recompute the counter. */
    method Store(out: array<Seg>, n: nat)
      requires n <= out.Length && n <= entries.Length && out != entries
      modifies this, entries
      ensures number == n && Segs() == old(out[..n]) && counter == TotalSize(old(out[..n]))
    {
      ghost var goal := out[..n];
      var total, k := 0, 0;
      while k < n
        invariant 0 <= k <= n && out[..n] == goal
        invariant entries[..k] == goal[..k] && total == TotalSize(goal[..k])
      {
        TotalSizeAppend(goal[..k], goal[k]);
        assert goal[..k + 1] == goal[..k] + [goal[k]];
        entries[k] := out[k];
        total := total + out[k].size;
        k := k + 1;
      }
      assert goal[..n] == goal;
      number, counter := n, total;
    }

    /** Insert [off, off + len), coalescing whatever it overlaps or touches. The
        result is the canonical list of the union; it is refused exactly when that
        list does not fit, and then nothing changes. */
    method CoalesceInsert(off: nat, len: nat) returns (ok: bool)
      requires Valid() && len > 0 && off + len <= ZONE
      modifies this, entries
      ensures Valid()
      ensures ok <==> RunCount(old(Cov(Segs())) + Span(off, len)) <= entries.Length
      ensures !ok ==> number == old(number) && counter == old(counter) && entries[..] == old(entries[..])
      ensures ok ==> Segs() == Insert(old(Segs()), off, off + len)
      ensures ok ==> Cov(Segs()) == old(Cov(Segs())) + Span(off, len)
      ensures ok ==> number == RunCount(Cov(Segs())) && counter == |Cov(Segs())|
    {
      InsertIsUnion(Segs(), off, off + len, ZONE);
      var out, n := Assemble(off, off + len);
      if n > entries.Length {
        return false;
      }
      Store(out, n);
      ok := true;
    }
  }

  lemma Joined(whole: seq<Seg>, front: seq<Seg>, e: Seg, back: seq<Seg>)
    requires whole == front + ([e] + back)
    ensures whole == (front + [e]) + back
  {
  }

  lemma InsertSkip(es: seq<Seg>, i: nat, lo: nat, hi: nat)
    requires i < |es| && lo < hi && es[i].End() < lo
    ensures es[..i] + Insert(es[i..], lo, hi) == es[..i + 1] + Insert(es[i + 1..], lo, hi)
  {
  }

  lemma InsertAbsorb(es: seq<Seg>, i: nat, lo: nat, hi: nat)
    requires i < |es| && lo < hi && lo <= es[i].End() && es[i].off <= hi
    ensures var l, h := Min(lo, es[i].off), if hi < es[i].End() then es[i].End() else hi;
            l < h && Insert(es[i..], lo, hi) == Insert(es[i + 1..], l, h)
  {
  }

  lemma InsertStop(es: seq<Seg>, i: nat, lo: nat, hi: nat)
    requires i <= |es| && lo < hi && (i < |es| ==> lo <= es[i].End() && hi < es[i].off)
    ensures Insert(es[i..], lo, hi) == [Seg(lo, hi - lo)] + es[i..]
  {
  }

  lemma {:induction false} TotalSizeAppend(es: seq<Seg>, e: Seg)
    ensures TotalSize(es + [e]) == TotalSize(es) + e.size
  {
    if es == [] {
      assert (es + [e])[1..] == [];
    } else {
      assert (es + [e])[1..] == es[1..] + [e];
      TotalSizeAppend(es[1..], e);
    }
  }

  // -------------------------------------------------------------------- page

  /** A page: its header and its separately allocated data zone. */
  class Page {
    var hdr: Header
    const data: array<byte>

    ghost predicate Valid()
      reads this, hdr, hdr.entries, data
    {
      hdr.Valid() && data.Length == ZONE
    }

    /** The offsets the user has written. */
    ghost function Covered(): set<nat>
      requires hdr.number <= hdr.entries.Length
      reads this, hdr, hdr.entries
    {
      Cov(hdr.Segs())
    }

    /** scrap_page_alloc: nothing covered, the zone holds anything. */
    constructor (maxEntries: nat)
      requires maxEntries >= 1
      ensures Valid() && Covered() == {} && hdr.entries.Length == maxEntries
      ensures fresh(hdr) && fresh(hdr.entries) && fresh(data)
    {
      hdr := new Header(maxEntries);
      data := new byte[ZONE];
    }

    /** scrap_page_is_full: the counter alone tells that every byte is covered. */
    predicate IsFull()
      requires Valid()
      reads this, hdr, hdr.entries, data
      ensures IsFull() <==> Covered() == FullZone()
    {
      CanonicalCounts(hdr.Segs(), ZONE);
      SpanSize(0, ZONE);
      SubsetFull(Covered());
      hdr.counter == ZONE
    }

    /** scrap_page_merge: refused exactly when the coalesced list does not fit, and
        then neither header nor zone changes; otherwise both take the bytes. */
    method Merge(bytes: seq<byte>, at: nat) returns (ok: bool)
      requires Valid() && |bytes| > 0 && at + |bytes| <= ZONE
      modifies this, data
      ensures Valid() && hdr.entries.Length == old(hdr.entries.Length)
      ensures ok <==> RunCount(old(Covered()) + Span(at, |bytes|)) <= hdr.entries.Length
      ensures !ok ==> hdr == old(hdr) && data[..] == old(data[..])
      ensures ok ==> fresh(hdr) && fresh(hdr.entries) && Covered() == old(Covered()) + Span(at, |bytes|)
      ensures ok ==> data[..] == Patch(old(data[..]), at, bytes)
    {
      var probe := new Header.Copy(hdr);
      ok := probe.CoalesceInsert(at, |bytes|);
      if !ok {
        return;
      }
      CopyIn(data, at, bytes);
      hdr := probe;
    }

    /** scrap_page_hole_ranges: the complement of the entry list, cut off at `max`. */
    method HoleRanges(out: array<Seg>, max: nat) returns (n: nat)
      requires Valid() && max <= out.Length && out != hdr.entries
      modifies out
      ensures var holes := HolesFrom(hdr.Segs(), 0, ZONE);
              n == Min(|holes|, max) && out[..n] == holes[..n]
    {
      n := WalkHoles(hdr.entries, hdr.number, out, max);
    }

    /** scrap_page_apply_holes: what is still a hole comes from the scratch zone,
        and the page becomes one segment that covers everything. */
    method ApplyHoles(scratch: array<byte>)
      requires Valid() && scratch.Length == ZONE && scratch != data
      modifies hdr, hdr.entries, data
      ensures Valid() && Covered() == FullZone()
      ensures data[..] == Completed(old(data[..]), old(Covered()), scratch[..])
    {
      var max := hdr.entries.Length + 1;
      var holes := new Seg[max](_ => Seg(0, 0));
      var nh := HoleRanges(holes, max);
      HolesComplement(hdr.Segs(), ZONE);
      assert holes[..nh] == HolesFrom(hdr.Segs(), 0, ZONE);
      CopyHoles(data, scratch, holes, nh);
      assert data[..] == Completed(old(data[..]), old(Covered()), scratch[..]);
      hdr.entries[0] := Seg(0, ZONE);
      hdr.number, hdr.counter := 1, ZONE;
      OneSegment(hdr.entries[..1]);
    }
  }

  /** The forward walk over the first `number` entries. */
  method WalkHoles(entries: array<Seg>, number: nat, out: array<Seg>, max: nat) returns (n: nat)
    requires number <= entries.Length && max <= out.Length && out != entries
    modifies out
    ensures var holes := HolesFrom(entries[..number], 0, ZONE);
            n == Min(|holes|, max) && out[..n] == holes[..n]
  {
    ghost var es := entries[..number];
    ghost var holes := HolesFrom(es, 0, ZONE);
    var cursor: nat, k: nat := 0, 0;
    n := 0;
    while k < number
      invariant k <= number && n <= max && entries[..number] == es
      invariant holes == out[..n] + HolesFrom(es[k..], cursor, ZONE)
    {
      HolesStep(es, k, cursor);
      var e := entries[k];
      if e.off > cursor {
        if n >= max {
          CutOff(holes, out[..n], HolesFrom(es[k..], cursor, ZONE), max);
          return;
        }
        PutHole(out, n, cursor, e.off, holes, HolesFrom(es[k + 1..], e.End(), ZONE));
        n := n + 1;
      }
      cursor := e.End();
      k := k + 1;
    }
    HolesEnd(es, cursor);
    ghost var rest := if cursor < ZONE then [Seg(cursor, ZONE - cursor)] else [];
    if cursor < ZONE && n < max {
      PutHole(out, n, cursor, ZONE, holes, []);
      n, rest := n + 1, [];
    }
    CutOff(holes, out[..n], rest, max);
  }

  /** The holes found so far are all of them, or as many as fit. */
  lemma CutOff(holes: seq<Seg>, found: seq<Seg>, rest: seq<Seg>, max: nat)
    requires holes == found + rest && |found| <= max && (rest == [] || |found| == max)
    ensures |found| == Min(|holes|, max) && found == holes[..|found|]
  {
  }

  lemma HolesEnd(es: seq<Seg>, cursor: nat)
    ensures HolesFrom(es[|es|..], cursor, ZONE) == if cursor < ZONE then [Seg(cursor, ZONE - cursor)] else []
  {
    assert es[|es|..] == [];
  }

  /** Record the hole [from, to) as the next of `holes`, of which `rest` is still to come. */
  method PutHole(out: array<Seg>, n: nat, from: nat, to: nat, ghost holes: seq<Seg>, ghost rest: seq<Seg>)
    requires n < out.Length && from < to && holes == out[..n] + ([Seg(from, to - from)] + rest)
    modifies out
    ensures holes == out[..n + 1] + rest
  {
    out[n] := Seg(from, to - from);
  }

  lemma HolesStep(es: seq<Seg>, k: nat, cursor: nat)
    requires k < |es|
    ensures var rest := HolesFrom(es[k + 1..], es[k].End(), ZONE);
            HolesFrom(es[k..], cursor, ZONE) == if es[k].off > cursor then [Seg(cursor, es[k].off - cursor)] + rest else rest
  {
    assert es[k..][0] == es[k] && es[k..][1..] == es[k + 1..];
  }

  lemma SubsetFull(cov: set<nat>)
    requires cov <= FullZone()
    ensures |cov| == ZONE <==> cov == FullZone()
  {
    SpanSize(0, ZONE);
    if |cov| == ZONE {
      if x :| x in FullZone() && x !in cov {
        SubsetSize(cov, FullZone() - {x});
      }
    }
  }

  lemma OneSegment(es: seq<Seg>)
    requires es == [Seg(0, ZONE)]
    ensures Canonical(es, ZONE) && TotalSize(es) == ZONE && Cov(es) == FullZone()
  {
  }

  method CopyIn(data: array<byte>, at: nat, bytes: seq<byte>)
    requires data.Length == ZONE && at + |bytes| <= ZONE
    modifies data
    ensures data[..] == Patch(old(data[..]), at, bytes)
  {
    var i := 0;
    while i < |bytes|
      invariant i <= |bytes|
      invariant forall k :: 0 <= k < ZONE ==> data[k] == if at <= k < at + i then bytes[k - at] else old(data[k])
    {
      data[at + i] := bytes[i];
      i := i + 1;
    }
  }

  /** Copy one hole from the scratch zone, at exactly its width. */
  method CopyRange(data: array<byte>, scratch: array<byte>, off: nat, size: nat)
    requires data.Length == scratch.Length == ZONE && scratch != data && off + size <= ZONE
    modifies data
    ensures forall k :: 0 <= k < ZONE ==> data[k] == if off <= k < off + size then scratch[k] else old(data[k])
  {
    var i := off;
    while i < off + size
      invariant off <= i <= off + size
      invariant forall k :: 0 <= k < ZONE ==> data[k] == if off <= k < i then scratch[k] else old(data[k])
    {
      data[i] := scratch[i];
      i := i + 1;
    }
  }

  method CopyHoles(data: array<byte>, scratch: array<byte>, holes: array<Seg>, nh: nat)
    requires data.Length == scratch.Length == ZONE && scratch != data && nh <= holes.Length
    requires Canonical(holes[..nh], ZONE)
    modifies data
    ensures forall k :: 0 <= k < ZONE ==> data[k] == if k in Cov(holes[..nh]) then scratch[k] else old(data[k])
  {
    var i := 0;
    while i < nh
      invariant i <= nh
      invariant forall k :: 0 <= k < ZONE ==> data[k] == if k in Cov(holes[..i]) then scratch[k] else old(data[k])
    {
      CopyRange(data, scratch, holes[i].off, holes[i].size);
      assert holes[..i + 1] == holes[..i] + [holes[i]];
      CovAppend(holes[..i], holes[i]);
      i := i + 1;
    }
  }}
