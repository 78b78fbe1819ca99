/** nox_write: which path a call takes and how the scrap path splits it. */
module NoxWrite {
  import opened Geometry
  import opened Segments
  import opened Engine
  import EngineSafety

  /** What a call does: nothing for zero bytes, one device write, or chunks. */
  datatype Route = Nothing | Direct | Scrap(chunks: seq<Write>)

  /** The chunks the step system's thread commits from `done` on. */
  function ChunksFrom(off: nat, buf: seq<byte>, done: nat): seq<Write>
    requires done <= |buf|
    decreases |buf| - done
  {
    if done == |buf| then []
    else
      var w := Active(off, buf, done, AtGate, 0);
      [Write(off + done, ChunkBytes(w))] + ChunksFrom(off, buf, done + ChunkLen(w))
  }

  /** A chunk lies within one page and writes at least one byte. */
  predicate InOnePage(c: Write) {
    |c.bytes| > 0 && IntraOf(c.off) + |c.bytes| <= ZONE
  }

  lemma {:induction false} ChunksInPages(off: nat, buf: seq<byte>, done: nat)
    requires done <= |buf|
    ensures forall c :: c in ChunksFrom(off, buf, done) ==> InOnePage(c)
    decreases |buf| - done
  {
    if done < |buf| {
      ChunksInPages(off, buf, done + ChunkLen(Active(off, buf, done, AtGate, 0)));
    }
  }

  /** Only the first chunk starts inside a page, and the pages follow one another. */
  lemma {:induction false} ChunksFollow(off: nat, buf: seq<byte>, done: nat, k: nat)
    requires done <= |buf| && k < |ChunksFrom(off, buf, done)|
    ensures BaseOf(ChunksFrom(off, buf, done)[k].off) == BaseOf(off + done) + k
    ensures k > 0 ==> IntraOf(ChunksFrom(off, buf, done)[k].off) == 0
    decreases |buf| - done
  {
    var w := Active(off, buf, done, AtGate, 0);
    if k > 0 {
      ChunksFollow(off, buf, done + ChunkLen(w), k - 1);
    }
  }

  /** The part of its page a chunk covers. */
  function SegOf(c: Write): Seg {
    Seg(IntraOf(c.off), |c.bytes|)
  }

  /** A call of a block or more is split into chunks that are a block or more, or lie at
      an edge of their page. */
  lemma {:induction false} BigCallChunks(off: nat, buf: seq<byte>, done: nat)
    requires |buf| >= BLOCK && done <= |buf| && (done == 0 || IntraOf(off + done) == 0)
    ensures forall c :: c in ChunksFrom(off, buf, done) ==> BlockOrEdge(SegOf(c), ZONE, BLOCK)
    decreases |buf| - done
  {
    if done < |buf| {
      var w := Active(off, buf, done, AtGate, 0);
      var size := ChunkLen(w);
      if done + size < |buf| { BigCallChunks(off, buf, done + size); }
      assert BlockOrEdge(SegOf(Write(off + done, ChunkBytes(w))), ZONE, BLOCK);
    }
  }

  /** The 64 calls of 4 KB that crowd page 1, and a 65th. */
  function CrowdingOffset(k: nat): nat {
    if k == 0 then ZONE - BLOCK + 1 else if k < 64 then ZONE + 2 + 4097 * (k - 1) else 2 * ZONE - 1
  }

  /** The segments a call leaves in a page. */
  function SegsIn(base: nat, chunks: seq<Write>): seq<Seg> {
    if chunks == [] then []
    else (if BaseOf(chunks[0].off) == base then [SegOf(chunks[0])] else []) + SegsIn(base, chunks[1..])
  }

  lemma SplitWithin(off: nat, buf: seq<byte>, base: nat, other: nat)
    requires |buf| > 0 && BaseOf(off) == base && IntraOf(off) + |buf| <= ZONE
    ensures SegsIn(other, ChunksFrom(off, buf, 0)) == if other == base then [Seg(IntraOf(off), |buf|)] else []
  {
    var w := Active(off, buf, 0, AtGate, 0);
    assert ChunkLen(w) == |buf| && ChunksFrom(off, buf, |buf|) == [];
    assert ChunksFrom(off, buf, 0) == [Write(off, ChunkBytes(w))];
    assert [Write(off, ChunkBytes(w))][1..] == [];
  }

  lemma SegsInTwo(base: nat, c: Write, d: Write)
    ensures SegsIn(base, [c] + [d]) ==
            (if BaseOf(c.off) == base then [SegOf(c)] else []) + (if BaseOf(d.off) == base then [SegOf(d)] else [])
  {
    assert ([c] + [d])[1..] == [d] && [d][1..] == [];
    assert SegsIn(base, [d]) == (if BaseOf(d.off) == base then [SegOf(d)] else []) + SegsIn(base, []);
  }

  lemma SplitAcross(off: nat, buf: seq<byte>, base: nat)
    requires BaseOf(off) == base && IntraOf(off) + |buf| > ZONE && IntraOf(off) + |buf| <= 2 * ZONE
    ensures SegsIn(base, ChunksFrom(off, buf, 0)) == [Seg(IntraOf(off), ZONE - IntraOf(off))]
    ensures SegsIn(base + 1, ChunksFrom(off, buf, 0)) == [Seg(0, IntraOf(off) + |buf| - ZONE)]
  {
    var w := Active(off, buf, 0, AtGate, 0);
    var size := ChunkLen(w);
    var v := Active(off, buf, size, AtGate, 0);
    assert size == ZONE - IntraOf(off) && BaseOf(off + size) == base + 1 && IntraOf(off + size) == 0;
    assert ChunkLen(v) == |buf| - size && ChunksFrom(off, buf, |buf|) == [];
    var c, d := Write(off, ChunkBytes(w)), Write(off + size, ChunkBytes(v));
    assert ChunksFrom(off, buf, size) == [d] && ChunksFrom(off, buf, 0) == [c] + [d];
    SegsInTwo(base, c, d);
    SegsInTwo(base + 1, c, d);
  }

  lemma CrowdOne(buf: seq<byte>, k: nat)
    requires |buf| == BLOCK && k < 64
    ensures SegsIn(1, ChunksFrom(CrowdingOffset(k), buf, 0)) == [CrowdedZone()[k]]
  {
    var off := CrowdingOffset(k);
    if k == 0 {
      SplitAcross(off, buf, 0);
    } else {
      assert off == ZONE + (2 + 4097 * (k - 1)) && 2 + 4097 * (k - 1) + BLOCK <= ZONE;
      assert BaseOf(off) == 1 && IntraOf(off) == 2 + 4097 * (k - 1);
      SplitWithin(off, buf, 1, 1);
    }
  }

  lemma CrowdLast(buf: seq<byte>)
    requires |buf| == BLOCK
    ensures SegsIn(1, ChunksFrom(CrowdingOffset(64), buf, 0)) == [Seg(ZONE - 1, 1)]
  {
    SplitAcross(CrowdingOffset(64), buf, 1);
  }

  /** Calls of 4 KB each do crowd a page: what call k < 64 leaves in page 1 is segment k
      of the crowded zone, and call 64 leaves the byte that needs a 65th entry. */
  lemma BigCallsOverflow(buf: seq<byte>)
    requires |buf| == BLOCK
    ensures forall k :: 0 <= k < 64 ==> SegsIn(1, ChunksFrom(CrowdingOffset(k), buf, 0)) == [CrowdedZone()[k]]
    ensures SegsIn(1, ChunksFrom(CrowdingOffset(64), buf, 0)) == [Seg(ZONE - 1, 1)]
  {
    forall k | 0 <= k < 64
      ensures SegsIn(1, ChunksFrom(CrowdingOffset(k), buf, 0)) == [CrowdedZone()[k]]
    {
      CrowdOne(buf, k);
    }
    CrowdLast(buf);
  }

  /** Applying the chunks to the flat file, in order, is applying the whole call. */
  lemma {:induction false} ChunksAreTheCall(init: Disk, log: seq<Write>, off: nat, buf: seq<byte>, done: nat, b: nat, i: nat)
    requires done <= |buf|
    ensures Flat(init, log + ChunksFrom(off, buf, done), b, i) == Flat(init, log + [Write(off + done, buf[done..])], b, i)
    decreases |buf| - done
  {
    var rest := Write(off + done, buf[done..]);
    EngineSafety.FlatAppend(init, log, rest, b, i);
    if done == |buf| {
      assert log + [] == log;
    } else {
      var w := Active(off, buf, done, AtGate, 0);
      var c, done' := Write(off + done, ChunkBytes(w)), done + ChunkLen(w);
      assert log + ChunksFrom(off, buf, done) == log + [c] + ChunksFrom(off, buf, done');
      ChunksAreTheCall(init, log + [c], off, buf, done', b, i);
      EngineSafety.FlatAppend(init, log + [c], Write(off + done', buf[done'..]), b, i);
      EngineSafety.FlatAppend(init, log, c, b, i);
    }
  }

  lemma SplitMeans(off: nat, buf: seq<byte>)
    ensures forall c :: c in ChunksFrom(off, buf, 0) ==> InOnePage(c)
    ensures forall init, log, b, i ::
              Flat(init, log + ChunksFrom(off, buf, 0), b, i) == Flat(init, log + [Write(off, buf)], b, i)
  {
    ChunksInPages(off, buf, 0);
    forall init, log, b, i
      ensures Flat(init, log + ChunksFrom(off, buf, 0), b, i) == Flat(init, log + [Write(off, buf)], b, i)
    {
      ChunksAreTheCall(init, log, off, buf, 0, b, i);
      assert buf[0..] == buf;
    }
  }

  lemma NextChunk(off: nat, buf: seq<byte>, done: nat, size: nat)
    requires done < |buf| && size == Min(ZONE - (off + done) % ZONE, |buf| - done)
    ensures size > 0
    ensures ChunksFrom(off, buf, done) == [Write(off + done, buf[done..done + size])] + ChunksFrom(off, buf, done + size)
  {
  }

  /** One more chunk split off the front of what is left. */
  lemma SplitOne(off: nat, buf: seq<byte>, done: nat, size: nat, chunks: seq<Write>, all: seq<Write>)
    requires done < |buf| && size == Min(ZONE - (off + done) % ZONE, |buf| - done)
    requires chunks + ChunksFrom(off, buf, done) == all
    ensures (chunks + [Write(off + done, buf[done..done + size])]) + ChunksFrom(off, buf, done + size) == all
  {
    NextChunk(off, buf, done, size);
    var c, rest := Write(off + done, buf[done..done + size]), ChunksFrom(off, buf, done + size);
    assert chunks + ([c] + rest) == (chunks + [c]) + rest;
  }

  /** How much of a call goes to the page at `cur`: the room left in it, or all that remains. */
  method ChunkAt(cur: nat, remaining: nat) returns (chunk: nat)
    requires remaining > 0
    ensures 0 < chunk <= remaining && chunk == Min(ZONE - cur % ZONE, remaining)
  {
    var base := cur - cur % ZONE;
    var intra := cur - base;
    chunk := ZONE - intra;
    if chunk > remaining {
      chunk := remaining;
    }
  }

  /** The loop of nox_write. */
  method SplitLoop(off: nat, buf: seq<byte>) returns (chunks: seq<Write>)
    ensures chunks == ChunksFrom(off, buf, 0)
  {
    ghost var all := ChunksFrom(off, buf, 0);
    var done: nat, remaining: nat := 0, |buf|;
    chunks := [];
    while remaining > 0
      invariant done + remaining == |buf| && chunks + ChunksFrom(off, buf, done) == all
    {
      var chunk := ChunkAt(off + done, remaining);
      SplitOne(off, buf, done, chunk, chunks, all);
      chunks := chunks + [Write(off + done, buf[done..done + chunk])];
      done, remaining := done + chunk, remaining - chunk;
    }
    assert chunks + [] == chunks;
  }

  /** The range begins and ends on a 4096-byte boundary. */
  ghost predicate OnBlocks(off: nat, size: nat) {
    exists m: nat, n: nat :: off == m * 4096 && off + size == n * 4096
  }

  /** The direct path takes exactly the calls of 1 MiB or more that a device in 4 KB blocks
      can take as they are. */
  lemma FastPathIs(off: nat, size: nat)
    ensures FastPath(off, size) <==> size >= 1048576 && OnBlocks(off, size)
  {
    if FastPath(off, size) {
      assert off == (off / 4096) * 4096 && off + size == ((off + size) / 4096) * 4096;
    }
    if OnBlocks(off, size) {
      var m: nat, n: nat :| off == m * 4096 && off + size == n * 4096;
      assert size == (n - m) * 4096;
    }
  }

  /** nox_write up to its effects. Every chunk lies in one page, and together the chunks
      change exactly the bytes [offset, offset + size) of the flat file. */
  method Split(off: nat, buf: seq<byte>) returns (route: Route)
    ensures route == if buf == [] then Nothing else if FastPath(off, |buf|) then Direct else Scrap(ChunksFrom(off, buf, 0))
    ensures route.Nothing? <==> |buf| == 0
    ensures route.Direct? <==> |buf| >= 1048576 && OnBlocks(off, |buf|)
    ensures route.Scrap? ==> forall c :: c in route.chunks ==> InOnePage(c)
    ensures route.Scrap? ==> forall init, log, b, i ::
              Flat(init, log + route.chunks, b, i) == Flat(init, log + [Write(off, buf)], b, i)
  {
    FastPathIs(off, |buf|);
    if |buf| == 0 {
      return Nothing;
    }
    if |buf| >= DIRECT_THRESHOLD && |buf| % BLOCK == 0 && off % BLOCK == 0 {
      return Direct;
    }
    var chunks := SplitLoop(off, buf);
    SplitMeans(off, buf);
    route := Scrap(chunks);
  }
}
