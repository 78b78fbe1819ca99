/** Runs that do fill up the entry array, and with them the exact number of entries that
    calls, or chunks, of a block or more can need. */
module EngineCrowd {
  import opened Geometry
  import opened Segments
  import opened Engine
  import opened EngineSafety
  import opened EngineEntries
  import opened EngineExample
  import opened NoxWrite
  import opened WriterMerges
  import opened WriterCommits
  import G = Gate

  // ------------------------------------------------------------- allowed runs

  /** A call of a block or more or, with `chunks`, one all of whose chunks are. */
  ghost predicate BigCall(off: nat, buf: seq<byte>, chunks: bool) {
    if chunks then forall c :: c in ChunksFrom(off, buf, 0) ==> |c.bytes| >= BLOCK else |buf| >= BLOCK
  }

  ghost predicate BigStep(st: Step, chunks: bool) {
    st.Foreground? && st.fg.Start? ==> BigCall(st.fg.off, st.fg.buf, chunks)
  }

  ghost predicate BigRun(steps: seq<Step>, chunks: bool) {
    forall k :: 0 <= k < |steps| ==> BigStep(steps[k], chunks)
  }

  /** A state that such calls lead to, with this many entries per page. */
  ghost predicate ReachedBig(s: State, entries: nat, chunks: bool) {
    exists s0: State, steps: seq<Step> ::
      Init(s0) && s0.maxEntries == entries && ValidRun(s0, steps) && BigRun(steps, chunks) && Run(s0, steps) == s
  }

  lemma BigNext(s: State, st: Step, entries: nat, chunks: bool)
    requires ReachedBig(s, entries, chunks) && Enabled(s, st) && BigStep(st, chunks)
    ensures ReachedBig(Next(s, st), entries, chunks)
  {
    var s0: State, steps: seq<Step> :|
      Init(s0) && s0.maxEntries == entries && ValidRun(s0, steps) && BigRun(steps, chunks) && Run(s0, steps) == s;
    OneStep(s, st);
    RunAppend(s0, steps, [st]);
    assert BigRun(steps + [st], chunks);
  }

  // --------------------------------------------------------------- single calls

  /** One idle thread at an open gate. */
  ghost predicate Calm(s: State) {
    && s.closer.Running? && |s.gate.threads| == 1 && s.gate.threads[0].Outside? && s.gate.live < s.gate.high
    && |s.wb| == WB_SLOTS && s.maxEntries >= 1
  }

  /** The page of base b is open, queued, and covers exactly `cov`. */
  ghost predicate Crowding(s: State, b: nat, cov: set<nat>) {
    && Calm(s) && s.writers == [Idle] && b in s.index && s.index[b] < |s.pages|
    && s.pages[s.index[b]] == Page(b, cov, s.pages[s.index[b]].zone, Open, true, false) && |s.pages[s.index[b]].zone| == ZONE
  }

  function InCall(s: State, off: nat, buf: seq<byte>, done: nat, pc: Pc): State {
    s.(writers := [Active(off, buf, done, pc, 0)])
  }

  lemma Starts(s: State, off: nat, buf: seq<byte>, entries: nat, chunks: bool)
    requires ReachedBig(s, entries, chunks) && Calm(s) && s.writers == [Idle]
    requires 0 < |buf| < DIRECT_THRESHOLD && BigCall(off, buf, chunks)
    ensures ReachedBig(InCall(s, off, buf, 0, AtGate), entries, chunks)
  {
    assert CanStart(s, 0, off, buf) && DoStart(s, 0, off, buf) == InCall(s, off, buf, 0, AtGate);
    BigNext(s, Foreground(0, Start(off, buf)), entries, chunks);
  }

  function AtIndex(s: State, off: nat, buf: seq<byte>, done: nat): State {
    InCall(s, off, buf, done, Admitted).(gate := s.gate.(threads := [G.Admitted]))
  }

  lemma Passes(s: State, off: nat, buf: seq<byte>, done: nat, entries: nat, chunks: bool)
    requires Calm(s) && done < |buf| && ReachedBig(InCall(s, off, buf, done, AtGate), entries, chunks)
    ensures ReachedBig(AtIndex(s, off, buf, done), entries, chunks)
  {
    var s1 := InCall(s, off, buf, done, AtGate);
    assert CanGateEnter(s1, 0) && DoGateEnter(s1, 0) == AtIndex(s, off, buf, done);
    BigNext(s1, Foreground(0, GateEnter), entries, chunks);
  }

  lemma Finds(s: State, off: nat, buf: seq<byte>, entries: nat, chunks: bool)
    requires Calm(s) && 0 < |buf| && BaseOf(off) in s.index && ReachedBig(AtIndex(s, off, buf, 0), entries, chunks)
    ensures ReachedBig(InCall(s, off, buf, 0, Holding(s.index[BaseOf(off)], false)), entries, chunks)
  {
    var id := s.index[BaseOf(off)];
    FindState(s, off, buf);
    BigNext(AtIndex(s, off, buf, 0), Foreground(0, Find), entries, chunks);
    BigNext(InCall(s, off, buf, 0, Coupling(id)), Foreground(0, Lock), entries, chunks);
  }

  lemma FindState(s: State, off: nat, buf: seq<byte>)
    requires Calm(s) && 0 < |buf| && BaseOf(off) in s.index
    ensures var s2, id := AtIndex(s, off, buf, 0), s.index[BaseOf(off)];
            var s3 := InCall(s, off, buf, 0, Coupling(id));
            && CanFind(s2, 0) && DoFind(s2, 0) == s3
            && CanLock(s3, 0) && DoLock(s3, 0) == InCall(s, off, buf, 0, Holding(id, false))
  {
    var s2, id := AtIndex(s, off, buf, 0), s.index[BaseOf(off)];
    assert G.Pass(s2.gate, 0) == s.gate;
    assert CanFind(s2, 0) && DoFind(s2, 0) == InCall(s, off, buf, 0, Coupling(id));
  }

  /** A call into the page comes to hold its lock. */
  lemma CallHolds(s: State, b: nat, cov: set<nat>, off: nat, buf: seq<byte>, entries: nat, chunks: bool) returns (s': State)
    requires ReachedBig(s, entries, chunks) && Crowding(s, b, cov) && BaseOf(off) == b
    requires 0 < |buf| < DIRECT_THRESHOLD && BigCall(off, buf, chunks)
    ensures ReachedBig(s', entries, chunks) && s' == InCall(s, off, buf, 0, Holding(s.index[b], false))
  {
    Starts(s, off, buf, entries, chunks);
    Passes(s, off, buf, 0, entries, chunks);
    Finds(s, off, buf, entries, chunks);
    s' := InCall(s, off, buf, 0, Holding(s.index[b], false));
  }

  /** It merges if there is an entry for it. */
  lemma CallMerges(s: State, b: nat, cov: set<nat>, off: nat, buf: seq<byte>, entries: nat, chunks: bool) returns (s': State)
    requires ReachedBig(s, entries, chunks) && Crowding(s, b, cov) && BaseOf(off) == b
    requires 0 < |buf| < DIRECT_THRESHOLD && BigCall(off, buf, chunks) && IntraOf(off) + |buf| <= ZONE
    requires RunCount(cov + Span(IntraOf(off), |buf|)) <= s.maxEntries && cov + Span(IntraOf(off), |buf|) != FullZone()
    ensures ReachedBig(s', entries, chunks) && Crowding(s', b, cov + Span(IntraOf(off), |buf|)) && s'.maxEntries == s.maxEntries
  {
    var held := CallHolds(s, b, cov, off, buf, entries, chunks);
    MergesHeld(s, held, b, cov, off, buf);
    s' := DoCommit(held, 0);
    BigNext(held, Foreground(0, Commit), entries, chunks);
  }

  lemma MergesHeld(s: State, held: State, b: nat, cov: set<nat>, off: nat, buf: seq<byte>)
    requires Crowding(s, b, cov) && BaseOf(off) == b && 0 < |buf| && IntraOf(off) + |buf| <= ZONE
    requires held == InCall(s, off, buf, 0, Holding(s.index[b], false))
    requires RunCount(cov + Span(IntraOf(off), |buf|)) <= s.maxEntries && cov + Span(IntraOf(off), |buf|) != FullZone()
    ensures CanCommit(held, 0)
    ensures Crowding(DoCommit(held, 0), b, cov + Span(IntraOf(off), |buf|)) && DoCommit(held, 0).maxEntries == s.maxEntries
  {
    assert ChunkLen(held.writers[0]) == |buf| && CurIntra(held.writers[0]) == IntraOf(off);
    assert CanCommit(held, 0);
    CommitTakes(held, 0);
    assert Advance(held.writers[0]).Idle?;
  }

  /** And it overflows if there is none. */
  lemma CallOverflows(s: State, b: nat, cov: set<nat>, off: nat, buf: seq<byte>, entries: nat, chunks: bool) returns (s': State)
    requires ReachedBig(s, entries, chunks) && Crowding(s, b, cov) && BaseOf(off) == b
    requires 0 < |buf| < DIRECT_THRESHOLD && BigCall(off, buf, chunks)
    requires RunCount(cov + Span(IntraOf(off), Min(ZONE - IntraOf(off), |buf|))) > s.maxEntries
    ensures ReachedBig(s', entries, chunks) && CanOverflow(s', 0)
  {
    s' := CallHolds(s, b, cov, off, buf, entries, chunks);
    assert ChunkLen(s'.writers[0]) == Min(ZONE - IntraOf(off), |buf|) && CurIntra(s'.writers[0]) == IntraOf(off);
  }

  // ------------------------------------------------------------ the first page

  /** The state with a fresh page for the chunk at `done`, held by its creator. */
  function WithPage(s: State, off: nat, buf: seq<byte>, done: nat, junk: seq<byte>): State {
    InCall(s, off, buf, done, Holding(|s.pages|, true)).(
      gate := s.gate.(live := s.gate.live + 1),
      pages := s.pages + [Page(BaseOf(off + done), {}, junk, Open, false, false)],
      index := s.index[BaseOf(off + done) := |s.pages|])
  }

  lemma CreateState(s: State, off: nat, buf: seq<byte>, done: nat, junk: seq<byte>)
    requires Calm(s) && done < |buf| && BaseOf(off + done) !in s.index && |junk| == ZONE
    ensures CanCreate(AtIndex(s, off, buf, done), 0, junk)
    ensures DoCreate(AtIndex(s, off, buf, done), 0, junk) == WithPage(s, off, buf, done, junk)
  {
    var s2 := AtIndex(s, off, buf, done);
    assert CanCreate(s2, 0, junk);
    assert G.Alloc(s2.gate, 0) == s.gate.(live := s.gate.live + 1);
    assert DoCreate(s2, 0, junk).writers == WithPage(s, off, buf, done, junk).writers;
  }

  lemma Creates(s: State, off: nat, buf: seq<byte>, done: nat, junk: seq<byte>, entries: nat, chunks: bool)
    requires Calm(s) && done < |buf| && BaseOf(off + done) !in s.index && |junk| == ZONE
    requires ReachedBig(InCall(s, off, buf, done, AtGate), entries, chunks)
    ensures ReachedBig(WithPage(s, off, buf, done, junk), entries, chunks)
  {
    Passes(s, off, buf, done, entries, chunks);
    CreateState(s, off, buf, done, junk);
    BigNext(AtIndex(s, off, buf, done), Foreground(0, Create(junk)), entries, chunks);
  }

  /** One more page, for the chunk at `done`, which it covers, and the thread moved on. */
  ghost predicate OneMorePage(s: State, s': State, off: nat, buf: seq<byte>, done: nat)
    requires done < |buf|
  {
    var b, n := BaseOf(off + done), Min(ZONE - IntraOf(off + done), |buf| - done);
    && Calm(s') && s'.gate == s.gate.(live := s.gate.live + 1) && s'.maxEntries == s.maxEntries
    && s'.index == s.index[b := |s.pages|] && |s'.pages| == |s.pages| + 1
    && s'.pages[|s.pages|] == Page(b, Span(IntraOf(off + done), n), s'.pages[|s.pages|].zone, Open, true, false)
    && |s'.pages[|s.pages|].zone| == ZONE
    && s'.writers == [if done + n == |buf| then Idle else Active(off, buf, done + n, AtGate, 0)]
  }

  lemma FirstCommit(s: State, off: nat, buf: seq<byte>, done: nat, junk: seq<byte>)
    requires Calm(s) && s.gate.live + 1 < s.gate.high && done < |buf| && |junk| == ZONE
    requires Min(ZONE - IntraOf(off + done), |buf| - done) < ZONE
    ensures var held := WithPage(s, off, buf, done, junk);
            CanCommit(held, 0) && OneMorePage(s, DoCommit(held, 0), off, buf, done)
  {
    var held := WithPage(s, off, buf, done, junk);
    FirstTaken(s, off, buf, done, junk);
    CommitTakes(held, 0);
    TakesFirst(s, off, buf, done, junk, held, Taken(held, 0), DoCommit(held, 0));
  }

  /** What taking the first chunk does to the state, given what it does to the page. */
  lemma TakesFirst(s: State, off: nat, buf: seq<byte>, done: nat, junk: seq<byte>, held: State, p: Page, s': State)
    requires Calm(s) && s.gate.live + 1 < s.gate.high && done < |buf| && held == WithPage(s, off, buf, done, junk)
    requires Takes(held, 0, s') && Held(held, 0) == |s.pages| && Taken(held, 0) == p && ToQ2(held, 0) == []
    requires var n := Min(ZONE - IntraOf(off + done), |buf| - done);
             p == Page(BaseOf(off + done), Span(IntraOf(off + done), n), p.zone, Open, true, false) && |p.zone| == ZONE
    ensures OneMorePage(s, s', off, buf, done)
  {
    assert s'.pages == held.pages[|s.pages| := p];
    FirstAdvance(off, buf, done, |s.pages|);
    assert s'.writers == [Advance(held.writers[0])];
  }

  lemma FirstAdvance(off: nat, buf: seq<byte>, done: nat, id: nat)
    requires done < |buf|
    ensures var n := Min(ZONE - IntraOf(off + done), |buf| - done);
            Advance(Active(off, buf, done, Holding(id, true), 0))
            == if done + n == |buf| then Idle else Active(off, buf, done + n, AtGate, 0)
  {
  }

  lemma FirstTaken(s: State, off: nat, buf: seq<byte>, done: nat, junk: seq<byte>)
    requires Calm(s) && done < |buf| && |junk| == ZONE && Min(ZONE - IntraOf(off + done), |buf| - done) < ZONE
    ensures var held, n := WithPage(s, off, buf, done, junk), Min(ZONE - IntraOf(off + done), |buf| - done);
            && CanCommit(held, 0) && Held(held, 0) == |s.pages| && |Taken(held, 0).zone| == ZONE && ToQ2(held, 0) == []
            && Taken(held, 0) == Page(BaseOf(off + done), Span(IntraOf(off + done), n), Taken(held, 0).zone, Open, true, false)
  {
    var held := WithPage(s, off, buf, done, junk);
    FirstFits(held.writers[0], held.pages[|s.pages|].cov);
    assert CanCommit(held, 0);
    assert {} + ChunkSpan(held.writers[0]) == ChunkSpan(held.writers[0]);
  }

  /** A fresh page takes its first chunk, which does not fill it. */
  lemma FirstChunk(s: State, off: nat, buf: seq<byte>, done: nat, entries: nat, chunks: bool) returns (s': State)
    requires Calm(s) && s.gate.live + 1 < s.gate.high && done < |buf| && BaseOf(off + done) !in s.index
    requires ReachedBig(InCall(s, off, buf, done, AtGate), entries, chunks)
    requires Min(ZONE - IntraOf(off + done), |buf| - done) < ZONE
    ensures ReachedBig(s', entries, chunks) && OneMorePage(s, s', off, buf, done)
  {
    var junk: seq<byte> := seq(ZONE, _ => 0);
    Creates(s, off, buf, done, junk, entries, chunks);
    FirstCommit(s, off, buf, done, junk);
    s' := DoCommit(WithPage(s, off, buf, done, junk), 0);
    BigNext(WithPage(s, off, buf, done, junk), Foreground(0, Commit), entries, chunks);
  }

  lemma FirstFits(w: Writer, cov: set<nat>)
    requires w.Active? && WriterOk(w) && cov == {} && ChunkLen(w) < ZONE
    ensures ChunkLen(w) > 0 && RunCount(cov + ChunkSpan(w)) == 1 && cov + ChunkSpan(w) != FullZone()
  {
    assert cov + ChunkSpan(w) == ChunkSpan(w);
    OneRun(CurIntra(w), ChunkLen(w));
    assert CurIntra(w) > 0 ==> 0 !in ChunkSpan(w);
    assert CurIntra(w) == 0 ==> ZONE - 1 !in ChunkSpan(w);
    assert 0 in FullZone() && ZONE - 1 in FullZone();
  }

  // ------------------------------------------------------------ one call after another

  function Block(): (buf: seq<byte>)
    ensures |buf| == BLOCK
  {
    seq(BLOCK, _ => 1)
  }

  lemma BlockIsBig(off: nat, chunks: bool)
    requires chunks ==> IntraOf(off) + BLOCK <= ZONE
    ensures BigCall(off, Block(), chunks)
  {
    if chunks {
      var w := Active(off, Block(), 0, AtGate, 0);
      assert ChunkLen(w) == BLOCK && ChunksFrom(off, Block(), BLOCK) == [];
      assert ChunksFrom(off, Block(), 0) == [Write(off, ChunkBytes(w))];
    }
  }

  /** Each segment of a canonical list is one more entry. */
  lemma PrefixRuns(list: seq<Seg>, k: nat)
    requires Canonical(list, ZONE) && k < |list|
    ensures Cov(list[..k + 1]) == Cov(list[..k]) + Span(list[k].off, list[k].size)
    ensures RunCount(Cov(list[..k + 1])) == k + 1
  {
    assert list[..k + 1] == list[..k] + [list[k]];
    CovAppend(list[..k], list[k]);
    CanonicalCounts(list[..k + 1], ZONE);
  }

  lemma {:induction false} NotFull(list: seq<Seg>)
    requires forall k :: 0 <= k < |list| ==> list[k].End() < ZONE
    ensures ZONE - 1 !in Cov(list)
  {
    if list != [] { NotFull(list[1..]); }
  }

  /** The segments before n but for the first are blocks, and none reaches the end of the zone. */
  ghost predicate BlocksUpTo(list: seq<Seg>, n: nat) {
    && Canonical(list, ZONE) && 1 <= n <= |list|
    && (forall k :: 0 <= k < n ==> list[k].End() < ZONE) && (forall k :: 1 <= k < n ==> list[k].size == BLOCK)
  }

  lemma {:induction false} CrowdTo(s: State, b: nat, list: seq<Seg>, k: nat, n: nat, entries: nat, chunks: bool)
    returns (s': State)
    requires BlocksUpTo(list, n) && 1 <= k <= n <= entries
    requires ReachedBig(s, entries, chunks) && s.maxEntries == entries && Crowding(s, b, Cov(list[..k]))
    ensures ReachedBig(s', entries, chunks) && s'.maxEntries == entries && Crowding(s', b, Cov(list[..n]))
    decreases n - k
  {
    if k == n {
      s' := s;
    } else {
      PrefixRuns(list, k);
      NotFull(list[..k + 1]);
      var next := BlockMerges(s, b, Cov(list[..k]), list[k].off, entries, chunks);
      s' := CrowdTo(next, b, list, k + 1, n, entries, chunks);
    }
  }

  lemma BlockMerges(s: State, b: nat, cov: set<nat>, i: nat, entries: nat, chunks: bool) returns (s': State)
    requires ReachedBig(s, entries, chunks) && s.maxEntries == entries && Crowding(s, b, cov) && i + BLOCK <= ZONE
    requires RunCount(cov + Span(i, BLOCK)) <= entries && ZONE - 1 !in cov + Span(i, BLOCK)
    ensures ReachedBig(s', entries, chunks) && s'.maxEntries == entries && Crowding(s', b, cov + Span(i, BLOCK))
  {
    Placed(b, i);
    assert ZONE - 1 in FullZone();
    BlockIsBig(b * ZONE + i, chunks);
    s' := CallMerges(s, b, cov, b * ZONE + i, Block(), entries, chunks);
  }

  lemma Placed(b: nat, i: nat)
    requires i < ZONE
    ensures BaseOf(b * ZONE + i) == b && IntraOf(b * ZONE + i) == i
  {
  }

  /** Segments 0..entries fill the page's array, and one more overflows it. */
  lemma OneTooMany(start: State, b: nat, list: seq<Seg>, entries: nat, chunks: bool) returns (s: State)
    requires 1 <= entries < |list| && BlocksUpTo(list, entries)
    requires ReachedBig(start, entries, chunks) && start.maxEntries == entries && Crowding(start, b, Cov(list[..1]))
    requires list[entries].size == Min(ZONE - list[entries].off, BLOCK)
    requires chunks ==> list[entries].size == BLOCK
    ensures ReachedBig(s, entries, chunks) && CanOverflow(s, 0)
  {
    var full := CrowdTo(start, b, list, 1, entries, entries, chunks);
    var off := b * ZONE + list[entries].off;
    Placed(b, list[entries].off);
    PrefixRuns(list, entries);
    BlockIsBig(off, chunks);
    s := CallOverflows(full, b, Cov(list[..entries]), off, Block(), entries, chunks);
  }

  // ------------------------------------------------------------------ calls of 4 KB

  /** The crowded zone and its last byte: 65 segments. */
  function EdgeList(): seq<Seg> {
    CrowdedZone() + [Seg(ZONE - 1, 1)]
  }

  lemma EdgeBlocks(n: nat)
    requires 1 <= n <= 64
    ensures BlocksUpTo(EdgeList(), n) && |EdgeList()| == 65 && Cov(EdgeList()[..1]) == Span(0, 1)
    ensures EdgeList()[n].size == Min(ZONE - EdgeList()[n].off, BLOCK)
  {
    assert EdgeList()[..1] == [Seg(0, 1)];
    assert Cov([Seg(0, 1)]) == Span(0, 1) + Cov([]);
  }

  /** Its part in page 0. */
  lemma EdgeHalf(entries: nat, off: nat) returns (s: State)
    requires entries >= 1 && off == CrowdingOffset(0)
    ensures ReachedBig(InCall(s, off, Block(), BLOCK - 1, AtGate), entries, false) && s.maxEntries == entries
    ensures Calm(s) && s.gate.live + 1 < s.gate.high && 1 !in s.index
  {
    var s0 := Opened(10, 1, entries);
    OpenedBig(s0, entries, false);
    BlockIsBig(off, false);
    Starts(s0, off, Block(), entries, false);
    assert BaseOf(off + 0) == 0 && ZONE - IntraOf(off + 0) == BLOCK - 1;
    s := FirstChunk(s0, off, Block(), 0, entries, false);
    assert InCall(s, off, Block(), BLOCK - 1, AtGate) == s;
  }

  /** The call that straddles pages 0 and 1 and leaves one byte in page 1. */
  lemma EdgeStart(entries: nat) returns (s: State)
    requires entries >= 1
    ensures ReachedBig(s, entries, false) && s.maxEntries == entries && Crowding(s, 1, Span(0, 1))
  {
    var off := CrowdingOffset(0);
    assert off + (BLOCK - 1) == ZONE;
    var s1 := EdgeHalf(entries, off);
    s := FirstChunk(s1, off, Block(), BLOCK - 1, entries, false);
  }

  lemma OpenedBig(s0: State, entries: nat, chunks: bool)
    requires s0 == Opened(10, 1, entries) && entries >= 1
    ensures ReachedBig(s0, entries, chunks) && Calm(s0) && s0.writers == [Idle]
  {
    assert Init(s0) && ValidRun(s0, []) && Run(s0, []) == s0 && BigRun([], chunks);
  }

  /** With zone / block entries or fewer, calls of 4 KB do overflow a page. */
  lemma CallsOverflow(entries: nat) returns (s: State)
    requires 1 <= entries <= ZONE / BLOCK
    ensures ReachedBig(s, entries, false) && CanOverflow(s, 0)
  {
    var start := EdgeStart(entries);
    EdgeBlocks(entries);
    s := OneTooMany(start, 1, EdgeList(), entries, false);
  }

  /** The entry array and calls, exactly: calls of a block or more can overflow a page if
      and only if it has at most zone / block entries. */
  lemma CallsOverflowIff(entries: nat)
    requires entries >= 1
    ensures (exists s: State, t: nat :: ReachedBig(s, entries, false) && CanOverflow(s, t)) <==> entries <= 64
  {
    if entries <= ZONE / BLOCK {
      var s := CallsOverflow(entries);
    } else {
      forall s: State, t: nat | ReachedBig(s, entries, false)
        ensures !CanOverflow(s, t)
      {
        var s0: State, steps: seq<Step> :|
          Init(s0) && s0.maxEntries == entries && ValidRun(s0, steps) && BigRun(steps, false) && Run(s0, steps) == s;
        forall k | 0 <= k < |steps| && steps[k].Foreground? && steps[k].fg.Start?
          ensures |steps[k].fg.buf| >= BLOCK
        {
          assert BigStep(steps[k], false);
        }
        BlockCallsNeverOverflow(s0, steps, t);
      }
    }
  }

  // ----------------------------------------------------------------- chunks of 4 KB

  /** As many blocks with gaps between them as fit. */
  function BlockList(): seq<Seg> {
    seq(63, k requires 0 <= k < 63 => Seg(GAP * k, BLOCK))
  }

  lemma BlockBlocks(n: nat)
    requires 1 <= n < 63
    ensures BlocksUpTo(BlockList(), n) && |BlockList()| == 63 && Cov(BlockList()[..1]) == Span(0, BLOCK)
    ensures BlockList()[n].size == BLOCK <= ZONE - BlockList()[n].off
  {
    assert BlockList()[..1] == [Seg(0, BLOCK)];
    assert Cov([Seg(0, BLOCK)]) == Span(0, BLOCK) + Cov([]);
  }

  lemma BlockStart(entries: nat) returns (s: State)
    requires entries >= 1
    ensures ReachedBig(s, entries, true) && s.maxEntries == entries && Crowding(s, 0, Span(0, BLOCK))
  {
    var s0 := Opened(10, 1, entries);
    OpenedBig(s0, entries, true);
    BlockIsBig(0, true);
    Starts(s0, 0, Block(), entries, true);
    s := FirstChunk(s0, 0, Block(), 0, entries, true);
  }

  /** With fewer than 63 entries, chunks of 4 KB do overflow a page. */
  lemma ChunksOverflow(entries: nat) returns (s: State)
    requires 1 <= entries < BLOCK_RUNS
    ensures ReachedBig(s, entries, true) && CanOverflow(s, 0)
  {
    var start := BlockStart(entries);
    BlockBlocks(entries);
    s := OneTooMany(start, 0, BlockList(), entries, true);
  }

  /** The entry array and chunks, exactly: chunks of a block or more can overflow a page if
      and only if it has fewer than 63 entries. */
  lemma ChunksOverflowIff(entries: nat)
    requires entries >= 1
    ensures (exists s: State, t: nat :: ReachedBig(s, entries, true) && CanOverflow(s, t)) <==> entries < BLOCK_RUNS
    ensures BLOCK_RUNS == 63
  {
    if entries < BLOCK_RUNS {
      var s := ChunksOverflow(entries);
    } else {
      forall s: State, t: nat | ReachedBig(s, entries, true)
        ensures !CanOverflow(s, t)
      {
        var s0: State, steps: seq<Step> :|
          Init(s0) && s0.maxEntries == entries && ValidRun(s0, steps) && BigRun(steps, true) && Run(s0, steps) == s;
        forall k | 0 <= k < |steps| && steps[k].Foreground? && steps[k].fg.Start?
          ensures forall c :: c in ChunksFrom(steps[k].fg.off, steps[k].fg.buf, 0) ==> |c.bytes| >= BLOCK
        {
          assert BigStep(steps[k], true);
        }
        BlockChunksNeverOverflow(s0, steps, t);
      }
    }
  }
}
