/** What every reachable state of the engine satisfies, in groups. The groups up to
    Gates hold in every run; Faithful holds as long as no I/O has failed. */
module EngineInv {
  import opened Geometry
  import opened Segments
  import opened Engine
  import G = Gate

  /** The pointer to page j. */
  function Of(s: State, j: nat): Ref
    requires j < |s.pages|
  {
    Ref(j, s.pages[j].base)
  }

  /** Pages that have not reached Q2 yet. */
  function Tail(s: State): seq<Ref> {
    S1Hand(s.s1) + s.q1
  }

  // ------------------------------------------------------------------- shape

  ghost predicate S1Shape(s: State) {
    match s.s1
    case Waiting(r, holes) => r.id < |s.pages| && FullZone() - s.pages[r.id].cov <= holes <= FullZone()
    case Reading(r, holes, todo, got, scratch) =>
      && r.id < |s.pages| && FullZone() - s.pages[r.id].cov <= holes
      && |scratch| == ZONE && |todo| <= ZONE / BLOCK / 2 && holes <= got + Cov(todo)
    case Ready(r) => r.id < |s.pages| && IsFull(s.pages[r.id])
    case Entered(r) => r.id < |s.pages| && IsFull(s.pages[r.id])
    case _ => true
  }

  ghost predicate S2Shape(s: State) {
    && (s.s2.S2Idle? || 1 <= |s.s2.batch| <= MAX_IOV)
    && (s.s2.Detaching? ==> s.s2.k < |s.s2.batch|)
    && (s.s2.Writing? ==> s.s2.calls <= (IO_MAX_STALL + 1) * |s.s2.batch|)
    && (forall k :: 0 <= k < |Batch(s.s2)| ==> Batch(s.s2)[k].base == Batch(s.s2)[0].base + k)
  }

  ghost predicate Shape(s: State) {
    && |s.wb| == WB_SLOTS && s.maxEntries >= 1
    && (forall r :: r in Line(s) ==> r.id < |s.pages| && s.pages[r.id].base == r.base)
    && (forall j :: 0 <= j < |s.pages| ==> |s.pages[j].zone| == ZONE && s.pages[j].cov <= FullZone())
    && (forall j :: j in s.freed ==> j < |s.pages|)
    && S1Shape(s) && S2Shape(s)
    && (s.dropped ==> s.ioErr)
  }

  /** Every page from Q2 on is completely covered. */
  ghost predicate Complete(s: State) {
    forall r :: r in Batch(s.s2) + s.q2 && r.id < |s.pages| ==> IsFull(s.pages[r.id])
  }

  // --------------------------------------------------------------- ownership

  /** `in_queue` and `detached` say exactly where a page is, and a freed page is
      nowhere except in the hands that are retiring it. */
  ghost predicate Flags(s: State) {
    && (forall j :: 0 <= j < |s.pages| ==>
          (s.pages[j].inQueue <==> Of(s, j) in Line(s) && Of(s, j) !in Claimed(s.s2)))
    && (forall j :: 0 <= j < |s.pages| ==>
          (s.pages[j].detached <==> j in s.freed || Of(s, j) in Unlinked(s.s2)))
    && (forall r :: r in Line(s) && r.id in s.freed ==>
          s.s2.Retiring? && !s.s2.sub.ToFree? && s.s2.batch != [] && r == s.s2.batch[0])
    && (s.s2.Retiring? && !s.s2.sub.ToFree? && s.s2.batch != [] ==> s.s2.batch[0].id in s.freed)
  }

  /** The index maps a base to its newest page, which no stage has unlinked. */
  ghost predicate Indexed(s: State) {
    forall b :: b in s.index ==>
      && s.index[b] < |s.pages| && s.pages[s.index[b]].base == b
      && s.index[b] !in s.freed && !s.pages[s.index[b]].detached
      && (forall j :: 0 <= j < |s.pages| && s.pages[j].base == b ==> j <= s.index[b])
  }

  predicate InIndex(s: State, id: nat)
    requires id < |s.pages|
  {
    s.pages[id].base in s.index && s.index[s.pages[id].base] == id
  }

  // ----------------------------------------------------------------- threads

  predicate FullChunk(w: Writer)
    requires w.Active? && WriterOk(w)
  {
    ChunkLen(w) == ZONE
  }

  /** The page has been completed: it is on its way through Stage-2 or gone. */
  predicate Past(s: State, id: nat)
    requires id < |s.pages|
  {
    || id in s.freed
    || Of(s, id) in Batch(s.s2) + s.q2
    || ((s.s1.Ready? || s.s1.Entered?) && s.s1.r == Of(s, id))
  }

  ghost predicate PcOk(s: State, w: Writer)
    requires w.Active? && WriterOk(w)
  {
    match w.pc
    case Coupling(id) => CurBase(w) in s.index && s.index[CurBase(w)] == id
    case Holding(id, created) =>
      && id < |s.pages| && s.pages[id].base == CurBase(w)
      && id !in s.freed && Of(s, id) !in Claimed(s.s2)
      && (s.pages[id].tag.Sealed? ==> !FullChunk(w))
      && (created ==> s.pages[id].cov == {} && Of(s, id) !in Line(s) && s.pages[id].tag.Open? && InIndex(s, id))
    case Unlinking(id) =>
      && id < |s.pages| && s.pages[id].base == CurBase(w) && !FullChunk(w)
      && (s.pages[id].tag.Sealed? || Past(s, id))
    case _ => true
  }

  ghost predicate Threads(s: State) {
    && |s.gate.threads| == |s.writers|
    && (forall t :: 0 <= t < |s.writers| && s.writers[t].Active? ==>
          WriterOk(s.writers[t]) && PcOk(s, s.writers[t]))
    && (forall t :: 0 <= t < |s.writers| ==>
          && (s.gate.threads[t].Admitted? <==> s.writers[t].Active? && s.writers[t].pc.Admitted?)
          && (s.gate.threads[t].Asleep? ==> s.writers[t].Active? && s.writers[t].pc.AtGate?))
  }

  predicate SameLock(v: Writer, w: Writer)
    requires v.Active? && w.Active?
  {
    || (v.pc.Holding? && w.pc.Holding? && v.pc.id == w.pc.id)
    || (v.pc.Coupling? && w.pc.Coupling? && ShardOf(CurBase(v)) == ShardOf(CurBase(w)))
  }

  /** Locks exclude each other, and calls in flight write disjoint bytes. */
  ghost predicate Exclusive(s: State) {
    forall t, u :: 0 <= t < |s.writers| && 0 <= u < |s.writers| && t != u
                   && s.writers[t].Active? && s.writers[u].Active? ==>
      && !SameLock(s.writers[t], s.writers[u])
      && Apart(s.writers[t].off, |s.writers[t].buf|, s.writers[u].off, |s.writers[u].buf|)
  }

  // ---------------------------------------------------------------- ordering

  /** Along the line, the generations of any one base increase. */
  ghost predicate Ordered(line: seq<Ref>) {
    forall i, j :: 0 <= i < j < |line| && line[i].base == line[j].base ==> line[i].id < line[j].id
  }

  /** What has been written back is older than what is still to be written. */
  ghost predicate OldestFirst(s: State) {
    forall j, r :: j in s.freed && j < |s.pages| && r in Line(s) && r.id != j && s.pages[j].base == r.base ==> j < r.id
  }

  /** The thread carries part of a zone of base b and is not inside any page of it. */
  ghost predicate Between(w: Writer, b: nat) {
    w.Active? && WriterOk(w) && (w.pc.AtGate? || w.pc.Admitted?) && CurBase(w) == b && !FullChunk(w)
  }

  /** A base with a page that has not reached Q2 is indexed, unless a thread is
      between unlinking its sealed page and looking the base up again. */
  ghost predicate Reachable(s: State) {
    forall r :: r in Tail(s) ==>
      r.base in s.index || exists t :: 0 <= t < |s.writers| && Between(s.writers[t], r.base)
  }

  /** A page created for a chunk that fills it has no older page before Q2. */
  ghost predicate BornFull(s: State) {
    forall t :: 0 <= t < |s.writers| && s.writers[t].Active? && WriterOk(s.writers[t])
                && s.writers[t].pc.Holding? && s.writers[t].pc.created && FullChunk(s.writers[t]) ==>
      forall r :: r in Tail(s) ==> r.base != CurBase(s.writers[t])
  }

  /** Whoever sealed an indexed page is about to unlink it. */
  ghost predicate SealedLeaving(s: State) {
    forall b :: b in s.index && s.index[b] < |s.pages| && s.pages[s.index[b]].tag.Sealed? ==>
      exists t :: 0 <= t < |s.writers| && s.writers[t].Active? && s.writers[t].pc == Unlinking(s.index[b])
  }

  /** The page has not been completed by Stage-1. */
  predicate Unfilled(s: State, r: Ref) {
    r in s.q1 || ((s.s1.Popped? || s.s1.Waiting? || s.s1.Reading?) && s.s1.r == r)
  }

  /** An incomplete page is indexed unless it is sealed. */
  ghost predicate OpenIndexed(s: State) {
    forall r :: Unfilled(s, r) && r.id < |s.pages| ==> s.pages[r.id].tag.Sealed? || InIndex(s, r.id)
  }

  ghost predicate Fresh(s: State, id: nat) {
    exists t :: 0 <= t < |s.writers| && s.writers[t].Active? && s.writers[t].pc == Holding(id, true)
  }

  /** A live page outside the line is in its creator's hands, or a failed read
      dropped it. */
  ghost predicate Accounted(s: State) {
    forall j :: 0 <= j < |s.pages| && j !in s.freed && Of(s, j) !in Line(s) ==>
      || Fresh(s, j)
      || (s.dropped && (s.pages[j].tag.Sealed? ||
                        (InIndex(s, j) && forall r :: r in Tail(s) ==> r.base != s.pages[j].base)))
  }

  /** A failed read dropped the page: it is live and nobody will ever write it, unless
      a writer puts it back into a queue. */
  ghost predicate Lost(s: State, j: nat) {
    s.dropped && j < |s.pages| && j !in s.freed && Of(s, j) !in Line(s) && !Fresh(s, j)
  }

  ghost predicate Discipline(s: State) {
    Ordered(Line(s)) && OldestFirst(s) && Reachable(s) && BornFull(s) && SealedLeaving(s) && OpenIndexed(s) && Accounted(s)
  }

  // ---------------------------------------------------------------- counters

  function SlotCount(refs: seq<Ref>, slot: nat): nat {
    if refs == [] then 0
    else SlotCount(refs[..|refs| - 1], slot) + if WbSlot(refs[|refs| - 1].base) == slot then 1 else 0
  }

  function GuardedBatch(s2: Stage2): seq<Ref> {
    if s2.Retiring? && s2.sub.ToDec? && s2.batch != [] then s2.batch[1..] else Batch(s2)
  }

  function GuardedHand(s1: Stage1): seq<Ref> {
    if s1.Entered? then [s1.r] else []
  }

  /** Pages pending writeback, as the guard counts them. */
  function Guarded(s: State): seq<Ref> {
    GuardedBatch(s.s2) + s.q2 + GuardedHand(s.s1)
  }

  ghost predicate Counters(s: State) {
    && s.pending == |Line(s)|
    && |s.wb| == WB_SLOTS
    && (forall k :: 0 <= k < WB_SLOTS ==> s.wb[k] == SlotCount(Guarded(s), k))
    && s.bcount == (if s.s1.Reading? then ZONE else 0) + (if s.s2.Writing? then |s.s2.batch| * ZONE else 0)
    && s.gate.live + |s.freed| == |s.pages|
  }

  // ----------------------------------------------------------------- content

  /** Page j shows its byte at offset i: no newer live page of its base covers i. */
  ghost predicate Shows(s: State, j: nat, i: nat) {
    && j < |s.pages| && j !in s.freed && i < ZONE && i in s.pages[j].cov
    && forall k :: j < k < |s.pages| && k !in s.freed && s.pages[k].base == s.pages[j].base ==> i !in s.pages[k].cov
  }

  /** No live page covers the address. */
  ghost predicate Bare(s: State, b: nat, i: nat) {
    forall k :: 0 <= k < |s.pages| && k !in s.freed && s.pages[k].base == b ==> i !in s.pages[k].cov
  }

  ghost predicate PagesFaithful(s: State) {
    forall j: nat, i: nat :: Shows(s, j, i) && |s.pages[j].zone| == ZONE ==>
      s.pages[j].zone[i] == Flat(s.init, s.log, s.pages[j].base, i)
  }

  ghost predicate DiskFaithful(s: State) {
    forall b: nat, i: nat {:trigger DiskByte(s.disk, b, i)} {:trigger Bare(s, b, i)} :: i < ZONE && Bare(s, b, i) ==>
      DiskByte(s.disk, b, i) == Flat(s.init, s.log, b, i)
  }

  /** A thread inside a page writes nothing a newer page of the base has. */
  ghost predicate Undisturbed(s: State) {
    forall t, j, i: nat {:trigger s.writers[t], i in s.pages[j].cov} ::
      0 <= t < |s.writers| && s.writers[t].Active? && s.writers[t].pc.Holding?
      && s.writers[t].pc.id < j < |s.pages| && j !in s.freed && WriterOk(s.writers[t])
      && s.pages[j].base == CurBase(s.writers[t]) && i in s.pages[j].cov ==>
        !InRange(s.writers[t], s.pages[j].base, i)
  }

  /** While Stage-1 reads a zone its page is the oldest live one of that base, and
      what it has read is what the disk holds. */
  ghost predicate FreshRead(s: State) {
    s.s1.Reading? ==>
      && (forall j :: 0 <= j < |s.pages| && s.pages[j].base == s.s1.r.base && j < s.s1.r.id ==> j in s.freed)
      && (forall i: nat :: i in s.s1.got && i < ZONE && |s.s1.scratch| == ZONE ==>
            s.s1.scratch[i] == DiskByte(s.disk, s.s1.r.base, i))
  }

  /** Pages about to be freed are on disk. */
  ghost predicate OnDisk(s: State) {
    s.s2.Retiring? ==>
      forall k: nat, i: nat {:trigger DiskByte(s.disk, s.s2.batch[k].base, i)} ::
        k < |s.s2.batch| && i < ZONE && s.s2.batch[k].id < |s.pages| && s.s2.batch[k].id !in s.freed
        && |s.pages[s.s2.batch[k].id].zone| == ZONE ==>
          DiskByte(s.disk, s.s2.batch[k].base, i) == s.pages[s.s2.batch[k].id].zone[i]
  }

  ghost predicate Faithful(s: State) {
    !s.ioErr ==> PagesFaithful(s) && DiskFaithful(s) && Undisturbed(s) && FreshRead(s) && OnDisk(s)
  }

  // ------------------------------------------------------------ whole writes

  /** No call in flight has merged its byte for the address. */
  ghost predicate Untouched(s: State, b: nat, i: nat) {
    forall t :: 0 <= t < |s.writers| && s.writers[t].Active? ==> !InDone(s.writers[t], b, i)
  }

  /** What a call in flight has merged is in the flat file; everywhere else the
      flat file is what the completed calls made it. */
  ghost predicate Visible(s: State) {
    && (forall t, b: nat, i: nat {:trigger InDone(s.writers[t], b, i)} ::
          0 <= t < |s.writers| && s.writers[t].Active? && WriterOk(s.writers[t]) && i < ZONE && InDone(s.writers[t], b, i) ==>
            Flat(s.init, s.log, b, i) == s.writers[t].buf[b * ZONE + i - s.writers[t].off])
    && (forall b: nat, i: nat {:trigger Flat(s.init, s.log, b, i)} :: i < ZONE && Untouched(s, b, i) ==>
            Flat(s.init, s.log, b, i) == Flat(s.init, s.returned, b, i))
  }

  ghost predicate Closing(s: State) {
    && (!s.closer.Running? ==> AllIdle(s) && !s.gate.armed)
    && (s.closer.Stopping? || s.closer.Closed? ==> Line(s) == [] && s.closer.err == s.ioErr)
  }

  /** With one foreground thread a chunk is retried at most once. */
  ghost predicate OneRetry(s: State) {
    |s.writers| == 1 && s.writers[0].Active? && WriterOk(s.writers[0]) ==>
      && s.writers[0].retries <= 1
      && (s.writers[0].pc.Holding? || s.writers[0].pc.Unlinking? ==>
            CurBase(s.writers[0]) in s.index ==> s.index[CurBase(s.writers[0])] == s.writers[0].pc.id)
      && (s.writers[0].retries == 1 ==>
            && !s.writers[0].pc.Coupling? && !s.writers[0].pc.Unlinking?
            && (s.writers[0].pc.Holding? ==> s.writers[0].pc.created)
            && ((s.writers[0].pc.AtGate? || s.writers[0].pc.Admitted?) ==> CurBase(s.writers[0]) !in s.index))
  }

  ghost predicate Inv(s: State) {
    && Shape(s) && Complete(s) && Flags(s) && Indexed(s) && Threads(s) && Exclusive(s)
    && Discipline(s) && Counters(s) && G.GateOk(s.gate)
    && Faithful(s) && Visible(s) && Closing(s) && OneRetry(s)
  }
}
