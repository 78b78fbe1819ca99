/** The scrap path as a step system. A state holds the disk, the pages ever
    created, the page index, both queues, what each background stage has in its
    hands and where every foreground thread stands; a step is one section of the
    engine that runs under a lock, or one system call. Every interleaving of the
    foreground threads with Stage-1 and Stage-2 is a sequence of such steps. */
module Engine {
  import opened Geometry
  import opened Segments
  import Z = Zones
  import G = Gate

  // ------------------------------------------------------------------ device

  /** Contents of the file, zone by zone; what is missing lies past its end. */
  type Disk = map<nat, seq<byte>>

  function DiskByte(disk: Disk, base: nat, i: nat): byte {
    if base in disk && i < |disk[base]| then disk[base][i] else 0
  }

  // ------------------------------------------------------------------- pages

  datatype Tag = Open | Full | Sealed | Flushing

  /** A scrap page. Its identity is its position in the list of all pages ever
      created, which is also its generation. */
  datatype Page = Page(base: nat, cov: set<nat>, zone: seq<byte>, tag: Tag, inQueue: bool, detached: bool)

  /** A page pointer in a queue or in a stage's hands. The base of a page never
      changes, so it travels with the pointer. */
  datatype Ref = Ref(id: nat, base: nat)

  predicate IsFull(p: Page) {
    p.cov == FullZone()
  }

  // ----------------------------------------------------------------- writers

  /** Where a foreground thread stands in scrap_write_chunk. */
  datatype Pc =
    | AtGate                          // at or in nox_watermark_wait, no lock held
    | Admitted                        // about to look its base up
    | Coupling(id: nat)               // holds the shard lock, wants the page lock
    | Holding(id: nat, created: bool) // holds the page lock
    | Unlinking(id: nat)              // released a sealed page, has not detached it yet

  /** A foreground thread. `buf[..done]` has been merged; the chunk at `done` is
      the one in scrap_write_chunk, retried `retries` times so far. */
  datatype Writer =
    | Idle
    | Active(off: nat, buf: seq<byte>, done: nat, pc: Pc, retries: nat)

  predicate WriterOk(w: Writer) {
    w.Active? ==> w.done < |w.buf|
  }

  function CurBase(w: Writer): nat
    requires w.Active?
  {
    BaseOf(w.off + w.done)
  }

  function CurIntra(w: Writer): nat
    requires w.Active?
  {
    IntraOf(w.off + w.done)
  }

  function ChunkLen(w: Writer): nat
    requires w.Active? && WriterOk(w)
  {
    Min(ZONE - CurIntra(w), |w.buf| - w.done)
  }

  function ChunkSpan(w: Writer): set<nat>
    requires w.Active? && WriterOk(w)
  {
    Span(CurIntra(w), ChunkLen(w))
  }

  /** The address (base, i) lies in the range this call writes. */
  predicate InRange(w: Writer, base: nat, i: nat)
    requires w.Active?
  {
    w.off <= base * ZONE + i < w.off + |w.buf|
  }

  predicate InDone(w: Writer, base: nat, i: nat)
    requires w.Active?
  {
    w.off <= base * ZONE + i < w.off + w.done
  }

  predicate Apart(off: nat, size: nat, off': nat, size': nat) {
    off + size <= off' || off' + size' <= off
  }

  /** nox_write sends these straight to the device. */
  predicate FastPath(off: nat, size: nat) {
    size >= DIRECT_THRESHOLD && size % BLOCK == 0 && off % BLOCK == 0
  }

  // ------------------------------------------------------------- flat content

  /** Bytes written at a file offset. */
  datatype Write = Write(off: nat, bytes: seq<byte>)

  predicate Hits(w: Write, base: nat, i: nat) {
    w.off <= base * ZONE + i < w.off + |w.bytes|
  }

  /** The flat file: the initial contents with a list of writes applied in order. */
  function Flat(init: Disk, log: seq<Write>, base: nat, i: nat): byte {
    if log == [] then DiskByte(init, base, i)
    else
      var last := log[|log| - 1];
      if Hits(last, base, i) then last.bytes[base * ZONE + i - last.off]
      else Flat(init, log[..|log| - 1], base, i)
  }

  // ------------------------------------------------------------------- stages

  /** What Stage-1 holds. */
  datatype Stage1 =
    | S1Idle
    | Popped(r: Ref)
    | Waiting(r: Ref, holes: set<nat>)   // holes snapshotted, before the writeback guard
    | Reading(r: Ref, holes: set<nat>, todo: seq<Seg>, got: set<nat>, scratch: seq<byte>)
    | Ready(r: Ref)                      // complete, before wb_guard_enter
    | Entered(r: Ref)                    // counted by the guard, before the push to Q2

  datatype Sub = ToFree | ToLeave | ToDec

  /** What Stage-2 holds. */
  datatype Stage2 =
    | S2Idle
    | Collecting(batch: seq<Ref>)
    | Detaching(batch: seq<Ref>, k: nat, unlinked: bool)
    | Writing(batch: seq<Ref>, calls: nat)
    | Retiring(batch: seq<Ref>, sub: Sub)

  datatype Closer = Running | Draining | Stopping(err: bool) | Closed(err: bool)

  datatype State = State(
    disk: Disk,
    pages: seq<Page>,
    freed: set<nat>,
    index: map<nat, nat>,
    q1: seq<Ref>,
    q2: seq<Ref>,
    s1: Stage1,
    s2: Stage2,
    writers: seq<Writer>,
    gate: G.Gate,
    wb: seq<nat>,
    pending: nat,
    bcount: nat,
    ioErr: bool,
    closer: Closer,
    maxEntries: nat,
    init: Disk,             // contents of the file when the engine was opened
    log: seq<Write>,        // merged chunks and fast writes, in the order they took effect
    calls: seq<Write>,      // nox_write calls that have returned, in that order
    returned: seq<Write>,   // what each of them wrote: all of it, or what a failed direct write got done
    dropped: bool)          // some Stage-1 read has failed

  function S1Hand(s1: Stage1): seq<Ref> {
    if s1.S1Idle? then [] else [s1.r]
  }

  function Batch(s2: Stage2): seq<Ref> {
    if s2.S2Idle? then [] else s2.batch
  }

  /** Pages on their way to disk, next to be written first. */
  function Line(s: State): seq<Ref> {
    Batch(s.s2) + s.q2 + S1Hand(s.s1) + s.q1
  }

  /** Stage-2 pages already unlinked from the index. */
  function Unlinked(s2: Stage2): seq<Ref> {
    match s2
    case Detaching(batch, k, unlinked) =>
      if unlinked && k < |batch| then batch[..k + 1] else if k <= |batch| then batch[..k] else batch
    case Writing(batch, _) => batch
    case Retiring(batch, _) => batch
    case _ => []
  }

  /** Stage-2 pages already tagged FLUSHING. */
  function Claimed(s2: Stage2): seq<Ref> {
    match s2
    case Detaching(batch, k, _) => if k <= |batch| then batch[..k] else batch
    case Writing(batch, _) => batch
    case Retiring(batch, _) => batch
    case _ => []
  }

  /** No thread holds the page lock. */
  predicate PageFree(s: State, id: nat) {
    forall u :: 0 <= u < |s.writers| && s.writers[u].Active? && s.writers[u].pc.Holding? ==> s.writers[u].pc.id != id
  }

  /** No thread holds the shard lock that guards this base. */
  predicate ShardFree(s: State, base: nat) {
    forall u :: 0 <= u < |s.writers| && s.writers[u].Active? && s.writers[u].pc.Coupling? ==>
      ShardOf(CurBase(s.writers[u])) != ShardOf(base)
  }

  predicate ThreadAt(s: State, t: nat) {
    t < |s.writers| && s.writers[t].Active? && WriterOk(s.writers[t])
  }

  function Move(s: State, t: nat, pc: Pc): seq<Writer>
    requires ThreadAt(s, t)
  {
    s.writers[t := s.writers[t].(pc := pc)]
  }

  // --------------------------------------------------------- foreground steps

  /** The caller writes nothing that a call in flight writes. */
  predicate ClearOfCalls(s: State, off: nat, size: nat) {
    forall u :: 0 <= u < |s.writers| && s.writers[u].Active? ==> Apart(off, size, s.writers[u].off, |s.writers[u].buf|)
  }

  predicate CanStart(s: State, t: nat, off: nat, buf: seq<byte>) {
    && t < |s.writers| && s.writers[t].Idle? && s.closer.Running?
    && |buf| > 0 && !FastPath(off, |buf|)
    && ClearOfCalls(s, off, |buf|)
  }

  function DoStart(s: State, t: nat, off: nat, buf: seq<byte>): State
    requires CanStart(s, t, off, buf)
  {
    s.(writers := s.writers[t := Active(off, buf, 0, AtGate, 0)])
  }

  predicate CanGateEnter(s: State, t: nat) {
    ThreadAt(s, t) && s.writers[t].pc.AtGate? && t < |s.gate.threads| && s.gate.threads[t].Outside?
  }

  function DoGateEnter(s: State, t: nat): State
    requires CanGateEnter(s, t)
  {
    var g := G.Enter(s.gate, t);
    s.(gate := g, writers := if g.threads[t].Admitted? then Move(s, t, Admitted) else s.writers)
  }

  predicate CanGateWake(s: State, t: nat) {
    ThreadAt(s, t) && s.writers[t].pc.AtGate? && t < |s.gate.threads| && s.gate.threads[t].Asleep?
  }

  function DoGateWake(s: State, t: nat): State
    requires CanGateWake(s, t)
  {
    var g := G.Wake(s.gate, t);
    s.(gate := g, writers := if g.threads[t].Admitted? then Move(s, t, Admitted) else s.writers)
  }

  predicate CanLookup(s: State, t: nat) {
    && ThreadAt(s, t) && s.writers[t].pc.Admitted?
    && t < |s.gate.threads| && s.gate.threads[t].Admitted?
    && ShardFree(s, CurBase(s.writers[t]))
  }

  predicate CanFind(s: State, t: nat) {
    CanLookup(s, t) && CurBase(s.writers[t]) in s.index
  }

  function DoFind(s: State, t: nat): State
    requires CanFind(s, t)
  {
    s.(gate := G.Pass(s.gate, t), writers := Move(s, t, Coupling(s.index[CurBase(s.writers[t])])))
  }

  /** `junk` is whatever the uninitialised data zone happens to hold. */
  predicate CanCreate(s: State, t: nat, junk: seq<byte>) {
    CanLookup(s, t) && CurBase(s.writers[t]) !in s.index && |junk| == ZONE
  }

  function DoCreate(s: State, t: nat, junk: seq<byte>): State
    requires CanCreate(s, t, junk)
  {
    var b := CurBase(s.writers[t]);
    var id := |s.pages|;
    s.(gate := G.Alloc(s.gate, t),
       pages := s.pages + [Page(b, {}, junk, Open, false, false)],
       index := s.index[b := id],
       writers := Move(s, t, Holding(id, true)))
  }

  predicate CanLock(s: State, t: nat) {
    ThreadAt(s, t) && s.writers[t].pc.Coupling? && PageFree(s, s.writers[t].pc.id)
  }

  function DoLock(s: State, t: nat): State
    requires CanLock(s, t)
  {
    s.(writers := Move(s, t, Holding(s.writers[t].pc.id, false)))
  }

  predicate HasPage(s: State, t: nat) {
    ThreadAt(s, t) && s.writers[t].pc.Holding? && s.writers[t].pc.id < |s.pages|
  }

  predicate CanSeeSealed(s: State, t: nat) {
    HasPage(s, t) && s.pages[s.writers[t].pc.id].tag.Sealed?
  }

  function DoSeeSealed(s: State, t: nat): State
    requires CanSeeSealed(s, t)
  {
    s.(writers := Move(s, t, Unlinking(s.writers[t].pc.id)))
  }

  predicate Overflows(s: State, t: nat)
    requires HasPage(s, t)
  {
    RunCount(s.pages[s.writers[t].pc.id].cov + ChunkSpan(s.writers[t])) > s.maxEntries
  }

  /** otflush_enqueue_partial */
  function EnqueuePartial(s: State, id: nat): State
    requires id < |s.pages|
  {
    var p := s.pages[id];
    if p.inQueue then s
    else s.(pages := s.pages[id := p.(inQueue := true)],
            pending := s.pending + 1,
            q1 := s.q1 + [Ref(id, p.base)])
  }

  /** otflush_enqueue_full */
  function EnqueueFull(s: State, id: nat): State
    requires id < |s.pages| && |s.wb| == WB_SLOTS
  {
    var p := s.pages[id].(tag := Full);
    if p.inQueue then s.(pages := s.pages[id := p])
    else s.(pages := s.pages[id := p.(inQueue := true)],
            pending := s.pending + 1,
            wb := s.wb[WbSlot(p.base) := s.wb[WbSlot(p.base)] + 1],
            q2 := s.q2 + [Ref(id, p.base)])
  }

  predicate CanOverflow(s: State, t: nat) {
    HasPage(s, t) && !s.pages[s.writers[t].pc.id].tag.Sealed? && Overflows(s, t)
  }

  function DoOverflow(s: State, t: nat): State
    requires CanOverflow(s, t)
  {
    var id := s.writers[t].pc.id;
    var s1 := s.(pages := s.pages[id := s.pages[id].(tag := Sealed)]);
    EnqueuePartial(s1, id).(writers := Move(s, t, Unlinking(id)))
  }

  predicate CanCommit(s: State, t: nat) {
    && HasPage(s, t) && !s.pages[s.writers[t].pc.id].tag.Sealed? && !Overflows(s, t)
    && |s.pages[s.writers[t].pc.id].zone| == ZONE && |s.wb| == WB_SLOTS
  }

  /** scrap_page_merge on its success path */
  function Merge(p: Page, at: nat, bytes: seq<byte>): Page
    requires |p.zone| == ZONE
  {
    p.(cov := p.cov + Span(at, |bytes|), zone := Z.Patch(p.zone, at, bytes))
  }

  function ChunkBytes(w: Writer): seq<byte>
    requires w.Active? && WriterOk(w)
  {
    w.buf[w.done..w.done + ChunkLen(w)]
  }

  /** The thread after its current chunk has been merged. */
  function Advance(w: Writer): Writer
    requires w.Active? && WriterOk(w)
  {
    var done := w.done + ChunkLen(w);
    if done == |w.buf| then Idle else Active(w.off, w.buf, done, AtGate, 0)
  }

  function DoCommit(s: State, t: nat): State
    requires CanCommit(s, t)
  {
    var w := s.writers[t];
    var id := w.pc.id;
    var p := Merge(s.pages[id], CurIntra(w), ChunkBytes(w));
    var s1 := s.(pages := s.pages[id := p]);
    var s2 := if IsFull(p) then EnqueueFull(s1, id)
              else if w.pc.created then EnqueuePartial(s1, id)
              else s1;
    s2.(writers := s.writers[t := Advance(w)],
        log := s.log + [Write(w.off + w.done, ChunkBytes(w))],
        calls := if Advance(w).Idle? then s.calls + [Write(w.off, w.buf)] else s.calls,
        returned := if Advance(w).Idle? then s.returned + [Write(w.off, w.buf)] else s.returned)
  }

  predicate CanUnlink(s: State, t: nat) {
    ThreadAt(s, t) && s.writers[t].pc.Unlinking? && ShardFree(s, CurBase(s.writers[t]))
  }

  /** page_index_detach_if: by identity, not by base */
  function DetachIf(index: map<nat, nat>, base: nat, id: nat): map<nat, nat> {
    if base in index && index[base] == id then index - {base} else index
  }

  function DoUnlink(s: State, t: nat): State
    requires CanUnlink(s, t)
  {
    var w := s.writers[t];
    s.(index := DetachIf(s.index, CurBase(w), w.pc.id),
       writers := s.writers[t := w.(pc := AtGate, retries := w.retries + 1)])
  }

  // ------------------------------------------------------------ Stage-1 steps

  predicate SsdBusy(s: State) {
    s.bcount >= BUSY_THRESHOLD
  }

  predicate CanS1Pop(s: State) {
    s.s1.S1Idle? && s.q1 != []
  }

  function DoS1Pop(s: State): State
    requires CanS1Pop(s)
  {
    s.(s1 := Popped(s.q1[0]), q1 := s.q1[1..])
  }

  /** Stage-1 popped a page and can take its lock. */
  predicate S1AtPage(s: State) {
    s.s1.Popped? && s.s1.r.id < |s.pages| && PageFree(s, s.s1.r.id)
  }

  predicate CanS1Forward(s: State) {
    S1AtPage(s) && IsFull(s.pages[s.s1.r.id])
  }

  function DoS1Forward(s: State): State
    requires CanS1Forward(s)
  {
    s.(s1 := Ready(s.s1.r))
  }

  predicate CanS1Busy(s: State) {
    S1AtPage(s) && !IsFull(s.pages[s.s1.r.id]) && SsdBusy(s)
  }

  /** Busy device: back to the tail of Q1. */
  function DoS1Busy(s: State): State
    requires CanS1Busy(s)
  {
    s.(s1 := S1Idle, q1 := s.q1 + [s.s1.r])
  }

  predicate CanS1Snapshot(s: State) {
    S1AtPage(s) && !IsFull(s.pages[s.s1.r.id]) && !SsdBusy(s)
  }

  function DoS1Snapshot(s: State): State
    requires CanS1Snapshot(s)
  {
    s.(s1 := Waiting(s.s1.r, FullZone() - s.pages[s.s1.r.id].cov))
  }

  /** wb_guard_wait returns. `plan` is the list of preads that will be issued;
      `stale` is whatever the scratch zone holds from its last use. */
  predicate CanS1Guard(s: State, plan: seq<Seg>, stale: seq<byte>) {
    && s.s1.Waiting? && |s.wb| == WB_SLOTS && s.wb[WbSlot(s.s1.r.base)] == 0
    && s.s1.holes <= Cov(plan) && InOrder(plan) && |plan| <= ZONE / BLOCK / 2 && |stale| == ZONE
  }

  function DoS1Guard(s: State, plan: seq<Seg>, stale: seq<byte>): State
    requires CanS1Guard(s, plan, stale)
  {
    s.(s1 := Reading(s.s1.r, s.s1.holes, plan, {}, stale), bcount := s.bcount + ZONE)
  }

  predicate CanS1Read(s: State) {
    s.s1.Reading? && s.s1.todo != [] && |s.s1.scratch| == ZONE
  }

  /** One pread into the scratch zone, zeros past the end of the file. */
  function DoS1Read(s: State): State
    requires CanS1Read(s)
  {
    var h := s.s1;
    var run := Span(h.todo[0].off, h.todo[0].size);
    s.(s1 := h.(todo := h.todo[1..],
                got := h.got + run,
                scratch := seq(ZONE, i requires 0 <= i < ZONE =>
                             if i in run then DiskByte(s.disk, h.r.base, i) else h.scratch[i])))
  }

  predicate CanS1Fail(s: State) {
    && s.s1.Reading? && s.s1.todo != [] && s.s1.r.id < |s.pages| && PageFree(s, s.s1.r.id)
    && s.bcount >= ZONE && s.pending > 0
  }

  /** A pread failed: the page is dropped, still counted live. */
  function DoS1Fail(s: State): State
    requires CanS1Fail(s)
  {
    var id := s.s1.r.id;
    s.(s1 := S1Idle, bcount := s.bcount - ZONE, ioErr := true, dropped := true,
       pages := s.pages[id := s.pages[id].(inQueue := false)], pending := s.pending - 1)
  }

  predicate CanS1Fill(s: State) {
    && s.s1.Reading? && s.s1.todo == [] && s.s1.r.id < |s.pages| && PageFree(s, s.s1.r.id)
    && |s.s1.scratch| == ZONE && |s.pages[s.s1.r.id].zone| == ZONE && s.bcount >= ZONE
  }

  /** scrap_page_apply_holes: bytes that are still holes come from the scratch. */
  function Fill(p: Page, scratch: seq<byte>): Page
    requires |p.zone| == ZONE && |scratch| == ZONE
  {
    p.(cov := FullZone(), zone := Z.Completed(p.zone, p.cov, scratch), tag := Full)
  }

  function DoS1Fill(s: State): State
    requires CanS1Fill(s)
  {
    var id := s.s1.r.id;
    s.(s1 := Ready(s.s1.r), bcount := s.bcount - ZONE,
       pages := s.pages[id := Fill(s.pages[id], s.s1.scratch)])
  }

  predicate CanS1Enter(s: State) {
    s.s1.Ready? && |s.wb| == WB_SLOTS
  }

  function DoS1Enter(s: State): State
    requires CanS1Enter(s)
  {
    var slot := WbSlot(s.s1.r.base);
    s.(s1 := Entered(s.s1.r), wb := s.wb[slot := s.wb[slot] + 1])
  }

  predicate CanS1Push(s: State) {
    s.s1.Entered?
  }

  function DoS1Push(s: State): State
    requires CanS1Push(s)
  {
    s.(s1 := S1Idle, q2 := s.q2 + [s.s1.r])
  }

  // ------------------------------------------------------------ Stage-2 steps

  predicate CanS2Pop(s: State) {
    s.s2.S2Idle? && s.q2 != [] && !SsdBusy(s)
  }

  function DoS2Pop(s: State): State
    requires CanS2Pop(s)
  {
    s.(s2 := Collecting([s.q2[0]]), q2 := s.q2[1..])
  }

  predicate CanS2Busy(s: State) {
    s.s2.S2Idle? && s.q2 != [] && SsdBusy(s)
  }

  /** Busy device: back to the tail of Q2. */
  function DoS2Busy(s: State): State
    requires CanS2Busy(s)
  {
    s.(q2 := s.q2[1..] + [s.q2[0]])
  }

  /** nox_queue_pop_if_base would deliver another page for this batch. */
  predicate NextFits(s: State) {
    && s.s2.Collecting? && 0 < |s.s2.batch| < MAX_IOV && s.q2 != []
    && s.q2[0].base == s.s2.batch[0].base + |s.s2.batch|
  }

  predicate NextAtHand(s: State) {
    NextFits(s) && s.q2[0].id < |s.pages| && PageFree(s, s.q2[0].id)
  }

  predicate NextReady(s: State)
    requires NextAtHand(s)
  {
    IsFull(s.pages[s.q2[0].id]) || s.pages[s.q2[0].id].tag.Full?
  }

  predicate CanS2Gather(s: State) {
    NextAtHand(s) && NextReady(s)
  }

  function DoS2Gather(s: State): State
    requires CanS2Gather(s)
  {
    s.(s2 := Collecting(s.s2.batch + [s.q2[0]]), q2 := s.q2[1..])
  }

  predicate CanS2Reject(s: State) {
    NextAtHand(s) && !NextReady(s)
  }

  /** A page that is not complete goes back to the tail of Q2. */
  function DoS2Reject(s: State): State
    requires CanS2Reject(s)
  {
    s.(s2 := Detaching(s.s2.batch, 0, false), q2 := s.q2[1..] + [s.q2[0]])
  }

  predicate CanS2EndCollect(s: State) {
    s.s2.Collecting? && !NextFits(s)
  }

  function DoS2EndCollect(s: State): State
    requires CanS2EndCollect(s)
  {
    s.(s2 := Detaching(s.s2.batch, 0, false))
  }

  predicate CanS2Unlink(s: State) {
    && s.s2.Detaching? && s.s2.k < |s.s2.batch| && !s.s2.unlinked
    && s.s2.batch[s.s2.k].id < |s.pages| && ShardFree(s, s.s2.batch[s.s2.k].base)
  }

  function DoS2Unlink(s: State): State
    requires CanS2Unlink(s)
  {
    var r := s.s2.batch[s.s2.k];
    var p := s.pages[r.id];
    s.(index := if p.detached then s.index else DetachIf(s.index, r.base, r.id),
       pages := s.pages[r.id := p.(detached := true)],
       s2 := s.s2.(unlinked := true))
  }

  predicate CanS2Claim(s: State) {
    && s.s2.Detaching? && s.s2.k < |s.s2.batch| && s.s2.unlinked
    && s.s2.batch[s.s2.k].id < |s.pages| && PageFree(s, s.s2.batch[s.s2.k].id)
  }

  function DoS2Claim(s: State): State
    requires CanS2Claim(s)
  {
    var r := s.s2.batch[s.s2.k];
    var last := s.s2.k + 1 == |s.s2.batch|;
    s.(pages := s.pages[r.id := s.pages[r.id].(tag := Flushing, inQueue := false)],
       s2 := if last then Writing(s.s2.batch, 0) else Detaching(s.s2.batch, s.s2.k + 1, false),
       bcount := if last then s.bcount + |s.s2.batch| * ZONE else s.bcount)
  }

  /** The byte the batch puts at (base, i) is the one the disk now holds. */
  predicate LandedAt(pages: seq<Page>, batch: seq<Ref>, disk: Disk, base: nat, i: nat) {
    && batch != [] && batch[0].base <= base < batch[0].base + |batch|
    && var id := batch[base - batch[0].base].id;
       id < |pages| && i < |pages[id].zone| && DiskByte(disk, base, i) == pages[id].zone[i]
  }

  /** What one pwritev may do, whatever count it returns: each byte of the file
      stays, or becomes the byte the batch holds for that address. */
  ghost predicate Lands(pages: seq<Page>, batch: seq<Ref>, disk: Disk, disk': Disk) {
    forall base: nat, i: nat {:trigger DiskByte(disk', base, i)} :: i < ZONE ==>
      DiskByte(disk', base, i) == DiskByte(disk, base, i) || LandedAt(pages, batch, disk', base, i)
  }

  ghost predicate AllLanded(pages: seq<Page>, batch: seq<Ref>, disk: Disk) {
    forall k: nat, i: nat {:trigger DiskByte(disk, batch[k].base, i)} :: k < |batch| && i < ZONE ==>
      batch[k].id < |pages| && i < |pages[batch[k].id].zone| &&
      DiskByte(disk, batch[k].base, i) == pages[batch[k].id].zone[i]
  }

  ghost predicate CanS2Issue(s: State, disk': Disk) {
    && s.s2.Writing? && s.s2.calls < (IO_MAX_STALL + 1) * |s.s2.batch|
    && Lands(s.pages, s.s2.batch, s.disk, disk')
  }

  function DoS2Issue(s: State, disk': Disk): State
    requires s.s2.Writing?
  {
    s.(disk := disk', s2 := s.s2.(calls := s.s2.calls + 1))
  }

  ghost predicate CanS2Landed(s: State) {
    s.s2.Writing? && AllLanded(s.pages, s.s2.batch, s.disk) && s.bcount >= |s.s2.batch| * ZONE
  }

  function DoS2Landed(s: State): State
    requires s.s2.Writing? && s.bcount >= |s.s2.batch| * ZONE
  {
    s.(s2 := Retiring(s.s2.batch, ToFree), bcount := s.bcount - |s.s2.batch| * ZONE)
  }

  predicate CanS2Failed(s: State) {
    s.s2.Writing? && s.bcount >= |s.s2.batch| * ZONE
  }

  /** The gathered write gave up: the error sticks, the pages are still retired. */
  function DoS2Failed(s: State): State
    requires CanS2Failed(s)
  {
    DoS2Landed(s).(ioErr := true)
  }

  predicate CanS2Free(s: State) {
    s.s2.Retiring? && s.s2.sub.ToFree? && s.s2.batch != [] && s.gate.live > 0
  }

  function DoS2Free(s: State): State
    requires CanS2Free(s)
  {
    s.(freed := s.freed + {s.s2.batch[0].id}, gate := G.Free(s.gate), s2 := s.s2.(sub := ToLeave))
  }

  predicate CanS2Leave(s: State) {
    s.s2.Retiring? && s.s2.sub.ToLeave? && s.s2.batch != [] && |s.wb| == WB_SLOTS
  }

  function DoS2Leave(s: State): State
    requires CanS2Leave(s)
  {
    var slot := WbSlot(s.s2.batch[0].base);
    s.(wb := if s.wb[slot] > 0 then s.wb[slot := s.wb[slot] - 1] else s.wb, s2 := s.s2.(sub := ToDec))
  }

  predicate CanS2Dec(s: State) {
    s.s2.Retiring? && s.s2.sub.ToDec? && s.s2.batch != [] && s.pending > 0
  }

  function DoS2Dec(s: State): State
    requires CanS2Dec(s)
  {
    s.(pending := s.pending - 1,
       s2 := if |s.s2.batch| == 1 then S2Idle else Retiring(s.s2.batch[1..], ToFree))
  }

  // ------------------------------------------------------ fast path and close

  predicate Within(off: nat, size: nat, base: nat, i: nat) {
    off <= base * ZONE + i < off + size
  }

  /** Every byte of a fast write is free of scrap pages: no live page covers it and
      Stage-1 has not read it for a page it is completing. The engine does not check this. */
  ghost predicate ClearOfScrap(s: State, off: nat, size: nat) {
    forall base: nat, i: nat :: i < ZONE && Within(off, size, base, i) ==>
        && (forall j :: 0 <= j < |s.pages| && j !in s.freed && s.pages[j].base == base ==> i !in s.pages[j].cov)
        && (s.s1.Reading? && s.s1.r.base == base ==> i !in s.s1.got)
  }

  /** The file after `w`. */
  ghost predicate DiskAfter(disk: Disk, w: Write, disk': Disk) {
    forall base: nat, i: nat {:trigger DiskByte(disk', base, i)} :: i < ZONE ==>
      DiskByte(disk', base, i) == if Hits(w, base, i) then w.bytes[base * ZONE + i - w.off] else DiskByte(disk, base, i)
  }

  /** One pwrite of `w.bytes + rest`, of which `w.bytes` lands. */
  ghost predicate CanFastWrite(s: State, w: Write, rest: seq<byte>, disk': Disk) {
    && s.closer.Running? && FastPath(w.off, |w.bytes| + |rest|)
    && DiskAfter(s.disk, w, disk')
    && ClearOfCalls(s, w.off, |w.bytes| + |rest|) && ClearOfScrap(s, w.off, |w.bytes| + |rest|)
  }

  /** A short or failed direct write is reported to its caller and to no one else. */
  function DoFastWrite(s: State, w: Write, rest: seq<byte>, disk': Disk): State {
    s.(disk := disk', log := s.log + [w], returned := s.returned + [w],
       calls := s.calls + [Write(w.off, w.bytes + rest)])
  }

  predicate AllIdle(s: State) {
    forall u :: 0 <= u < |s.writers| ==> s.writers[u].Idle?
  }

  predicate CanCloseBegin(s: State) {
    s.closer.Running? && AllIdle(s)
  }

  function DoCloseBegin(s: State): State {
    s.(closer := Draining, gate := G.Disarm(s.gate))
  }

  predicate CanCloseDrain(s: State) {
    s.closer.Draining? && s.pending == 0
  }

  function DoCloseDrain(s: State): State {
    s.(closer := Stopping(s.ioErr))
  }

  predicate CanCloseStop(s: State) {
    s.closer.Stopping? && s.pending == 0
  }

  function DoCloseStop(s: State): State
    requires CanCloseStop(s)
  {
    s.(closer := Closed(s.closer.err || s.ioErr))
  }

  // -------------------------------------------------------------------- runs

  /** A section of nox_write in one foreground thread. */
  datatype ForegroundStep =
    | Start(off: nat, buf: seq<byte>)
    | GateEnter
    | GateWake
    | Find
    | Create(junk: seq<byte>)
    | Lock
    | SeeSealed
    | Overflow
    | Commit
    | Unlink

  /** A section of stage1_loop. */
  datatype Stage1Step =
    | S1Pop
    | S1Forward
    | S1Busy
    | S1Snapshot
    | S1Guard(plan: seq<Seg>, stale: seq<byte>)
    | S1Read
    | S1Fail
    | S1Fill
    | S1Enter
    | S1Push

  /** A section of stage2_loop. */
  datatype Stage2Step =
    | S2Pop
    | S2Busy
    | S2Gather
    | S2Reject
    | S2EndCollect
    | S2Unlink
    | S2Claim
    | S2Issue(disk': Disk)
    | S2Landed
    | S2Failed
    | S2Free
    | S2Leave
    | S2Dec

  /** A fast write, or a section of nox_close. */
  datatype CallerStep =
    | FastWrite(w: Write, rest: seq<byte>, disk': Disk)
    | CloseBegin
    | CloseDrain
    | CloseStop

  datatype Step =
    | Foreground(t: nat, fg: ForegroundStep)
    | First(s1: Stage1Step)
    | Second(s2: Stage2Step)
    | Caller(c: CallerStep)

  ghost predicate CanForeground(s: State, t: nat, st: ForegroundStep) {
    match st
    case Start(off, buf) => CanStart(s, t, off, buf)
    case GateEnter => CanGateEnter(s, t)
    case GateWake => CanGateWake(s, t)
    case Find => CanFind(s, t)
    case Create(junk) => CanCreate(s, t, junk)
    case Lock => CanLock(s, t)
    case SeeSealed => CanSeeSealed(s, t)
    case Overflow => CanOverflow(s, t)
    case Commit => CanCommit(s, t)
    case Unlink => CanUnlink(s, t)
  }

  ghost function DoForeground(s: State, t: nat, st: ForegroundStep): State
    requires CanForeground(s, t, st)
  {
    match st
    case Start(off, buf) => DoStart(s, t, off, buf)
    case GateEnter => DoGateEnter(s, t)
    case GateWake => DoGateWake(s, t)
    case Find => DoFind(s, t)
    case Create(junk) => DoCreate(s, t, junk)
    case Lock => DoLock(s, t)
    case SeeSealed => DoSeeSealed(s, t)
    case Overflow => DoOverflow(s, t)
    case Commit => DoCommit(s, t)
    case Unlink => DoUnlink(s, t)
  }

  ghost predicate CanStage1(s: State, st: Stage1Step) {
    match st
    case S1Pop => CanS1Pop(s)
    case S1Forward => CanS1Forward(s)
    case S1Busy => CanS1Busy(s)
    case S1Snapshot => CanS1Snapshot(s)
    case S1Guard(plan, stale) => CanS1Guard(s, plan, stale)
    case S1Read => CanS1Read(s)
    case S1Fail => CanS1Fail(s)
    case S1Fill => CanS1Fill(s)
    case S1Enter => CanS1Enter(s)
    case S1Push => CanS1Push(s)
  }

  ghost function DoStage1(s: State, st: Stage1Step): State
    requires CanStage1(s, st)
  {
    match st
    case S1Pop => DoS1Pop(s)
    case S1Forward => DoS1Forward(s)
    case S1Busy => DoS1Busy(s)
    case S1Snapshot => DoS1Snapshot(s)
    case S1Guard(plan, stale) => DoS1Guard(s, plan, stale)
    case S1Read => DoS1Read(s)
    case S1Fail => DoS1Fail(s)
    case S1Fill => DoS1Fill(s)
    case S1Enter => DoS1Enter(s)
    case S1Push => DoS1Push(s)
  }

  ghost predicate CanStage2(s: State, st: Stage2Step) {
    match st
    case S2Pop => CanS2Pop(s)
    case S2Busy => CanS2Busy(s)
    case S2Gather => CanS2Gather(s)
    case S2Reject => CanS2Reject(s)
    case S2EndCollect => CanS2EndCollect(s)
    case S2Unlink => CanS2Unlink(s)
    case S2Claim => CanS2Claim(s)
    case S2Issue(disk') => CanS2Issue(s, disk')
    case S2Landed => CanS2Landed(s)
    case S2Failed => CanS2Failed(s)
    case S2Free => CanS2Free(s)
    case S2Leave => CanS2Leave(s)
    case S2Dec => CanS2Dec(s)
  }

  ghost function DoStage2(s: State, st: Stage2Step): State
    requires CanStage2(s, st)
  {
    match st
    case S2Pop => DoS2Pop(s)
    case S2Busy => DoS2Busy(s)
    case S2Gather => DoS2Gather(s)
    case S2Reject => DoS2Reject(s)
    case S2EndCollect => DoS2EndCollect(s)
    case S2Unlink => DoS2Unlink(s)
    case S2Claim => DoS2Claim(s)
    case S2Issue(disk') => DoS2Issue(s, disk')
    case S2Landed => DoS2Landed(s)
    case S2Failed => DoS2Failed(s)
    case S2Free => DoS2Free(s)
    case S2Leave => DoS2Leave(s)
    case S2Dec => DoS2Dec(s)
  }

  ghost predicate CanCaller(s: State, st: CallerStep) {
    match st
    case FastWrite(w, rest, disk') => CanFastWrite(s, w, rest, disk')
    case CloseBegin => CanCloseBegin(s)
    case CloseDrain => CanCloseDrain(s)
    case CloseStop => CanCloseStop(s)
  }

  ghost function DoCaller(s: State, st: CallerStep): State
    requires CanCaller(s, st)
  {
    match st
    case FastWrite(w, rest, disk') => DoFastWrite(s, w, rest, disk')
    case CloseBegin => DoCloseBegin(s)
    case CloseDrain => DoCloseDrain(s)
    case CloseStop => DoCloseStop(s)
  }

  ghost predicate Enabled(s: State, st: Step) {
    match st
    case Foreground(t, fg) => CanForeground(s, t, fg)
    case First(s1) => CanStage1(s, s1)
    case Second(s2) => CanStage2(s, s2)
    case Caller(c) => CanCaller(s, c)
  }

  ghost function Next(s: State, st: Step): State
    requires Enabled(s, st)
  {
    match st
    case Foreground(t, fg) => DoForeground(s, t, fg)
    case First(s1) => DoStage1(s, s1)
    case Second(s2) => DoStage2(s, s2)
    case Caller(c) => DoCaller(s, c)
  }

  /** A state right after nox_open, for any number of foreground threads. */
  ghost predicate Init(s: State) {
    && s.disk == s.init && s.pages == [] && s.freed == {} && s.index == map[]
    && s.q1 == [] && s.q2 == [] && s.s1.S1Idle? && s.s2.S2Idle?
    && AllIdle(s) && |s.gate.threads| == |s.writers|
    && (forall t :: 0 <= t < |s.gate.threads| ==> s.gate.threads[t].Outside?)
    && s.gate.armed && s.gate.low < s.gate.high && s.gate.live == 0
    && |s.wb| == WB_SLOTS && (forall k :: 0 <= k < WB_SLOTS ==> s.wb[k] == 0)
    && s.pending == 0 && s.bcount == 0 && !s.ioErr && !s.dropped && s.closer.Running?
    && s.maxEntries >= 1 && s.log == [] && s.returned == [] && s.calls == []
  }

  /** The state a list of steps leads to. */
  ghost predicate ValidRun(s: State, steps: seq<Step>)
    decreases |steps|
  {
    steps == [] || (Enabled(s, steps[0]) && ValidRun(Next(s, steps[0]), steps[1..]))
  }

  ghost function Run(s: State, steps: seq<Step>): State
    requires ValidRun(s, steps)
    decreases |steps|
  {
    if steps == [] then s else Run(Next(s, steps[0]), steps[1..])
  }
}
