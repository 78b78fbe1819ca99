/** The commit step: a chunk is merged into a page, the page may enter a queue, and
    the flat file takes the chunk's bytes. It keeps the invariant. */
module WriterCommits {
  import opened Geometry
  import opened Engine
  import opened EngineInv
  import opened WriterMerges
  import opened Stage1Shifts

  function Merged(s: State, t: nat): Page
    requires CanCommit(s, t)
  {
    Merge(s.pages[Held(s, t)], CurIntra(s.writers[t]), ChunkBytes(s.writers[t]))
  }

  /** A page that fills up outside the queues goes straight to Q2. */
  function ToQ2(s: State, t: nat): seq<Ref>
    requires CanCommit(s, t)
  {
    if IsFull(Merged(s, t)) && !s.pages[Held(s, t)].inQueue then [Of(s, Held(s, t))] else []
  }

  /** A page just created and not full goes to Q1. */
  function ToQ1(s: State, t: nat): seq<Ref>
    requires CanCommit(s, t)
  {
    if !IsFull(Merged(s, t)) && s.writers[t].pc.created && !s.pages[Held(s, t)].inQueue then [Of(s, Held(s, t))] else []
  }

  function Taken(s: State, t: nat): Page
    requires CanCommit(s, t)
  {
    var m := Merged(s, t);
    m.(tag := if IsFull(m) then Full else m.tag, inQueue := m.inQueue || IsFull(m) || s.writers[t].pc.created)
  }

  function ChunkWrite(w: Writer): Write
    requires w.Active? && WriterOk(w)
  {
    Write(w.off + w.done, ChunkBytes(w))
  }

  /** The effect of a commit, field by field. */
  ghost predicate Takes(s: State, t: nat, s': State) {
    && CanCommit(s, t)
    && s' == s.(pages := s'.pages, q1 := s'.q1, q2 := s'.q2, pending := s'.pending, wb := s'.wb,
                writers := s'.writers, log := s'.log, calls := s'.calls, returned := s'.returned)
    && s'.pages == s.pages[Held(s, t) := Taken(s, t)]
    && s'.q1 == s.q1 + ToQ1(s, t) && s'.q2 == s.q2 + ToQ2(s, t)
    && s'.pending == s.pending + |ToQ1(s, t)| + |ToQ2(s, t)|
    && s'.wb == (if ToQ2(s, t) == [] then s.wb
                 else s.wb[WbSlot(s.pages[Held(s, t)].base) := s.wb[WbSlot(s.pages[Held(s, t)].base)] + 1])
    && s'.writers == s.writers[t := Advance(s.writers[t])]
    && s'.log == s.log + [ChunkWrite(s.writers[t])]
    && s'.calls == (if Advance(s.writers[t]).Idle? then s.calls + [Write(s.writers[t].off, s.writers[t].buf)] else s.calls)
    && s'.returned == if Advance(s.writers[t]).Idle? then s.returned + [Write(s.writers[t].off, s.writers[t].buf)]
                      else s.returned
  }

  lemma CommitTakesFull(s: State, t: nat)
    requires CanCommit(s, t) && IsFull(Merged(s, t))
    ensures Takes(s, t, DoCommit(s, t))
  {
    var id := Held(s, t);
    var p := Merged(s, t);
    assert s.pages[id := p][id := Taken(s, t)] == s.pages[id := Taken(s, t)];
    if p.inQueue { assert Taken(s, t) == p.(tag := Full); }
  }

  lemma CommitTakesPartial(s: State, t: nat)
    requires CanCommit(s, t) && !IsFull(Merged(s, t))
    ensures Takes(s, t, DoCommit(s, t))
  {
    var id := Held(s, t);
    var p := Merged(s, t);
    assert s.pages[id := p][id := Taken(s, t)] == s.pages[id := Taken(s, t)];
    if !s.writers[t].pc.created || p.inQueue { assert Taken(s, t) == p; }
  }

  lemma CommitTakes(s: State, t: nat)
    requires CanCommit(s, t)
    ensures Takes(s, t, DoCommit(s, t))
  {
    if IsFull(Merged(s, t)) { CommitTakesFull(s, t); } else { CommitTakesPartial(s, t); }
  }

  /** The page before and after. */
  lemma TakenPage(s: State, t: nat)
    requires Shape(s) && CanCommit(s, t)
    ensures Taken(s, t).base == s.pages[Held(s, t)].base && |Taken(s, t).zone| == ZONE
    ensures Taken(s, t).cov == s.pages[Held(s, t)].cov + ChunkSpan(s.writers[t]) && Taken(s, t).cov <= FullZone()
    ensures Taken(s, t).detached == s.pages[Held(s, t)].detached
    ensures !Taken(s, t).tag.Sealed? && (IsFull(s.pages[Held(s, t)]) ==> IsFull(Taken(s, t)))
    ensures IsFull(Taken(s, t)) == IsFull(Merged(s, t))
  {
  }

  /** A page that joins the line is the newest of its base; one that goes straight
      to Q2 has no page of its base behind it. */
  lemma CommitFacts(s: State, t: nat)
    requires Shape(s) && Flags(s) && Threads(s) && Exclusive(s) && Accounted(s) && BornFull(s) && CanCommit(s, t)
    ensures s.writers[t].pc.created ==> !s.pages[Held(s, t)].inQueue
    ensures ToQ1(s, t) + ToQ2(s, t) != [] ==> InIndex(s, Held(s, t)) && Of(s, Held(s, t)) !in Line(s)
    ensures ToQ2(s, t) != [] ==> forall r :: r in Tail(s) ==> r.base != s.pages[Held(s, t)].base
  {
    var w := s.writers[t];
    assert PcOk(s, w);
    ChunkInZone(w);
    if w.pc.created {
      if IsFull(Merged(s, t)) { CreatedFull(s, t); }
    } else if !s.pages[Held(s, t)].inQueue {
      HeldOutside(s, t);
    }
  }

  /** A page its creator fills in one merge was filled by a whole-zone chunk. */
  lemma CreatedFull(s: State, t: nat)
    requires Threads(s) && CanCommit(s, t) && s.writers[t].pc.created && IsFull(Merged(s, t))
    ensures FullChunk(s.writers[t])
  {
    var w := s.writers[t];
    assert PcOk(s, w);
    ChunkInZone(w);
    assert 0 in FullZone() && ZONE - 1 in FullZone();
    assert 0 in Merged(s, t).cov && ZONE - 1 in Merged(s, t).cov;
  }

  // -------------------------------------------------------------- structure

  lemma CommitLine(s: State, t: nat, s': State)
    requires Takes(s, t, s')
    ensures Line(s') == Batch(s.s2) + s.q2 + ToQ2(s, t) + Tail(s) + ToQ1(s, t)
    ensures Tail(s') == Tail(s) + ToQ1(s, t)
    ensures forall r :: r in Line(s') <==> r in Line(s) || r in ToQ1(s, t) || r in ToQ2(s, t)
    ensures |Line(s')| == |Line(s)| + |ToQ1(s, t)| + |ToQ2(s, t)|
  {
  }

  lemma CommitLineCases(s: State, t: nat, s': State)
    requires Takes(s, t, s')
    ensures ToQ2(s, t) != [] ==> Line(s') == (Batch(s.s2) + s.q2) + [Of(s, Held(s, t))] + Tail(s)
    ensures ToQ1(s, t) != [] ==> Line(s') == Line(s) + [Of(s, Held(s, t))]
    ensures ToQ1(s, t) == [] && ToQ2(s, t) == [] ==> Line(s') == Line(s)
  {
  }

  lemma CommitLineShape(s: State, t: nat, s': State)
    requires Shape(s) && Takes(s, t, s')
    ensures forall r :: r in Line(s') ==> r.id < |s'.pages| && s'.pages[r.id].base == r.base
  {
  }

  lemma CommitStageShape(s: State, t: nat, s': State)
    requires Shape(s) && Takes(s, t, s')
    ensures S1Shape(s') && S2Shape(s')
  {
  }

  lemma CommitComplete(s: State, t: nat, s': State)
    requires Shape(s) && Complete(s) && Takes(s, t, s')
    ensures Complete(s')
  {
  }

  lemma CommitShape(s: State, t: nat, s': State)
    requires Shape(s) && Complete(s) && Takes(s, t, s')
    ensures Shape(s') && Complete(s')
  {
    CommitLineShape(s, t, s');
    CommitStageShape(s, t, s');
    CommitComplete(s, t, s');
    TakenPage(s, t);
  }

  /** A page inserted behind Q2 adds one to its slot of the guard. */
  lemma GuardedInsert(front: seq<Ref>, x: Ref, back: seq<Ref>, slot: nat)
    ensures SlotCount(front + [x] + back, slot) == SlotCount(front + back, slot) + if WbSlot(x.base) == slot then 1 else 0
  {
    SlotCountConcat(front, back, slot);
    SlotCountConcat(front + [x], back, slot);
    SlotCountConcat(front, [x], slot);
    SlotCountOne(x, slot);
  }

  lemma CommitGuard(s: State, t: nat, s': State, k: nat)
    requires Counters(s) && Takes(s, t, s') && k < WB_SLOTS
    ensures s'.wb[k] == SlotCount(Guarded(s'), k)
  {
    var front := GuardedBatch(s.s2) + s.q2;
    if ToQ2(s, t) != [] {
      var x := ToQ2(s, t)[0];
      assert Guarded(s') == front + [x] + GuardedHand(s.s1);
      GuardedInsert(front, x, GuardedHand(s.s1), k);
    } else {
      assert s'.q2 == s.q2;
    }
  }

  lemma CommitCounts(s: State, t: nat, s': State)
    requires Counters(s) && Takes(s, t, s')
    ensures Counters(s')
  {
    CommitLine(s, t, s');
    forall k | 0 <= k < WB_SLOTS
      ensures s'.wb[k] == SlotCount(Guarded(s'), k)
    {
      CommitGuard(s, t, s', k);
    }
  }

  lemma CommitFlags(s: State, t: nat, s': State, j: nat)
    requires Shape(s) && Flags(s) && Threads(s) && Takes(s, t, s') && j < |s.pages|
    requires s.writers[t].pc.created ==> !s.pages[Held(s, t)].inQueue
    ensures s'.pages[j].inQueue <==> Of(s', j) in Line(s') && Of(s', j) !in Claimed(s'.s2)
    ensures s'.pages[j].detached == s.pages[j].detached && Of(s', j) == Of(s, j)
  {
  }

  lemma CommitOwners(s: State, t: nat, s': State)
    requires Shape(s) && Flags(s) && Indexed(s) && Threads(s) && Takes(s, t, s')
    requires s.writers[t].pc.created ==> !s.pages[Held(s, t)].inQueue
    ensures Flags(s') && Indexed(s')
  {
    CommitLine(s, t, s');
    TakenPage(s, t);
    assert PcOk(s, s.writers[t]);
    forall j | 0 <= j < |s'.pages|
      ensures s'.pages[j].inQueue <==> Of(s', j) in Line(s') && Of(s', j) !in Claimed(s'.s2)
      ensures s'.pages[j].detached == s.pages[j].detached && Of(s', j) == Of(s, j)
    {
      CommitFlags(s, t, s', j);
    }
  }

  lemma CommitPc(s: State, t: nat, s': State, u: nat)
    requires Shape(s) && Threads(s) && Exclusive(s) && Takes(s, t, s')
    requires u != t && ThreadAt(s, u)
    ensures PcOk(s', s'.writers[u])
  {
    CommitLine(s, t, s');
    TakenPage(s, t);
    assert PcOk(s, s.writers[u]) && !SameLock(s.writers[t], s.writers[u]);
    if s.writers[u].pc.Holding? {
      assert Of(s', s.writers[u].pc.id) == Of(s, s.writers[u].pc.id);
    }
    if s.writers[u].pc.Unlinking? && Past(s, s.writers[u].pc.id) {
      assert Past(s', s.writers[u].pc.id);
    }
  }

  lemma CommitThreads(s: State, t: nat, s': State)
    requires Shape(s) && Threads(s) && Exclusive(s) && Takes(s, t, s')
    ensures Threads(s') && Exclusive(s')
  {
    ChunkInZone(s.writers[t]);
    forall u | 0 <= u < |s.writers| && s'.writers[u].Active?
      ensures WriterOk(s'.writers[u]) && PcOk(s', s'.writers[u])
    {
      if u != t { CommitPc(s, t, s', u); }
    }
  }

  // -------------------------------------------------------------- discipline

  lemma CommitOrder(s: State, t: nat, s': State)
    requires Shape(s) && Indexed(s) && Takes(s, t, s') && Ordered(Line(s))
    requires ToQ1(s, t) + ToQ2(s, t) != [] ==> InIndex(s, Held(s, t)) && Of(s, Held(s, t)) !in Line(s)
    requires ToQ2(s, t) != [] ==> forall r :: r in Tail(s) ==> r.base != s.pages[Held(s, t)].base
    ensures Ordered(Line(s'))
  {
    CommitLineCases(s, t, s');
    if ToQ2(s, t) != [] {
      InsertAfter(s, Of(s, Held(s, t)));
    } else if ToQ1(s, t) != [] {
      NewestOrdered(s, Of(s, Held(s, t)));
    }
  }

  lemma CommitOldest(s: State, t: nat, s': State)
    requires Shape(s) && Indexed(s) && Takes(s, t, s') && Ordered(Line(s)) && OldestFirst(s)
    requires ToQ1(s, t) + ToQ2(s, t) != [] ==> InIndex(s, Held(s, t)) && Of(s, Held(s, t)) !in Line(s)
    ensures OldestFirst(s')
  {
  }

  /** The indexed page may join the end of Q2 if nothing of its base is behind it. */
  lemma InsertAfter(s: State, x: Ref)
    requires Shape(s) && Indexed(s) && Ordered(Line(s))
    requires x.id < |s.pages| && x == Of(s, x.id) && InIndex(s, x.id) && x !in Line(s)
    requires forall r :: r in Tail(s) ==> r.base != x.base
    ensures Ordered((Batch(s.s2) + s.q2) + [x] + Tail(s))
  {
    var front := Batch(s.s2) + s.q2;
    assert front + Tail(s) == Line(s);
    forall r | r in front && r.base == x.base
      ensures r.id < x.id
    {
      assert r in Line(s) && r == Of(s, r.id);
    }
    InsertOrdered(front, x, Tail(s));
  }

  lemma CommitReachable(s: State, t: nat, s': State)
    requires Shape(s) && Flags(s) && Threads(s) && Exclusive(s) && Accounted(s)
    requires Takes(s, t, s') && Reachable(s) && BornFull(s)
    ensures Reachable(s') && BornFull(s')
  {
    CommitLine(s, t, s');
    CommitFacts(s, t);
    forall r | r in Tail(s') && r.base !in s'.index
      ensures exists u :: 0 <= u < |s'.writers| && Between(s'.writers[u], r.base)
    {
      var u :| 0 <= u < |s.writers| && Between(s.writers[u], r.base);
      assert u != t && s'.writers[u] == s.writers[u];
    }
    forall u | 0 <= u < |s'.writers| && s'.writers[u].Active? && WriterOk(s'.writers[u])
               && s'.writers[u].pc.Holding? && s'.writers[u].pc.created && FullChunk(s'.writers[u])
      ensures forall r :: r in Tail(s') ==> r.base != CurBase(s'.writers[u])
    {
      assert u != t && PcOk(s, s.writers[u]) && !SameLock(s.writers[t], s.writers[u]);
    }
  }

  lemma CommitTags(s: State, t: nat, s': State)
    requires Shape(s) && Flags(s) && Threads(s) && Exclusive(s) && BornFull(s) && Accounted(s)
    requires Takes(s, t, s') && SealedLeaving(s) && OpenIndexed(s)
    ensures SealedLeaving(s') && OpenIndexed(s')
  {
    CommitFacts(s, t);
    TakenPage(s, t);
    forall b | b in s'.index && s'.index[b] < |s'.pages| && s'.pages[s'.index[b]].tag.Sealed?
      ensures exists u :: 0 <= u < |s'.writers| && s'.writers[u].Active? && s'.writers[u].pc == Unlinking(s'.index[b])
    {
      var u :| 0 <= u < |s.writers| && s.writers[u].Active? && s.writers[u].pc == Unlinking(s.index[b]);
      assert u != t && s'.writers[u] == s.writers[u];
    }
    forall r | Unfilled(s', r) && r.id < |s'.pages|
      ensures s'.pages[r.id].tag.Sealed? || InIndex(s', r.id)
    {
      if r !in ToQ1(s, t) { assert Unfilled(s, r); }
    }
  }

  lemma CommitAccounted(s: State, t: nat, s': State)
    requires Shape(s) && Flags(s) && Threads(s) && Exclusive(s) && BornFull(s) && Accounted(s) && Takes(s, t, s')
    ensures Accounted(s')
  {
    CommitLine(s, t, s');
    CommitFacts(s, t);
    TakenPage(s, t);
    forall j | 0 <= j < |s'.pages| && j !in s'.freed && Of(s', j) !in Line(s') && !Fresh(s', j)
      ensures s'.dropped && (s'.pages[j].tag.Sealed? ||
                (InIndex(s', j) && forall r :: r in Tail(s') ==> r.base != s'.pages[j].base))
    {
      assert Of(s, j) == Of(s', j);
      CommitFresh(s, t, s', j);
    }
  }

  /** A page that stays in its creator's hands is somebody else's. */
  lemma CommitFresh(s: State, t: nat, s': State, j: nat)
    requires Shape(s) && Flags(s) && Threads(s) && Takes(s, t, s') && j < |s.pages|
    requires Of(s, j) !in Line(s) && Of(s, j) !in ToQ1(s, t) && Of(s, j) !in ToQ2(s, t)
    requires !Fresh(s', j)
    ensures !Fresh(s, j)
  {
    assert PcOk(s, s.writers[t]);
    forall u | 0 <= u < |s.writers| && s.writers[u].Active?
      ensures s.writers[u].pc != Holding(j, true)
    {
      if u != t { assert s'.writers[u] == s.writers[u]; }
    }
  }

  lemma CommitDiscipline(s: State, t: nat, s': State)
    requires Shape(s) && Flags(s) && Indexed(s) && Threads(s) && Exclusive(s) && Discipline(s) && Takes(s, t, s')
    ensures Discipline(s')
  {
    CommitFacts(s, t);
    CommitOrder(s, t, s');
    CommitOldest(s, t, s');
    CommitReachable(s, t, s');
    CommitTags(s, t, s');
    CommitAccounted(s, t, s');
  }

  // ----------------------------------------------------------------- content

  /** The chunk hits exactly its offsets of its base. */
  lemma ChunkHits(w: Writer, b: nat, i: nat)
    requires w.Active? && WriterOk(w) && i < ZONE
    ensures Hits(ChunkWrite(w), b, i) <==> b == CurBase(w) && i in ChunkSpan(w)
    ensures Hits(ChunkWrite(w), b, i) ==>
              && InRange(w, b, i) && CurIntra(w) <= i
              && b * ZONE + i - (w.off + w.done) == i - CurIntra(w)
  {
  }

  lemma FlatAfter(s: State, t: nat, s': State, b: nat, i: nat)
    requires Takes(s, t, s') && i < ZONE
    ensures Hits(ChunkWrite(s.writers[t]), b, i) ==>
              && i in ChunkSpan(s.writers[t]) && CurIntra(s.writers[t]) <= i
              && i - CurIntra(s.writers[t]) < |ChunkBytes(s.writers[t])|
              && Flat(s'.init, s'.log, b, i) == ChunkBytes(s.writers[t])[i - CurIntra(s.writers[t])]
    ensures !Hits(ChunkWrite(s.writers[t]), b, i) ==> Flat(s'.init, s'.log, b, i) == Flat(s.init, s.log, b, i)
  {
    ChunkHits(s.writers[t], b, i);
    ChunkInZone(s.writers[t]);
    assert s'.log[|s'.log| - 1] == ChunkWrite(s.writers[t]) && s'.log[..|s'.log| - 1] == s.log;
  }

  lemma CommitPages(s: State, t: nat, s': State)
    requires Shape(s) && Threads(s) && Takes(s, t, s') && PagesFaithful(s) && Undisturbed(s)
    ensures PagesFaithful(s')
  {
    var w := s.writers[t];
    var id := Held(s, t);
    assert PcOk(s, w);
    TakenPage(s, t);
    forall j: nat, i: nat | Shows(s', j, i) && |s'.pages[j].zone| == ZONE
      ensures s'.pages[j].zone[i] == Flat(s'.init, s'.log, s'.pages[j].base, i)
    {
      var b := s.pages[j].base;
      FlatAfter(s, t, s', b, i);
      ChunkHits(w, b, i);
      if Hits(ChunkWrite(w), b, i) {
        ShowsChunk(s, t, s', j, i);
      } else {
        ShowsElsewhere(s, t, s', j, i);
      }
    }
  }

  /** Only the page that took the chunk shows the chunk's bytes. */
  lemma ShowsChunk(s: State, t: nat, s': State, j: nat, i: nat)
    requires Shape(s) && Threads(s) && Takes(s, t, s') && Undisturbed(s) && Shows(s', j, i)
    requires s.pages[j].base == CurBase(s.writers[t]) && i in ChunkSpan(s.writers[t])
    requires InRange(s.writers[t], s.pages[j].base, i)
    ensures j == Held(s, t)
  {
  }

  lemma ShowsElsewhere(s: State, t: nat, s': State, j: nat, i: nat)
    requires Shape(s) && Threads(s) && Takes(s, t, s') && Shows(s', j, i)
    requires !(s.pages[j].base == CurBase(s.writers[t]) && i in ChunkSpan(s.writers[t]))
    ensures Shows(s, j, i) && s'.pages[j].zone[i] == s.pages[j].zone[i]
  {
    assert PcOk(s, s.writers[t]);
    TakenPage(s, t);
    ChunkInZone(s.writers[t]);
    forall k | j < k < |s.pages| && k !in s.freed && s.pages[k].base == s.pages[j].base
      ensures i !in s.pages[k].cov
    {
      assert s'.pages[k].base == s.pages[k].base && i !in s'.pages[k].cov;
    }
  }

  lemma CommitDisk(s: State, t: nat, s': State)
    requires Shape(s) && Threads(s) && Takes(s, t, s') && DiskFaithful(s)
    ensures DiskFaithful(s')
  {
    var id := Held(s, t);
    assert PcOk(s, s.writers[t]);
    TakenPage(s, t);
    forall b: nat, i: nat | i < ZONE && Bare(s', b, i)
      ensures DiskByte(s'.disk, b, i) == Flat(s'.init, s'.log, b, i)
    {
      forall k | 0 <= k < |s.pages| && k !in s.freed && s.pages[k].base == b
        ensures i !in s.pages[k].cov
      {
        assert s'.pages[k].base == b && i !in s'.pages[k].cov;
      }
      assert Bare(s, b, i);
      ChunkHits(s.writers[t], b, i);
      if b == CurBase(s.writers[t]) { assert s'.pages[id].base == b; }
      FlatAfter(s, t, s', b, i);
    }
  }

  lemma CommitUndisturbed(s: State, t: nat, s': State)
    requires Shape(s) && Threads(s) && Exclusive(s) && Takes(s, t, s') && Undisturbed(s)
    ensures Undisturbed(s')
  {
    assert PcOk(s, s.writers[t]);
    TakenPage(s, t);
    forall u, j, i: nat | 0 <= u < |s'.writers| && s'.writers[u].Active? && s'.writers[u].pc.Holding?
                          && s'.writers[u].pc.id < j < |s'.pages| && j !in s'.freed && WriterOk(s'.writers[u])
                          && s'.pages[j].base == CurBase(s'.writers[u]) && i in s'.pages[j].cov
      ensures !InRange(s'.writers[u], s'.pages[j].base, i)
    {
      assert u != t && s'.writers[u] == s.writers[u];
      if i in s.pages[j].cov {
      } else {
        ChunkInZone(s.writers[t]);
        ChunkHits(s.writers[t], s.pages[j].base, i);
        assert InRange(s.writers[t], s.pages[j].base, i);
      }
    }
  }

  lemma CommitOnDisk(s: State, t: nat, s': State)
    requires Shape(s) && Threads(s) && Takes(s, t, s') && OnDisk(s)
    ensures OnDisk(s')
  {
  }

  lemma CommitFaithful(s: State, t: nat, s': State)
    requires Shape(s) && Threads(s) && Exclusive(s) && Takes(s, t, s') && Faithful(s)
    ensures Faithful(s')
  {
    if !s.ioErr {
      CommitPages(s, t, s');
      CommitDisk(s, t, s');
      CommitUndisturbed(s, t, s');
      CommitOnDisk(s, t, s');
      assert s.s1.Reading? ==> s.s1.r in Line(s);
      TakenPage(s, t);
      assert FreshRead(s');
    }
  }

  // ------------------------------------------------------------ whole writes

  /** Merging a chunk extends what the call has merged by exactly that chunk. */
  lemma DoneGrows(w: Writer, b: nat, i: nat)
    requires w.Active? && WriterOk(w) && i < ZONE
    ensures w.off <= b * ZONE + i < w.off + w.done + ChunkLen(w) <==> InDone(w, b, i) || Hits(ChunkWrite(w), b, i)
    ensures !(InDone(w, b, i) && Hits(ChunkWrite(w), b, i))
  {
  }

  lemma VisibleAt(s: State, u: nat, b: nat, i: nat)
    requires Visible(s) && u < |s.writers| && s.writers[u].Active? && WriterOk(s.writers[u]) && i < ZONE
    requires InDone(s.writers[u], b, i)
    ensures Flat(s.init, s.log, b, i) == s.writers[u].buf[b * ZONE + i - s.writers[u].off]
  {
  }

  lemma UntouchedAt(s: State, b: nat, i: nat)
    requires Visible(s) && i < ZONE && Untouched(s, b, i)
    ensures Flat(s.init, s.log, b, i) == Flat(s.init, s.returned, b, i)
  {
  }

  /** The committing call: what it had merged before, and the chunk. */
  lemma OwnCall(s: State, t: nat, s': State, b: nat, i: nat)
    requires Takes(s, t, s') && i < ZONE
    requires s'.writers[t].Active? && InDone(s'.writers[t], b, i)
    requires InDone(s.writers[t], b, i) ==> Flat(s.init, s.log, b, i) == s.writers[t].buf[b * ZONE + i - s.writers[t].off]
    ensures Flat(s'.init, s'.log, b, i) == s.writers[t].buf[b * ZONE + i - s.writers[t].off]
  {
    FlatAfter(s, t, s', b, i);
    DoneGrows(s.writers[t], b, i);
    ChunkHits(s.writers[t], b, i);
  }

  /** Another call: the chunk misses it. */
  lemma OtherCall(s: State, t: nat, s': State, u: nat, b: nat, i: nat)
    requires Takes(s, t, s') && i < ZONE && u < |s.writers| && s.writers[u].Active? && WriterOk(s.writers[u])
    requires Apart(s.writers[t].off, |s.writers[t].buf|, s.writers[u].off, |s.writers[u].buf|) && InDone(s.writers[u], b, i)
    ensures Flat(s'.init, s'.log, b, i) == Flat(s.init, s.log, b, i)
  {
    FlatAfter(s, t, s', b, i);
    ChunkHits(s.writers[t], b, i);
  }

  lemma CommitCall(s: State, t: nat, s': State, u: nat, b: nat, i: nat)
    requires Threads(s) && Exclusive(s) && Visible(s) && Takes(s, t, s') && i < ZONE
    requires u < |s.writers| && s'.writers[u].Active? && WriterOk(s'.writers[u]) && InDone(s'.writers[u], b, i)
    ensures Flat(s'.init, s'.log, b, i) == s'.writers[u].buf[b * ZONE + i - s'.writers[u].off]
  {
    if u == t {
      if InDone(s.writers[t], b, i) { VisibleAt(s, t, b, i); }
      OwnCall(s, t, s', b, i);
    } else {
      VisibleAt(s, u, b, i);
      OtherCall(s, t, s', u, b, i);
    }
  }

  lemma CommitReturned(s: State, t: nat, s': State, b: nat, i: nat)
    requires Threads(s) && Visible(s) && Takes(s, t, s') && i < ZONE && Untouched(s', b, i)
    ensures Flat(s'.init, s'.log, b, i) == Flat(s'.init, s'.returned, b, i)
  {
    var w := s.writers[t];
    FlatAfter(s, t, s', b, i);
    DoneGrows(w, b, i);
    if Advance(w).Idle? {
      CallReturns(s, t, s', b, i);
    } else {
      assert !InDone(s'.writers[t], b, i);
      OthersUntouched(s, t, s', b, i);
    }
  }

  /** The last chunk of a call: the completed calls now include it. */
  lemma CallReturns(s: State, t: nat, s': State, b: nat, i: nat)
    requires Threads(s) && Visible(s) && Takes(s, t, s') && i < ZONE && Untouched(s', b, i) && Advance(s.writers[t]).Idle?
    ensures Flat(s'.init, s'.log, b, i) == Flat(s'.init, s'.returned, b, i)
  {
    if InDone(s.writers[t], b, i) {
      VisibleAt(s, t, b, i);
    } else {
      OthersUntouched(s, t, s', b, i);
      UntouchedAt(s, b, i);
    }
    CallReturnsAt(s, t, s', b, i);
  }

  lemma CallReturnsAt(s: State, t: nat, s': State, b: nat, i: nat)
    requires Takes(s, t, s') && i < ZONE && Advance(s.writers[t]).Idle?
    requires if InDone(s.writers[t], b, i) then Flat(s.init, s.log, b, i) == s.writers[t].buf[b * ZONE + i - s.writers[t].off]
             else Flat(s.init, s.log, b, i) == Flat(s.init, s.returned, b, i)
    ensures Flat(s'.init, s'.log, b, i) == Flat(s'.init, s'.returned, b, i)
  {
    var w := s.writers[t];
    FlatAfter(s, t, s', b, i);
    ReturnedAfter(s, t, s', b, i);
    ReturnedByte(w, b, i, Flat(s.init, s.log, b, i), Flat(s'.init, s'.log, b, i),
                 Flat(s.init, s.returned, b, i), Flat(s'.init, s'.returned, b, i));
  }

  /** The byte the pieces leave and the byte the whole call leaves, before and after. */
  lemma ReturnedByte(w: Writer, b: nat, i: nat, f: byte, f': byte, r: byte, r': byte)
    requires w.Active? && WriterOk(w) && Advance(w).Idle? && i < ZONE
    requires if InDone(w, b, i) then f == w.buf[b * ZONE + i - w.off] else f == r
    requires Hits(ChunkWrite(w), b, i) ==>
               CurIntra(w) <= i && i - CurIntra(w) < |ChunkBytes(w)| && f' == ChunkBytes(w)[i - CurIntra(w)]
    requires !Hits(ChunkWrite(w), b, i) ==> f' == f
    requires r' == if Hits(Write(w.off, w.buf), b, i) then w.buf[b * ZONE + i - w.off] else r
    ensures f' == r'
  {
    LastChunk(w, b, i);
    ChunkHits(w, b, i);
  }

  /** The last chunk and what was done before make up the call. */
  lemma LastChunk(w: Writer, b: nat, i: nat)
    requires w.Active? && WriterOk(w) && Advance(w).Idle? && i < ZONE
    ensures Hits(Write(w.off, w.buf), b, i) <==> InDone(w, b, i) || Hits(ChunkWrite(w), b, i)
  {
    DoneGrows(w, b, i);
  }

  lemma ReturnedAfter(s: State, t: nat, s': State, b: nat, i: nat)
    requires Takes(s, t, s') && Advance(s.writers[t]).Idle?
    ensures var w := s.writers[t];
            Flat(s'.init, s'.returned, b, i) ==
            if Hits(Write(w.off, w.buf), b, i) then w.buf[b * ZONE + i - w.off] else Flat(s.init, s.returned, b, i)
  {
    assert s'.returned[..|s'.returned| - 1] == s.returned;
  }

  lemma OthersUntouched(s: State, t: nat, s': State, b: nat, i: nat)
    requires Takes(s, t, s') && Untouched(s', b, i) && !InDone(s.writers[t], b, i)
    ensures Untouched(s, b, i)
  {
    forall u | 0 <= u < |s.writers| && s.writers[u].Active?
      ensures !InDone(s.writers[u], b, i)
    {
      if u != t { assert s'.writers[u] == s.writers[u] && !InDone(s'.writers[u], b, i); }
    }
  }

  lemma CommitVisible(s: State, t: nat, s': State)
    requires Shape(s) && Threads(s) && Exclusive(s) && Visible(s) && Takes(s, t, s')
    ensures Visible(s')
  {
    forall u, b: nat, i: nat | 0 <= u < |s'.writers| && s'.writers[u].Active? && WriterOk(s'.writers[u])
                               && i < ZONE && InDone(s'.writers[u], b, i)
      ensures Flat(s'.init, s'.log, b, i) == s'.writers[u].buf[b * ZONE + i - s'.writers[u].off]
    {
      CommitCall(s, t, s', u, b, i);
    }
    forall b: nat, i: nat | i < ZONE && Untouched(s', b, i)
      ensures Flat(s'.init, s'.log, b, i) == Flat(s'.init, s'.returned, b, i)
    {
      CommitReturned(s, t, s', b, i);
    }
  }

  lemma CommitCloses(s: State, t: nat, s': State)
    requires Closing(s) && Takes(s, t, s')
    ensures Closing(s') && OneRetry(s')
  {
  }

  lemma CommitKeeps(s: State, t: nat)
    requires Inv(s) && CanCommit(s, t)
    ensures Inv(DoCommit(s, t))
  {
    var s' := DoCommit(s, t);
    CommitTakes(s, t);
    CommitFacts(s, t);
    CommitShape(s, t, s');
    CommitCounts(s, t, s');
    CommitOwners(s, t, s');
    CommitThreads(s, t, s');
    CommitDiscipline(s, t, s');
    CommitFaithful(s, t, s');
    CommitVisible(s, t, s');
    CommitCloses(s, t, s');
  }
}
