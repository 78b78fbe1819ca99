/** The two outcomes of a merge: the chunk is taken in, or the entry array is
    exhausted and the page is sealed. Each keeps the invariant. */
module WriterMerges {
  import opened Geometry
  import opened Segments
  import opened Engine
  import opened EngineInv
  import opened WriterPages
  import opened Stage2Pages

  function Held(s: State, t: nat): nat
    requires HasPage(s, t)
  {
    s.writers[t].pc.id
  }

  // ------------------------------------------------------------- common facts

  lemma ChunkInZone(w: Writer)
    requires w.Active? && WriterOk(w)
    ensures ChunkLen(w) > 0 && ChunkSpan(w) <= FullZone() && |ChunkBytes(w)| == ChunkLen(w)
    ensures FullChunk(w) ==> ChunkSpan(w) == FullZone()
    ensures CurBase(w) * ZONE + CurIntra(w) == w.off + w.done
  {
  }

  /** A chunk that fills the zone, or a chunk in an empty page, needs one entry. */
  lemma OneEntry(s: State, t: nat)
    requires Shape(s) && HasPage(s, t)
    requires FullChunk(s.writers[t]) || s.pages[Held(s, t)].cov == {} || IsFull(s.pages[Held(s, t)])
    ensures !Overflows(s, t)
  {
    var w := s.writers[t];
    var cov := s.pages[Held(s, t)].cov;
    ChunkInZone(w);
    if cov == {} {
      assert cov + ChunkSpan(w) == ChunkSpan(w);
      OneRun(CurIntra(w), ChunkLen(w));
    } else {
      assert cov + ChunkSpan(w) == FullZone();
      OneRun(0, ZONE);
    }
  }

  /** A page a thread holds outside the line without having created it was dropped
      by a failed read; unsealed, it is the newest and alone before Q2. */
  lemma HeldOutside(s: State, t: nat)
    requires Shape(s) && Flags(s) && Threads(s) && Exclusive(s) && Accounted(s) && HasPage(s, t)
    requires !s.pages[Held(s, t)].tag.Sealed? && !s.pages[Held(s, t)].inQueue && !s.writers[t].pc.created
    ensures Of(s, Held(s, t)) !in Line(s) && s.dropped && InIndex(s, Held(s, t))
    ensures forall r :: r in Tail(s) ==> r.base != s.pages[Held(s, t)].base
  {
  }

  lemma InsertOrdered(front: seq<Ref>, x: Ref, back: seq<Ref>)
    requires Ordered(front + back)
    requires forall r :: r in front && r.base == x.base ==> r.id < x.id
    requires forall r :: r in back ==> r.base != x.base
    ensures Ordered(front + [x] + back)
  {
    var line := front + [x] + back;
    var n := |front|;
    forall i, j | 0 <= i < j < |line| && line[i].base == line[j].base
      ensures line[i].id < line[j].id
    {
      if i != n && j != n {
        var i' := if i < n then i else i - 1;
        var j' := if j < n then j else j - 1;
        assert (front + back)[i'] == line[i] && (front + back)[j'] == line[j];
      } else if j == n {
        assert line[i] in front;
      }
    }
  }

  // --------------------------------------------------------------- Overflow

  lemma OverflowFacts(s: State, t: nat)
    requires Shape(s) && Flags(s) && Threads(s) && Exclusive(s) && Accounted(s) && CanOverflow(s, t)
    ensures !FullChunk(s.writers[t]) && !s.writers[t].pc.created
    ensures !s.pages[Held(s, t)].inQueue ==>
              && Of(s, Held(s, t)) !in Line(s) && s.dropped && InIndex(s, Held(s, t))
              && forall r :: r in Tail(s) ==> r.base != s.pages[Held(s, t)].base
  {
    assert PcOk(s, s.writers[t]);
    if FullChunk(s.writers[t]) || s.pages[Held(s, t)].cov == {} { OneEntry(s, t); }
    if !s.pages[Held(s, t)].inQueue { HeldOutside(s, t); }
  }

  /** What enters Q1 when the page is sealed: only a page a failed read dropped. */
  function Pushed(s: State, t: nat): seq<Ref>
    requires HasPage(s, t)
  {
    if s.pages[Held(s, t)].inQueue then [] else [Of(s, Held(s, t))]
  }

  /** The effect of sealing, field by field. */
  ghost predicate Seals(s: State, t: nat, s': State) {
    && CanOverflow(s, t)
    && s' == s.(pages := s'.pages, q1 := s'.q1, pending := s'.pending, writers := s'.writers)
    && s'.pages == s.pages[Held(s, t) := s.pages[Held(s, t)].(tag := Sealed, inQueue := true)]
    && s'.q1 == s.q1 + Pushed(s, t)
    && s'.pending == s.pending + |Pushed(s, t)|
    && s'.writers == Move(s, t, Unlinking(Held(s, t)))
  }

  lemma OverflowSeals(s: State, t: nat)
    requires CanOverflow(s, t)
    ensures Seals(s, t, DoOverflow(s, t))
  {
    var id := Held(s, t);
    var s' := DoOverflow(s, t);
    if s.pages[id].inQueue {
      assert s.pages[id].(tag := Sealed, inQueue := true) == s.pages[id].(tag := Sealed);
    } else {
      assert s.pages[id := s.pages[id].(tag := Sealed)][id := s.pages[id].(tag := Sealed, inQueue := true)]
          == s.pages[id := s.pages[id].(tag := Sealed, inQueue := true)];
    }
  }

  lemma OverflowLine(s: State, t: nat, s': State)
    requires Seals(s, t, s')
    ensures Line(s') == Line(s) + Pushed(s, t) && Tail(s') == Tail(s) + Pushed(s, t)
    ensures Guarded(s') == Guarded(s) && Alike(s.pages, s'.pages)
  {
  }

  lemma OverflowBasics(s: State, t: nat, s': State)
    requires Shape(s) && Complete(s) && Counters(s) && Seals(s, t, s')
    ensures Shape(s') && Complete(s') && Counters(s')
  {
  }

  lemma OverflowOwners(s: State, t: nat, s': State)
    requires Shape(s) && Flags(s) && Indexed(s) && Threads(s) && Seals(s, t, s')
    ensures Flags(s') && Indexed(s')
  {
    assert Line(s') == Line(s) + Pushed(s, t);
    assert forall j :: 0 <= j < |s.pages| ==> Of(s', j) == Of(s, j);
  }

  lemma OverflowPc(s: State, t: nat, s': State, u: nat)
    requires Shape(s) && Threads(s) && Exclusive(s) && Seals(s, t, s')
    requires u != t && ThreadAt(s, u)
    ensures PcOk(s', s'.writers[u])
  {
  }

  lemma OverflowThreads(s: State, t: nat, s': State)
    requires Shape(s) && Flags(s) && Threads(s) && Exclusive(s) && Accounted(s) && Seals(s, t, s')
    ensures Threads(s') && Exclusive(s')
  {
    assert PcOk(s, s.writers[t]);
    OverflowFacts(s, t);
    forall u | 0 <= u < |s.writers| && s'.writers[u].Active?
      ensures WriterOk(s'.writers[u]) && PcOk(s', s'.writers[u])
    {
      if u != t { OverflowPc(s, t, s', u); }
    }
  }

  lemma OverflowOrder(s: State, t: nat, s': State)
    requires Shape(s) && Flags(s) && Indexed(s) && Threads(s) && Exclusive(s) && Seals(s, t, s')
    requires Ordered(Line(s)) && OldestFirst(s) && Accounted(s)
    ensures Ordered(Line(s')) && OldestFirst(s')
  {
    var x := Of(s, Held(s, t));
    OverflowLine(s, t, s');
    OverflowFacts(s, t);
    if !s.pages[x.id].inQueue {
      NewestOrdered(s, x);
      assert Line(s') == Line(s) + [x];
    }
  }

  /** The indexed page may join the end of the line. */
  lemma NewestOrdered(s: State, x: Ref)
    requires Shape(s) && Indexed(s) && Ordered(Line(s))
    requires x.id < |s.pages| && x == Of(s, x.id) && InIndex(s, x.id) && x !in Line(s)
    ensures Ordered(Line(s) + [x])
    ensures forall j :: j in s.freed && j < |s.pages| && s.pages[j].base == x.base ==> j < x.id
  {
    assert Line(s) + [] == Line(s);
    forall r | r in Line(s) && r.base == x.base
      ensures r.id < x.id
    {
      assert r == Of(s, r.id);
    }
    InsertOrdered(Line(s), x, []);
    assert Line(s) + [x] == Line(s) + [x] + [];
  }

  lemma OverflowReachable(s: State, t: nat, s': State)
    requires Shape(s) && Flags(s) && Threads(s) && Exclusive(s) && Seals(s, t, s')
    requires Reachable(s) && BornFull(s) && Accounted(s)
    ensures Reachable(s') && BornFull(s')
  {
    OverflowLine(s, t, s');
    OverflowFacts(s, t);
    forall r | r in Tail(s') && r.base !in s'.index
      ensures exists u :: 0 <= u < |s'.writers| && Between(s'.writers[u], r.base)
    {
      var u :| 0 <= u < |s.writers| && Between(s.writers[u], r.base);
      assert u != t && s'.writers[u] == s.writers[u];
    }
    forall u | 0 <= u < |s'.writers| && s'.writers[u].Active? && WriterOk(s'.writers[u])
               && s'.writers[u].pc.Holding? && s'.writers[u].pc.created && FullChunk(s'.writers[u])
      ensures forall r :: r in Tail(s') ==> r.base != CurBase(s'.writers[u])
    {
      assert u != t && PcOk(s, s.writers[u]) && !SameLock(s.writers[t], s.writers[u]);
    }
  }

  lemma OverflowTags(s: State, t: nat, s': State)
    requires Shape(s) && Threads(s) && SealedLeaving(s) && OpenIndexed(s) && Seals(s, t, s')
    ensures SealedLeaving(s') && OpenIndexed(s')
  {
    OverflowLine(s, t, s');
    forall b | b in s'.index && s'.index[b] < |s'.pages| && s'.pages[s'.index[b]].tag.Sealed?
      ensures exists u :: 0 <= u < |s'.writers| && s'.writers[u].Active? && s'.writers[u].pc == Unlinking(s'.index[b])
    {
      if s.index[b] == Held(s, t) {
        assert s'.writers[t].pc == Unlinking(s'.index[b]);
      } else {
        var u :| 0 <= u < |s.writers| && s.writers[u].Active? && s.writers[u].pc == Unlinking(s.index[b]);
        assert u != t && s'.writers[u] == s.writers[u];
      }
    }
    forall r | Unfilled(s', r) && r.id < |s'.pages|
      ensures s'.pages[r.id].tag.Sealed? || InIndex(s', r.id)
    {
      if r.id != Held(s, t) { assert Unfilled(s, r); }
    }
  }

  lemma OverflowAccounted(s: State, t: nat, s': State)
    requires Shape(s) && Flags(s) && Threads(s) && Exclusive(s) && Accounted(s) && Seals(s, t, s')
    ensures Accounted(s')
  {
    OverflowLine(s, t, s');
    OverflowFacts(s, t);
    FreshStays(s, s', t);
    forall j | 0 <= j < |s'.pages| && j !in s'.freed && Of(s', j) !in Line(s') && !Fresh(s', j)
      ensures s'.dropped && (s'.pages[j].tag.Sealed? ||
                (InIndex(s', j) && forall r :: r in Tail(s') ==> r.base != s'.pages[j].base))
    {
      assert Of(s, j) == Of(s', j);
    }
  }

  lemma OverflowDiscipline(s: State, t: nat, s': State)
    requires Shape(s) && Flags(s) && Indexed(s) && Threads(s) && Exclusive(s) && Discipline(s) && Seals(s, t, s')
    ensures Discipline(s')
  {
    OverflowOrder(s, t, s');
    OverflowReachable(s, t, s');
    OverflowTags(s, t, s');
    OverflowAccounted(s, t, s');
  }

  lemma OverflowFaithful(s: State, t: nat, s': State)
    requires Faithful(s) && Seals(s, t, s')
    ensures Faithful(s')
  {
  }

  lemma OverflowCalls(s: State, t: nat, s': State)
    requires Closing(s) && OneRetry(s) && Threads(s) && Shape(s) && Seals(s, t, s')
    ensures Closing(s') && OneRetry(s')
  {
    assert PcOk(s, s.writers[t]);
    if s.pages[Held(s, t)].cov == {} { OneEntry(s, t); }
  }

  lemma OverflowKeeps(s: State, t: nat)
    requires Inv(s) && CanOverflow(s, t)
    ensures Inv(DoOverflow(s, t))
  {
    var s' := DoOverflow(s, t);
    OverflowSeals(s, t);
    OverflowBasics(s, t, s');
    OverflowOwners(s, t, s');
    OverflowThreads(s, t, s');
    OverflowDiscipline(s, t, s');
    OverflowFaithful(s, t, s');
    OverflowCalls(s, t, s');
    SameCallsVisible(s, s', t);
  }
}
