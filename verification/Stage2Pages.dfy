/** Stage-2 steps that take a page out of the engine: unlink it from the index,
    claim it, free it, retire it. Each keeps the invariant. */
module Stage2Pages {
  import opened Geometry
  import opened Engine
  import opened EngineInv
  import opened Stage2Shifts
  import G = Gate

  /** Pages differ at most in their tag and flags. */
  ghost predicate Alike(ps: seq<Page>, ps': seq<Page>) {
    && |ps'| == |ps|
    && forall j :: 0 <= j < |ps| ==> ps'[j].base == ps[j].base && ps'[j].cov == ps[j].cov && ps'[j].zone == ps[j].zone
  }

  lemma AlikeFaithful(s: State, s': State)
    requires Faithful(s) && Alike(s.pages, s'.pages) && s'.freed == s.freed && s'.disk == s.disk
    requires s'.init == s.init && s'.log == s.log && s'.writers == s.writers && s'.ioErr == s.ioErr
    requires s'.s1.Reading? ==> s'.s1 == s.s1
    requires s'.s2.Retiring? ==> s.s2.Retiring? && s'.s2.batch == s.s2.batch
    ensures Faithful(s')
  {
  }

  /** Nothing the whole-write groups look at has changed. */
  lemma CallsUnchanged(s: State, s': State)
    requires Visible(s) && Closing(s) && (s.closer.Running? || s.closer.Draining?)
    requires s'.writers == s.writers && s'.log == s.log && s'.returned == s.returned && s'.init == s.init
    requires s'.closer == s.closer && s'.gate.armed == s.gate.armed
    ensures Visible(s') && Closing(s')
  {
  }

  // --------------------------------------------------------------- S2Unlink

  lemma UnlinkBasics(s: State)
    requires Shape(s) && Complete(s) && Counters(s) && CanS2Unlink(s)
    ensures var s' := DoS2Unlink(s);
            Line(s') == Line(s) && Alike(s.pages, s'.pages) && Shape(s') && Complete(s') && Counters(s')
  {
  }

  lemma UnlinkedGrows(s: State)
    requires CanS2Unlink(s)
    ensures Unlinked(DoS2Unlink(s).s2) == Unlinked(s.s2) + [s.s2.batch[s.s2.k]]
    ensures Claimed(DoS2Unlink(s).s2) == Claimed(s.s2)
  {
  }

  lemma UnlinkOwners(s: State)
    requires Shape(s) && Flags(s) && Indexed(s) && CanS2Unlink(s)
    ensures Flags(DoS2Unlink(s)) && Indexed(DoS2Unlink(s))
  {
    var s' := DoS2Unlink(s);
    var r := s.s2.batch[s.s2.k];
    assert r in Line(s) && r == Of(s, r.id);
    assert Line(s') == Line(s);
    UnlinkedGrows(s);
    forall j | 0 <= j < |s.pages|
      ensures s'.pages[j].detached <==> j in s'.freed || Of(s', j) in Unlinked(s'.s2)
    {
      assert Of(s', j) == Of(s, j);
    }
  }

  lemma UnlinkThreads(s: State)
    requires Shape(s) && Indexed(s) && Threads(s) && Exclusive(s) && CanS2Unlink(s)
    ensures Threads(DoS2Unlink(s)) && Exclusive(DoS2Unlink(s))
  {
    var s' := DoS2Unlink(s);
    var r := s.s2.batch[s.s2.k];
    assert r in Line(s) && Line(s') == Line(s);
    UnlinkedGrows(s);
    forall t | 0 <= t < |s.writers| && s.writers[t].Active?
      ensures PcOk(s', s'.writers[t])
    {
      assert PcOk(s, s.writers[t]);
    }
  }

  /** Unlinking the newest page of a base: nothing of that base is behind it. */
  lemma NewestHasNoTail(s: State, k: nat)
    requires Shape(s) && Indexed(s) && Ordered(Line(s))
    requires k < |Batch(s.s2)| && InIndex(s, Batch(s.s2)[k].id)
    ensures forall r :: r in Tail(s) ==> r.base != Batch(s.s2)[k].base
  {
    var x := Batch(s.s2)[k];
    assert Line(s)[k] == x;
    forall r | r in Tail(s)
      ensures r.base != x.base
    {
      assert r in Line(s);
      var n := |Batch(s.s2) + s.q2|;
      var m :| 0 <= m < |Tail(s)| && Tail(s)[m] == r;
      assert Line(s)[n + m] == r;
    }
  }

  /** No page is in two places of the line. */
  lemma NoDuplicates(s: State, k: nat, r: Ref)
    requires Ordered(Line(s)) && k < |Batch(s.s2)| && r == Batch(s.s2)[k]
    ensures r !in Tail(s) && !Unfilled(s, r)
  {
    assert Line(s)[k] == r;
    forall m | 0 <= m < |Tail(s)|
      ensures Tail(s)[m] != r
    {
      assert Line(s)[|Batch(s.s2) + s.q2| + m] == Tail(s)[m];
    }
  }

  lemma UnlinkAccounted(s: State)
    requires Shape(s) && Accounted(s) && CanS2Unlink(s)
    ensures Accounted(DoS2Unlink(s))
  {
  }

  lemma UnlinkReachable(s: State)
    requires Shape(s) && Indexed(s) && Ordered(Line(s)) && Reachable(s) && OpenIndexed(s) && CanS2Unlink(s)
    ensures Reachable(DoS2Unlink(s)) && OpenIndexed(DoS2Unlink(s))
  {
    var s' := DoS2Unlink(s);
    var r := s.s2.batch[s.s2.k];
    assert r in Line(s) && Tail(s') == Tail(s);
    NoDuplicates(s, s.s2.k, r);
    if InIndex(s, r.id) { NewestHasNoTail(s, s.s2.k); }
    assert OpenIndexed(s');
  }

  lemma UnlinkDiscipline(s: State)
    requires Shape(s) && Indexed(s) && Discipline(s) && CanS2Unlink(s)
    ensures Discipline(DoS2Unlink(s))
  {
    var s' := DoS2Unlink(s);
    assert Line(s') == Line(s) && Tail(s') == Tail(s);
    UnlinkReachable(s);
    UnlinkAccounted(s);
    assert SealedLeaving(s');
  }

  lemma S2UnlinkKeeps(s: State)
    requires Inv(s) && CanS2Unlink(s)
    ensures Inv(DoS2Unlink(s))
  {
    var s' := DoS2Unlink(s);
    BatchOpen(s);
    UnlinkBasics(s);
    UnlinkOwners(s);
    UnlinkThreads(s);
    UnlinkDiscipline(s);
    AlikeFaithful(s, s');
    CallsUnchanged(s, s');
  }

  // ---------------------------------------------------------------- S2Claim

  lemma ClaimBasics(s: State)
    requires Shape(s) && Complete(s) && Counters(s) && CanS2Claim(s)
    ensures var s' := DoS2Claim(s);
            Line(s') == Line(s) && Alike(s.pages, s'.pages) && Shape(s') && Complete(s') && Counters(s')
  {
    var s' := DoS2Claim(s);
    assert Line(s') == Line(s) && Guarded(s') == Guarded(s);
    assert Alike(s.pages, s'.pages);
  }

  lemma ClaimedGrows(s: State)
    requires CanS2Claim(s)
    ensures Claimed(DoS2Claim(s).s2) == Claimed(s.s2) + [s.s2.batch[s.s2.k]]
    ensures Unlinked(DoS2Claim(s).s2) == Unlinked(s.s2)
  {
  }

  lemma ClaimOwners(s: State)
    requires Shape(s) && Flags(s) && Indexed(s) && CanS2Claim(s)
    ensures Flags(DoS2Claim(s)) && Indexed(DoS2Claim(s))
  {
    var s' := DoS2Claim(s);
    var r := s.s2.batch[s.s2.k];
    assert r in Line(s) && r == Of(s, r.id);
    assert Line(s') == Line(s);
    ClaimedGrows(s);
    forall j | 0 <= j < |s.pages|
      ensures s'.pages[j].inQueue <==> Of(s', j) in Line(s') && Of(s', j) !in Claimed(s'.s2)
    {
      assert Of(s', j) == Of(s, j);
    }
  }

  lemma ClaimThreads(s: State)
    requires Shape(s) && Threads(s) && Exclusive(s) && CanS2Claim(s)
    ensures Threads(DoS2Claim(s)) && Exclusive(DoS2Claim(s))
  {
    var s' := DoS2Claim(s);
    var r := s.s2.batch[s.s2.k];
    assert r in Line(s) && Line(s') == Line(s) && Batch(s'.s2) == Batch(s.s2);
    ClaimedGrows(s);
    forall t | 0 <= t < |s.writers| && s.writers[t].Active?
      ensures PcOk(s', s'.writers[t])
    {
      assert PcOk(s, s.writers[t]);
    }
  }

  /** A page Stage-2 has unlinked is not the indexed one. */
  lemma UnlinkedNotIndexed(s: State)
    requires Shape(s) && Flags(s) && Indexed(s) && CanS2Claim(s)
    ensures forall b :: b in s.index ==> s.index[b] != s.s2.batch[s.s2.k].id
  {
  }

  lemma ClaimTags(s: State)
    requires Shape(s) && Flags(s) && Indexed(s) && Ordered(Line(s)) && SealedLeaving(s) && OpenIndexed(s) && CanS2Claim(s)
    ensures SealedLeaving(DoS2Claim(s)) && OpenIndexed(DoS2Claim(s))
  {
    UnlinkedNotIndexed(s);
    NoDuplicates(s, s.s2.k, s.s2.batch[s.s2.k]);
    assert s.s2.batch[s.s2.k] in Line(s);
    assert OpenIndexed(DoS2Claim(s));
  }

  lemma ClaimDiscipline(s: State)
    requires Shape(s) && Flags(s) && Indexed(s) && Discipline(s) && CanS2Claim(s)
    ensures Discipline(DoS2Claim(s))
  {
    var s' := DoS2Claim(s);
    var r := s.s2.batch[s.s2.k];
    assert r in Line(s) && Line(s') == Line(s) && Tail(s') == Tail(s);
    ClaimTags(s);
    ClaimAccounted(s);
  }

  lemma ClaimAccounted(s: State)
    requires Shape(s) && Accounted(s) && CanS2Claim(s)
    ensures Accounted(DoS2Claim(s))
  {
  }

  lemma S2ClaimKeeps(s: State)
    requires Inv(s) && CanS2Claim(s)
    ensures Inv(DoS2Claim(s))
  {
    var s' := DoS2Claim(s);
    BatchOpen(s);
    ClaimBasics(s);
    ClaimOwners(s);
    ClaimThreads(s);
    ClaimDiscipline(s);
    AlikeFaithful(s, s');
    CallsUnchanged(s, s');
  }

  // ----------------------------------------------------------------- S2Free

  lemma FreeBasics(s: State)
    requires Shape(s) && Complete(s) && Flags(s) && Counters(s) && CanS2Free(s)
    ensures var s' := DoS2Free(s); Line(s') == Line(s) && Shape(s') && Complete(s') && Counters(s')
  {
  }

  lemma FreeOwners(s: State)
    requires Shape(s) && Flags(s) && Indexed(s) && CanS2Free(s)
    ensures Flags(DoS2Free(s)) && Indexed(DoS2Free(s))
  {
  }

  lemma FreeThreads(s: State)
    requires Shape(s) && Threads(s) && Exclusive(s) && CanS2Free(s)
    ensures Threads(DoS2Free(s)) && Exclusive(DoS2Free(s))
  {
  }

  /** The head of the line is the oldest page of its base in it. */
  lemma HeadIsOldest(s: State, r: Ref)
    requires Ordered(Line(s)) && Line(s) != [] && r in Line(s) && r.base == Line(s)[0].base && r != Line(s)[0]
    ensures Line(s)[0].id < r.id
  {
  }

  lemma FreeDiscipline(s: State)
    requires Shape(s) && Discipline(s) && CanS2Free(s)
    ensures Discipline(DoS2Free(s))
  {
    var s' := DoS2Free(s);
    var x := s.s2.batch[0];
    assert x in Line(s) && Line(s)[0] == x && Line(s') == Line(s) && Tail(s') == Tail(s);
    forall j, r | j in s'.freed && j < |s'.pages| && r in Line(s') && r.id != j && s'.pages[j].base == r.base
      ensures j < r.id
    {
      if j == x.id { HeadIsOldest(s, r); }
    }
    assert OldestFirst(s');
    FreeAccounted(s);
    assert SealedLeaving(s') && BornFull(s') && Reachable(s');
  }

  lemma FreeAccounted(s: State)
    requires Shape(s) && Accounted(s) && CanS2Free(s)
    ensures Accounted(DoS2Free(s))
  {
  }

  /** Without failed reads, the page being freed is the oldest live one of its base. */
  lemma FreedIsOldest(s: State, j: nat)
    requires Shape(s) && Indexed(s) && Threads(s) && Ordered(Line(s)) && Accounted(s) && !s.dropped && CanS2Free(s)
    requires j < |s.pages| && j !in s.freed && s.pages[j].base == s.s2.batch[0].base
    ensures s.s2.batch[0].id <= j
  {
    var x := s.s2.batch[0];
    assert x in Line(s) && Line(s)[0] == x;
    if Of(s, j) in Line(s) && Of(s, j) != x {
      HeadIsOldest(s, Of(s, j));
    }
  }

  lemma FreeContent(s: State)
    requires Shape(s) && Indexed(s) && Threads(s) && Ordered(Line(s)) && Accounted(s) && Complete(s) && Flags(s)
    requires CanS2Free(s) && !s.dropped && PagesFaithful(s) && DiskFaithful(s) && OnDisk(s)
    ensures PagesFaithful(DoS2Free(s)) && DiskFaithful(DoS2Free(s))
  {
    var s' := DoS2Free(s);
    var x := s.s2.batch[0];
    assert x in Line(s) && x in Batch(s.s2) + s.q2;
    forall j: nat, i: nat | Shows(s', j, i) && |s'.pages[j].zone| == ZONE
      ensures s'.pages[j].zone[i] == Flat(s'.init, s'.log, s'.pages[j].base, i)
    {
      if s.pages[j].base == x.base { FreedIsOldest(s, j); }
      assert Shows(s, j, i);
    }
    forall b: nat, i: nat | i < ZONE && Bare(s', b, i)
      ensures DiskByte(s'.disk, b, i) == Flat(s'.init, s'.log, b, i)
    {
      if b == x.base {
        assert Shows(s, x.id, i);
        assert DiskByte(s.disk, s.s2.batch[0].base, i) == s.pages[x.id].zone[i];
      } else {
        assert Bare(s, b, i);
      }
    }
  }

  lemma FreeFaithful(s: State)
    requires Shape(s) && Indexed(s) && Threads(s) && Ordered(Line(s)) && Accounted(s) && Complete(s) && Flags(s)
    requires CanS2Free(s) && Faithful(s)
    ensures Faithful(DoS2Free(s))
  {
    var s' := DoS2Free(s);
    if !s.ioErr {
      FreeContent(s);
      assert Undisturbed(s');
      assert FreshRead(s') && OnDisk(s');
    }
  }

  lemma S2FreeKeeps(s: State)
    requires Inv(s) && CanS2Free(s)
    ensures Inv(DoS2Free(s))
  {
    var s' := DoS2Free(s);
    BatchOpen(s);
    FreeBasics(s);
    FreeOwners(s);
    FreeThreads(s);
    FreeDiscipline(s);
    FreeFaithful(s);
    G.FreeKeeps(s.gate);
    CallsUnchanged(s, s');
  }

  // ------------------------------------------------------------------ S2Dec

  lemma DecBasics(s: State)
    requires Shape(s) && Complete(s) && Counters(s) && CanS2Dec(s)
    ensures var s' := DoS2Dec(s); Line(s) == [s.s2.batch[0]] + Line(s') && Tail(s') == Tail(s)
    ensures var s' := DoS2Dec(s); Shape(s') && Complete(s') && Counters(s')
  {
    var s' := DoS2Dec(s);
    assert s.s2.batch == [s.s2.batch[0]] + s.s2.batch[1..];
    assert Line(s) == [s.s2.batch[0]] + Line(s');
    assert Guarded(s') == Guarded(s);
  }

  lemma DecHeads(s: State)
    requires Ordered(Line(s)) && CanS2Dec(s) && Line(s) == [s.s2.batch[0]] + Line(DoS2Dec(s))
    ensures s.s2.batch[0] !in Line(DoS2Dec(s))
    ensures Claimed(s.s2) == [s.s2.batch[0]] + Claimed(DoS2Dec(s).s2)
    ensures Unlinked(s.s2) == [s.s2.batch[0]] + Unlinked(DoS2Dec(s).s2)
  {
    var s' := DoS2Dec(s);
    assert s.s2.batch == [s.s2.batch[0]] + Batch(s'.s2);
    forall i | 0 <= i < |Line(s')|
      ensures Line(s')[i] != s.s2.batch[0]
    {
      assert Line(s')[i] == Line(s)[i + 1] && Line(s)[0] == s.s2.batch[0];
    }
  }

  lemma DecFlags(s: State, j: nat)
    requires Shape(s) && Flags(s) && Ordered(Line(s)) && CanS2Dec(s) && j < |s.pages|
    requires Line(s) == [s.s2.batch[0]] + Line(DoS2Dec(s))
    ensures var s' := DoS2Dec(s); s'.pages[j].inQueue <==> Of(s', j) in Line(s') && Of(s', j) !in Claimed(s'.s2)
    ensures var s' := DoS2Dec(s); s'.pages[j].detached <==> j in s'.freed || Of(s', j) in Unlinked(s'.s2)
  {
    DecHeads(s);
    assert s.s2.batch[0] in Line(s) && s.s2.batch[0] == Of(s, s.s2.batch[0].id);
    assert Of(DoS2Dec(s), j) == Of(s, j);
  }

  lemma DecOwners(s: State)
    requires Shape(s) && Flags(s) && Indexed(s) && Ordered(Line(s)) && CanS2Dec(s)
    requires Line(s) == [s.s2.batch[0]] + Line(DoS2Dec(s))
    ensures Flags(DoS2Dec(s)) && Indexed(DoS2Dec(s))
  {
    var s' := DoS2Dec(s);
    DecHeads(s);
    forall j | 0 <= j < |s'.pages|
      ensures s'.pages[j].inQueue <==> Of(s', j) in Line(s') && Of(s', j) !in Claimed(s'.s2)
      ensures s'.pages[j].detached <==> j in s'.freed || Of(s', j) in Unlinked(s'.s2)
    {
      DecFlags(s, j);
    }
    assert s.s2.batch[0].id in s.freed;
    assert forall r :: r in Line(s') ==> r in Line(s) && r != s.s2.batch[0];
  }

  lemma DecThreads(s: State)
    requires Shape(s) && Flags(s) && Threads(s) && Exclusive(s) && CanS2Dec(s)
    requires Line(s) == [s.s2.batch[0]] + Line(DoS2Dec(s))
    ensures Threads(DoS2Dec(s)) && Exclusive(DoS2Dec(s))
  {
    var s' := DoS2Dec(s);
    var x := s.s2.batch[0];
    assert s.s2.batch == [x] + s.s2.batch[1..];
    assert Claimed(s.s2) == [x] + Claimed(s'.s2);
    forall t | 0 <= t < |s.writers| && s.writers[t].Active?
      ensures PcOk(s', s'.writers[t])
    {
      assert PcOk(s, s.writers[t]);
    }
  }

  lemma DecDiscipline(s: State)
    requires Flags(s) && Discipline(s) && CanS2Dec(s)
    requires Line(s) == [s.s2.batch[0]] + Line(DoS2Dec(s)) && Tail(DoS2Dec(s)) == Tail(s)
    ensures Discipline(DoS2Dec(s))
  {
    DecOrder(s);
    DecIndex(s);
    DecAccounted(s);
  }

  lemma DecOrder(s: State)
    requires Ordered(Line(s)) && OldestFirst(s) && CanS2Dec(s)
    requires Line(s) == [s.s2.batch[0]] + Line(DoS2Dec(s))
    ensures Ordered(Line(DoS2Dec(s))) && OldestFirst(DoS2Dec(s))
  {
    var s' := DoS2Dec(s);
    assert forall i :: 0 <= i < |Line(s')| ==> Line(s')[i] == Line(s)[i + 1];
  }

  lemma DecIndex(s: State)
    requires Reachable(s) && BornFull(s) && SealedLeaving(s) && OpenIndexed(s) && CanS2Dec(s) && Tail(DoS2Dec(s)) == Tail(s)
    ensures var s' := DoS2Dec(s); Reachable(s') && BornFull(s') && SealedLeaving(s') && OpenIndexed(s')
  {
    assert forall r :: Unfilled(DoS2Dec(s), r) <==> Unfilled(s, r);
  }

  lemma DecAccounted(s: State)
    requires Flags(s) && Accounted(s) && CanS2Dec(s)
    requires Line(s) == [s.s2.batch[0]] + Line(DoS2Dec(s)) && Tail(DoS2Dec(s)) == Tail(s)
    ensures Accounted(DoS2Dec(s))
  {
  }

  lemma DecFaithful(s: State)
    requires Faithful(s) && CanS2Dec(s)
    ensures Faithful(DoS2Dec(s))
  {
  }

  lemma S2DecKeeps(s: State)
    requires Inv(s) && CanS2Dec(s)
    ensures Inv(DoS2Dec(s))
  {
    var s' := DoS2Dec(s);
    BatchOpen(s);
    DecBasics(s);
    DecOwners(s);
    DecThreads(s);
    DecDiscipline(s);
    DecFaithful(s);
    CallsUnchanged(s, s');
  }
}
