/** Foreground steps that create, seal or unlink a page. Each keeps the invariant. */
module WriterPages {
  import opened Geometry
  import opened Engine
  import opened EngineInv
  import G = Gate

  // ----------------------------------------------------------------- Create

  lemma CreateBasics(s: State, t: nat, junk: seq<byte>)
    requires Shape(s) && Complete(s) && Counters(s) && CanCreate(s, t, junk)
    ensures var s' := DoCreate(s, t, junk);
            Line(s') == Line(s) && Tail(s') == Tail(s) && Shape(s') && Complete(s') && Counters(s')
  {
  }

  lemma UnlinkedInLine(s: State)
    ensures forall r :: r in Unlinked(s.s2) || r in Claimed(s.s2) ==> r in Line(s)
  {
  }

  lemma CreateOwners(s: State, t: nat, junk: seq<byte>)
    requires Shape(s) && Flags(s) && Indexed(s) && CanCreate(s, t, junk)
    ensures Flags(DoCreate(s, t, junk)) && Indexed(DoCreate(s, t, junk))
  {
  }

  lemma CreateThreads(s: State, t: nat, junk: seq<byte>)
    requires Shape(s) && Indexed(s) && Threads(s) && Exclusive(s) && CanCreate(s, t, junk)
    ensures Threads(DoCreate(s, t, junk)) && Exclusive(DoCreate(s, t, junk))
  {
    var s' := DoCreate(s, t, junk);
    assert Line(s') == Line(s);
    UnlinkedInLine(s);
    forall u | 0 <= u < |s.writers| && s'.writers[u].Active?
      ensures WriterOk(s'.writers[u]) && PcOk(s', s'.writers[u])
    {
      if u != t { assert PcOk(s, s.writers[u]); }
    }
    forall u | 0 <= u < |s.writers| && u != t && s.writers[u].Active?
      ensures !SameLock(s'.writers[t], s.writers[u]) && !SameLock(s.writers[u], s'.writers[t])
    {
      assert PcOk(s, s.writers[u]);
    }
  }

  /** A thread whose chunk fills the zone and that found no page for its base has
      no older page of that base before Q2: whoever unlinked one would still be
      in a call that overlaps the zone. */
  lemma FullChunkFindsNoTail(s: State, t: nat)
    requires Exclusive(s) && Reachable(s) && ThreadAt(s, t) && CurBase(s.writers[t]) !in s.index && FullChunk(s.writers[t])
    ensures forall r :: r in Tail(s) ==> r.base != CurBase(s.writers[t])
  {
  }

  /** Other threads keep the pages they created. */
  lemma FreshStays(s: State, s': State, t: nat)
    requires ThreadAt(s, t) && |s'.writers| == |s.writers| && s'.writers == s.writers[t := s'.writers[t]]
    requires s.writers[t].pc.Holding? ==> !s.writers[t].pc.created
    ensures forall j :: Fresh(s, j) ==> Fresh(s', j)
  {
    forall j | Fresh(s, j)
      ensures Fresh(s', j)
    {
      var u :| 0 <= u < |s.writers| && s.writers[u].Active? && s.writers[u].pc == Holding(j, true);
      assert s'.writers[u] == s.writers[u];
    }
  }

  lemma CreateFresh(s: State, t: nat, junk: seq<byte>)
    requires Shape(s) && Indexed(s) && SealedLeaving(s) && Accounted(s) && CanCreate(s, t, junk)
    ensures SealedLeaving(DoCreate(s, t, junk)) && Accounted(DoCreate(s, t, junk))
  {
    var s' := DoCreate(s, t, junk);
    assert Line(s') == Line(s) && Tail(s') == Tail(s);
    forall b | b in s'.index && s'.index[b] < |s'.pages| && s'.pages[s'.index[b]].tag.Sealed?
      ensures exists u :: 0 <= u < |s'.writers| && s'.writers[u].Active? && s'.writers[u].pc == Unlinking(s'.index[b])
    {
      var u :| 0 <= u < |s.writers| && s.writers[u].Active? && s.writers[u].pc == Unlinking(s.index[b]);
      assert s'.writers[u] == s.writers[u];
    }
    FreshStays(s, s', t);
    forall j | 0 <= j < |s'.pages| && j !in s'.freed && Of(s', j) !in Line(s') && !Fresh(s', j)
      ensures s'.dropped && (s'.pages[j].tag.Sealed? ||
                (InIndex(s', j) && forall r :: r in Tail(s') ==> r.base != s'.pages[j].base))
    {
      assert s'.writers[t].pc == Holding(|s.pages|, true);
      assert j < |s.pages| && Of(s, j) == Of(s', j);
    }
  }

  lemma CreateReachable(s: State, t: nat, junk: seq<byte>)
    requires Exclusive(s) && Reachable(s) && BornFull(s) && CanCreate(s, t, junk)
    ensures Reachable(DoCreate(s, t, junk)) && BornFull(DoCreate(s, t, junk))
  {
    var s' := DoCreate(s, t, junk);
    assert Tail(s') == Tail(s);
    forall r | r in Tail(s') && r.base !in s'.index
      ensures exists u :: 0 <= u < |s'.writers| && Between(s'.writers[u], r.base)
    {
      var u :| 0 <= u < |s.writers| && Between(s.writers[u], r.base);
      assert s'.writers[u] == s.writers[u];
    }
    if FullChunk(s.writers[t]) { FullChunkFindsNoTail(s, t); }
    assert BornFull(s');
  }

  lemma CreateOpen(s: State, t: nat, junk: seq<byte>)
    requires Shape(s) && OpenIndexed(s) && CanCreate(s, t, junk)
    ensures OpenIndexed(DoCreate(s, t, junk))
  {
  }

  lemma CreateDiscipline(s: State, t: nat, junk: seq<byte>)
    requires Shape(s) && Indexed(s) && Exclusive(s) && Discipline(s) && CanCreate(s, t, junk)
    ensures Discipline(DoCreate(s, t, junk))
  {
    var s' := DoCreate(s, t, junk);
    assert Line(s') == Line(s);
    CreateFresh(s, t, junk);
    CreateReachable(s, t, junk);
    CreateOpen(s, t, junk);
    assert OldestFirst(s');
  }

  lemma CreateFaithful(s: State, t: nat, junk: seq<byte>)
    requires Shape(s) && Faithful(s) && CanCreate(s, t, junk)
    ensures Faithful(DoCreate(s, t, junk))
  {
  }

  /** Calls advance only when a chunk is merged. */
  lemma SameCallsVisible(s: State, s': State, t: nat)
    requires Visible(s) && ThreadAt(s, t)
    requires |s'.writers| == |s.writers| && s'.writers == s.writers[t := s'.writers[t]]
    requires s'.writers[t].Active? && s'.writers[t].off == s.writers[t].off
    requires s'.writers[t].buf == s.writers[t].buf && s'.writers[t].done == s.writers[t].done
    requires s'.log == s.log && s'.returned == s.returned && s'.init == s.init
    ensures Visible(s')
  {
    forall u, b: nat, i: nat | 0 <= u < |s'.writers| && s'.writers[u].Active? && WriterOk(s'.writers[u])
                               && i < ZONE && InDone(s'.writers[u], b, i)
      ensures Flat(s'.init, s'.log, b, i) == s'.writers[u].buf[b * ZONE + i - s'.writers[u].off]
    {
      assert InDone(s.writers[u], b, i);
    }
    forall b: nat, i: nat | i < ZONE && Untouched(s', b, i)
      ensures Flat(s'.init, s'.log, b, i) == Flat(s'.init, s'.returned, b, i)
    {
      forall u | 0 <= u < |s.writers| && s.writers[u].Active?
        ensures !InDone(s.writers[u], b, i)
      {
        assert !InDone(s'.writers[u], b, i);
      }
      assert Untouched(s, b, i);
    }
  }

  lemma CreateKeeps(s: State, t: nat, junk: seq<byte>)
    requires Inv(s) && CanCreate(s, t, junk)
    ensures Inv(DoCreate(s, t, junk))
  {
    var s' := DoCreate(s, t, junk);
    CreateBasics(s, t, junk);
    CreateOwners(s, t, junk);
    CreateThreads(s, t, junk);
    CreateDiscipline(s, t, junk);
    CreateFaithful(s, t, junk);
    SameCallsVisible(s, s', t);
    G.AllocKeeps(s.gate, t);
  }

  // ----------------------------------------------------------------- Unlink

  lemma UnlinkRest(s: State, t: nat)
    requires Shape(s) && Complete(s) && Counters(s) && Flags(s) && Indexed(s) && CanUnlink(s, t)
    ensures var s' := DoUnlink(s, t);
            Line(s') == Line(s) && Tail(s') == Tail(s) && Shape(s') && Complete(s') && Counters(s') && Flags(s') && Indexed(s')
  {
  }

  lemma ThreadUnlinks(s: State, t: nat)
    requires Shape(s) && Indexed(s) && Threads(s) && Exclusive(s) && CanUnlink(s, t)
    ensures Threads(DoUnlink(s, t)) && Exclusive(DoUnlink(s, t))
  {
    var s' := DoUnlink(s, t);
    var id := s.writers[t].pc.id;
    assert PcOk(s, s.writers[t]) && Line(s') == Line(s);
    forall u | 0 <= u < |s.writers| && s'.writers[u].Active?
      ensures WriterOk(s'.writers[u]) && PcOk(s', s'.writers[u])
    {
      if u != t {
        assert PcOk(s, s.writers[u]);
        if s.writers[u].pc.Holding? && s.writers[u].pc.created { FreshNotLeaving(s, t, u); }
      }
    }
  }

  /** A page still in its creator's hands is nobody's to unlink. */
  lemma FreshNotLeaving(s: State, t: nat, u: nat)
    requires Shape(s) && Threads(s) && ThreadAt(s, t) && ThreadAt(s, u)
    requires s.writers[t].pc.Unlinking? && s.writers[u].pc.Holding? && s.writers[u].pc.created
    ensures s.writers[t].pc.id != s.writers[u].pc.id
  {
  }

  /** What lies behind a page in the line is another page. */
  lemma BehindDiffers(s: State, k: nat, r: Ref)
    requires Ordered(Line(s)) && k < |Line(s)| && Line(s)[k] == r && k <= |Batch(s.s2) + s.q2|
    ensures k < |Batch(s.s2) + s.q2| ==> r !in Tail(s)
    ensures !s.s1.S1Idle? ==> r !in s.q1
  {
    var n := |Batch(s.s2) + s.q2|;
    forall m | 0 <= m < |Tail(s)| && k < n + m
      ensures Tail(s)[m] != r
    {
      assert Line(s)[n + m] == Tail(s)[m];
    }
    forall m | 0 <= m < |s.q1| && !s.s1.S1Idle?
      ensures s.q1[m] != r
    {
      assert Tail(s)[m + 1] == s.q1[m];
    }
  }

  /** A completed page is not waiting for Stage-1. */
  lemma PastNotUnfilled(s: State, id: nat)
    requires Shape(s) && Flags(s) && Ordered(Line(s)) && id < |s.pages| && Past(s, id)
    ensures !Unfilled(s, Of(s, id))
  {
    var r := Of(s, id);
    var front := Batch(s.s2) + s.q2;
    if r in front {
      var k :| 0 <= k < |front| && front[k] == r;
      assert Line(s)[k] == r;
      BehindDiffers(s, k, r);
    } else if id !in s.freed {
      assert Line(s)[|front|] == r;
      BehindDiffers(s, |front|, r);
    } else {
      assert s.s2.Retiring? ==> s.s2.batch[0] in front;
      assert r !in Line(s);
    }
  }

  lemma UnlinkOpen(s: State, t: nat)
    requires Shape(s) && Flags(s) && Threads(s) && Ordered(Line(s)) && OpenIndexed(s) && CanUnlink(s, t)
    ensures OpenIndexed(DoUnlink(s, t))
  {
    var s' := DoUnlink(s, t);
    var id := s.writers[t].pc.id;
    assert PcOk(s, s.writers[t]);
    forall r | Unfilled(s', r) && r.id < |s'.pages|
      ensures s'.pages[r.id].tag.Sealed? || InIndex(s', r.id)
    {
      assert Unfilled(s, r) && r in Line(s);
      if r.id == id && Past(s, id) { PastNotUnfilled(s, id); }
    }
  }

  lemma ThreadUnlinkReachable(s: State, t: nat)
    requires Threads(s) && Reachable(s) && BornFull(s) && CanUnlink(s, t)
    ensures Reachable(DoUnlink(s, t)) && BornFull(DoUnlink(s, t))
  {
    var s' := DoUnlink(s, t);
    assert PcOk(s, s.writers[t]) && Tail(s') == Tail(s);
    forall r | r in Tail(s') && r.base !in s'.index
      ensures exists u :: 0 <= u < |s'.writers| && Between(s'.writers[u], r.base)
    {
      if r.base == CurBase(s.writers[t]) {
        assert Between(s'.writers[t], r.base);
      } else {
        var u :| 0 <= u < |s.writers| && Between(s.writers[u], r.base);
        assert u != t && s'.writers[u] == s.writers[u];
      }
    }
    assert BornFull(s');
  }

  lemma UnlinkFresh(s: State, t: nat)
    requires Shape(s) && Flags(s) && Indexed(s) && Threads(s) && SealedLeaving(s) && Accounted(s) && CanUnlink(s, t)
    ensures SealedLeaving(DoUnlink(s, t)) && Accounted(DoUnlink(s, t))
  {
    var s' := DoUnlink(s, t);
    var id := s.writers[t].pc.id;
    assert PcOk(s, s.writers[t]) && Line(s') == Line(s) && Tail(s') == Tail(s);
    forall b | b in s'.index && s'.index[b] < |s'.pages| && s'.pages[s'.index[b]].tag.Sealed?
      ensures exists u :: 0 <= u < |s'.writers| && s'.writers[u].Active? && s'.writers[u].pc == Unlinking(s'.index[b])
    {
      var u :| 0 <= u < |s.writers| && s.writers[u].Active? && s.writers[u].pc == Unlinking(s.index[b]);
      assert u != t && s'.writers[u] == s.writers[u];
    }
    FreshStays(s, s', t);
    forall j | 0 <= j < |s'.pages| && j !in s'.freed && Of(s', j) !in Line(s') && !Fresh(s', j)
      ensures s'.dropped && (s'.pages[j].tag.Sealed? ||
                (InIndex(s', j) && forall r :: r in Tail(s') ==> r.base != s'.pages[j].base))
    {
      assert Of(s, j) == Of(s', j);
      if j == id { PastInLine(s, id); }
    }
  }

  /** A completed page that is still live is in the line. */
  lemma PastInLine(s: State, id: nat)
    requires id < |s.pages| && id !in s.freed && Of(s, id) !in Line(s)
    ensures !Past(s, id)
  {
  }

  lemma UnlinkContent(s: State, t: nat)
    requires Faithful(s) && CanUnlink(s, t)
    ensures Faithful(DoUnlink(s, t))
  {
  }

  lemma UnlinkDiscipline(s: State, t: nat)
    requires Shape(s) && Flags(s) && Indexed(s) && Threads(s) && Discipline(s) && CanUnlink(s, t)
    ensures Discipline(DoUnlink(s, t))
  {
    var s' := DoUnlink(s, t);
    assert Line(s') == Line(s);
    UnlinkOpen(s, t);
    ThreadUnlinkReachable(s, t);
    UnlinkFresh(s, t);
    assert OldestFirst(s');
  }

  lemma UnlinkCalls(s: State, t: nat)
    requires Closing(s) && OneRetry(s) && CanUnlink(s, t)
    ensures Closing(DoUnlink(s, t)) && OneRetry(DoUnlink(s, t))
  {
  }

  lemma UnlinkKeeps(s: State, t: nat)
    requires Inv(s) && CanUnlink(s, t)
    ensures Inv(DoUnlink(s, t))
  {
    var s' := DoUnlink(s, t);
    UnlinkRest(s, t);
    ThreadUnlinks(s, t);
    UnlinkDiscipline(s, t);
    UnlinkContent(s, t);
    UnlinkCalls(s, t);
    SameCallsVisible(s, s', t);
  }
}
