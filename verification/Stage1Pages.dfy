/** Stage-1 steps that change a page: completing it from the scratch zone, and
    dropping it after a failed read. Each keeps the invariant. */
module Stage1Pages {
  import opened Engine
  import opened EngineInv
  import opened Stage1Shifts
  import opened Stage2Pages

  // ----------------------------------------------------------------- S1Fill

  lemma FillBasics(s: State)
    requires Shape(s) && Complete(s) && Counters(s) && CanS1Fill(s)
    ensures var s' := DoS1Fill(s);
            Line(s') == Line(s) && Tail(s') == Tail(s) && Shape(s') && Complete(s') && Counters(s')
  {
  }

  lemma FillOwners(s: State)
    requires Flags(s) && Indexed(s) && CanS1Fill(s)
    ensures Flags(DoS1Fill(s)) && Indexed(DoS1Fill(s))
  {
  }

  lemma FillThreads(s: State)
    requires Shape(s) && Threads(s) && Exclusive(s) && CanS1Fill(s)
    ensures Threads(DoS1Fill(s)) && Exclusive(DoS1Fill(s))
  {
  }

  /** Stage-1's page is nowhere else in the line. */
  lemma HandNotInQ1(s: State)
    requires Ordered(Line(s)) && !s.s1.S1Idle?
    ensures s.s1.r !in s.q1
  {
    var n := |Batch(s.s2) + s.q2|;
    assert Line(s)[n] == s.s1.r;
    forall m | 0 <= m < |s.q1|
      ensures s.q1[m] != s.s1.r
    {
      assert Line(s)[n + 1 + m] == s.q1[m];
    }
  }

  lemma FillTags(s: State)
    requires Shape(s) && Indexed(s) && Ordered(Line(s)) && SealedLeaving(s) && OpenIndexed(s) && CanS1Fill(s)
    ensures SealedLeaving(DoS1Fill(s)) && OpenIndexed(DoS1Fill(s))
  {
    var s' := DoS1Fill(s);
    HandNotInQ1(s);
    assert s.s1.r in Line(s);
    forall r | Unfilled(s', r) && r.id < |s'.pages|
      ensures s'.pages[r.id].tag.Sealed? || InIndex(s', r.id)
    {
      assert r in Line(s) && r.id != s.s1.r.id;
      assert Unfilled(s, r);
    }
    assert SealedLeaving(s');
  }

  lemma FillAccounted(s: State)
    requires Shape(s) && Accounted(s) && CanS1Fill(s)
    ensures Accounted(DoS1Fill(s))
  {
  }

  lemma FillDiscipline(s: State)
    requires Shape(s) && Indexed(s) && Discipline(s) && CanS1Fill(s)
    ensures Discipline(DoS1Fill(s))
  {
    var s' := DoS1Fill(s);
    assert Line(s') == Line(s) && Tail(s') == Tail(s);
    FillTags(s);
    FillAccounted(s);
    assert OldestFirst(s') && BornFull(s') && Reachable(s');
  }

  /** Completing the oldest live page of a base shows nothing new: where it was
      uncovered, it now carries the disk byte that showed there already. */
  lemma FillContent(s: State)
    requires Shape(s) && CanS1Fill(s) && PagesFaithful(s) && DiskFaithful(s) && FreshRead(s)
    ensures PagesFaithful(DoS1Fill(s)) && DiskFaithful(DoS1Fill(s))
  {
  }

  lemma FillUndisturbed(s: State)
    requires Shape(s) && Threads(s) && CanS1Fill(s) && Undisturbed(s) && FreshRead(s)
    ensures Undisturbed(DoS1Fill(s))
  {
  }

  /** A claimed page is not the one in Stage-1's hand. */
  lemma FillOnDisk(s: State)
    requires Shape(s) && Ordered(Line(s)) && CanS1Fill(s) && OnDisk(s)
    ensures OnDisk(DoS1Fill(s))
  {
    var s' := DoS1Fill(s);
    if s.s2.Retiring? {
      assert Line(s)[|Batch(s.s2) + s.q2|] == s.s1.r && s.s1.r in Line(s);
      forall k | 0 <= k < |s.s2.batch|
        ensures s.s2.batch[k].id != s.s1.r.id
      {
        assert Line(s)[k] == s.s2.batch[k] && s.s2.batch[k] in Line(s);
      }
    }
  }

  lemma FillFaithful(s: State)
    requires Shape(s) && Threads(s) && Ordered(Line(s)) && CanS1Fill(s) && Faithful(s)
    ensures Faithful(DoS1Fill(s))
  {
    if !s.ioErr {
      FillContent(s);
      FillUndisturbed(s);
      FillOnDisk(s);
    }
  }

  lemma S1FillKeeps(s: State)
    requires Inv(s) && CanS1Fill(s)
    ensures Inv(DoS1Fill(s))
  {
    var s' := DoS1Fill(s);
    LineOpen(s);
    FillBasics(s);
    FillOwners(s);
    FillThreads(s);
    FillDiscipline(s);
    FillFaithful(s);
    CallsUnchanged(s, s');
  }

  // ----------------------------------------------------------------- S1Fail

  lemma FailLine(s: State)
    requires Ordered(Line(s)) && CanS1Fail(s)
    ensures forall r :: r in Line(s) <==> r in Line(DoS1Fail(s)) || r == s.s1.r
    ensures s.s1.r !in Line(DoS1Fail(s)) && |Line(s)| == |Line(DoS1Fail(s))| + 1
    ensures Ordered(Line(DoS1Fail(s)))
  {
    var s' := DoS1Fail(s);
    var front := Batch(s.s2) + s.q2;
    var n := |front|;
    assert Line(s) == front + [s.s1.r] + s.q1 && Line(s') == front + s.q1;
    assert Line(s)[n] == s.s1.r;
    forall i | 0 <= i < |Line(s')|
      ensures Line(s')[i] == Line(s)[if i < n then i else i + 1] && Line(s')[i] != s.s1.r
    {
    }
  }

  lemma FailBasics(s: State)
    requires Shape(s) && Complete(s) && Counters(s) && Ordered(Line(s)) && CanS1Fail(s)
    ensures var s' := DoS1Fail(s); Shape(s') && Complete(s') && Counters(s')
  {
  }

  lemma FailOwners(s: State)
    requires Shape(s) && Flags(s) && Indexed(s) && Ordered(Line(s)) && CanS1Fail(s)
    ensures Flags(DoS1Fail(s)) && Indexed(DoS1Fail(s))
  {
    var s' := DoS1Fail(s);
    FailLine(s);
    assert s.s1.r in Line(s);
    forall j | 0 <= j < |s'.pages|
      ensures s'.pages[j].inQueue <==> Of(s', j) in Line(s') && Of(s', j) !in Claimed(s'.s2)
    {
      assert Of(s', j) == Of(s, j);
    }
  }

  lemma FailThreads(s: State)
    requires Shape(s) && Threads(s) && Exclusive(s) && Ordered(Line(s)) && CanS1Fail(s)
    ensures Threads(DoS1Fail(s)) && Exclusive(DoS1Fail(s))
  {
  }

  /** The page Stage-1 drops is sealed, or it is the newest of its base and no
      other page of the base is waiting for Stage-1. */
  lemma DroppedIsLast(s: State)
    requires Shape(s) && Indexed(s) && Ordered(Line(s)) && OpenIndexed(s) && CanS1Fail(s)
    ensures s.pages[s.s1.r.id].tag.Sealed? ||
            (InIndex(s, s.s1.r.id) && forall r :: r in s.q1 ==> r.base != s.s1.r.base)
  {
    assert Unfilled(s, s.s1.r) && s.s1.r in Line(s);
    var n := |Batch(s.s2) + s.q2|;
    assert Line(s)[n] == s.s1.r;
    if InIndex(s, s.s1.r.id) {
      forall m | 0 <= m < |s.q1|
        ensures s.q1[m].base != s.s1.r.base
      {
        assert Line(s)[n + 1 + m] == s.q1[m] && s.q1[m] in Line(s);
      }
    }
  }

  lemma FailAccounted(s: State)
    requires Shape(s) && Indexed(s) && Ordered(Line(s)) && OpenIndexed(s) && Accounted(s) && CanS1Fail(s)
    ensures Accounted(DoS1Fail(s))
  {
    var s' := DoS1Fail(s);
    FailLine(s);
    DroppedIsLast(s);
    assert s.s1.r in Line(s) && s.s1.r == Of(s, s.s1.r.id);
    forall j | 0 <= j < |s'.pages| && j !in s'.freed && Of(s', j) !in Line(s') && !Fresh(s', j)
      ensures s'.dropped && (s'.pages[j].tag.Sealed? ||
                (InIndex(s', j) && forall r :: r in Tail(s') ==> r.base != s'.pages[j].base))
    {
      assert !Fresh(s, j) && Of(s, j) == Of(s', j);
    }
  }

  lemma FailOrder(s: State)
    requires Shape(s) && Ordered(Line(s)) && OldestFirst(s) && Reachable(s) && CanS1Fail(s)
    ensures var s' := DoS1Fail(s); Ordered(Line(s')) && OldestFirst(s') && Reachable(s')
  {
    FailLine(s);
  }

  lemma FailIndex(s: State)
    requires Shape(s) && BornFull(s) && SealedLeaving(s) && OpenIndexed(s) && CanS1Fail(s)
    ensures var s' := DoS1Fail(s); BornFull(s') && SealedLeaving(s') && OpenIndexed(s')
  {
    var s' := DoS1Fail(s);
    assert forall r :: r in Tail(s') ==> r in Tail(s);
    assert forall r :: Unfilled(s', r) ==> Unfilled(s, r);
  }

  lemma FailDiscipline(s: State)
    requires Shape(s) && Indexed(s) && Discipline(s) && CanS1Fail(s)
    ensures Discipline(DoS1Fail(s))
  {
    FailOrder(s);
    FailIndex(s);
    FailAccounted(s);
  }

  lemma S1FailKeeps(s: State)
    requires Inv(s) && CanS1Fail(s)
    ensures Inv(DoS1Fail(s))
  {
    var s' := DoS1Fail(s);
    LineOpen(s);
    FailBasics(s);
    FailOwners(s);
    FailThreads(s);
    FailDiscipline(s);
    CallsUnchanged(s, s');
  }
}
