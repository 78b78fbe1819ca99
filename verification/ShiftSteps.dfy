/** Background steps that hand a page on without changing any page or the order
    of the line: each keeps the invariant. */
module ShiftSteps {
  import opened Engine
  import opened EngineInv

  /** Pages, index and threads stay; the line is cut at different places. */
  ghost predicate Shifts(s: State, s': State) {
    && s' == s.(q1 := s'.q1, q2 := s'.q2, s1 := s'.s1, s2 := s'.s2, wb := s'.wb, bcount := s'.bcount,
                disk := s'.disk, ioErr := s'.ioErr)
    && Line(s') == Line(s)
    && Claimed(s'.s2) == Claimed(s.s2) && Unlinked(s'.s2) == Unlinked(s.s2)
    && (s.s2.Retiring? && !s.s2.sub.ToFree? ==>
          s'.s2.Retiring? && !s'.s2.sub.ToFree? && s'.s2.batch == s.s2.batch)
    && (s'.s2.Retiring? && !s'.s2.sub.ToFree? ==> s.s2.Retiring? && !s.s2.sub.ToFree?)
    && (forall r :: r in Tail(s') ==> r in Tail(s))
    && (forall r :: Unfilled(s', r) ==> Unfilled(s, r))
    && (forall j {:trigger Past(s', j)} :: 0 <= j < |s.pages| && Past(s, j) ==> Past(s', j))
    && (s.ioErr ==> s'.ioErr)
  }

  lemma ShiftOwners(s: State, s': State)
    requires Flags(s) && Indexed(s) && Shifts(s, s')
    ensures Flags(s') && Indexed(s')
  {
  }

  lemma ShiftThreads(s: State, s': State)
    requires Threads(s) && Exclusive(s) && Shifts(s, s')
    ensures Threads(s') && Exclusive(s')
  {
  }

  lemma ShiftDiscipline(s: State, s': State)
    requires Discipline(s) && Shifts(s, s')
    ensures Discipline(s')
  {
  }

  lemma ShiftVisible(s: State, s': State)
    requires Visible(s) && OneRetry(s) && Closing(s) && Shifts(s, s') && (s.closer.Running? || s.closer.Draining?)
    ensures Visible(s') && OneRetry(s') && Closing(s')
  {
  }

  /** The content groups do not look at the queues. */
  lemma ShiftContent(s: State, s': State)
    requires Shifts(s, s') && s'.disk == s.disk
    requires PagesFaithful(s) && DiskFaithful(s) && Undisturbed(s)
    ensures PagesFaithful(s') && DiskFaithful(s') && Undisturbed(s')
  {
  }

  lemma ShiftFaithful(s: State, s': State)
    requires Faithful(s) && Shifts(s, s') && s'.disk == s.disk
    requires s'.s1.Reading? ==> s'.s1 == s.s1
    requires s'.s2.Retiring? ==> s.s2.Retiring? && s'.s2.batch == s.s2.batch
    ensures Faithful(s')
  {
  }

  /** What is left to show of a step that only shifts. */
  lemma ShiftKeeps(s: State, s': State)
    requires Inv(s) && Shifts(s, s') && (s.closer.Running? || s.closer.Draining?)
    requires Shape(s') && Complete(s') && Counters(s') && Faithful(s')
    ensures Inv(s')
  {
    ShiftOwners(s, s');
    ShiftThreads(s, s');
    ShiftDiscipline(s, s');
    ShiftVisible(s, s');
  }
}
