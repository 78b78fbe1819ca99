/** Foreground steps that move one thread and touch no page: each keeps the
    invariant. */
module WriterSteps {
  import opened Geometry
  import opened Engine
  import opened EngineInv
  import G = Gate

  /** Thread t goes from one place to another; nothing but it and the gate changes. */
  ghost predicate Moves(s: State, s': State, t: nat) {
    && t < |s.writers| && |s'.writers| == |s.writers|
    && s' == s.(writers := s'.writers, gate := s'.gate)
    && s'.writers == s.writers[t := s'.writers[t]]
    && s'.writers[t].Active? && WriterOk(s'.writers[t])
    && |s'.gate.threads| == |s.gate.threads|
  }

  /** Same call, same progress. */
  predicate SameCall(w: Writer, w': Writer) {
    w.Active? && w'.Active? && w' == w.(pc := w'.pc)
  }

  lemma MoveThreads(s: State, s': State, t: nat)
    requires Threads(s) && Exclusive(s) && Moves(s, s', t)
    requires PcOk(s, s'.writers[t])
    requires forall u :: 0 <= u < |s.writers| && u != t ==> s'.gate.threads[u] == s.gate.threads[u]
    requires s'.gate.threads[t].Admitted? <==> s'.writers[t].pc.Admitted?
    requires s'.gate.threads[t].Asleep? ==> s'.writers[t].pc.AtGate?
    requires forall u :: 0 <= u < |s.writers| && u != t && s.writers[u].Active? ==>
               && !SameLock(s'.writers[t], s.writers[u])
               && Apart(s'.writers[t].off, |s'.writers[t].buf|, s.writers[u].off, |s.writers[u].buf|)
    ensures Threads(s') && Exclusive(s')
  {
  }

  lemma MoveDiscipline(s: State, s': State, t: nat)
    requires Discipline(s) && Moves(s, s', t)
    requires !s'.writers[t].pc.Holding? || !s'.writers[t].pc.created
    requires s.writers[t].Active? ==>
               && !s.writers[t].pc.Unlinking?
               && (s.writers[t].pc.Holding? ==> !s.writers[t].pc.created)
               && (forall b :: Between(s.writers[t], b) ==> b in s.index || Between(s'.writers[t], b))
    ensures Discipline(s')
  {
    assert OldestFirst(s') && OpenIndexed(s') && Ordered(Line(s'));
    MoveReachable(s, s', t);
    MoveFresh(s, s', t);
  }

  lemma MoveReachable(s: State, s': State, t: nat)
    requires Reachable(s) && Moves(s, s', t)
    requires s.writers[t].Active? ==> forall b :: Between(s.writers[t], b) ==> b in s.index || Between(s'.writers[t], b)
    ensures Reachable(s')
  {
    forall r | r in Tail(s') && r.base !in s.index
      ensures exists u :: 0 <= u < |s'.writers| && Between(s'.writers[u], r.base)
    {
      var u :| 0 <= u < |s.writers| && Between(s.writers[u], r.base);
      assert Between(s'.writers[u], r.base);
    }
  }

  lemma MoveFresh(s: State, s': State, t: nat)
    requires SealedLeaving(s) && Accounted(s) && BornFull(s) && Moves(s, s', t)
    requires s.writers[t].Active? ==> !s.writers[t].pc.Unlinking? && (s.writers[t].pc.Holding? ==> !s.writers[t].pc.created)
    requires !s'.writers[t].pc.Holding? || !s'.writers[t].pc.created
    ensures SealedLeaving(s') && Accounted(s') && BornFull(s')
  {
    forall b | b in s.index && s.index[b] < |s.pages| && s.pages[s.index[b]].tag.Sealed?
      ensures exists u :: 0 <= u < |s'.writers| && s'.writers[u].Active? && s'.writers[u].pc == Unlinking(s.index[b])
    {
      var u :| 0 <= u < |s.writers| && s.writers[u].Active? && s.writers[u].pc == Unlinking(s.index[b]);
      assert s'.writers[u] == s.writers[u];
    }
    forall j | 0 <= j < |s.pages| && Fresh(s, j)
      ensures Fresh(s', j)
    {
      var u :| 0 <= u < |s.writers| && s.writers[u].Active? && s.writers[u].pc == Holding(j, true);
      assert s'.writers[u] == s.writers[u];
    }
  }

  lemma MoveFaithful(s: State, s': State, t: nat)
    requires Faithful(s) && Moves(s, s', t)
    requires s'.writers[t].pc.Holding? ==>
               forall j :: s'.writers[t].pc.id < j < |s.pages| ==> s.pages[j].base != CurBase(s'.writers[t])
    ensures Faithful(s')
  {
  }

  lemma MoveVisible(s: State, s': State, t: nat)
    requires Visible(s) && Moves(s, s', t)
    requires SameCall(s.writers[t], s'.writers[t]) || (s.writers[t].Idle? && s'.writers[t].done == 0)
    requires s.writers[t].Active? ==> WriterOk(s.writers[t])
    ensures Visible(s')
  {
    forall u, b: nat, i: nat | 0 <= u < |s'.writers| && s'.writers[u].Active? && WriterOk(s'.writers[u])
                               && i < ZONE && InDone(s'.writers[u], b, i)
      ensures Flat(s'.init, s'.log, b, i) == s'.writers[u].buf[b * ZONE + i - s'.writers[u].off]
    {
      assert InDone(s.writers[u], b, i);
    }
    forall b: nat, i: nat | i < ZONE && Untouched(s', b, i)
      ensures Flat(s'.init, s'.log, b, i) == Flat(s'.init, s'.returned, b, i)
    {
      forall u | 0 <= u < |s.writers| && s.writers[u].Active?
        ensures !InDone(s.writers[u], b, i)
      {
        assert !InDone(s'.writers[u], b, i);
      }
      assert Untouched(s, b, i);
    }
  }

  lemma MoveRest(s: State, s': State, t: nat)
    requires Shape(s) && Complete(s) && Flags(s) && Indexed(s) && Counters(s) && Moves(s, s', t)
    requires s'.gate.live == s.gate.live
    ensures Shape(s') && Complete(s') && Flags(s') && Indexed(s') && Counters(s')
  {
  }

  /** What a move has to respect for the invariant to survive it. */
  ghost predicate MoveOk(s: State, s': State, t: nat) {
    && Moves(s, s', t) && |s.gate.threads| == |s.writers| && s'.gate.live == s.gate.live
    && PcOk(s, s'.writers[t])
    && (forall u :: 0 <= u < |s.writers| && u != t ==> s'.gate.threads[u] == s.gate.threads[u])
    && (s'.gate.threads[t].Admitted? <==> s'.writers[t].pc.Admitted?)
    && (s'.gate.threads[t].Asleep? ==> s'.writers[t].pc.AtGate?)
    && (forall u :: 0 <= u < |s.writers| && u != t && s.writers[u].Active? ==>
          && !SameLock(s'.writers[t], s.writers[u])
          && Apart(s'.writers[t].off, |s'.writers[t].buf|, s.writers[u].off, |s.writers[u].buf|))
    && (!s'.writers[t].pc.Holding? || !s'.writers[t].pc.created)
    && (s.writers[t].Active? ==>
          && WriterOk(s.writers[t]) && !s.writers[t].pc.Unlinking?
          && (s.writers[t].pc.Holding? ==> !s.writers[t].pc.created)
          && (forall b :: Between(s.writers[t], b) ==> b in s.index || Between(s'.writers[t], b)))
    && (s'.writers[t].pc.Holding? ==>
          forall j :: s'.writers[t].pc.id < j < |s.pages| ==> s.pages[j].base != CurBase(s'.writers[t]))
    && (SameCall(s.writers[t], s'.writers[t]) || (s.writers[t].Idle? && s'.writers[t].done == 0))
  }

  lemma MoveKeeps(s: State, s': State, t: nat)
    requires Inv(s) && MoveOk(s, s', t) && G.GateOk(s'.gate) && Closing(s') && OneRetry(s')
    ensures Inv(s')
  {
    MoveThreads(s, s', t);
    MoveDiscipline(s, s', t);
    MoveFaithful(s, s', t);
    MoveVisible(s, s', t);
    MoveRest(s, s', t);
  }

  lemma StartKeeps(s: State, t: nat, off: nat, buf: seq<byte>)
    requires Inv(s) && CanStart(s, t, off, buf)
    ensures Inv(DoStart(s, t, off, buf))
  {
    var s' := DoStart(s, t, off, buf);
    assert MoveOk(s, s', t);
    MoveKeeps(s, s', t);
  }

  lemma GateEnterMoves(s: State, t: nat)
    requires Threads(s) && Exclusive(s) && G.GateOk(s.gate) && Closing(s) && OneRetry(s) && CanGateEnter(s, t)
    ensures MoveOk(s, DoGateEnter(s, t), t) && G.GateOk(DoGateEnter(s, t).gate)
    ensures Closing(DoGateEnter(s, t)) && OneRetry(DoGateEnter(s, t))
  {
    G.EnterKeeps(s.gate, t);
    assert DoGateEnter(s, t).writers == s.writers[t := DoGateEnter(s, t).writers[t]];
  }

  lemma GateEnterKeeps(s: State, t: nat)
    requires Inv(s) && CanGateEnter(s, t)
    ensures Inv(DoGateEnter(s, t))
  {
    GateEnterMoves(s, t);
    MoveKeeps(s, DoGateEnter(s, t), t);
  }

  lemma GateWakeMoves(s: State, t: nat)
    requires Threads(s) && Exclusive(s) && G.GateOk(s.gate) && Closing(s) && OneRetry(s) && CanGateWake(s, t)
    ensures MoveOk(s, DoGateWake(s, t), t) && G.GateOk(DoGateWake(s, t).gate)
    ensures Closing(DoGateWake(s, t)) && OneRetry(DoGateWake(s, t))
  {
    G.WakeKeeps(s.gate, t);
    assert DoGateWake(s, t).writers == s.writers[t := DoGateWake(s, t).writers[t]];
  }

  lemma GateWakeKeeps(s: State, t: nat)
    requires Inv(s) && CanGateWake(s, t)
    ensures Inv(DoGateWake(s, t))
  {
    GateWakeMoves(s, t);
    MoveKeeps(s, DoGateWake(s, t), t);
  }

  lemma FindMoves(s: State, t: nat)
    requires Threads(s) && Exclusive(s) && G.GateOk(s.gate) && Closing(s) && OneRetry(s) && CanFind(s, t)
    ensures MoveOk(s, DoFind(s, t), t) && G.GateOk(DoFind(s, t).gate)
    ensures Closing(DoFind(s, t)) && OneRetry(DoFind(s, t))
  {
    G.PassKeeps(s.gate, t);
  }

  lemma FindKeeps(s: State, t: nat)
    requires Inv(s) && CanFind(s, t)
    ensures Inv(DoFind(s, t))
  {
    FindMoves(s, t);
    MoveKeeps(s, DoFind(s, t), t);
  }

  /** A thread that locks a sealed page carries only part of its zone: whoever
      sealed the page is still in its call. */
  lemma SealedIsShared(s: State, t: nat)
    requires Indexed(s) && Threads(s) && Exclusive(s) && SealedLeaving(s)
    requires ThreadAt(s, t) && s.writers[t].pc.Coupling?
    requires s.writers[t].pc.id < |s.pages| && s.pages[s.writers[t].pc.id].tag.Sealed?
    ensures !FullChunk(s.writers[t])
  {
    assert PcOk(s, s.writers[t]);
    var u :| 0 <= u < |s.writers| && s.writers[u].Active? && s.writers[u].pc == Unlinking(s.writers[t].pc.id);
    assert PcOk(s, s.writers[u]);
  }

  lemma LockPc(s: State, t: nat)
    requires Shape(s) && Flags(s) && Indexed(s) && Threads(s) && Exclusive(s) && SealedLeaving(s) && CanLock(s, t)
    ensures PcOk(s, DoLock(s, t).writers[t])
  {
    var w := s.writers[t];
    assert PcOk(s, w);
    assert InIndex(s, w.pc.id) && !s.pages[w.pc.id].detached;
    assert Of(s, w.pc.id) !in Unlinked(s.s2);
    if s.pages[w.pc.id].tag.Sealed? { SealedIsShared(s, t); }
  }

  lemma LockMoves(s: State, t: nat)
    requires Shape(s) && Flags(s) && Indexed(s) && Threads(s) && Exclusive(s) && SealedLeaving(s)
    requires Closing(s) && OneRetry(s) && CanLock(s, t)
    ensures MoveOk(s, DoLock(s, t), t) && Closing(DoLock(s, t)) && OneRetry(DoLock(s, t))
  {
    LockPc(s, t);
  }

  lemma LockKeeps(s: State, t: nat)
    requires Inv(s) && CanLock(s, t)
    ensures Inv(DoLock(s, t))
  {
    LockMoves(s, t);
    MoveKeeps(s, DoLock(s, t), t);
  }

  lemma SeeSealedMoves(s: State, t: nat)
    requires Threads(s) && Exclusive(s) && Closing(s) && OneRetry(s) && CanSeeSealed(s, t)
    ensures MoveOk(s, DoSeeSealed(s, t), t) && Closing(DoSeeSealed(s, t)) && OneRetry(DoSeeSealed(s, t))
  {
  }

  lemma SeeSealedKeeps(s: State, t: nat)
    requires Inv(s) && CanSeeSealed(s, t)
    ensures Inv(DoSeeSealed(s, t))
  {
    SeeSealedMoves(s, t);
    MoveKeeps(s, DoSeeSealed(s, t), t);
  }
}
