/** Deadlock freedom: in every run, exactly when the engine can go on by itself. */
module EngineProgress {
  import opened Geometry
  import opened Segments
  import opened Engine
  import opened EngineInv
  import opened EngineSafety
  import opened Stage1Shifts
  import G = Gate

  /** A step the engine takes by itself: not a new call, not a failed read, and not
      a parked thread waking up without having been signalled. */
  ghost predicate Productive(s: State, st: Step) {
    && !(st.Foreground? && st.fg.Start?)
    && !(st.Foreground? && st.fg.GateWake? && st.t < |s.gate.threads| && s.gate.threads[st.t] == G.Asleep(false))
    && !(st.First? && st.s1.S1Fail?)
    && !st.Caller?
  }

  // ----------------------------------------------------------------- threads

  /** A thread that holds a page lock can always finish its section. */
  lemma HolderMoves(s: State, t: nat) returns (st: Step)
    requires Shape(s) && Threads(s) && ThreadAt(s, t) && s.writers[t].pc.Holding?
    ensures st.Foreground? && Enabled(s, st) && Productive(s, st)
  {
    assert PcOk(s, s.writers[t]);
    if s.pages[s.writers[t].pc.id].tag.Sealed? {
      st := Foreground(t, SeeSealed);
    } else if Overflows(s, t) {
      st := Foreground(t, Overflow);
    } else {
      st := Foreground(t, Commit);
    }
  }

  /** A page lock is free or its holder can move. */
  lemma PageLockMoves(s: State, id: nat) returns (st: Step)
    requires Shape(s) && Threads(s) && !PageFree(s, id)
    ensures st.Foreground? && Enabled(s, st) && Productive(s, st)
  {
    var u :| 0 <= u < |s.writers| && s.writers[u].Active? && s.writers[u].pc.Holding? && s.writers[u].pc.id == id;
    st := HolderMoves(s, u);
  }

  /** A shard lock is free, or whoever holds it can take the page lock it waits
      for, or the holder of that page lock can move. */
  lemma ShardLockMoves(s: State, b: nat) returns (st: Step)
    requires Shape(s) && Threads(s) && !ShardFree(s, b)
    ensures st.Foreground? && Enabled(s, st) && Productive(s, st)
  {
    var u :| 0 <= u < |s.writers| && s.writers[u].Active? && s.writers[u].pc.Coupling?
             && ShardOf(CurBase(s.writers[u])) == ShardOf(b);
    if PageFree(s, s.writers[u].pc.id) {
      st := Foreground(u, Lock);
    } else {
      st := PageLockMoves(s, s.writers[u].pc.id);
    }
  }

  predicate Parked(s: State, t: nat) {
    t < |s.gate.threads| && s.gate.threads[t] == G.Asleep(false)
  }

  /** A foreground thread that is not parked can move, or lets another one move. */
  lemma ThreadMoves(s: State, t: nat) returns (st: Step)
    requires Shape(s) && Threads(s) && ThreadAt(s, t) && !Parked(s, t)
    ensures st.Foreground? && Enabled(s, st) && Productive(s, st)
  {
    var w := s.writers[t];
    match w.pc
    case AtGate =>
      st := Foreground(t, if s.gate.threads[t].Outside? then GateEnter else GateWake);
    case Admitted =>
      if !ShardFree(s, CurBase(w)) {
        st := ShardLockMoves(s, CurBase(w));
      } else if CurBase(w) in s.index {
        st := Foreground(t, Find);
      } else {
        st := Foreground(t, Create(seq(ZONE, _ => 0)));
      }
    case Coupling(id) =>
      if PageFree(s, id) {
        st := Foreground(t, Lock);
      } else {
        st := PageLockMoves(s, id);
      }
    case Holding(_, _) => st := HolderMoves(s, t);
    case Unlinking(_) =>
      if ShardFree(s, CurBase(w)) {
        st := Foreground(t, Unlink);
      } else {
        st := ShardLockMoves(s, CurBase(w));
      }
  }

  // ------------------------------------------------------------------ stages

  predicate BatchKnown(s: State) {
    && s.s2.Writing? && s.s2.batch != []
    && forall k :: 0 <= k < |s.s2.batch| ==> s.s2.batch[k].id < |s.pages| && |s.pages[s.s2.batch[k].id].zone| == ZONE
  }

  /** The disk once the whole batch has landed. */
  function Landing(s: State): Disk
    requires BatchKnown(s)
  {
    var first := s.s2.batch[0].base;
    s.disk + map b: nat {:trigger Offset(b)} | first <= b < first + |s.s2.batch| :: s.pages[s.s2.batch[b - first].id].zone
  }

  lemma LandingByte(s: State, b: nat, i: nat)
    requires BatchKnown(s) && i < ZONE
    ensures var first := s.s2.batch[0].base;
            DiskByte(Landing(s), b, i) ==
              if first <= b < first + |s.s2.batch| then s.pages[s.s2.batch[b - first].id].zone[i] else DiskByte(s.disk, b, i)
  {
  }

  /** One system call that writes everything is among the possible ones. */
  lemma LandingLands(s: State)
    requires Shape(s) && s.s2.Writing?
    ensures BatchKnown(s) && Lands(s.pages, s.s2.batch, s.disk, Landing(s))
  {
    assert forall k :: 0 <= k < |s.s2.batch| ==> s.s2.batch[k] in Line(s);
    forall b: nat, i: nat | i < ZONE
      ensures DiskByte(Landing(s), b, i) == DiskByte(s.disk, b, i) || LandedAt(s.pages, s.s2.batch, Landing(s), b, i)
    {
      LandingByte(s, b, i);
    }
  }

  lemma LiveCount(s: State, j: nat)
    requires Shape(s) && Counters(s) && j < |s.pages| && j !in s.freed
    ensures s.gate.live > 0
  {
    var all := set k: nat {:trigger Offset(k)} | 0 <= k < |s.pages|;
    RangeSize(|s.pages|);
    assert s.freed <= all - {j};
    SubsetSize(s.freed, all - {j});
  }

  lemma {:induction false} RangeSize(n: nat)
    ensures |set k: nat {:trigger Offset(k)} | 0 <= k < n| == n
  {
    if n > 0 {
      RangeSize(n - 1);
      assert (set k: nat {:trigger Offset(k)} | 0 <= k < n) == (set k: nat {:trigger Offset(k)} | 0 <= k < n - 1) + {n - 1};
    }
  }

  lemma WritingMoves(s: State) returns (st: Step)
    requires Shape(s) && Counters(s) && s.s2.Writing?
    ensures Enabled(s, st) && Productive(s, st) && st.Second?
  {
    if AllLanded(s.pages, s.s2.batch, s.disk) {
      st := Second(S2Landed);
    } else if s.s2.calls < (IO_MAX_STALL + 1) * |s.s2.batch| {
      LandingLands(s);
      st := Second(S2Issue(Landing(s)));
    } else {
      st := Second(S2Failed);
    }
  }

  lemma RetiringMoves(s: State) returns (st: Step)
    requires Shape(s) && Flags(s) && Counters(s) && s.s2.Retiring?
    ensures Enabled(s, st) && Productive(s, st) && st.Second?
  {
    var r := s.s2.batch[0];
    assert r in Line(s);
    match s.s2.sub
    case ToFree =>
      LiveCount(s, r.id);
      st := Second(S2Free);
    case ToLeave => st := Second(S2Leave);
    case ToDec => st := Second(S2Dec);
  }

  lemma DetachingMoves(s: State) returns (st: Step)
    requires Shape(s) && Threads(s) && s.s2.Detaching?
    ensures Enabled(s, st) && Productive(s, st) && (AllIdle(s) ==> st.Second?)
  {
    var r := s.s2.batch[s.s2.k];
    assert r in Line(s);
    if s.s2.unlinked {
      if PageFree(s, r.id) { st := Second(S2Claim); } else { st := PageLockMoves(s, r.id); }
    } else {
      if ShardFree(s, r.base) { st := Second(S2Unlink); } else { st := ShardLockMoves(s, r.base); }
    }
  }

  lemma CollectingMoves(s: State) returns (st: Step)
    requires Shape(s) && Complete(s) && Threads(s) && s.s2.Collecting?
    ensures Enabled(s, st) && Productive(s, st) && (AllIdle(s) ==> st.Second?)
  {
    if !NextFits(s) {
      st := Second(S2EndCollect);
    } else {
      assert s.q2[0] in Line(s) && s.q2[0] in Batch(s.s2) + s.q2;
      if PageFree(s, s.q2[0].id) { st := Second(S2Gather); } else { st := PageLockMoves(s, s.q2[0].id); }
    }
  }

  /** Stage-2 waits for no one but a thread that can move. */
  lemma Stage2Moves(s: State) returns (st: Step)
    requires Shape(s) && Complete(s) && Flags(s) && Threads(s) && Counters(s) && (!s.s2.S2Idle? || s.q2 != [])
    ensures Enabled(s, st) && Productive(s, st) && (AllIdle(s) ==> st.Second?)
  {
    match s.s2
    case S2Idle =>
      NeverBusy(s);
      st := Second(S2Pop);
    case Collecting(_) => st := CollectingMoves(s);
    case Detaching(_, _, _) => st := DetachingMoves(s);
    case Writing(_, _) => st := WritingMoves(s);
    case Retiring(_, _) => st := RetiringMoves(s);
  }

  lemma GuardOpens(s: State)
    requires Counters(s) && s.s1.Waiting? && s.s2.S2Idle? && s.q2 == []
    ensures s.wb[WbSlot(s.s1.r.base)] == 0
  {
  }

  lemma GuardMoves(s: State) returns (st: Step)
    requires Shape(s) && Counters(s) && s.s1.Waiting? && s.s2.S2Idle? && s.q2 == []
    ensures Enabled(s, st) && Productive(s, st) && st.First?
  {
    GuardOpens(s);
    var plan := [Seg(0, ZONE)];
    assert Cov(plan) == Span(0, ZONE) + Cov([]);
    st := First(S1Guard(plan, seq(ZONE, _ => 0)));
  }

  /** Stage-1 waits only for Stage-2: once that has nothing, Stage-1 can move. */
  lemma Stage1Moves(s: State) returns (st: Step)
    requires Shape(s) && Threads(s) && Counters(s) && s.s2.S2Idle? && s.q2 == [] && (!s.s1.S1Idle? || s.q1 != [])
    ensures Enabled(s, st) && Productive(s, st) && (AllIdle(s) ==> st.First?)
  {
    NeverBusy(s);
    assert !s.s1.S1Idle? ==> s.s1.r in Line(s);
    match s.s1
    case S1Idle => st := First(S1Pop);
    case Popped(r) =>
      if !PageFree(s, r.id) {
        st := PageLockMoves(s, r.id);
      } else {
        st := First(if IsFull(s.pages[r.id]) then S1Forward else S1Snapshot);
      }
    case Waiting(_, _) => st := GuardMoves(s);
    case Reading(r, _, todo, _, _) =>
      if todo != [] {
        st := First(S1Read);
      } else if !PageFree(s, r.id) {
        st := PageLockMoves(s, r.id);
      } else {
        st := First(S1Fill);
      }
    case Ready(_) => st := First(S1Enter);
    case Entered(_) => st := First(S1Push);
  }

  // ---------------------------------------------------------------- progress

  /** Nothing is on its way to disk, and every call in flight is parked at the gate
      with no signal due. */
  ghost predicate Jammed(s: State) {
    Line(s) == [] && forall t :: 0 <= t < |s.writers| && s.writers[t].Active? ==> Parked(s, t)
  }

  /** Unless jammed, the engine has a step to take, whatever has failed before; with the
      foreground idle it is a step of Stage-1 or Stage-2. */
  lemma Progress(s: State) returns (st: Step)
    requires Inv(s) && !Jammed(s)
    ensures Enabled(s, st) && Productive(s, st)
    ensures AllIdle(s) ==> st.First? || st.Second?
  {
    if !s.s2.S2Idle? || s.q2 != [] {
      st := Stage2Moves(s);
    } else if !s.s1.S1Idle? || s.q1 != [] {
      st := Stage1Moves(s);
    } else {
      assert Line(s) == [];
      var t :| 0 <= t < |s.writers| && s.writers[t].Active? && !Parked(s, t);
      st := ThreadMoves(s, t);
    }
  }

  lemma JammedForeground(s: State, t: nat, st: ForegroundStep)
    requires Threads(s) && Jammed(s) && CanForeground(s, t, st)
    ensures !Productive(s, Foreground(t, st))
  {
  }

  lemma JammedStages(s: State)
    requires S2Shape(s) && Jammed(s)
    ensures s.s1.S1Idle? && s.s2.S2Idle? && s.q1 == [] && s.q2 == []
  {
    assert |Line(s)| == |Batch(s.s2)| + |s.q2| + |S1Hand(s.s1)| + |s.q1|;
  }

  lemma JammedStops(s: State, st: Step)
    requires Shape(s) && Threads(s) && Jammed(s) && Enabled(s, st)
    ensures !Productive(s, st)
  {
    JammedStages(s);
    if st.Foreground? { JammedForeground(s, st.t, st.fg); }
  }

  /** Deadlock, exactly, in every run: a step other than a new call, a failed read or a
      spurious wakeup is enabled if and only if the engine is not jammed. */
  lemma ProgressIff(s: State)
    requires Reached(s)
    ensures (exists st: Step :: Enabled(s, st) && Productive(s, st)) <==> !Jammed(s)
  {
    ReachedInv(s);
    if Jammed(s) {
      forall st: Step | Enabled(s, st)
        ensures !Productive(s, st)
      {
        JammedStops(s, st);
      }
    } else {
      var st := Progress(s);
    }
  }

  // ----------------------------------------------------------- when it jams

  ghost function LostPages(s: State): set<nat> {
    set j | 0 <= j < |s.pages| && Lost(s, j)
  }

  lemma JammedAllLost(s: State)
    requires Shape(s) && Threads(s) && Accounted(s) && Jammed(s)
    ensures forall j :: 0 <= j < |s.pages| && j !in s.freed ==> Lost(s, j)
  {
    forall j | 0 <= j < |s.pages| && j !in s.freed
      ensures Lost(s, j)
    {
      assert !Fresh(s, j);
    }
  }

  lemma SizeMinus(a: set<nat>, b: set<nat>)
    requires b <= a
    ensures |a - b| == |a| - |b|
  {
    assert a == (a - b) + b;
  }

  lemma LiveAreLost(s: State)
    requires Shape(s) && Counters(s) && forall j :: 0 <= j < |s.pages| && j !in s.freed ==> Lost(s, j)
    ensures |LostPages(s)| == s.gate.live
  {
    var all := set k: nat {:trigger Offset(k)} | 0 <= k < |s.pages|;
    RangeSize(|s.pages|);
    assert LostPages(s) == all - s.freed;
    SizeMinus(all, s.freed);
  }

  /** What a jam costs: calls in flight are stuck only while the gate is armed, and
      only once failed reads have lost more pages than the low mark, all that are live. */
  lemma JamNeedsLosses(s: State)
    requires Reached(s) && Jammed(s) && !AllIdle(s)
    ensures s.dropped && s.gate.armed && |LostPages(s)| == |s.pages| - |s.freed| > s.gate.low
  {
    ReachedInv(s);
    JammedAllLost(s);
    LiveAreLost(s);
    var t :| 0 <= t < |s.writers| && s.writers[t].Active?;
    assert Parked(s, t);
    assert s.gate.live > s.gate.low;
    SomeLost(s);
  }

  lemma SomeLost(s: State)
    requires |LostPages(s)| > 0
    ensures s.dropped
  {
    var j :| j in LostPages(s);
  }
}
