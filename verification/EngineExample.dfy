/** Two short runs, step by step: one small write, and a failed read after it that
    leaves the next call at the gate for good. */
module EngineExample {
  import opened Geometry
  import opened Segments
  import opened Engine
  import opened EngineSafety
  import opened EngineProgress
  import opened WriterCommits
  import G = Gate

  // --------------------------------------------------------- one small write

  function AfterStart(s0: State): State
    requires |s0.writers| >= 1
  {
    s0.(writers := s0.writers[0 := Active(0, [1], 0, AtGate, 0)])
  }

  lemma SmallStart(s0: State)
    requires Init(s0) && |s0.writers| >= 1
    ensures CanStart(s0, 0, 0, [1]) && DoStart(s0, 0, 0, [1]) == AfterStart(s0)
    ensures CanGateEnter(AfterStart(s0), 0) && G.Enter(s0.gate, 0).threads[0].Admitted?
  {
  }

  function AfterGate(s0: State): State
    requires Init(s0) && |s0.writers| >= 1
  {
    s0.(writers := s0.writers[0 := Active(0, [1], 0, Admitted, 0)],
        gate := s0.gate.(threads := s0.gate.threads[0 := G.Admitted]))
  }

  lemma SmallGate(s0: State, junk: seq<byte>)
    requires Init(s0) && |s0.writers| >= 1 && |junk| == ZONE
    ensures CanGateEnter(AfterStart(s0), 0) && DoGateEnter(AfterStart(s0), 0) == AfterGate(s0)
    ensures CanCreate(AfterGate(s0), 0, junk)
  {
  }

  lemma SmallCreate(s0: State, junk: seq<byte>) returns (s: State)
    requires Init(s0) && |s0.writers| >= 1 && |junk| == ZONE
    ensures CanCreate(AfterGate(s0), 0, junk) && s == DoCreate(AfterGate(s0), 0, junk)
    ensures HasPage(s, 0) && s.writers[0] == Active(0, [1], 0, Holding(0, true), 0)
    ensures |s.pages| == 1 && s.pages[0] == Page(0, {}, junk, Open, false, false) && s.freed == {}
    ensures CanCommit(s, 0)
  {
    SmallGate(s0, junk);
    s := DoCreate(AfterGate(s0), 0, junk);
    assert ChunkSpan(s.writers[0]) == Span(0, 1);
    assert s.pages[0].cov + Span(0, 1) == Span(0, 1);
    OneRun(0, 1);
  }

  lemma SmallWriteHeld(s0: State, junk: seq<byte>) returns (s: State)
    requires Init(s0) && |s0.writers| >= 1 && |junk| == ZONE
    ensures Reached(s) && CanCreate(AfterGate(s0), 0, junk) && s == DoCreate(AfterGate(s0), 0, junk)
    ensures HasPage(s, 0) && s.writers[0] == Active(0, [1], 0, Holding(0, true), 0)
    ensures |s.pages| == 1 && s.pages[0] == Page(0, {}, junk, Open, false, false) && s.freed == {}
    ensures CanCommit(s, 0)
  {
    SmallStart(s0);
    SmallGate(s0, junk);
    s := SmallCreate(s0, junk);
    assert ValidRun(s0, []) && Run(s0, []) == s0;
    ReachedNext(s0, Foreground(0, Start(0, [1])));
    ReachedNext(AfterStart(s0), Foreground(0, GateEnter));
    ReachedNext(AfterGate(s0), Foreground(0, Create(junk)));
  }

  /** One thread has written one byte: its page is queued, everything else is at rest. */
  ghost predicate OneQueued(s0: State, s: State) {
    && |s.pages| == 1 && s.pages[0] == Page(0, Span(0, 1), s.pages[0].zone, Open, true, false) && |s.pages[0].zone| == ZONE
    && s.freed == {} && s.q1 == [Ref(0, 0)] && s.q2 == [] && s.s1.S1Idle? && s.s2.S2Idle?
    && s.writers == s0.writers && s.gate == s0.gate.(live := 1) && s.wb == s0.wb && s.pending == 1 && s.bcount == 0
    && s.closer == s0.closer
  }

  lemma SmallCommit(s0: State, s: State, junk: seq<byte>)
    requires Init(s0) && |s0.writers| >= 1 && |junk| == ZONE && CanCreate(AfterGate(s0), 0, junk)
    requires s == DoCreate(AfterGate(s0), 0, junk) && CanCommit(s, 0)
    requires s.pages == [Page(0, {}, junk, Open, false, false)] && s.writers[0] == Active(0, [1], 0, Holding(0, true), 0)
    ensures OneQueued(s0, DoCommit(s, 0))
  {
    var s' := DoCommit(s, 0);
    CommitTakes(s, 0);
    assert Advance(s.writers[0]).Idle? && ChunkBytes(s.writers[0]) == [1];
    assert Merged(s, 0).cov == Span(0, 1);
    assert 1 !in Span(0, 1) && 1 in FullZone();
    assert s'.pages == [Taken(s, 0)];
    assert s.gate.threads == s0.gate.threads && s'.writers == s0.writers;
  }

  /** A reachable state with every thread idle and a live page over the first byte. */
  lemma SmallWriteDone(s0: State) returns (s: State)
    requires Init(s0) && |s0.writers| >= 1
    ensures Reached(s) && AllIdle(s) && OneQueued(s0, s)
  {
    var junk: seq<byte> := seq(ZONE, _ => 0);
    var s3 := SmallWriteHeld(s0, junk);
    assert s3.pages == [Page(0, {}, junk, Open, false, false)];
    s := Next(s3, Foreground(0, Commit));
    ReachedNext(s3, Foreground(0, Commit));
    SmallCommit(s0, s3, junk);
  }

  // ------------------------------------------------------------------- a jam

  /** The read of that page fails: it is live and in nobody's hands. */
  ghost predicate OneDropped(s0: State, s: State) {
    && |s.pages| == 1 && s.freed == {} && Line(s) == []
    && s.writers == s0.writers && s.gate == s0.gate.(live := 1) && s.closer == s0.closer
  }

  lemma ReadFails(s0: State, s: State) returns (s': State)
    requires Init(s0) && Reached(s) && OneQueued(s0, s)
    ensures Reached(s') && OneDropped(s0, s')
  {
    var s1 := Next(s, First(S1Pop));
    ReachedNext(s, First(S1Pop));
    assert ZONE - 1 !in Span(0, 1) && ZONE - 1 in FullZone();
    var s2 := Next(s1, First(S1Snapshot));
    ReachedNext(s1, First(S1Snapshot));
    s' := GuardThenFail(s2);
  }

  lemma GuardThenFail(s: State) returns (s': State)
    requires Reached(s) && s.s1.Waiting? && s.s1.r == Ref(0, 0) && |s.pages| == 1 && PageFree(s, 0)
    requires s.s1.holes <= FullZone() && |s.wb| == WB_SLOTS && s.wb[WbSlot(0)] == 0 && s.pending == 1
    requires s.q1 == [] && s.q2 == [] && s.s2.S2Idle?
    ensures Reached(s') && |s'.pages| == 1 && s'.freed == s.freed && Line(s') == []
    ensures s'.writers == s.writers && s'.gate == s.gate && s'.closer == s.closer
  {
    var plan, stale: seq<byte> := [Seg(0, ZONE)], seq(ZONE, _ => 0);
    assert Cov(plan) == Span(0, ZONE) + Cov([]);
    var s1 := Next(s, First(S1Guard(plan, stale)));
    ReachedNext(s, First(S1Guard(plan, stale)));
    s' := Next(s1, First(S1Fail));
    ReachedNext(s1, First(S1Fail));
  }

  /** An engine with one foreground thread, these marks and this many entries per page,
      just opened. */
  function Opened(high: nat, low: nat, entries: nat): State {
    State(map[], [], {}, map[], [], [], S1Idle, S2Idle, [Idle], G.Gate(true, high, low, 0, [G.Outside], 0),
          seq(WB_SLOTS, _ => 0), 0, 0, false, Running, entries, map[], [], [], [], false)
  }

  /** The gate can shut for good: with marks 1 and 0, one failed read and the next call
      sleeps where nothing will ever wake it. */
  lemma JamReachable() returns (s: State)
    ensures Reached(s) && Jammed(s) && !AllIdle(s) && s.gate.high == 1 && s.gate.low == 0
  {
    var s0 := Opened(1, 0, 64);
    assert Init(s0);
    var s4 := SmallWriteDone(s0);
    var s8 := ReadFails(s0, s4);
    s := CallParks(s8);
  }

  lemma CallParks(s: State) returns (s': State)
    requires Reached(s) && s.writers == [Idle] && s.closer.Running? && Line(s) == []
    requires s.gate == G.Gate(true, 1, 0, 1, [G.Outside], s.gate.blocked)
    ensures Reached(s') && Jammed(s') && !AllIdle(s') && s'.gate.high == 1 && s'.gate.low == 0
  {
    var s1 := s.(writers := [Active(0, [1], 0, AtGate, 0)]);
    CallStarts(s, s1);
    s' := s1.(gate := s.gate.(threads := [G.Asleep(false)], blocked := s.gate.blocked + 1));
    CallSleeps(s1, s');
    assert s'.writers[0].Active? && Parked(s', 0) && Line(s') == Line(s);
  }

  lemma CallStarts(s: State, s': State)
    requires Reached(s) && s.writers == [Idle] && s.closer.Running? && s' == s.(writers := [Active(0, [1], 0, AtGate, 0)])
    ensures Reached(s')
  {
    assert CanStart(s, 0, 0, [1]) && DoStart(s, 0, 0, [1]) == s';
    ReachedNext(s, Foreground(0, Start(0, [1])));
  }

  lemma CallSleeps(s: State, s': State)
    requires Reached(s) && s.writers == [Active(0, [1], 0, AtGate, 0)]
    requires s.gate == G.Gate(true, 1, 0, 1, [G.Outside], s.gate.blocked)
    requires s' == s.(gate := s.gate.(threads := [G.Asleep(false)], blocked := s.gate.blocked + 1))
    ensures Reached(s')
  {
    assert CanGateEnter(s, 0) && DoGateEnter(s, 0) == s';
    ReachedNext(s, Foreground(0, GateEnter));
  }
}
