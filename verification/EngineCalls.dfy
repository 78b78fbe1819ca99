/** What a run does, told by its steps alone: the buffers the callers handed over, the
    order in which the calls returned, and whether a system call failed. */
module EngineCalls {
  import opened Geometry
  import opened Engine
  import opened EngineSafety
  import opened EngineTheorems
  import opened NoxWrite
  import opened WriterMerges
  import opened WriterCommits

  // ------------------------------------------------------------- the ledger

  /** A call in flight: what it was started with, and how much of it is merged. */
  datatype Call = InFlight(off: nat, buf: seq<byte>, done: nat)

  /** A call that has returned, scrap or direct; `rest` did not land. */
  datatype Entry = ScrapCall(t: nat, w: Write) | DirectCall(w: Write, rest: seq<byte>)

  /** The caller's book-keeping: calls in flight by thread, returned calls in order, and
      the pieces that took effect in order. */
  datatype Ledger = Ledger(open: map<nat, Call>, done: seq<Entry>, log: seq<Write>)

  const EMPTY := Ledger(map[], [], [])

  /** The next piece of a call: up to the end of its 256 KB page. */
  function Piece(c: Call): nat {
    if c.done < |c.buf| then Min(262144 - (c.off + c.done) % 262144, |c.buf| - c.done) else 0
  }

  function Merged(l: Ledger, t: nat): Ledger {
    if t !in l.open || Piece(l.open[t]) == 0 then l
    else
      var c, n := l.open[t], Piece(l.open[t]);
      var log := l.log + [Write(c.off + c.done, c.buf[c.done..c.done + n])];
      if c.done + n == |c.buf| then Ledger(l.open - {t}, l.done + [ScrapCall(t, Write(c.off, c.buf))], log)
      else Ledger(l.open[t := InFlight(c.off, c.buf, c.done + n)], l.done, log)
  }

  function Record(l: Ledger, st: Step): Ledger {
    match st
    case Foreground(t, Start(off, buf)) => l.(open := l.open[t := InFlight(off, buf, 0)])
    case Foreground(t, Commit) => Merged(l, t)
    case Caller(FastWrite(w, rest, _)) => l.(done := l.done + [DirectCall(w, rest)], log := l.log + [w])
    case _ => l
  }

  function Replay(l: Ledger, steps: seq<Step>): Ledger
    decreases |steps|
  {
    if steps == [] then l else Replay(Record(l, steps[0]), steps[1..])
  }

  /** The calls as they were made. */
  function Made(entries: seq<Entry>): seq<Write> {
    seq(|entries|, k requires 0 <= k < |entries| =>
      match entries[k] case ScrapCall(_, w) => w case DirectCall(w, rest) => Write(w.off, w.bytes + rest))
  }

  /** What of them was written. */
  function Landed(entries: seq<Entry>): seq<Write> {
    seq(|entries|, k requires 0 <= k < |entries| => entries[k].w)
  }

  // ------------------------------------------------- the engine keeps the ledger

  ghost predicate ThreadMatches(w: Writer, open: map<nat, Call>, t: nat) {
    if w.Active? then t in open && open[t] == InFlight(w.off, w.buf, w.done) else t !in open
  }

  ghost predicate Matches(s: State, l: Ledger) {
    && s.calls == Made(l.done) && s.returned == Landed(l.done) && s.log == l.log
    && (forall t :: t in l.open ==> t < |s.writers|)
    && forall t :: 0 <= t < |s.writers| ==> ThreadMatches(s.writers[t], l.open, t)
  }

  /** No call begins, ends or moves on. */
  ghost predicate SameCalls(s: State, s': State) {
    && s'.calls == s.calls && s'.returned == s.returned && s'.log == s.log && |s'.writers| == |s.writers|
    && forall t :: 0 <= t < |s.writers| ==>
         && s'.writers[t].Active? == s.writers[t].Active?
         && (s.writers[t].Active? ==>
               s'.writers[t].off == s.writers[t].off && s'.writers[t].buf == s.writers[t].buf
               && s'.writers[t].done == s.writers[t].done)
  }

  lemma SameMatches(s: State, s': State, l: Ledger)
    requires Matches(s, l) && SameCalls(s, s')
    ensures Matches(s', l)
  {
    forall t | 0 <= t < |s'.writers|
      ensures ThreadMatches(s'.writers[t], l.open, t)
    {
      assert ThreadMatches(s.writers[t], l.open, t);
    }
  }

  lemma InsideCall(s: State, t: nat, st: ForegroundStep)
    requires CanForeground(s, t, st) && !st.Start? && !st.Commit?
    ensures SameCalls(s, DoForeground(s, t, st))
  {
    if st.Overflow? { OverflowSeals(s, t); }
  }

  lemma Stage1Outside(s: State, st: Stage1Step)
    requires CanStage1(s, st)
    ensures SameCalls(s, DoStage1(s, st))
  {
  }

  lemma Stage2Outside(s: State, st: Stage2Step)
    requires CanStage2(s, st)
    ensures SameCalls(s, DoStage2(s, st))
  {
  }

  lemma StartMatches(s: State, l: Ledger, t: nat, off: nat, buf: seq<byte>)
    requires Matches(s, l) && CanStart(s, t, off, buf)
    ensures Matches(DoStart(s, t, off, buf), Record(l, Foreground(t, Start(off, buf))))
  {
    var s', l' := DoStart(s, t, off, buf), Record(l, Foreground(t, Start(off, buf)));
    forall u | 0 <= u < |s'.writers|
      ensures ThreadMatches(s'.writers[u], l'.open, u)
    {
      assert ThreadMatches(s.writers[u], l.open, u);
    }
  }

  lemma MadeMore(entries: seq<Entry>, e: Entry)
    ensures Made(entries + [e]) == Made(entries) + Made([e]) && Landed(entries + [e]) == Landed(entries) + Landed([e])
  {
  }

  lemma CommitMatches(s: State, l: Ledger, t: nat, s': State)
    requires Matches(s, l) && Takes(s, t, s')
    ensures Matches(s', Merged(l, t))
  {
    var w, l' := s.writers[t], Merged(l, t);
    assert ThreadMatches(w, l.open, t);
    AdvanceMatches(w, l, t);
    MadeMore(l.done, ScrapCall(t, Write(w.off, w.buf)));
    forall u | 0 <= u < |s'.writers|
      ensures ThreadMatches(s'.writers[u], l'.open, u)
    {
      assert ThreadMatches(s.writers[u], l.open, u);
    }
  }

  /** One chunk of a thread and one piece in the ledger. */
  lemma AdvanceMatches(w: Writer, l: Ledger, t: nat)
    requires w.Active? && WriterOk(w) && ThreadMatches(w, l.open, t)
    ensures var l' := Merged(l, t);
            && ThreadMatches(Advance(w), l'.open, t) && l'.open - {t} == l.open - {t}
            && l'.log == l.log + [ChunkWrite(w)]
            && l'.done == if Advance(w).Idle? then l.done + [ScrapCall(t, Write(w.off, w.buf))] else l.done
  {
    assert Piece(l.open[t]) == ChunkLen(w);
  }

  lemma DirectMatches(s: State, l: Ledger, w: Write, rest: seq<byte>, disk': Disk)
    requires Matches(s, l)
    ensures Matches(DoFastWrite(s, w, rest, disk'), Record(l, Caller(FastWrite(w, rest, disk'))))
  {
    MadeMore(l.done, DirectCall(w, rest));
    assert DoFastWrite(s, w, rest, disk').writers == s.writers;
  }

  lemma StepMatches(s: State, l: Ledger, st: Step)
    requires Matches(s, l) && Enabled(s, st)
    ensures Matches(Next(s, st), Record(l, st))
  {
    match st
    case Foreground(t, fg) =>
      if fg.Start? {
        StartMatches(s, l, t, fg.off, fg.buf);
      } else if fg.Commit? {
        CommitTakes(s, t);
        CommitMatches(s, l, t, DoCommit(s, t));
      } else {
        InsideCall(s, t, fg);
        SameMatches(s, Next(s, st), l);
      }
    case First(s1) =>
      Stage1Outside(s, s1);
      SameMatches(s, Next(s, st), l);
    case Second(s2) =>
      Stage2Outside(s, s2);
      SameMatches(s, Next(s, st), l);
    case Caller(c) =>
      if c.FastWrite? {
        DirectMatches(s, l, c.w, c.rest, c.disk');
      } else {
        SameMatches(s, Next(s, st), l);
      }
  }

  lemma {:induction false} RunMatches(s: State, l: Ledger, steps: seq<Step>)
    requires Matches(s, l) && ValidRun(s, steps)
    ensures Matches(Run(s, steps), Replay(l, steps))
    decreases |steps|
  {
    if steps != [] {
      StepMatches(s, l, steps[0]);
      RunMatches(Next(s, steps[0]), Record(l, steps[0]), steps[1..]);
    }
  }

  // ------------------------------------------------------ every call, once, in order

  /** The calls a thread starts, in order. */
  function Starts(steps: seq<Step>, t: nat): seq<Write> {
    if steps == [] then []
    else (match steps[0]
          case Foreground(u, Start(off, buf)) => if u == t then [Write(off, buf)] else []
          case _ => []) + Starts(steps[1..], t)
  }

  /** The direct calls, in order. */
  function Directs(steps: seq<Step>): seq<Entry> {
    if steps == [] then []
    else (match steps[0]
          case Caller(FastWrite(w, rest, _)) => [DirectCall(w, rest)]
          case _ => []) + Directs(steps[1..])
  }

  /** The returned calls of a thread, in the order they returned. */
  function By(entries: seq<Entry>, t: nat): seq<Write> {
    if entries == [] then []
    else
      var n := |entries| - 1;
      By(entries[..n], t) + (match entries[n] case ScrapCall(u, w) => if u == t then [w] else [] case DirectCall(_, _) => [])
  }

  function DirectsOf(entries: seq<Entry>): seq<Entry> {
    if entries == [] then []
    else DirectsOf(entries[..|entries| - 1]) + if entries[|entries| - 1].DirectCall? then [entries[|entries| - 1]] else []
  }

  function OpenOf(l: Ledger, t: nat): seq<Write> {
    if t in l.open then [Write(l.open[t].off, l.open[t].buf)] else []
  }

  /** All a thread has started: the returned ones and then the one in flight. */
  function Begun(l: Ledger, t: nat): seq<Write> {
    By(l.done, t) + OpenOf(l, t)
  }

  lemma ByMore(entries: seq<Entry>, e: Entry, t: nat)
    ensures By(entries + [e], t) == By(entries, t) + if e.ScrapCall? && e.t == t then [e.w] else []
    ensures DirectsOf(entries + [e]) == DirectsOf(entries) + if e.DirectCall? then [e] else []
  {
    assert (entries + [e])[..|entries|] == entries;
  }

  lemma MergedBegun(l: Ledger, u: nat, t: nat)
    ensures Begun(Merged(l, u), t) == Begun(l, t) && DirectsOf(Merged(l, u).done) == DirectsOf(l.done)
  {
    if u in l.open {
      var c := l.open[u];
      ByMore(l.done, ScrapCall(u, Write(c.off, c.buf)), t);
      assert u == t ==> By(l.done, t) + [Write(c.off, c.buf)] + [] == By(l.done, t) + [Write(c.off, c.buf)];
    }
  }

  /** A thread starts a call only when it has none in flight. */
  predicate Orderly(l: Ledger, steps: seq<Step>)
    decreases |steps|
  {
    steps != [] ==>
      && (steps[0].Foreground? && steps[0].fg.Start? ==> steps[0].t !in l.open)
      && Orderly(Record(l, steps[0]), steps[1..])
  }

  lemma {:induction false} RecordBegun(l: Ledger, st: Step, t: nat)
    requires st.Foreground? && st.fg.Start? ==> st.t !in l.open
    ensures Begun(Record(l, st), t) == Begun(l, t) + Starts([st], t)
    ensures DirectsOf(Record(l, st).done) == DirectsOf(l.done) + Directs([st])
  {
    OneStart(st, t);
    match st
    case Foreground(u, Start(off, buf)) => StartBegun(l, u, InFlight(off, buf, 0), t);
    case Foreground(u, Commit) => MergedBegun(l, u, t);
    case Caller(FastWrite(w, rest, _)) => DirectBegun(l, DirectCall(w, rest), l.log + [w], t);
    case _ => assert Record(l, st) == l;
  }

  lemma DirectBegun(l: Ledger, e: Entry, log: seq<Write>, t: nat)
    requires e.DirectCall?
    ensures Begun(Ledger(l.open, l.done + [e], log), t) == Begun(l, t)
    ensures DirectsOf(l.done + [e]) == DirectsOf(l.done) + [e]
  {
    ByMore(l.done, e, t);
  }

  lemma StartBegun(l: Ledger, u: nat, c: Call, t: nat)
    requires u !in l.open
    ensures Begun(l.(open := l.open[u := c]), t) == Begun(l, t) + if u == t then [Write(c.off, c.buf)] else []
  {
  }

  lemma OneStart(st: Step, t: nat)
    ensures Starts([st], t) == if st.Foreground? && st.fg.Start? && st.t == t then [Write(st.fg.off, st.fg.buf)] else []
    ensures Directs([st]) == if st.Caller? && st.c.FastWrite? then [DirectCall(st.c.w, st.c.rest)] else []
  {
    assert [st][1..] == [];
  }

  lemma StartsCons(steps: seq<Step>, t: nat)
    requires steps != []
    ensures Starts(steps, t) == Starts([steps[0]], t) + Starts(steps[1..], t)
    ensures Directs(steps) == Directs([steps[0]]) + Directs(steps[1..])
  {
    assert [steps[0]][1..] == [];
  }

  lemma {:induction false} ReplayBegun(l: Ledger, steps: seq<Step>, t: nat)
    requires Orderly(l, steps)
    ensures Begun(Replay(l, steps), t) == Begun(l, t) + Starts(steps, t)
    ensures DirectsOf(Replay(l, steps).done) == DirectsOf(l.done) + Directs(steps)
    decreases |steps|
  {
    if steps != [] {
      RecordBegun(l, steps[0], t);
      ReplayBegun(Record(l, steps[0]), steps[1..], t);
      StartsCons(steps, t);
    }
  }

  lemma StartOrderly(s: State, l: Ledger, st: Step)
    requires Matches(s, l) && Enabled(s, st) && st.Foreground? && st.fg.Start?
    ensures st.t !in l.open
  {
    assert ThreadMatches(s.writers[st.t], l.open, st.t);
  }

  lemma {:induction false} RunOrderly(s: State, l: Ledger, steps: seq<Step>)
    requires Matches(s, l) && ValidRun(s, steps)
    ensures Orderly(l, steps)
    decreases |steps|
  {
    if steps != [] {
      if steps[0].Foreground? && steps[0].fg.Start? { StartOrderly(s, l, steps[0]); }
      StepMatches(s, l, steps[0]);
      RunOrderly(Next(s, steps[0]), Record(l, steps[0]), steps[1..]);
    }
  }

  lemma InitMatches(s0: State)
    requires Init(s0)
    ensures Matches(s0, EMPTY)
  {
    forall t | 0 <= t < |s0.writers|
      ensures ThreadMatches(s0.writers[t], EMPTY.open, t)
    {
    }
  }

  /** In every run the engine's record of calls, effects and pieces is the one its steps
      spell out, every thread carries the offset and the buffer of its last start, and what
      a thread has finished is what it started, in that order. */
  lemma CallsAreTheSteps(s0: State, steps: seq<Step>, t: nat)
    requires Init(s0) && ValidRun(s0, steps)
    ensures var s, l := Run(s0, steps), Replay(EMPTY, steps);
            && Matches(s, l) && By(l.done, t) + OpenOf(l, t) == Starts(steps, t) && DirectsOf(l.done) == Directs(steps)
            && (t < |s.writers| ==>
                  if s.writers[t].Active?
                  then Starts(steps, t) == By(l.done, t) + [Write(s.writers[t].off, s.writers[t].buf)]
                  else Starts(steps, t) == By(l.done, t))
  {
    InitMatches(s0);
    RunMatches(s0, EMPTY, steps);
    RunOrderly(s0, EMPTY, steps);
    ReplayBegun(EMPTY, steps, t);
    var s, l := Run(s0, steps), Replay(EMPTY, steps);
    assert Begun(EMPTY, t) == [];
    assert t < |s.writers| ==> ThreadMatches(s.writers[t], l.open, t);
  }

  // ------------------------------------------------------------------ failures

  /** A pread of Stage-1 or a gathered write of Stage-2 failed. */
  predicate Fails(st: Step) {
    st == First(S1Fail) || st == Second(S2Failed)
  }

  predicate Failed(steps: seq<Step>) {
    exists k :: 0 <= k < |steps| && Fails(steps[k])
  }

  lemma ForegroundErr(s: State, t: nat, st: ForegroundStep)
    requires CanForeground(s, t, st)
    ensures DoForeground(s, t, st).ioErr == s.ioErr
  {
    if st.Overflow? { OverflowSeals(s, t); }
    if st.Commit? { CommitTakes(s, t); }
  }

  lemma Stage1Err(s: State, st: Stage1Step)
    requires CanStage1(s, st)
    ensures DoStage1(s, st).ioErr <==> s.ioErr || st.S1Fail?
  {
  }

  lemma Stage2Err(s: State, st: Stage2Step)
    requires CanStage2(s, st)
    ensures DoStage2(s, st).ioErr <==> s.ioErr || st.S2Failed?
  {
  }

  lemma CallerErr(s: State, st: CallerStep)
    requires CanCaller(s, st)
    ensures DoCaller(s, st).ioErr == s.ioErr
  {
  }

  lemma StepErr(s: State, st: Step)
    requires Enabled(s, st)
    ensures Next(s, st).ioErr <==> s.ioErr || Fails(st)
  {
    match st
    case Foreground(t, fg) => ForegroundErr(s, t, fg);
    case First(s1) => Stage1Err(s, s1);
    case Second(s2) => Stage2Err(s, s2);
    case Caller(c) => CallerErr(s, c);
  }

  /** The error sticks, and nothing else raises it. */
  lemma {:induction false} RunErr(s: State, steps: seq<Step>)
    requires ValidRun(s, steps)
    ensures Run(s, steps).ioErr <==> s.ioErr || Failed(steps)
    decreases |steps|
  {
    if steps != [] {
      StepErr(s, steps[0]);
      RunErr(Next(s, steps[0]), steps[1..]);
      FailedCons(steps);
    }
  }

  lemma FailedCons(steps: seq<Step>)
    requires steps != []
    ensures Failed(steps) <==> Fails(steps[0]) || Failed(steps[1..])
  {
    if Failed(steps[1..]) {
      var k :| 0 <= k < |steps[1..]| && Fails(steps[1..][k]);
      assert Fails(steps[k + 1]);
    }
    if Failed(steps) && !Fails(steps[0]) {
      var k :| 0 <= k < |steps| && Fails(steps[k]);
      assert Fails(steps[1..][k - 1]);
    }
  }

  // ------------------------------------------------------- what callers get

  /** In every run without a failed system call, disk and live pages together hold the
      file with the pieces of the callers' buffers in the order the steps merged them. */
  lemma HoldsThePieces(s0: State, steps: seq<Step>, b: nat, i: nat)
    requires Init(s0) && ValidRun(s0, steps) && !Failed(steps) && i < ZONE
    ensures View(Run(s0, steps), b, i) == Flat(s0.disk, Replay(EMPTY, steps).log, b, i)
  {
    var s := Run(s0, steps);
    InitReached(s0);
    RunErr(s0, steps);
    RunInit(s0, steps);
    InitMatches(s0);
    RunMatches(s0, EMPTY, steps);
    Refinement(s);
    assert View(s, b, i) == Flat(s.init, s.log, b, i);
  }

  /** The call a thread started last. */
  predicate LastStart(steps: seq<Step>, t: nat, call: Write) {
    var calls := Starts(steps, t);
    calls != [] && calls[|calls| - 1] == call
  }

  /** When a call returns, the engine holds the buffer it was started with, whatever ran
      beside it. */
  lemma CallVisible(s0: State, steps: seq<Step>, t: nat, call: Write, s: State, s': State, b: nat, i: nat)
    requires Init(s0) && ValidRun(s0, steps) && !Failed(steps) && s == Run(s0, steps) && LastStart(steps, t, call)
    requires CanCommit(s, t) && s' == DoCommit(s, t) && s'.writers[t].Idle? && i < ZONE && Hits(call, b, i)
    ensures View(s', b, i) == call.bytes[b * ZONE + i - call.off]
  {
    CarriesItsStart(s0, steps, t, call, s);
    StartVisible(s, t, s', call, b, i);
  }

  lemma StartVisible(s: State, t: nat, s': State, call: Write, b: nat, i: nat)
    requires Reached(s) && !s.ioErr && CanCommit(s, t) && s' == DoCommit(s, t) && s'.writers[t].Idle? && i < ZONE
    requires call == Write(s.writers[t].off, s.writers[t].buf) && Hits(call, b, i)
    ensures View(s', b, i) == call.bytes[b * ZONE + i - call.off]
  {
    ReachedInv(s);
    ReturnVisible(s, t, s', call, b, i);
  }

  lemma CarriesItsStart(s0: State, steps: seq<Step>, t: nat, call: Write, s: State)
    requires Init(s0) && ValidRun(s0, steps) && !Failed(steps) && s == Run(s0, steps) && LastStart(steps, t, call)
    requires t < |s.writers| && s.writers[t].Active?
    ensures Reached(s) && !s.ioErr && call == Write(s.writers[t].off, s.writers[t].buf)
  {
    InitReached(s0);
    RunErr(s0, steps);
    CallsAreTheSteps(s0, steps, t);
  }

  lemma StartsStay(s0: State, steps: seq<Step>, t: nat)
    requires Init(s0) && ValidRun(s0, steps) && AllIdle(Run(s0, steps))
    ensures By(Replay(EMPTY, steps).done, t) == Starts(steps, t) && DirectsOf(Replay(EMPTY, steps).done) == Directs(steps)
  {
    CallsAreTheSteps(s0, steps, t);
    NoneOpen(Run(s0, steps), Replay(EMPTY, steps), t);
  }

  lemma NoneOpen(s: State, l: Ledger, t: nat)
    requires Matches(s, l) && AllIdle(s)
    ensures t !in l.open
  {
    assert t < |s.writers| ==> ThreadMatches(s.writers[t], l.open, t);
  }

  lemma CloseReports(s0: State, steps: seq<Step>, s: State)
    requires Init(s0) && ValidRun(s0, steps) && s == Run(s0, steps) && s.closer.Closed?
    ensures AllIdle(s) && (s.closer.err <==> Failed(steps))
  {
    InitReached(s0);
    ReachedInv(s);
    RunErr(s0, steps);
  }

  /** Whether nox_close returns 0, and what that means, from the steps of the run alone: it
      reports an error exactly when a system call of the background failed; otherwise the
      file is its old contents with what the calls wrote, in the order they returned. All
      calls of every thread are among them, with the buffers they were started with, and
      all direct calls, of which a prefix may have landed. */
  lemma CloseContract(s0: State, steps: seq<Step>)
    requires Init(s0) && ValidRun(s0, steps) && Run(s0, steps).closer.Closed?
    ensures Run(s0, steps).closer.err <==> Failed(steps)
    ensures var done := Replay(EMPTY, steps).done;
            && (forall t: nat :: By(done, t) == Starts(steps, t)) && DirectsOf(done) == Directs(steps)
            && (!Failed(steps) ==> forall b: nat, i: nat :: i < ZONE ==>
                  DiskByte(Run(s0, steps).disk, b, i) == Flat(s0.disk, Landed(done), b, i))
  {
    CloseReports(s0, steps, Run(s0, steps));
    forall t: nat
      ensures By(Replay(EMPTY, steps).done, t) == Starts(steps, t)
    {
      StartsStay(s0, steps, t);
    }
    StartsStay(s0, steps, 0);
    if !Failed(steps) { CloseHolds(s0, steps, Run(s0, steps)); }
  }

  lemma CloseHolds(s0: State, steps: seq<Step>, s: State)
    requires Init(s0) && ValidRun(s0, steps) && s == Run(s0, steps) && s.closer == Closed(false)
    ensures forall b: nat, i: nat :: i < ZONE ==>
              DiskByte(s.disk, b, i) == Flat(s0.disk, Landed(Replay(EMPTY, steps).done), b, i)
  {
    ClosedFile(s0, steps);
    InitMatches(s0);
    RunMatches(s0, EMPTY, steps);
  }

  // ------------------------------------------------------------------- routing

  ghost predicate RoutedRight(st: Step) {
    && (st.Foreground? && st.fg.Start? ==>
          |st.fg.buf| > 0 && !(|st.fg.buf| >= 1048576 && OnBlocks(st.fg.off, |st.fg.buf|)))
    && (st.Caller? && st.c.FastWrite? ==>
          var size := |st.c.w.bytes| + |st.c.rest|; size >= 1048576 && OnBlocks(st.c.w.off, size))
  }

  lemma StepRouted(s: State, st: Step)
    requires Enabled(s, st)
    ensures RoutedRight(st)
  {
    if st.Foreground? && st.fg.Start? { FastPathIs(st.fg.off, |st.fg.buf|); }
    if st.Caller? && st.c.FastWrite? { FastPathIs(st.c.w.off, |st.c.w.bytes| + |st.c.rest|); }
  }

  /** In every run the direct writes are the calls of 1 MiB or more that begin and end on
      a 4 KB boundary, and every other call goes through the scrap pages. */
  lemma {:induction false} RunRouted(s: State, steps: seq<Step>, k: nat)
    requires ValidRun(s, steps) && k < |steps|
    ensures RoutedRight(steps[k])
    decreases |steps|
  {
    if k == 0 {
      StepRouted(s, steps[0]);
    } else {
      RunRouted(Next(s, steps[0]), steps[1..], k - 1);
    }
  }
}
