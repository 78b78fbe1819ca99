/** No livelock: for any number of threads, the work the engine can do without a new
    call is bounded, retries included, and when it stops every call has returned. */
module EngineLive {
  import opened Geometry
  import opened Segments
  import opened Engine
  import opened EngineInv
  import opened EngineSafety
  import opened EngineProgress
  import opened EngineDrain
  import opened EngineTheorems
  import opened WriterMerges
  import opened WriterCommits
  import opened Sums
  import G = Gate

  // --------------------------------------------------------------- quantities

  function Left(w: Writer): nat {
    if w.Active? && WriterOk(w) then |w.buf| - w.done else 0
  }

  /** Bytes the calls in flight still have to merge. */
  function BytesLeft(s: State): seq<nat> {
    seq(|s.writers|, t requires 0 <= t < |s.writers| => Left(s.writers[t]))
  }

  /** A page that can still overflow: begun, not complete, not sealed. */
  predicate Filling(p: Page) {
    p.cov != {} && !IsFull(p) && !p.tag.Sealed?
  }

  function FillingPages(s: State): seq<nat> {
    seq(|s.pages|, j requires 0 <= j < |s.pages| => if Filling(s.pages[j]) then 1 else 0)
  }

  /** Indexed pages that are not in their creator's hands. */
  ghost function Settled(s: State): set<nat> {
    set b | b in s.index && !Fresh(s, s.index[b])
  }

  ghost predicate StillIndexed(s: State, id: nat) {
    id < |s.pages| && InIndex(s, id)
  }

  /** How far a thread is from a merge, a seal, or the removal of an index entry. A
      thread on a page somebody else has unlinked has to come round once more. */
  ghost function Distance(s: State, t: nat): nat
    requires t < |s.writers|
  {
    var w := s.writers[t];
    if w.Idle? then 0
    else match w.pc
      case AtGate =>
        if t < |s.gate.threads| && s.gate.threads[t] == G.Asleep(false) then 0
        else if t < |s.gate.threads| && s.gate.threads[t].Asleep? then 4 else 5
      case Admitted => 3
      case Coupling(_) => 2
      case Holding(id, created) => if created || StillIndexed(s, id) then 1 else 7
      case Unlinking(id) => if StillIndexed(s, id) then 0 else 6
  }

  ghost function Distances(s: State): seq<nat> {
    seq(|s.writers|, t requires 0 <= t < |s.writers| => Distance(s, t))
  }

  // ------------------------------------------------------------------ measure

  /** A natural number that falls on every step the engine takes by itself. */
  function Measure(n: nat, bytes: nat, filling: nat, work: int, settled: nat, distance: nat): int {
    var c := 7 * n + 1;
    (121 * c + 9) * bytes + (60 * c + 1) * filling + c * work + c * settled + distance
  }

  ghost function Effort(s: State): int {
    Measure(|s.writers|, Total(BytesLeft(s)), Total(FillingPages(s)), Work(s), |Settled(s)|, Total(Distances(s)))
  }

  lemma Scale(c: int, a: int, b: int)
    requires c >= 0 && a <= b
    ensures c * a <= c * b
  {
  }

  lemma MeasureIsNat(n: nat, bytes: nat, filling: nat, work: nat, settled: nat, distance: nat)
    ensures Measure(n, bytes, filling, work, settled, distance) >= 0
  {
    var c := 7 * n + 1;
    Scale(121 * c + 9, 0, bytes);
    Scale(60 * c + 1, 0, filling);
    Scale(c, 0, work);
    Scale(c, 0, settled);
  }

  lemma CloserFalls(n: nat, bytes: nat, filling: nat, work: int, settled: nat, d: nat, d': nat)
    requires d' < d
    ensures Measure(n, bytes, filling, work, settled, d') < Measure(n, bytes, filling, work, settled, d)
  {
  }

  lemma UnlinkFalls(n: nat, bytes: nat, filling: nat, work: int, settled: nat, settled': nat, d: nat, d': nat)
    requires settled' < settled && d' <= d + 7 * n
    ensures Measure(n, bytes, filling, work, settled', d') < Measure(n, bytes, filling, work, settled, d)
  {
    var c := 7 * n + 1;
    Scale(c, settled', settled - 1);
    assert c * (settled - 1) == c * settled - c;
  }

  lemma WorkFalls(n: nat, bytes: nat, filling: nat, filling': nat, work: int, work': int,
                  settled: nat, settled': nat, d: nat, d': nat)
    requires filling' <= filling && work' < work && settled' <= settled && d' <= d + 7 * n
    ensures Measure(n, bytes, filling', work', settled', d') < Measure(n, bytes, filling, work, settled, d)
  {
    var c := 7 * n + 1;
    Scale(60 * c + 1, filling', filling);
    Scale(c, work', work - 1);
    Scale(c, settled', settled);
    assert c * (work - 1) == c * work - c;
  }

  lemma SealFalls(n: nat, bytes: nat, filling: nat, filling': nat, work: int, work': int, settled: nat, d: nat, d': nat)
    requires filling' < filling && work' <= work + 60 && d' <= d
    ensures Measure(n, bytes, filling', work', settled, d') < Measure(n, bytes, filling, work, settled, d)
  {
    var c := 7 * n + 1;
    var q := 60 * c + 1;
    Scale(q, filling', filling - 1);
    Scale(c, work', work + 60);
    assert q * (filling - 1) == q * filling - q && c * (work + 60) == c * work + 60 * c;
  }

  lemma CommitFalls(n: nat, bytes: nat, bytes': nat, filling: nat, filling': nat, work: int, work': int,
                    settled: nat, settled': nat, d: nat, d': nat)
    requires bytes' < bytes && filling' <= filling + 1 && work' <= work + 60 && settled' <= settled + 1 && d' <= d + 7
    ensures Measure(n, bytes', filling', work', settled', d') < Measure(n, bytes, filling, work, settled, d)
  {
    var c := 7 * n + 1;
    var p, q := 121 * c + 9, 60 * c + 1;
    Scale(p, bytes', bytes - 1);
    Scale(q, filling', filling + 1);
    Scale(c, work', work + 60);
    Scale(c, settled', settled + 1);
    assert p * (bytes - 1) == p * bytes - p && q * (filling + 1) == q * filling + q;
    assert c * (work + 60) == c * work + 60 * c && c * (settled + 1) == c * settled + c;
  }

  lemma SettledShrinks(s: State, s': State)
    requires Settled(s') <= Settled(s)
    ensures |Settled(s')| <= |Settled(s)|
  {
    SubsetSize(Settled(s'), Settled(s));
  }

  // ----------------------------------------------------- a thread comes closer

  /** The same chunk of the same call. */
  ghost predicate SamePlace(w: Writer, w': Writer) {
    w.Active? && w'.Active? && w'.off == w.off && w'.buf == w.buf && w'.done == w.done
  }

  ghost predicate HoldsFresh(w: Writer) {
    w.Active? && w.pc.Holding? && w.pc.created
  }

  /** Thread t moves on inside its call; nothing else changes. */
  ghost predicate Closer(s: State, s': State, t: nat) {
    && t < |s.writers| == |s'.writers| && |s.gate.threads| == |s'.gate.threads| == |s.writers|
    && s' == s.(writers := s'.writers, gate := s'.gate)
    && (forall u :: 0 <= u < |s.writers| && u != t ==> s'.writers[u] == s.writers[u] && s'.gate.threads[u] == s.gate.threads[u])
    && SamePlace(s.writers[t], s'.writers[t]) && !HoldsFresh(s.writers[t]) && !HoldsFresh(s'.writers[t])
    && Distance(s', t) < Distance(s, t)
  }

  lemma CloserFresh(s: State, s': State, t: nat, id: nat)
    requires Closer(s, s', t)
    ensures Fresh(s', id) <==> Fresh(s, id)
  {
    if Fresh(s, id) {
      var u :| 0 <= u < |s.writers| && s.writers[u].Active? && s.writers[u].pc == Holding(id, true);
      assert s'.writers[u] == s.writers[u];
    }
    if Fresh(s', id) {
      var u :| 0 <= u < |s'.writers| && s'.writers[u].Active? && s'.writers[u].pc == Holding(id, true);
      assert s'.writers[u] == s.writers[u];
    }
  }

  lemma CloserEffort(s: State, s': State, t: nat)
    requires Closer(s, s', t)
    ensures Effort(s') < Effort(s)
  {
    assert BytesLeft(s') == BytesLeft(s) && FillingPages(s') == FillingPages(s);
    forall b | b in s.index
      ensures Fresh(s', s.index[b]) <==> Fresh(s, s.index[b])
    {
      CloserFresh(s, s', t, s.index[b]);
    }
    assert Settled(s') == Settled(s);
    assert Distances(s') == Distances(s)[t := Distance(s', t)];
    TotalUpdate(Distances(s), t, Distance(s', t));
    CloserFalls(|s.writers|, Total(BytesLeft(s)), Total(FillingPages(s)), Work(s), |Settled(s)|,
                Total(Distances(s)), Total(Distances(s')));
  }

  lemma GateCloser(s: State, t: nat, st: ForegroundStep)
    requires Threads(s) && CanForeground(s, t, st) && (st.GateEnter? || st.GateWake?)
    requires st.GateWake? ==> s.gate.threads[t] != G.Asleep(false)
    ensures Closer(s, DoForeground(s, t, st), t)
  {
  }

  lemma LockCloser(s: State, t: nat, st: ForegroundStep)
    requires Threads(s) && Indexed(s) && CanForeground(s, t, st) && (st.Find? || st.Lock? || st.SeeSealed?)
    ensures Closer(s, DoForeground(s, t, st), t)
  {
    assert PcOk(s, s.writers[t]);
  }

  // -------------------------------------------------------------------- create

  lemma CreateLeavesFresh(s: State, t: nat, junk: seq<byte>, id: nat)
    requires CanCreate(s, t, junk) && id < |s.pages|
    ensures Fresh(DoCreate(s, t, junk), id) <==> Fresh(s, id)
  {
    var s' := DoCreate(s, t, junk);
    if Fresh(s, id) {
      var u :| 0 <= u < |s.writers| && s.writers[u].Active? && s.writers[u].pc == Holding(id, true);
      assert s'.writers[u] == s.writers[u];
    }
    if Fresh(s', id) {
      var u :| 0 <= u < |s'.writers| && s'.writers[u].Active? && s'.writers[u].pc == Holding(id, true);
      assert s'.writers[u] == s.writers[u];
    }
  }

  lemma CreateSettled(s: State, t: nat, junk: seq<byte>)
    requires Indexed(s) && CanCreate(s, t, junk)
    ensures Settled(DoCreate(s, t, junk)) == Settled(s)
  {
    var s' := DoCreate(s, t, junk);
    assert s'.writers[t].pc == Holding(|s.pages|, true);
    assert Fresh(s', |s.pages|);
    forall b | b in s.index
      ensures Fresh(s', s.index[b]) <==> Fresh(s, s.index[b])
    {
      CreateLeavesFresh(s, t, junk, s.index[b]);
    }
  }

  lemma CreateDistances(s: State, t: nat, junk: seq<byte>)
    requires Threads(s) && CanCreate(s, t, junk)
    ensures var s' := DoCreate(s, t, junk); Distance(s, t) == 3 && Distances(s') == Distances(s)[t := 1]
  {
    var s' := DoCreate(s, t, junk);
    forall u | 0 <= u < |s.writers| && u != t
      ensures Distance(s', u) == Distance(s, u)
    {
      if s.writers[u].Active? { assert PcOk(s, s.writers[u]); }
    }
  }

  lemma CreateEffort(s: State, t: nat, junk: seq<byte>)
    requires Indexed(s) && Threads(s) && CanCreate(s, t, junk)
    ensures Effort(DoCreate(s, t, junk)) < Effort(s)
  {
    var s' := DoCreate(s, t, junk);
    assert BytesLeft(s') == BytesLeft(s);
    assert FillingPages(s') == FillingPages(s) + [0];
    TotalAppend(FillingPages(s), 0);
    CreateSettled(s, t, junk);
    CreateDistances(s, t, junk);
    TotalUpdate(Distances(s), t, 1);
    CloserFalls(|s.writers|, Total(BytesLeft(s)), Total(FillingPages(s)), Work(s), |Settled(s)|,
                Total(Distances(s)), Total(Distances(s')));
  }

  // -------------------------------------------------------------------- unlink

  lemma FarthestIs7(s: State, s': State)
    requires |s'.writers| == |s.writers|
    ensures Total(Distances(s')) <= Total(Distances(s)) + 7 * |s.writers|
  {
    TotalBound(Distances(s), Distances(s'), 7);
  }

  lemma UnlinkLeavesFresh(s: State, t: nat, id: nat)
    requires Threads(s) && CanUnlink(s, t)
    ensures Fresh(DoUnlink(s, t), id) <==> Fresh(s, id)
  {
    var s' := DoUnlink(s, t);
    if Fresh(s, id) {
      var u :| 0 <= u < |s.writers| && s.writers[u].Active? && s.writers[u].pc == Holding(id, true);
      assert s'.writers[u] == s.writers[u];
    }
    if Fresh(s', id) {
      var u :| 0 <= u < |s'.writers| && s'.writers[u].Active? && s'.writers[u].pc == Holding(id, true);
      assert s'.writers[u] == s.writers[u];
    }
  }

  /** A page a thread is about to unlink is not in its creator's hands. */
  lemma LeavingIsSettled(s: State, t: nat)
    requires Shape(s) && Flags(s) && Threads(s) && ThreadAt(s, t) && s.writers[t].pc.Unlinking?
    ensures !Fresh(s, s.writers[t].pc.id)
  {
    var id := s.writers[t].pc.id;
    assert PcOk(s, s.writers[t]);
    forall u | 0 <= u < |s.writers| && s.writers[u].Active?
      ensures s.writers[u].pc != Holding(id, true)
    {
      assert PcOk(s, s.writers[u]);
    }
  }

  lemma UnlinkEffort(s: State, t: nat)
    requires Shape(s) && Flags(s) && Indexed(s) && Threads(s) && CanUnlink(s, t)
    ensures Effort(DoUnlink(s, t)) < Effort(s)
  {
    var s' := DoUnlink(s, t);
    assert PcOk(s, s.writers[t]);
    if StillIndexed(s, s.writers[t].pc.id) {
      LeavingIsSettled(s, t);
      UnlinkSettled(s, t);
      UnlinkedEffort(s, s', t);
    } else {
      UnlinkStale(s, t);
      CloserEffort(s, s', t);
    }
  }

  lemma UnlinkedEffort(s: State, s': State, t: nat)
    requires CanUnlink(s, t) && s' == DoUnlink(s, t) && |Settled(s')| < |Settled(s)|
    ensures Effort(s') < Effort(s)
  {
    assert BytesLeft(s') == BytesLeft(s) && FillingPages(s') == FillingPages(s);
    FarthestIs7(s, s');
    UnlinkFalls(|s.writers|, Total(BytesLeft(s)), Total(FillingPages(s)), Work(s), |Settled(s)|, |Settled(s')|,
                Total(Distances(s)), Total(Distances(s')));
  }

  /** Somebody else has unlinked the page: the thread only goes back to the gate. */
  lemma UnlinkStale(s: State, t: nat)
    requires Threads(s) && CanUnlink(s, t) && !StillIndexed(s, s.writers[t].pc.id)
    ensures Closer(s, DoUnlink(s, t), t)
  {
    assert PcOk(s, s.writers[t]);
  }

  lemma UnlinkSettled(s: State, t: nat)
    requires Threads(s) && CanUnlink(s, t) && StillIndexed(s, s.writers[t].pc.id) && !Fresh(s, s.writers[t].pc.id)
    requires s.pages[s.writers[t].pc.id].base == CurBase(s.writers[t])
    ensures |Settled(DoUnlink(s, t))| < |Settled(s)|
  {
    var s' := DoUnlink(s, t);
    var b := CurBase(s.writers[t]);
    forall c | c in s.index
      ensures Fresh(s', s.index[c]) <==> Fresh(s, s.index[c])
    {
      UnlinkLeavesFresh(s, t, s.index[c]);
    }
    assert b in Settled(s) && Settled(s') == Settled(s) - {b};
  }

  // ------------------------------------------------------------ seal and merge

  lemma OverflowsFilling(s: State, t: nat)
    requires Shape(s) && CanOverflow(s, t)
    ensures Filling(s.pages[Held(s, t)])
  {
    if !Filling(s.pages[Held(s, t)]) { OneEntry(s, t); }
  }

  lemma OverflowSettled(s: State, t: nat, s': State)
    requires Threads(s) && Seals(s, t, s') && !s.writers[t].pc.created
    ensures Settled(s') == Settled(s)
  {
    forall b | b in s.index
      ensures Fresh(s', s.index[b]) <==> Fresh(s, s.index[b])
    {
      var id := s.index[b];
      if Fresh(s, id) {
        var u :| 0 <= u < |s.writers| && s.writers[u].Active? && s.writers[u].pc == Holding(id, true);
        assert s'.writers[u] == s.writers[u];
      }
    }
  }

  lemma OverflowDistances(s: State, t: nat, s': State)
    requires Threads(s) && Seals(s, t, s')
    ensures Distances(s') == Distances(s)[t := Distance(s', t)] && Distance(s', t) <= Distance(s, t)
  {
  }

  lemma OverflowFilling(s: State, t: nat, s': State)
    requires Seals(s, t, s') && Filling(s.pages[Held(s, t)])
    ensures Total(FillingPages(s')) < Total(FillingPages(s)) && BytesLeft(s') == BytesLeft(s)
  {
    assert FillingPages(s') == FillingPages(s)[Held(s, t) := 0];
    TotalUpdate(FillingPages(s), Held(s, t), 0);
  }

  lemma OverflowEffort(s: State, t: nat)
    requires Shape(s) && Flags(s) && Threads(s) && Exclusive(s) && Accounted(s) && CanOverflow(s, t)
    ensures Effort(DoOverflow(s, t)) < Effort(s)
  {
    var s' := DoOverflow(s, t);
    OverflowSeals(s, t);
    OverflowFacts(s, t);
    OverflowsFilling(s, t);
    OverflowFilling(s, t, s');
    OverflowSettled(s, t, s');
    OverflowDistances(s, t, s');
    TotalUpdate(Distances(s), t, Distance(s', t));
    SealFalls(|s.writers|, Total(BytesLeft(s)), Total(FillingPages(s)), Total(FillingPages(s')), Work(s), Work(s'),
              |Settled(s)|, Total(Distances(s)), Total(Distances(s')));
  }

  lemma CommitBytes(s: State, t: nat, s': State)
    requires Takes(s, t, s')
    ensures Total(BytesLeft(s')) < Total(BytesLeft(s))
  {
    var left := Left(s'.writers[t]);
    assert BytesLeft(s') == BytesLeft(s)[t := left] && left < BytesLeft(s)[t];
    TotalUpdate(BytesLeft(s), t, left);
  }

  lemma CommitFilling(s: State, t: nat, s': State)
    requires Takes(s, t, s')
    ensures Total(FillingPages(s')) <= Total(FillingPages(s)) + 1
  {
    var id := Held(s, t);
    assert FillingPages(s') == FillingPages(s)[id := FillingPages(s')[id]];
    TotalUpdate(FillingPages(s), id, FillingPages(s')[id]);
  }

  lemma CommitLeavesFresh(s: State, t: nat, s': State, id: nat)
    requires Threads(s) && Takes(s, t, s') && Fresh(s, id)
    ensures id == Held(s, t) || Fresh(s', id)
  {
    var u :| 0 <= u < |s.writers| && s.writers[u].Active? && s.writers[u].pc == Holding(id, true);
    assert u == t || s'.writers[u] == s.writers[u];
  }

  lemma CommitSettled(s: State, t: nat, s': State)
    requires Indexed(s) && Threads(s) && Takes(s, t, s')
    ensures |Settled(s')| <= |Settled(s)| + 1
  {
    var base := s.pages[Held(s, t)].base;
    forall b | b in Settled(s')
      ensures b in Settled(s) + {base}
    {
      if Fresh(s, s.index[b]) { CommitLeavesFresh(s, t, s', s.index[b]); }
    }
    SubsetSize(Settled(s'), Settled(s) + {base});
  }

  lemma CommitDistances(s: State, t: nat, s': State)
    requires Threads(s) && Takes(s, t, s')
    ensures Total(Distances(s')) <= Total(Distances(s)) + 7
  {
    var d := Distance(s', t);
    assert Distances(s') == Distances(s)[t := d];
    TotalUpdate(Distances(s), t, d);
  }

  lemma CommitEffort(s: State, t: nat)
    requires Indexed(s) && Threads(s) && CanCommit(s, t)
    ensures Effort(DoCommit(s, t)) < Effort(s)
  {
    var s' := DoCommit(s, t);
    CommitTakes(s, t);
    CommitBytes(s, t, s');
    CommitFilling(s, t, s');
    CommitSettled(s, t, s');
    CommitDistances(s, t, s');
    CommitFalls(|s.writers|, Total(BytesLeft(s)), Total(BytesLeft(s')), Total(FillingPages(s)), Total(FillingPages(s')),
                Work(s), Work(s'), |Settled(s)|, |Settled(s')|, Total(Distances(s)), Total(Distances(s')));
  }

  // ---------------------------------------------------------------- background

  /** What a background step leaves of the threads, the pages and the index. */
  ghost predicate Behind(s: State, s': State) {
    && s'.writers == s.writers && |s'.pages| == |s.pages|
    && (forall j :: 0 <= j < |s.pages| && Filling(s'.pages[j]) ==> Filling(s.pages[j]))
    && (forall b :: b in s'.index ==> b in s.index && s'.index[b] == s.index[b])
  }

  lemma Stage1Behind(s: State, st: Stage1Step)
    requires CanStage1(s, st)
    ensures Behind(s, DoStage1(s, st))
  {
  }

  lemma Stage2Behind(s: State, st: Stage2Step)
    requires Shape(s) && Complete(s) && CanStage2(s, st)
    ensures Behind(s, DoStage2(s, st))
  {
    if st.S2Claim? { assert s.s2.batch[s.s2.k] in Batch(s.s2) + s.q2; }
  }

  lemma BehindEffort(s: State, s': State)
    requires Behind(s, s') && Work(s') < Work(s)
    ensures Effort(s') < Effort(s)
  {
    assert BytesLeft(s') == BytesLeft(s);
    TotalBound(FillingPages(s), FillingPages(s'), 0);
    assert forall id :: Fresh(s', id) == Fresh(s, id);
    SettledShrinks(s, s');
    FarthestIs7(s, s');
    WorkFalls(|s.writers|, Total(BytesLeft(s)), Total(FillingPages(s)), Total(FillingPages(s')), Work(s), Work(s'),
              |Settled(s)|, |Settled(s')|, Total(Distances(s)), Total(Distances(s')));
  }

  // ------------------------------------------------------------------ all steps

  /** A step the engine takes by itself, a failed read included. */
  ghost predicate Internal(s: State, st: Step) {
    Productive(s, st) || (st.First? && st.s1.S1Fail?)
  }

  lemma ForegroundEffort(s: State, t: nat, st: ForegroundStep)
    requires Shape(s) && Flags(s) && Indexed(s) && Threads(s) && Exclusive(s) && Accounted(s)
    requires CanForeground(s, t, st) && Productive(s, Foreground(t, st))
    ensures Effort(DoForeground(s, t, st)) < Effort(s)
  {
    match st
    case GateEnter => GateCloser(s, t, st); CloserEffort(s, DoForeground(s, t, st), t);
    case GateWake => GateCloser(s, t, st); CloserEffort(s, DoForeground(s, t, st), t);
    case Find => LockCloser(s, t, st); CloserEffort(s, DoForeground(s, t, st), t);
    case Lock => LockCloser(s, t, st); CloserEffort(s, DoForeground(s, t, st), t);
    case SeeSealed => LockCloser(s, t, st); CloserEffort(s, DoForeground(s, t, st), t);
    case Create(junk) => CreateEffort(s, t, junk);
    case Overflow => OverflowEffort(s, t);
    case Commit => CommitEffort(s, t);
    case Unlink => UnlinkEffort(s, t);
  }

  lemma BackgroundEffort(s: State, st: Step)
    requires Reached(s) && Enabled(s, st) && (st.First? || st.Second?)
    ensures Effort(Next(s, st)) < Effort(s)
  {
    ReachedInv(s);
    BackgroundFalls(s, st);
    if st.First? { Stage1Behind(s, st.s1); } else { Stage2Behind(s, st.s2); }
    BehindEffort(s, Next(s, st));
  }

  lemma StepEffort(s: State, st: Step)
    requires Reached(s) && Enabled(s, st) && Internal(s, st)
    ensures Effort(Next(s, st)) < Effort(s)
  {
    if st.Foreground? {
      ReachedInv(s);
      ForegroundEffort(s, st.t, st.fg);
    } else {
      BackgroundEffort(s, st);
    }
  }

  lemma EffortIsNat(s: State)
    requires S2Shape(s)
    ensures Effort(s) >= 0
  {
    WorkIsNat(s);
    MeasureIsNat(|s.writers|, Total(BytesLeft(s)), Total(FillingPages(s)), Work(s), |Settled(s)|, Total(Distances(s)));
  }

  /** A run without new calls, direct writes, close or spurious wakeups. */
  ghost predicate ByItself(s: State, steps: seq<Step>)
    requires ValidRun(s, steps)
    decreases |steps|
  {
    steps == [] || (Internal(s, steps[0]) && ByItself(Next(s, steps[0]), steps[1..]))
  }

  /** No livelock, for any number of threads and whatever fails: every run the engine
      makes by itself is bounded by a number its first state determines. In particular
      the retry loop of scrap_write_chunk comes to an end. */
  lemma {:induction false} RunsBounded(s: State, steps: seq<Step>)
    requires Reached(s) && ValidRun(s, steps) && ByItself(s, steps)
    ensures |steps| <= Effort(s)
    decreases |steps|
  {
    if steps == [] {
      ReachedInv(s);
      EffortIsNat(s);
    } else {
      StepEffort(s, steps[0]);
      ReachedNext(s, steps[0]);
      RunsBounded(Next(s, steps[0]), steps[1..]);
    }
  }

  /** And when it stops, unless failed reads have lost more pages than the low mark, every
      call has returned, nothing is pending and every page is written back and freed
      but those the failed reads lost. */
  lemma StopsWhenDone(s: State)
    requires Reached(s) && |LostPages(s)| <= s.gate.low && forall st: Step :: Enabled(s, st) ==> !Productive(s, st)
    ensures AllIdle(s) && s.pending == 0
    ensures forall j :: 0 <= j < |s.pages| && j !in s.freed ==> Lost(s, j)
    ensures !s.dropped ==> s.index == map[] && forall j :: 0 <= j < |s.pages| ==> j in s.freed
  {
    ReachedInv(s);
    ProgressIff(s);
    if !AllIdle(s) { JamNeedsLosses(s); }
    JammedAllLost(s);
    if !s.dropped { DrainedEmpty(s); }
  }
}
