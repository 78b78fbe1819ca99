/** No uninitialised byte ever reaches the disk: a page starts with whatever its memory
    held and so does the scratch zone, and what a run leaves on disk does not depend on it. */
module EngineJunk {
  import opened Geometry
  import opened Engine
  import opened EngineInv
  import opened EngineSafety
  import opened WriterMerges
  import opened WriterCommits

  // ------------------------------------------------------------ two alike states

  /** Equal but for the bytes of the zone that nobody has written. */
  ghost predicate AlikePage(p: Page, q: Page) {
    && q == p.(zone := q.zone) && |p.zone| == |q.zone| == ZONE
    && forall i: nat :: i in p.cov && i < ZONE ==> p.zone[i] == q.zone[i]
  }

  /** Equal but for the bytes of the scratch zone that have not been read. */
  ghost predicate AlikeStage1(a: Stage1, b: Stage1) {
    if a.Reading? then
      && b.Reading? && b == a.(scratch := b.scratch) && |a.scratch| == |b.scratch| == ZONE
      && forall i: nat :: i in a.got && i < ZONE ==> a.scratch[i] == b.scratch[i]
    else b == a
  }

  ghost predicate AlikeState(s: State, z: State) {
    && z == s.(pages := z.pages, s1 := z.s1) && |z.pages| == |s.pages|
    && (forall j :: 0 <= j < |s.pages| ==> AlikePage(s.pages[j], z.pages[j]))
    && AlikeStage1(s.s1, z.s1)
  }

  /** The same step, but for what fresh memory happens to hold. */
  ghost predicate AlikeStep(st: Step, zt: Step) {
    || zt == st
    || (st.Foreground? && zt.Foreground? && zt.t == st.t && st.fg.Create? && zt.fg.Create? && |zt.fg.junk| == ZONE)
    || (st.First? && zt.First? && st.s1.S1Guard? && zt.s1.S1Guard? && zt.s1.plan == st.s1.plan && |zt.s1.stale| == ZONE)
  }

  ghost predicate AlikeRun(steps: seq<Step>, zteps: seq<Step>) {
    |zteps| == |steps| && forall k :: 0 <= k < |steps| ==> AlikeStep(steps[k], zteps[k])
  }

  // ------------------------------------------------------------------ foreground

  lemma CommitAlike(s: State, z: State, t: nat)
    requires AlikeState(s, z) && CanCommit(s, t)
    ensures CanCommit(z, t) && AlikeState(DoCommit(s, t), DoCommit(z, t))
  {
    TakenAlike(s, z, t);
    CommitTakes(s, t);
    CommitTakes(z, t);
    TakesAlike(s, z, t, DoCommit(s, t), DoCommit(z, t));
  }

  lemma TakenAlike(s: State, z: State, t: nat)
    requires AlikeState(s, z) && CanCommit(s, t)
    ensures CanCommit(z, t) && AlikePage(Taken(s, t), Taken(z, t))
    ensures ToQ1(z, t) == ToQ1(s, t) && ToQ2(z, t) == ToQ2(s, t)
  {
    assert AlikePage(s.pages[Held(s, t)], z.pages[Held(s, t)]);
  }

  lemma TakesAlike(s: State, z: State, t: nat, s': State, z': State)
    requires AlikeState(s, z) && Takes(s, t, s') && Takes(z, t, z') && AlikePage(Taken(s, t), Taken(z, t))
    requires ToQ1(z, t) == ToQ1(s, t) && ToQ2(z, t) == ToQ2(s, t)
    ensures AlikeState(s', z')
  {
    assert AlikePage(s.pages[Held(s, t)], z.pages[Held(s, t)]);
  }

  lemma OverflowAlike(s: State, z: State, t: nat)
    requires AlikeState(s, z) && CanOverflow(s, t)
    ensures CanOverflow(z, t) && AlikeState(DoOverflow(s, t), DoOverflow(z, t))
  {
    assert AlikePage(s.pages[Held(s, t)], z.pages[Held(s, t)]);
    OverflowSeals(s, t);
    OverflowSeals(z, t);
  }

  lemma CreateAlike(s: State, z: State, t: nat, junk: seq<byte>, zunk: seq<byte>)
    requires AlikeState(s, z) && CanCreate(s, t, junk) && |zunk| == ZONE
    ensures CanCreate(z, t, zunk) && AlikeState(DoCreate(s, t, junk), DoCreate(z, t, zunk))
  {
  }

  lemma ForegroundAlike(s: State, z: State, t: nat, st: ForegroundStep)
    requires AlikeState(s, z) && CanForeground(s, t, st)
    ensures CanForeground(z, t, st) && AlikeState(DoForeground(s, t, st), DoForeground(z, t, st))
  {
    match st
    case Commit => CommitAlike(s, z, t);
    case Overflow => OverflowAlike(s, z, t);
    case Create(junk) => CreateAlike(s, z, t, junk, junk);
    case SeeSealed => assert AlikePage(s.pages[Held(s, t)], z.pages[Held(s, t)]);
    case _ =>
  }

  // ---------------------------------------------------------------------- stages

  lemma GuardAlike(s: State, z: State, st: Stage1Step, zt: Stage1Step)
    requires AlikeState(s, z) && CanStage1(s, st) && st.S1Guard? && zt.S1Guard? && zt.plan == st.plan && |zt.stale| == ZONE
    ensures CanStage1(z, zt) && AlikeState(DoStage1(s, st), DoStage1(z, zt))
  {
  }

  /** A fill takes only bytes that have been read. */
  lemma FillAlike(s: State, z: State)
    requires S1Shape(s) && AlikeState(s, z) && CanS1Fill(s)
    ensures CanS1Fill(z) && AlikeState(DoS1Fill(s), DoS1Fill(z))
  {
    var id := s.s1.r.id;
    assert AlikePage(s.pages[id], z.pages[id]);
    assert FullZone() - s.pages[id].cov <= s.s1.got;
    assert AlikePage(DoS1Fill(s).pages[id], DoS1Fill(z).pages[id]);
  }

  lemma Stage1Alike(s: State, z: State, st: Stage1Step)
    requires S1Shape(s) && AlikeState(s, z) && CanStage1(s, st)
    ensures CanStage1(z, st) && AlikeState(DoStage1(s, st), DoStage1(z, st))
  {
    if !s.s1.S1Idle? && s.s1.r.id < |s.pages| { assert AlikePage(s.pages[s.s1.r.id], z.pages[s.s1.r.id]); }
    match st
    case S1Guard(_, _) => GuardAlike(s, z, st, st);
    case S1Fill => FillAlike(s, z);
    case _ =>
  }

  lemma BatchAlike(s: State, z: State)
    requires Shape(s) && Complete(s) && AlikeState(s, z)
    ensures forall k :: 0 <= k < |Batch(s.s2)| ==> z.pages[Batch(s.s2)[k].id].zone == s.pages[Batch(s.s2)[k].id].zone
  {
    forall k | 0 <= k < |Batch(s.s2)|
      ensures z.pages[Batch(s.s2)[k].id].zone == s.pages[Batch(s.s2)[k].id].zone
    {
      var r := Batch(s.s2)[k];
      assert r in Line(s) && r in Batch(s.s2) + s.q2;
      assert AlikePage(s.pages[r.id], z.pages[r.id]);
    }
  }

  /** Complete pages are equal, so what may land is the same. */
  lemma IssueAlike(s: State, z: State, disk': Disk)
    requires Shape(s) && Complete(s) && AlikeState(s, z) && CanS2Issue(s, disk')
    ensures CanS2Issue(z, disk')
  {
    BatchAlike(s, z);
    forall base: nat, i: nat | i < ZONE
      ensures DiskByte(disk', base, i) == DiskByte(z.disk, base, i) || LandedAt(z.pages, z.s2.batch, disk', base, i)
    {
      if LandedAt(s.pages, s.s2.batch, disk', base, i) {
        var k := base - s.s2.batch[0].base;
        assert Batch(s.s2)[k] == s.s2.batch[k];
      }
    }
  }

  lemma LandedAlike(s: State, z: State)
    requires Shape(s) && Complete(s) && AlikeState(s, z) && CanS2Landed(s)
    ensures CanS2Landed(z)
  {
    BatchAlike(s, z);
    forall k: nat, i: nat | k < |z.s2.batch| && i < ZONE
      ensures DiskByte(z.disk, z.s2.batch[k].base, i) == z.pages[z.s2.batch[k].id].zone[i]
    {
      assert Batch(s.s2)[k] == s.s2.batch[k];
    }
  }

  lemma Stage2Alike(s: State, z: State, st: Stage2Step)
    requires Shape(s) && Complete(s) && AlikeState(s, z) && CanStage2(s, st)
    ensures CanStage2(z, st) && AlikeState(DoStage2(s, st), DoStage2(z, st))
  {
    match st
    case S2Issue(disk') => IssueAlike(s, z, disk');
    case S2Landed => LandedAlike(s, z);
    case S2Gather => QueueAlike(s, z, st);
    case S2Reject => QueueAlike(s, z, st);
    case S2Unlink => DetachAlike(s, z, st);
    case S2Claim => DetachAlike(s, z, st);
    case _ => Stage2RestAlike(s, z, st);
  }

  /** The sections that look at no page. */
  lemma Stage2RestAlike(s: State, z: State, st: Stage2Step)
    requires AlikeState(s, z) && CanStage2(s, st)
    requires st.S2Pop? || st.S2Busy? || st.S2EndCollect? || st.S2Failed? || st.S2Free? || st.S2Leave? || st.S2Dec?
    ensures CanStage2(z, st) && AlikeState(DoStage2(s, st), DoStage2(z, st))
  {
  }

  lemma QueueAlike(s: State, z: State, st: Stage2Step)
    requires AlikeState(s, z) && CanStage2(s, st) && (st.S2Gather? || st.S2Reject?)
    ensures CanStage2(z, st) && AlikeState(DoStage2(s, st), DoStage2(z, st))
  {
    assert AlikePage(s.pages[s.q2[0].id], z.pages[s.q2[0].id]);
  }

  lemma DetachAlike(s: State, z: State, st: Stage2Step)
    requires AlikeState(s, z) && CanStage2(s, st) && (st.S2Unlink? || st.S2Claim?)
    ensures CanStage2(z, st) && AlikeState(DoStage2(s, st), DoStage2(z, st))
  {
    assert AlikePage(s.pages[s.s2.batch[s.s2.k].id], z.pages[s.s2.batch[s.s2.k].id]);
  }

  lemma CallerAlike(s: State, z: State, st: CallerStep)
    requires AlikeState(s, z) && CanCaller(s, st)
    ensures CanCaller(z, st) && AlikeState(DoCaller(s, st), DoCaller(z, st))
  {
    if st.FastWrite? { ClearAlike(s, z, st.w.off, |st.w.bytes| + |st.rest|); }
  }

  lemma ClearAlike(s: State, z: State, off: nat, size: nat)
    requires AlikeState(s, z) && ClearOfScrap(s, off, size)
    ensures ClearOfScrap(z, off, size)
  {
    assert forall j :: 0 <= j < |s.pages| ==> AlikePage(s.pages[j], z.pages[j]);
  }

  // ------------------------------------------------------------------------ runs

  lemma StepAlike(s: State, z: State, st: Step, zt: Step)
    requires Shape(s) && Complete(s) && AlikeState(s, z) && Enabled(s, st) && AlikeStep(st, zt)
    ensures Enabled(z, zt) && AlikeState(Next(s, st), Next(z, zt))
  {
    match st
    case Foreground(t, fg) =>
      if fg.Create? { CreateAlike(s, z, t, fg.junk, zt.fg.junk); } else { ForegroundAlike(s, z, t, fg); }
    case First(s1) =>
      if s1.S1Guard? { GuardAlike(s, z, s1, zt.s1); } else { Stage1Alike(s, z, s1); }
    case Second(s2) => Stage2Alike(s, z, s2);
    case Caller(c) => CallerAlike(s, z, c);
  }

  lemma ReachedAlike(s: State, z: State, st: Step, zt: Step)
    requires Reached(s) && AlikeState(s, z) && Enabled(s, st) && AlikeStep(st, zt)
    ensures Enabled(z, zt) && AlikeState(Next(s, st), Next(z, zt))
  {
    ReachedInv(s);
    StepAlike(s, z, st, zt);
  }

  lemma {:induction false} RunAlike(s: State, z: State, steps: seq<Step>, zteps: seq<Step>)
    requires Reached(s) && AlikeState(s, z) && ValidRun(s, steps) && AlikeRun(steps, zteps)
    ensures ValidRun(z, zteps) && AlikeState(Run(s, steps), Run(z, zteps))
    decreases |steps|
  {
    if steps != [] {
      ReachedAlike(s, z, steps[0], zteps[0]);
      ReachedNext(s, steps[0]);
      RunAlike(Next(s, steps[0]), Next(z, zteps[0]), steps[1..], zteps[1..]);
    }
  }

  /** In every run, failures included: whatever fresh pages and the scratch zone held, the
      run goes through all the same, the disk ends up the same, and so does every byte of
      a page that anybody has written. */
  lemma JunkNeverWritten(s0: State, steps: seq<Step>, zteps: seq<Step>)
    requires Init(s0) && ValidRun(s0, steps) && AlikeRun(steps, zteps)
    ensures ValidRun(s0, zteps) && Run(s0, zteps).disk == Run(s0, steps).disk
    ensures AlikeState(Run(s0, steps), Run(s0, zteps))
  {
    InitReached(s0);
    RunAlike(s0, s0, steps, zteps);
  }
}
