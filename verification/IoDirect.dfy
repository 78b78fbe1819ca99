/** Gathered writes that resume after a short write (io_direct.c). */
module IoDirect {
  import opened Geometry
  import opened Segments
  import opened Zones

  /** What one pwritev call answers; `Wrote` may be short, even mid-block. */
  datatype Reply = Eintr | Error | Wrote(n: nat)

  datatype Outcome = Done | Errno | ZeroBytes | Stalled(buffer: nat)

  /** No call writes more than it was given. */
  function Clamped(r: Reply, max: nat): Reply {
    if r.Wrote? then Wrote(Min(r.n, max)) else r
  }

  /** The buffers of a gather list, end to end. */
  function Gathered(iov: seq<seq<byte>>): seq<byte> {
    if iov == [] then [] else iov[0] + Gathered(iov[1..])
  }

  lemma {:induction false} GatheredSplit(iov: seq<seq<byte>>, k: nat)
    requires k <= |iov|
    ensures Gathered(iov) == Gathered(iov[..k]) + Gathered(iov[k..])
    decreases k
  {
    if k == 0 {
      assert iov[0..] == iov;
    } else {
      assert iov[..k][1..] == iov[1..][..k - 1] && iov[1..][k - 1..] == iov[k..];
      GatheredSplit(iov[1..], k - 1);
    }
  }

  lemma GatheredRest(iov: seq<seq<byte>>, k: nat)
    requires k <= |iov|
    ensures |Gathered(iov)| == |Gathered(iov[..k])| + |Gathered(iov[k..])|
    ensures Gathered(iov)[|Gathered(iov[..k])|..] == Gathered(iov[k..])
  {
    GatheredSplit(iov, k);
  }

  lemma GatheredNext(iov: seq<seq<byte>>, k: nat)
    requires k < |iov|
    ensures Gathered(iov[..k + 1]) == Gathered(iov[..k]) + iov[k]
  {
    var upto := iov[..k + 1];
    GatheredSplit(upto, k);
    assert upto[..k] == iov[..k] && upto[k..] == [iov[k]];
    assert Gathered([iov[k]]) == iov[k] + Gathered([]);
  }

  // ------------------------------------------------------------ files

  lemma SameFile(a: seq<byte>, b: seq<byte>)
    requires |a| == |b| && forall i: nat :: FileByte(a, i) == FileByte(b, i)
    ensures a == b
  {
    forall i | 0 <= i < |a|
      ensures a[i] == b[i]
    {
      assert FileByte(a, i) == FileByte(b, i);
    }
  }

  /** Two writes that meet are one write. */
  lemma WriteJoin(file: seq<byte>, off: nat, x: seq<byte>, y: seq<byte>)
    ensures WriteAt(file, off, x + y) == WriteAt(WriteAt(file, off, x), off + |x|, y)
  {
    SameFile(WriteAt(file, off, x + y), WriteAt(WriteAt(file, off, x), off + |x|, y));
  }

  /** Rewriting what already landed, and more, loses nothing: a reissue is idempotent. */
  lemma Rewrite(file: seq<byte>, off: nat, bytes: seq<byte>, done: nat, landed: nat, rest: seq<byte>, n: nat, landed': nat)
    requires done <= landed <= |bytes| && rest == bytes[done..] && n <= |rest|
    requires landed' == if landed < done + n then done + n else landed
    ensures WriteAt(WriteAt(file, off, bytes[..landed]), off + done, rest[..n]) == WriteAt(file, off, bytes[..landed'])
  {
    SameFile(WriteAt(WriteAt(file, off, bytes[..landed]), off + done, rest[..n]), WriteAt(file, off, bytes[..landed']));
  }

  /** One pwrite per buffer, in order. */
  function OneByOne(file: seq<byte>, off: nat, iov: seq<seq<byte>>): seq<byte>
    decreases |iov|
  {
    if iov == [] then file else OneByOne(WriteAt(file, off, iov[0]), off + |iov[0]|, iov[1..])
  }

  /** A gathered write leaves the file as page-by-page writebacks would. */
  lemma {:induction false} GatherIsOneByOne(file: seq<byte>, off: nat, iov: seq<seq<byte>>)
    ensures WriteAt(file, off, Gathered(iov)) == OneByOne(file, off, iov)
    decreases |iov|
  {
    if iov == [] {
      assert OneByOne(file, off, iov) == file;
    } else {
      var first, rest := iov[0], iov[1..];
      var next := WriteAt(file, off, first);
      calc {
        WriteAt(file, off, Gathered(iov));
        WriteAt(file, off, first + Gathered(rest));
        { WriteJoin(file, off, first, Gathered(rest)); }
        WriteAt(next, off + |first|, Gathered(rest));
        { GatherIsOneByOne(next, off + |first|, rest); }
        OneByOne(next, off + |first|, rest);
        OneByOne(file, off, iov);
      }
    }
  }

  // ------------------------------------------------------------ the device

  /** The kernel and the file behind the descriptor: `kernel(j)` is the answer to the j-th call. */
  class Device {
    var content: seq<byte>
    var calls: nat
    ghost var trace: seq<Seg>
    const kernel: nat -> Reply

    constructor (content: seq<byte>, kernel: nat -> Reply)
      ensures this.content == content && this.kernel == kernel && calls == 0 && trace == []
    {
      this.content, this.kernel, calls, trace := content, kernel, 0, [];
    }

    /** One system call: a prefix of the gathered bytes reaches the file. */
    method Pwritev(iov: seq<seq<byte>>, off: nat) returns (r: Reply)
      modifies this
      ensures calls == old(calls) + 1 && trace == old(trace) + [Seg(off, |Gathered(iov)|)]
      ensures r == Clamped(kernel(old(calls)), |Gathered(iov)|)
      ensures content == if r.Wrote? then WriteAt(old(content), off, Gathered(iov)[..r.n]) else old(content)
    {
      r := Clamped(kernel(calls), |Gathered(iov)|);
      if r.Wrote? {
        content := WriteAt(content, off, Gathered(iov)[..r.n]);
      }
      calls, trace := calls + 1, trace + [Seg(off, |Gathered(iov)|)];
    }
  }

  // ------------------------------------------------------------ the resume loop

  /** iov_complete_count: how many leading buffers n bytes cover fully, and their total. */
  method IovCompleteCount(iov: seq<seq<byte>>, n: nat) returns (k: nat, done: nat)
    ensures k <= |iov| && done == |Gathered(iov[..k])| <= n
    ensures k < |iov| ==> n < |Gathered(iov[..k + 1])|
  {
    var left: nat := n;
    k, done := 0, 0;
    while k < |iov| && left >= |iov[k]|
      invariant k <= |iov| && left + done == n && done == |Gathered(iov[..k])|
    {
      GatheredNext(iov, k);
      left, done, k := left - |iov[k]|, done + |iov[k]|, k + 1;
    }
    if k < |iov| {
      GatheredNext(iov, k);
    }
  }

  /** An answer that completes not even a buffer of `size` bytes, without being an error. */
  predicate Idle(r: Reply, size: nat) {
    r.Eintr? || (r.Wrote? && 0 < r.n < size)
  }

  /** An answer of zero bytes: the kernel took nothing, or nothing was left to take. */
  predicate NothingSent(r: Reply, landed: nat, total: nat) {
    r.Wrote? && (r.n == 0 || landed == total)
  }

  /** The last `n` of the first `calls` answers were all idle. */
  ghost predicate IdleRun(kernel: nat -> Reply, calls: nat, n: nat, size: nat) {
    n <= calls && (n > 0 ==> Idle(kernel(calls - 1), size) && IdleRun(kernel, calls - 1, n - 1, size))
  }

  lemma {:induction false} IdleRunAll(kernel: nat -> Reply, calls: nat, n: nat, size: nat, j: nat)
    requires IdleRun(kernel, calls, n, size) && calls - n <= j < calls
    ensures Idle(kernel(j), size)
    decreases n
  {
    if j < calls - 1 { IdleRunAll(kernel, calls - 1, n - 1, size, j); }
  }

  ghost predicate NoneEmpty(iov: seq<seq<byte>>) {
    forall k :: 0 <= k < |iov| ==> |iov[k]| > 0
  }

  lemma NonEmptyGathered(iov: seq<seq<byte>>, i: nat)
    requires NoneEmpty(iov) && i < |iov|
    ensures |Gathered(iov[i..])| > 0
  {
    assert iov[i..][0] == iov[i];
  }

  /** A device that keeps working from call `from` on: no answer is an error or empty, and
      of any five in a row one completes a buffer of `size` bytes. */
  ghost predicate Works(kernel: nat -> Reply, from: nat, size: nat) {
    && (forall j: nat :: j >= from ==> !kernel(j).Error? && kernel(j) != Wrote(0))
    && (forall j: nat :: j >= from ==> OneOfFive(kernel, j, size))
  }

  ghost predicate OneOfFive(kernel: nat -> Reply, j: nat, size: nat) {
    exists m: nat :: j <= m < j + 5 && !Idle(kernel(m), size)
  }

  ghost predicate WorksFor(kernel: nat -> Reply, from: nat, iov: seq<seq<byte>>) {
    NoneEmpty(iov) && forall k :: 0 <= k < |iov| ==> Works(kernel, from, |iov[k]|)
  }

  /** Such a device never answers five times in a row without completing the buffer. */
  lemma WorkingNeverStalls(kernel: nat -> Reply, from: nat, calls: nat, size: nat)
    requires Works(kernel, from, size) && IdleRun(kernel, calls, 5, size)
    ensures calls < from + 5
  {
    if calls >= from + 5 {
      var j: nat := calls - 5;
      assert OneOfFive(kernel, j, size);
      var m: nat :| j <= m < j + 5 && !Idle(kernel(m), size);
      IdleRunAll(kernel, calls, 5, size, m);
    }
  }

  ghost predicate BlockSized(iov: seq<seq<byte>>) {
    forall k :: 0 <= k < |iov| ==> |iov[k]| % BLOCK == 0
  }

  lemma {:induction false} BlockSizedGathered(iov: seq<seq<byte>>)
    requires BlockSized(iov)
    ensures |Gathered(iov)| % BLOCK == 0
  {
    if iov != [] {
      assert |iov[0]| % BLOCK == 0;
      forall k | 0 <= k < |iov[1..]|
        ensures |iov[1..][k]| % BLOCK == 0
      {
        assert iov[1..][k] == iov[k + 1];
      }
      BlockSizedGathered(iov[1..]);
    }
  }

  /** Every call of a trace starts and ends on a block boundary. */
  ghost predicate AlignedTrace(trace: seq<Seg>) {
    forall k :: 0 <= k < |trace| ==> trace[k].off % BLOCK == 0 && trace[k].size % BLOCK == 0
  }

  /** Where the resume loop stands: buffers before i are on the device, a prefix of
      the rest may be, and the idle calls since the last progress spend the budget. */
  ghost predicate Standing(iov: seq<seq<byte>>, off: nat, i: nat, at: nat, landed: nat) {
    i <= |iov| && at == off + |Gathered(iov[..i])| && |Gathered(iov[..i])| <= landed <= |Gathered(iov)|
  }

  /** Where a resumed write moves on to after k more complete buffers. */
  lemma Advance(iov: seq<seq<byte>>, off: nat, i: nat, at: nat, landed: nat, k: nat, done: nat, n: nat)
    requires Standing(iov, off, i, at, landed) && k <= |iov| - i
    requires done == |Gathered(iov[i..][..k])| <= n && landed >= |Gathered(iov[..i])| + n
    ensures Standing(iov, off, i + k, at + done, landed)
  {
    GatheredSplit(iov[..i + k], i);
    assert iov[..i + k][..i] == iov[..i] && iov[..i + k][i..] == iov[i..][..k];
  }

  lemma NextCallAligned(iov: seq<seq<byte>>, off: nat, i: nat, at: nat, landed: nat)
    requires Standing(iov, off, i, at, landed) && BlockSized(iov) && off % BLOCK == 0
    ensures at % BLOCK == 0 && |Gathered(iov[i..])| % BLOCK == 0
  {
    BlockSizedGathered(iov[..i]);
    BlockSizedGathered(iov[i..]);
  }

  /** One call and what it adds to the file. */
  method Attempt(d: Device, iov: seq<seq<byte>>, off: nat, i: nat, at: nat, ghost before: seq<byte>, ghost landed: nat)
    returns (r: Reply, ghost landed': nat)
    requires Standing(iov, off, i, at, landed) && i < |iov|
    requires d.content == WriteAt(before, off, Gathered(iov)[..landed])
    modifies d
    ensures d.calls == old(d.calls) + 1
    ensures r == Clamped(d.kernel(old(d.calls)), |Gathered(iov[i..])|)
    ensures d.trace == old(d.trace) + [Seg(at, |Gathered(iov[i..])|)]
    ensures Standing(iov, off, i, at, landed') && d.content == WriteAt(before, off, Gathered(iov)[..landed'])
    ensures r.Wrote? ==> landed' >= |Gathered(iov[..i])| + r.n
  {
    GatheredRest(iov, i);
    ghost var done := |Gathered(iov[..i])|;
    r := d.Pwritev(iov[i..], at);
    landed' := landed;
    if r.Wrote? {
      landed' := if landed < done + r.n then done + r.n else landed;
      Rewrite(before, off, Gathered(iov), done, landed, Gathered(iov[i..]), r.n, landed');
    }
  }

  /** The same call: it is aligned if the buffers are, and empty only if the kernel says so. */
  method Send(d: Device, iov: seq<seq<byte>>, off: nat, i: nat, at: nat, ghost before: seq<byte>, ghost landed: nat)
    returns (r: Reply, ghost landed': nat)
    requires Standing(iov, off, i, at, landed) && i < |iov|
    requires d.content == WriteAt(before, off, Gathered(iov)[..landed])
    modifies d
    ensures d.calls == old(d.calls) + 1
    ensures r == Clamped(d.kernel(old(d.calls)), |Gathered(iov[i..])|)
    ensures BlockSized(iov) && off % BLOCK == 0 && AlignedTrace(old(d.trace)) ==> AlignedTrace(d.trace)
    ensures Standing(iov, off, i, at, landed') && d.content == WriteAt(before, off, Gathered(iov)[..landed'])
    ensures r.Wrote? ==> landed' >= |Gathered(iov[..i])| + r.n
    ensures r == Wrote(0) && NoneEmpty(iov) ==> d.kernel(old(d.calls)) == Wrote(0)
  {
    if BlockSized(iov) && off % BLOCK == 0 {
      NextCallAligned(iov, off, i, at, landed);
    }
    if NoneEmpty(iov) {
      NonEmptyGathered(iov, i);
    }
    r, landed' := Attempt(d, iov, off, i, at, before, landed);
  }

  /** A call that makes no progress is idle on the first buffer not yet written. */
  lemma NoBufferDone(iov: seq<seq<byte>>, i: nat, reply: Reply, n: nat)
    requires i < |iov| && reply.Wrote? && n == Min(reply.n, |Gathered(iov[i..])|)
    requires 0 < n < |Gathered(iov[i..][..1])|
    ensures Idle(reply, |iov[i]|)
  {
    GatheredSplit(iov[i..], 1);
    GatheredNext(iov[i..], 0);
    assert Gathered(iov[i..][..0]) == [] && iov[i..][0] == iov[i];
  }

  /** One call and how far it gets: k more buffers are complete, `done` bytes of them. */
  method Resume(d: Device, iov: seq<seq<byte>>, off: nat, i: nat, at: nat, ghost before: seq<byte>, ghost landed: nat)
    returns (r: Reply, k: nat, done: nat, ghost landed': nat)
    requires Standing(iov, off, i, at, landed) && i < |iov|
    requires d.content == WriteAt(before, off, Gathered(iov)[..landed])
    modifies d
    ensures d.calls == old(d.calls) + 1
    ensures BlockSized(iov) && off % BLOCK == 0 && AlignedTrace(old(d.trace)) ==> AlignedTrace(d.trace)
    ensures Standing(iov, off, i + k, at + done, landed') && d.content == WriteAt(before, off, Gathered(iov)[..landed'])
    ensures r.Error? ==> d.kernel(old(d.calls)).Error?
    ensures r == Wrote(0) ==> NothingSent(d.kernel(old(d.calls)), landed', |Gathered(iov)|)
    ensures r == Wrote(0) && NoneEmpty(iov) ==> d.kernel(old(d.calls)) == Wrote(0)
    ensures k == 0 && !r.Error? && r != Wrote(0) ==> Idle(d.kernel(old(d.calls)), |iov[i]|)
  {
    r, landed' := Send(d, iov, off, i, at, before, landed);
    k, done := 0, 0;
    if r.Wrote? {
      GatheredRest(iov, i);
      k, done := IovCompleteCount(iov[i..], r.n);
      Advance(iov, off, i, at, landed', k, done, r.n);
      if k == 0 && r.n > 0 {
        NoBufferDone(iov, i, d.kernel(d.calls - 1), r.n);
      }
    }
  }

  /** The loop, with what it knows of the answers when it gives up. */
  method ResumeLoop(d: Device, iov: seq<seq<byte>>, off: nat) returns (outcome: Outcome, ghost landed: nat)
    modifies d
    ensures landed <= |Gathered(iov)| && d.content == WriteAt(old(d.content), off, Gathered(iov)[..landed])
    ensures outcome.Done? ==> d.content == WriteAt(old(d.content), off, Gathered(iov))
    ensures old(d.calls) <= d.calls <= old(d.calls) + 5 * |iov|
    ensures outcome.Errno? ==> d.calls > old(d.calls) && d.kernel(d.calls - 1).Error?
    ensures outcome.ZeroBytes? ==> d.calls > old(d.calls) && NothingSent(d.kernel(d.calls - 1), landed, |Gathered(iov)|)
    ensures outcome.ZeroBytes? && NoneEmpty(iov) ==> d.kernel(d.calls - 1) == Wrote(0)
    ensures outcome.Stalled? ==> d.calls >= old(d.calls) + 5 && outcome.buffer < |iov|
    ensures outcome.Stalled? ==> IdleRun(d.kernel, d.calls, 5, |iov[outcome.buffer]|)
    ensures BlockSized(iov) && off % BLOCK == 0 && AlignedTrace(old(d.trace)) ==> AlignedTrace(d.trace)
  {
    ghost var before := d.content;
    ghost var aligned := BlockSized(iov) && off % BLOCK == 0;
    var i: nat, at: nat, stall: int := 0, off, IO_MAX_STALL;
    landed := 0;
    while i < |iov|
      invariant Standing(iov, off, i, at, landed) && d.content == WriteAt(before, off, Gathered(iov)[..landed])
      invariant 0 <= stall <= IO_MAX_STALL && (i == |iov| ==> stall == IO_MAX_STALL)
      invariant old(d.calls) + (IO_MAX_STALL - stall) <= d.calls <= old(d.calls) + 5 * i + (IO_MAX_STALL - stall)
      invariant i < |iov| ==> IdleRun(d.kernel, d.calls, IO_MAX_STALL - stall, |iov[i]|)
      invariant aligned && AlignedTrace(old(d.trace)) ==> AlignedTrace(d.trace)
      decreases |iov| - i, stall
    {
      var r, k, done;
      r, k, done, landed := Resume(d, iov, off, i, at, before, landed);
      if r.Error? {
        return Errno, landed;
      } else if r == Wrote(0) {
        return ZeroBytes, landed;
      } else if k == 0 {
        stall := stall - 1;
        if stall < 0 {
          return Stalled(i), landed;
        }
      } else {
        stall, i, at := IO_MAX_STALL, i + k, at + done;
      }
    }
    assert iov[..i] == iov && Gathered(iov)[..landed] == Gathered(iov);
    outcome := Done;
  }

  lemma WorkingIsDone(kernel: nat -> Reply, from: nat, calls: nat, iov: seq<seq<byte>>, outcome: Outcome)
    requires WorksFor(kernel, from, iov)
    requires outcome.Errno? ==> calls > from && kernel(calls - 1).Error?
    requires outcome.ZeroBytes? ==> calls > from && kernel(calls - 1) == Wrote(0)
    requires outcome.Stalled? ==> calls >= from + 5 && outcome.buffer < |iov|
    requires outcome.Stalled? ==> IdleRun(kernel, calls, 5, |iov[outcome.buffer]|)
    ensures outcome.Done? || iov == []
  {
    if iov != [] {
      assert Works(kernel, from, |iov[0]|);
      if outcome.Stalled? {
        WorkingNeverStalls(kernel, from, calls, |iov[outcome.buffer]|);
      }
    }
  }

  /** io_direct_pwritev_all. The file always holds the old content with a prefix of
      the buffers over it, all of them on success. A short write is never used in
      arithmetic, so aligned buffers are only ever sent on block boundaries. The
      loop gives up only on an error, on an empty answer, or after five calls in a
      row that complete no buffer, and makes at most five calls per buffer. On a device
      that keeps working it always gets done. */
  method PwritevAll(d: Device, iov: seq<seq<byte>>, off: nat) returns (outcome: Outcome, ghost landed: nat)
    modifies d
    ensures landed <= |Gathered(iov)| && d.content == WriteAt(old(d.content), off, Gathered(iov)[..landed])
    ensures outcome.Done? ==> d.content == WriteAt(old(d.content), off, Gathered(iov))
    ensures old(d.calls) <= d.calls <= old(d.calls) + 5 * |iov|
    ensures outcome.Errno? ==> d.calls > old(d.calls) && d.kernel(d.calls - 1).Error?
    ensures outcome.ZeroBytes? ==> d.calls > old(d.calls) && NothingSent(d.kernel(d.calls - 1), landed, |Gathered(iov)|)
    ensures outcome.ZeroBytes? && NoneEmpty(iov) ==> d.kernel(d.calls - 1) == Wrote(0)
    ensures outcome.Stalled? ==> d.calls >= old(d.calls) + 5 && outcome.buffer < |iov|
    ensures outcome.Stalled? ==> IdleRun(d.kernel, d.calls, 5, |iov[outcome.buffer]|)
    ensures WorksFor(d.kernel, old(d.calls), iov) ==> outcome.Done?
    ensures BlockSized(iov) && off % BLOCK == 0 && AlignedTrace(old(d.trace)) ==> AlignedTrace(d.trace)
  {
    outcome, landed := ResumeLoop(d, iov, off);
    if WorksFor(d.kernel, old(d.calls), iov) {
      WorkingIsDone(d.kernel, old(d.calls), d.calls, iov, outcome);
    }
  }
}
