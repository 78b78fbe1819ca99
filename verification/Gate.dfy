/** The live-page gate of watermark.c as a condition-variable state machine: the
    marks, the level and, per foreground thread, where it stands in
    nox_watermark_wait. Each function is one section under the gate's mutex. */
module Gate {

  datatype Thread =
    | Outside                    // not in wait(), holds no admission
    | Asleep(signalled: bool)    // parked on the condition variable
    | Admitted                   // returned from wait(), has not allocated yet

  datatype Gate = Gate(armed: bool, high: nat, low: nat, live: nat, threads: seq<Thread>, blocked: nat)

  function SignalAll(threads: seq<Thread>): (r: seq<Thread>)
    ensures |r| == |threads|
    ensures forall t :: 0 <= t < |threads| ==> r[t] == if threads[t].Asleep? then Asleep(true) else threads[t]
  {
    seq(|threads|, t requires 0 <= t < |threads| => if threads[t].Asleep? then Asleep(true) else threads[t])
  }

  function Disarm(g: Gate): Gate {
    g.(armed := false, threads := SignalAll(g.threads))
  }

  /** First test of wait(): pass below the high mark, otherwise park. */
  function Enter(g: Gate, t: nat): Gate
    requires t < |g.threads| && g.threads[t].Outside?
  {
    if !g.armed || g.live < g.high then g.(threads := g.threads[t := Admitted])
    else g.(threads := g.threads[t := Asleep(false)], blocked := g.blocked + 1)
  }

  /** A parked thread returns from the condition variable, signalled or not, and
      repeats the loop test. */
  function Wake(g: Gate, t: nat): Gate
    requires t < |g.threads| && g.threads[t].Asleep?
  {
    if g.armed && g.live > g.low then g.(threads := g.threads[t := Asleep(false)])
    else g.(threads := g.threads[t := Admitted])
  }

  /** An admitted thread allocates its page: note_alloc. */
  function Alloc(g: Gate, t: nat): Gate
    requires t < |g.threads| && g.threads[t].Admitted?
  {
    g.(live := g.live + 1, threads := g.threads[t := Outside])
  }

  /** An admitted thread found a resident page and allocates nothing. */
  function Pass(g: Gate, t: nat): Gate
    requires t < |g.threads| && g.threads[t].Admitted?
  {
    g.(threads := g.threads[t := Outside])
  }

  function Free(g: Gate): Gate
    requires g.live > 0
  {
    var h := g.(live := g.live - 1);
    if g.armed && h.live <= g.low then h.(threads := SignalAll(h.threads)) else h
  }

  function AdmittedCount(threads: seq<Thread>): (n: nat)
    ensures n <= |threads|
  {
    if threads == [] then 0
    else (if threads[|threads| - 1].Admitted? then 1 else 0) + AdmittedCount(threads[..|threads| - 1])
  }

  /** No lost wakeup: a parked thread nobody has signalled is one the loop test
      would put back to sleep. */
  ghost predicate NoLostWakeup(g: Gate) {
    forall t :: 0 <= t < |g.threads| && g.threads[t] == Asleep(false) ==> g.armed && g.live > g.low
  }

  /** Admitted threads count as pages already: the level can exceed the high mark
      by at most one page less than the number of threads. */
  ghost predicate Bounded(g: Gate) {
    g.armed ==> g.live + AdmittedCount(g.threads) <= g.high - 1 + |g.threads|
  }

  ghost predicate GateOk(g: Gate) {
    g.low < g.high && NoLostWakeup(g) && Bounded(g)
  }

  lemma {:induction false} CountUpdate(threads: seq<Thread>, t: nat, to: Thread)
    requires t < |threads|
    ensures AdmittedCount(threads[t := to]) ==
            AdmittedCount(threads) - (if threads[t].Admitted? then 1 else 0) + (if to.Admitted? then 1 else 0)
  {
    var n := |threads| - 1;
    var updated := threads[t := to];
    if t == n {
      assert updated[..n] == threads[..n];
    } else {
      assert updated[..n] == threads[..n][t := to];
      CountUpdate(threads[..n], t, to);
    }
  }

  /** Only thread t and the stall count may differ. */
  ghost predicate OnlyThread(g: Gate, g': Gate, t: nat) {
    && |g'.threads| == |g.threads| && g'.armed == g.armed && g'.high == g.high && g'.low == g.low && g'.live == g.live
    && forall u :: 0 <= u < |g.threads| && u != t ==> g'.threads[u] == g.threads[u]
  }

  /** A thread passes at once exactly when the gate is disarmed or below the high mark;
      otherwise it parks and one stall is counted. */
  lemma EnterKeeps(g: Gate, t: nat)
    requires GateOk(g) && t < |g.threads| && g.threads[t].Outside?
    ensures GateOk(Enter(g, t)) && OnlyThread(g, Enter(g, t), t)
    ensures Enter(g, t).threads[t] == Admitted || Enter(g, t).threads[t] == Asleep(false)
    ensures Enter(g, t).threads[t].Admitted? <==> !g.armed || g.live < g.high
    ensures Enter(g, t).blocked - g.blocked == if Enter(g, t).threads[t].Admitted? then 0 else 1
  {
    CountUpdate(g.threads, t, Enter(g, t).threads[t]);
  }

  lemma WakeKeeps(g: Gate, t: nat)
    requires GateOk(g) && t < |g.threads| && g.threads[t].Asleep?
    ensures GateOk(Wake(g, t)) && OnlyThread(g, Wake(g, t), t) && Wake(g, t).blocked == g.blocked
    ensures Wake(g, t).threads[t] == Admitted || Wake(g, t).threads[t] == Asleep(false)
    ensures Wake(g, t).threads[t].Admitted? <==> !g.armed || g.live <= g.low
  {
    CountUpdate(g.threads, t, Wake(g, t).threads[t]);
  }

  lemma AllocKeeps(g: Gate, t: nat)
    requires GateOk(g) && t < |g.threads| && g.threads[t].Admitted?
    ensures GateOk(Alloc(g, t)) && OnlyThread(g.(live := g.live + 1), Alloc(g, t), t)
    ensures Alloc(g, t).threads[t].Outside? && Alloc(g, t).blocked == g.blocked
  {
    CountUpdate(g.threads, t, Outside);
  }

  lemma PassKeeps(g: Gate, t: nat)
    requires GateOk(g) && t < |g.threads| && g.threads[t].Admitted?
    ensures GateOk(Pass(g, t)) && OnlyThread(g, Pass(g, t), t)
    ensures Pass(g, t).threads[t].Outside? && Pass(g, t).blocked == g.blocked
  {
    CountUpdate(g.threads, t, Outside);
  }

  lemma FreeKeeps(g: Gate)
    requires GateOk(g) && g.live > 0
    ensures GateOk(Free(g)) && Free(g) == g.(live := g.live - 1, threads := Free(g).threads)
    ensures Free(g).threads == g.threads || (g.armed && g.live <= g.low + 1 && Free(g).threads == SignalAll(g.threads))
    ensures Free(g).armed && Free(g).live <= g.low ==>
              forall t :: 0 <= t < |g.threads| ==> Free(g).threads[t] != Asleep(false)
  {
  }

  lemma DisarmKeeps(g: Gate)
    requires GateOk(g)
    ensures GateOk(Disarm(g)) && Disarm(g) == g.(armed := false, threads := Disarm(g).threads)
    ensures Disarm(g).threads == SignalAll(g.threads)
    ensures forall t :: 0 <= t < |g.threads| ==> Disarm(g).threads[t] != Asleep(false)
  {
  }
}
