/** watermark.c as an object: the fields the gate's mutex protects. Each method is one
    critical section and is specified by its function on the gate state; what those
    functions keep, no lost wakeup and the bound on live pages, is kept by every call. */
module Watermark {
  import opened Gate
  import G = Gate

  class Watermark {
    var armed: bool
    var high: nat
    var low: nat
    var live: nat
    var blocked: nat
    var threads: seq<Thread>

    function State(): Gate
      reads this
    {
      Gate(armed, high, low, live, threads, blocked)
    }

    ghost predicate Valid()
      reads this
    {
      GateOk(State())
    }

    /** The gate as nox_open leaves it: armed over an empty buffer. */
    constructor (high: nat, low: nat, n: nat)
      requires low < high
      ensures Valid() && State() == Gate(true, high, low, 0, seq(n, _ => Outside), 0)
    {
      armed, this.high, this.low, live, blocked := true, high, low, 0, 0;
      threads := seq(n, _ => Outside);
      new;
      NoneAdmitted(n);
    }

    method Broadcast()
      modifies this`threads
      ensures threads == SignalAll(old(threads))
    {
      var t := 0;
      while t < |threads|
        invariant t <= |threads| == |old(threads)|
        invariant forall u :: 0 <= u < |threads| ==>
                    threads[u] == if u < t && old(threads)[u].Asleep? then Asleep(true) else old(threads)[u]
      {
        if threads[t].Asleep? {
          threads := threads[t := Asleep(true)];
        }
        t := t + 1;
      }
    }

    /** nox_watermark_wait up to its first sleep. */
    method WaitEnter(t: nat) returns (passed: bool)
      requires Valid() && t < |threads| && threads[t].Outside?
      modifies this
      ensures Valid() && State() == Enter(old(State()), t) && (passed <==> threads[t].Admitted?)
      ensures passed <==> !old(armed) || old(live) < old(high)
      ensures blocked == old(blocked) + if passed then 0 else 1
      ensures live == old(live) && armed == old(armed) && high == old(high) && low == old(low)
    {
      EnterKeeps(State(), t);
      if !armed || live < high {
        threads := threads[t := Admitted];
        return true;
      }
      blocked := blocked + 1;
      threads := threads[t := Asleep(false)];
      passed := false;
    }

    /** One return from the condition variable, spurious or not, and the loop test. */
    method WaitResume(t: nat) returns (passed: bool)
      requires Valid() && t < |threads| && threads[t].Asleep?
      modifies this
      ensures Valid() && State() == Wake(old(State()), t) && blocked == old(blocked)
      ensures passed <==> !armed || live <= low
    {
      WakeKeeps(State(), t);
      passed := !(armed && live > low);
      threads := threads[t := if passed then Admitted else Asleep(false)];
    }

    method NoteAlloc(t: nat)
      requires Valid() && t < |threads| && threads[t].Admitted?
      modifies this
      ensures Valid() && State() == Alloc(old(State()), t)
      ensures armed ==> live <= high - 1 + |threads|
    {
      AllocKeeps(State(), t);
      live := live + 1;
      threads := threads[t := Outside];
    }

    method NoteFree()
      requires Valid() && live > 0
      modifies this
      ensures Valid() && State() == Free(old(State()))
    {
      FreeKeeps(State());
      live := live - 1;
      if armed && live <= low {
        Broadcast();
      }
    }

    /** nox_watermark_disarm: every sleeper is signalled and passes when it wakes. */
    method Disarm()
      requires Valid()
      modifies this
      ensures Valid() && State() == G.Disarm(old(State())) && forall t :: 0 <= t < |threads| ==> threads[t] != Asleep(false)
    {
      DisarmKeeps(State());
      armed := false;
      Broadcast();
    }
  }

  lemma {:induction false} NoneAdmitted(n: nat)
    ensures AdmittedCount(seq(n, _ => Outside)) == 0
  {
    if n > 0 {
      assert seq(n, _ => Outside)[..n - 1] == seq(n - 1, _ => Outside);
      NoneAdmitted(n - 1);
    }
  }
}
