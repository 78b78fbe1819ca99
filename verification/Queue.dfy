/** The intrusive FIFO of queue.c. Both engine queues thread their pages through the
    one `qnext` field, the page index threads them through `next`. */
module Queue {

  class Page {
    const base: nat
    var qnext: Page?
    var next: Page?

    constructor (base: nat)
      ensures this.base == base && qnext == null && next == null
    {
      this.base, qnext, next := base, null, null;
    }
  }

  class Queue {
    var head: Page?
    var tail: Page?
    var depth: nat
    var shutdown: bool
    ghost var contents: seq<Page>

    ghost function Pages(): set<Page>
      reads this
    {
      set p | p in contents
    }

    /** The chain from head to tail is `contents`, each page in it once. */
    ghost predicate Valid()
      reads this, Pages()
    {
      && depth == |contents|
      && (contents == [] ==> head == null && tail == null)
      && (contents != [] ==> head == contents[0] && tail == contents[|contents| - 1] && tail.qnext == null)
      && (forall i, j :: 0 <= i < j < |contents| ==> contents[i] != contents[j])
      && (forall i :: 0 <= i < |contents| - 1 ==> contents[i].qnext == contents[i + 1])
    }

    constructor ()
      ensures Valid() && contents == [] && !shutdown
    {
      head, tail, depth, shutdown, contents := null, null, 0, false, [];
    }

    /** nox_queue_push. The caller keeps a page in at most one queue. */
    method Push(p: Page)
      requires Valid() && p !in contents
      modifies this, p`qnext, Pages()`qnext
      ensures Valid() && contents == old(contents) + [p] && shutdown == old(shutdown)
    {
      p.qnext := null;
      if tail != null {
        tail.qnext := p;
      } else {
        head := p;
      }
      tail, depth, contents := p, depth + 1, contents + [p];
    }

    /** pop_head_locked: the oldest page leaves, its link cleared. */
    method PopHead() returns (p: Page?)
      requires Valid()
      modifies this, Pages()`qnext
      ensures Valid() && shutdown == old(shutdown)
      ensures p == null <==> old(contents) == []
      ensures p == null ==> contents == []
      ensures p != null ==> p == old(contents)[0] && contents == old(contents)[1..] && p !in contents && p.qnext == null
    {
      p := head;
      if p == null {
        return;
      }
      head := p.qnext;
      if head == null {
        tail := null;
      }
      depth, contents := depth - 1, contents[1..];
      p.qnext := null;
    }

    /** nox_queue_pop, one turn of its loop: `wait` says that the caller goes to sleep
        on the condition variable, which it does exactly on an empty queue that is not
        shut down. A queue that was shut down still hands out everything it holds. */
    method Pop() returns (wait: bool, p: Page?)
      requires Valid()
      modifies this, Pages()`qnext
      ensures Valid() && shutdown == old(shutdown)
      ensures wait <==> old(contents) == [] && !shutdown
      ensures p == null ==> old(contents) == [] && contents == []
      ensures p != null ==> old(contents) == [p] + contents && p !in contents
    {
      wait, p := head == null && !shutdown, null;
      if !wait {
        p := PopHead();
      }
    }

    /** nox_queue_shutdown: no consumer has a reason to sleep any more. */
    method Shutdown()
      requires Valid()
      modifies `shutdown
      ensures Valid() && shutdown && contents == old(contents)
    {
      shutdown := true;
    }

    /** nox_queue_pop_if_base: takes the head only if it is the wanted page. */
    method PopIfBase(want: nat) returns (p: Page?)
      requires Valid()
      modifies this, Pages()`qnext
      ensures Valid() && shutdown == old(shutdown)
      ensures p != null <==> old(contents) != [] && old(contents)[0].base == want
      ensures p != null ==> old(contents) == [p] + contents && p !in contents
      ensures p == null ==> contents == old(contents)
    {
      p := null;
      if head != null && head.base == want {
        p := PopHead();
      }
    }
  }

  /** Two queues that share no page, as single membership keeps them. */
  ghost predicate Apart(q1: Queue, q2: Queue)
    reads q1, q2, q1.Pages(), q2.Pages()
  {
    q1 != q2 && q1.Valid() && q2.Valid() && forall p :: p in q1.contents ==> p !in q2.contents
  }

  /** Stage-1 forwards a page: both chains stay intact although they share the link
      field, no page is lost or doubled, and each queue keeps its order. */
  method Forward(q1: Queue, q2: Queue)
    requires Apart(q1, q2) && q1.head != null
    modifies q1, q2, q1.Pages()`qnext, q2.Pages()`qnext
    ensures Apart(q1, q2)
    ensures q2.contents + q1.contents == old(q2.contents) + old(q1.contents)
    ensures |q1.contents| == old(|q1.contents|) - 1
  {
    var wait, p := q1.Pop();
    q2.Push(p);
  }

  /** An operation on the first or the second of two queues. */
  datatype Op = PushOp(first: bool, p: Page) | PopOp(first: bool)

  /** What a history makes of two plain sequences. */
  function Played(ops: seq<Op>, a: seq<Page>, b: seq<Page>): (seq<Page>, seq<Page>)
    decreases |ops|
  {
    if ops == [] then (a, b)
    else
      match ops[0]
      case PushOp(first, p) => if first then Played(ops[1..], a + [p], b) else Played(ops[1..], a, b + [p])
      case PopOp(first) =>
        if first then Played(ops[1..], if a == [] then a else a[1..], b)
        else Played(ops[1..], a, if b == [] then b else b[1..])
  }

  /** No page is pushed while it is in either queue. */
  ghost predicate OneQueueAtATime(ops: seq<Op>, a: seq<Page>, b: seq<Page>)
    decreases |ops|
  {
    ops != [] ==>
      match ops[0]
      case PushOp(first, p) =>
        p !in a && p !in b && (if first then OneQueueAtATime(ops[1..], a + [p], b) else OneQueueAtATime(ops[1..], a, b + [p]))
      case PopOp(first) =>
        if first then OneQueueAtATime(ops[1..], if a == [] then a else a[1..], b)
        else OneQueueAtATime(ops[1..], a, if b == [] then b else b[1..])
  }

  ghost function Named(ops: seq<Op>): set<Page> {
    set k | 0 <= k < |ops| && ops[k].PushOp? :: ops[k].p
  }

  /** Over every history of pushes and pops that keeps single membership, two queues
      that thread their pages through one link field are two independent sequences. */
  method Play(q1: Queue, q2: Queue, ops: seq<Op>)
    requires Apart(q1, q2) && OneQueueAtATime(ops, q1.contents, q2.contents)
    modifies q1, q2, q1.Pages()`qnext, q2.Pages()`qnext, Named(ops)`qnext
    ensures Apart(q1, q2) && (q1.contents, q2.contents) == Played(ops, old(q1.contents), old(q2.contents))
    decreases |ops|
  {
    if ops != [] {
      var rest := ops[1..];
      assert forall k :: 0 <= k < |rest| ==> rest[k] == ops[k + 1];
      match ops[0] {
        case PushOp(first, p) =>
          assert p in Named(ops);
          if first { q1.Push(p); } else { q2.Push(p); }
        case PopOp(first) =>
          var p;
          if first { p := q1.PopHead(); } else { p := q2.PopHead(); }
      }
      Play(q1, q2, rest);
    }
  }

  /** A batch of consecutive bases whose later pages passed the readiness test. */
  ghost predicate Run(batch: seq<Page>, ready: Page -> bool) {
    && batch != []
    && (forall i :: 0 <= i < |batch| ==> batch[i].base == batch[0].base + i)
    && (forall i :: 1 <= i < |batch| ==> ready(batch[i]))
  }

  lemma RunExtends(batch: seq<Page>, p: Page, ready: Page -> bool, rest: seq<Page>)
    requires Run(batch, ready) && p.base == batch[0].base + |batch| && ready(p)
    ensures Run(batch + [p], ready) && batch + ([p] + rest) == (batch + [p]) + rest
  {
  }

  /** The page was at the head of `before` and is now at the back. */
  ghost predicate SentBack(before: seq<Page>, p: Page, after: seq<Page>) {
    after != [] && after[|after| - 1] == p && before == [p] + after[..|after| - 1]
  }

  /** Take the head if it is the next base and ready; one that is not goes to the back. */
  method TakeNext(q: Queue, want: nat, ready: Page -> bool) returns (p: Page?, rejected: Page?)
    requires q.Valid()
    modifies q, q.Pages()`qnext
    ensures q.Valid() && q.Pages() <= old(q.Pages()) && (p == null || rejected == null)
    ensures p != null ==> p.base == want && ready(p) && old(q.contents) == [p] + q.contents
    ensures rejected != null ==> rejected.base == want && !ready(rejected) && SentBack(old(q.contents), rejected, q.contents)
    ensures p == null && rejected == null ==> q.contents == old(q.contents)
    ensures p == null && rejected == null && q.contents != [] ==> q.contents[0].base != want
  {
    rejected := null;
    p := q.PopIfBase(want);
    if p != null && !ready(p) {
      q.Push(p);
      assert q.contents[..|q.contents| - 1] == old(q.contents)[1..];
      p, rejected := null, p;
    }
  }

  /** stage2_collect: after `first`, take pages while the head is the next base, in
      order, up to `max` in all; a page that is not ready ends it. */
  method Collect(q: Queue, first: Page, max: nat, ready: Page -> bool) returns (batch: seq<Page>, rejected: Page?)
    requires q.Valid() && first !in q.contents && max >= 1
    modifies q, q.Pages()`qnext
    ensures q.Valid() && 1 <= |batch| <= max && batch[0] == first && Run(batch, ready)
    ensures rejected == null ==> [first] + old(q.contents) == batch + q.contents
    ensures rejected == null && |batch| < max && q.contents != [] ==> q.contents[0].base != first.base + |batch|
    ensures rejected != null ==> !ready(rejected) && |batch| <= |old(q.contents)| + 1 &&
                                 SentBack(([first] + old(q.contents))[|batch|..], rejected, q.contents)
  {
    batch, rejected := [first], null;
    while |batch| < max
      invariant q.Valid() && 1 <= |batch| <= max && batch[0] == first && Run(batch, ready) && rejected == null
      invariant [first] + old(q.contents) == batch + q.contents && q.Pages() <= old(q.Pages())
      decreases max - |batch|
    {
      assert ([first] + old(q.contents))[|batch|..] == q.contents;
      var p;
      p, rejected := TakeNext(q, first.base + |batch|, ready);
      if p == null {
        return;
      }
      RunExtends(batch, p, ready, q.contents);
      batch := batch + [p];
    }
  }
}
