/** The bucket-chain hash table of page_index.c. Each method is one section under the
    bucket's shard lock; the chains run through the pages' own `next` field. */
module PageIndex {
  import opened Geometry
  import opened Queue

  /** The chain that starts at `head` is `chain`. */
  ghost predicate Linked(head: Page?, chain: seq<Page>)
    reads chain
  {
    && (chain == [] ==> head == null)
    && (chain != [] ==> head == chain[0] && chain[|chain| - 1].next == null)
    && (forall i :: 0 <= i < |chain| - 1 ==> chain[i].next == chain[i + 1])
  }

  ghost predicate Placed(p: Page, b: nat, live: map<nat, Page>) {
    PiHash(p.base) == b && p.base in live && live[p.base] == p
  }

  ghost predicate Distinct(chain: seq<Page>) {
    forall i, j :: 0 <= i < j < |chain| ==> chain[i] != chain[j]
  }

  /** Each page hangs once in the chain of its base's bucket, and the chains hold
      exactly the pages of `live`: at most one page per base. */
  ghost predicate Table(chains: seq<seq<Page>>, live: map<nat, Page>) {
    && |chains| == PI_BUCKETS
    && (forall b :: 0 <= b < PI_BUCKETS ==> Distinct(chains[b]))
    && (forall b, p :: 0 <= b < PI_BUCKETS && p in chains[b] ==> Placed(p, b, live))
    && (forall base :: base in live ==> live[base].base == base && live[base] in chains[PiHash(base)])
  }

  lemma TableAdd(chains: seq<seq<Page>>, live: map<nat, Page>, p: Page)
    requires Table(chains, live) && p.base !in live
    ensures var b := PiHash(p.base); Table(chains[b := [p] + chains[b]], live[p.base := p])
  {
    var b := PiHash(p.base);
    var chains', live' := chains[b := [p] + chains[b]], live[p.base := p];
    assert p !in chains[b];
    forall base | base in live'
      ensures live'[base].base == base && live'[base] in chains'[PiHash(base)]
    {
    }
  }

  lemma TableDrop(chains: seq<seq<Page>>, live: map<nat, Page>, b: nat, i: nat)
    requires Table(chains, live) && b < PI_BUCKETS && i < |chains[b]|
    ensures Table(chains[b := chains[b][..i] + chains[b][i + 1..]], live - {chains[b][i].base})
  {
    var p, chain := chains[b][i], chains[b][..i] + chains[b][i + 1..];
    var chains', live' := chains[b := chain], live - {p.base};
    assert Distinct(chains[b]);
    assert p !in chain;
    forall c, q | 0 <= c < PI_BUCKETS && q in chains'[c]
      ensures Placed(q, c, live')
    {
      assert q in chains[c] && Placed(q, c, live) && Placed(p, b, live);
    }
    forall base | base in live'
      ensures live'[base].base == base && live'[base] in chains'[PiHash(base)]
    {
      var q := live[base];
      assert q in chains[PiHash(base)] && q != p;
    }
  }

  /** What a walk along a bucket decides: a page with the base is the mapped one, and
      a chain without the base means it is not mapped. */
  lemma WalkDecides(chains: seq<seq<Page>>, live: map<nat, Page>, base: nat, i: nat)
    requires Table(chains, live) && i <= |chains[PiHash(base)]|
    requires forall k :: 0 <= k < i ==> chains[PiHash(base)][k].base != base
    requires i < |chains[PiHash(base)]| ==> chains[PiHash(base)][i].base == base
    ensures if i < |chains[PiHash(base)]| then base in live && live[base] == chains[PiHash(base)][i] else base !in live
  {
    var chain := chains[PiHash(base)];
    if i < |chain| {
      assert chain[i] in chain;
    }
  }

  /** Only the bucket of its base can hold a page. */
  lemma OnlyIn(chains: seq<seq<Page>>, live: map<nat, Page>, b: nat, i: nat)
    requires Table(chains, live) && b < PI_BUCKETS && i < |chains[b]|
    ensures forall c :: 0 <= c < PI_BUCKETS && c != b ==> chains[b][i] !in chains[c]
  {
    assert Placed(chains[b][i], b, live);
  }

  /** Take page i > 0 out of a chain: the page before it leads past it. */
  method SkipOver(head: Page?, ghost chain: seq<Page>, ghost i: nat, prev: Page, p: Page)
    requires Linked(head, chain) && Distinct(chain) && 0 < i < |chain| && prev == chain[i - 1] && p == chain[i]
    modifies prev`next
    ensures Linked(head, chain[..i] + chain[i + 1..])
  {
    prev.next := p.next;
  }

  /** Every bucket leads along its chain, through these pages only. */
  ghost predicate AllLinked(buckets: array<Page?>, chains: seq<seq<Page>>, pages: set<Page>)
    reads buckets, pages
  {
    && buckets.Length == |chains|
    && (forall b, p :: 0 <= b < |chains| && p in chains[b] ==> p in pages)
    && (forall b :: 0 <= b < |chains| ==> Linked(buckets[b], chains[b]))
  }

  /** Put a page in front of bucket b. */
  method PushFront(buckets: array<Page?>, ghost chains: seq<seq<Page>>, ghost pages: set<Page>, b: nat, p: Page)
    requires AllLinked(buckets, chains, pages) && b < |chains|
    requires forall c :: 0 <= c < |chains| ==> p !in chains[c]
    modifies buckets, p`next
    ensures AllLinked(buckets, chains[b := [p] + chains[b]], pages + {p})
  {
    p.next := buckets[b];
    buckets[b] := p;
    assert Linked(buckets[b], [p] + chains[b]);
  }

  /** Redirect the link that leads to page i of bucket b to the page after it. */
  method Redirect(buckets: array<Page?>, ghost chains: seq<seq<Page>>, ghost pages: set<Page>,
                  b: nat, ghost i: nat, prev: Page?, p: Page)
    requires AllLinked(buckets, chains, pages) && b < |chains|
    requires i < |chains[b]| && p == chains[b][i] && Distinct(chains[b])
    requires if i == 0 then prev == null else prev == chains[b][i - 1]
    requires forall c :: 0 <= c < |chains| && c != b ==> p !in chains[c] && (prev == null || prev !in chains[c])
    modifies buckets, pages`next
    ensures AllLinked(buckets, chains[b := chains[b][..i] + chains[b][i + 1..]], pages - {p})
  {
    ghost var rest := chains[b][..i] + chains[b][i + 1..];
    assert p !in rest;
    if prev == null {
      buckets[b] := p.next;
    } else {
      SkipOver(buckets[b], chains[b], i, prev, p);
    }
    assert Linked(buckets[b], rest);
  }

  class PageIndex {
    const buckets: array<Page?>
    ghost var chains: seq<seq<Page>>
    ghost var live: map<nat, Page>
    ghost var pages: set<Page>

    ghost predicate Valid()
      reads this, buckets, pages
    {
      Table(chains, live) && AllLinked(buckets, chains, pages)
    }

    constructor ()
      ensures Valid() && live == map[] && fresh(buckets)
    {
      buckets := new Page?[PI_BUCKETS](_ => null);
      chains, live, pages := seq(PI_BUCKETS, _ => []), map[], {};
    }

    /** The walk of page_index_get_or_create: the page of this base, if there is one. */
    method Find(base: nat) returns (p: Page?)
      requires Valid()
      ensures p == if base in live then live[base] else null
    {
      var b := PiHash(base);
      p := buckets[b];
      ghost var i := 0;
      while p != null && p.base != base
        invariant 0 <= i <= |chains[b]| && p == if i < |chains[b]| then chains[b][i] else null
        invariant forall k :: 0 <= k < i ==> chains[b][k].base != base
        decreases |chains[b]| - i
      {
        p, i := p.next, i + 1;
      }
      WalkDecides(chains, live, base, i);
    }

    /** page_index_get_or_create: the resident page of the base, or a fresh one pushed
        onto its bucket; null only when the allocation fails. */
    method GetOrCreate(base: nat, outOfMemory: bool) returns (p: Page?, created: bool)
      requires Valid()
      modifies this, buckets
      ensures Valid() && old(pages) <= pages && fresh(pages - old(pages))
      ensures base in old(live) ==> !created && p == old(live)[base] && live == old(live)
      ensures base !in old(live) && outOfMemory ==> !created && p == null && live == old(live)
      ensures base !in old(live) && !outOfMemory ==>
                created && p != null && fresh(p) && p.base == base && live == old(live)[base := p]
    {
      p := Find(base);
      created := false;
      if p == null && !outOfMemory {
        p := new Page(base);
        TableAdd(chains, live, p);
        PushFront(buckets, chains, pages, PiHash(base), p);
        chains, live, pages := chains[PiHash(base) := [p] + chains[PiHash(base)]], live[base := p], pages + {p};
        created := true;
      }
    }

    method Unlink(b: nat, ghost i: nat, prev: Page?, p: Page)
      requires Valid() && b < PI_BUCKETS && i < |chains[b]| && p == chains[b][i]
      requires if i == 0 then prev == null else prev == chains[b][i - 1]
      modifies this, buckets, pages`next
      ensures Valid() && live == old(live) - {p.base} && pages == old(pages) - {p}
    {
      TableDrop(chains, live, b, i);
      OnlyIn(chains, live, b, i);
      if prev != null {
        OnlyIn(chains, live, b, i - 1);
      }
      Redirect(buckets, chains, pages, b, i, prev, p);
      chains, live, pages := chains[b := chains[b][..i] + chains[b][i + 1..]], live - {p.base}, pages - {p};
    }

    /** Where in bucket b a page hangs, and the page before it. */
    method Seek(b: nat, wanted: Page) returns (prev: Page?, found: bool, ghost i: nat)
      requires Valid() && b < PI_BUCKETS
      ensures found <==> wanted in chains[b]
      ensures found ==> i < |chains[b]| && wanted == chains[b][i] && if i == 0 then prev == null else prev == chains[b][i - 1]
    {
      var p := buckets[b];
      prev, i := null, 0;
      while p != null && p != wanted
        invariant 0 <= i <= |chains[b]| && p == if i < |chains[b]| then chains[b][i] else null
        invariant if i == 0 then prev == null else prev == chains[b][i - 1]
        invariant wanted !in chains[b][..i]
        decreases |chains[b]| - i
      {
        prev, p, i := p, p.next, i + 1;
      }
      found := p != null;
    }

    /** page_index_detach_if: identity decides, so a newer page of the same base stays. */
    method DetachIf(base: nat, wanted: Page) returns (detached: bool)
      requires Valid()
      modifies this, buckets, pages`next
      ensures Valid() && pages <= old(pages)
      ensures detached <==> PiHash(wanted.base) == PiHash(base) && wanted.base in old(live) && old(live)[wanted.base] == wanted
      ensures live == if detached then old(live) - {wanted.base} else old(live)
      ensures detached ==> wanted.next == null
    {
      var prev;
      ghost var i;
      prev, detached, i := Seek(PiHash(base), wanted);
      if detached {
        Unlink(PiHash(base), i, prev, wanted);
        wanted.next := null;
      }
    }

    /** page_index_remove: by base, whatever page that is. */
    method Remove(base: nat) returns (victim: Page?)
      requires Valid()
      modifies this, buckets, pages`next
      ensures Valid() && pages <= old(pages) && live == old(live) - {base}
      ensures victim == if base in old(live) then old(live)[base] else null
    {
      victim := Find(base);
      if victim != null {
        var prev, found;
        ghost var i;
        prev, found, i := Seek(PiHash(base), victim);
        Unlink(PiHash(base), i, prev, victim);
      }
    }
  }
}
