/** Compile-time constants of the engine and the arithmetic that depends only on
    them: page bases, block rounding, the two Fibonacci hashes. */
module Geometry {

  newtype byte = x: int | 0 <= x < 256

  const BLOCK: nat := 4096             // NOX_BLOCK_SIZE
  const ZONE: nat := 262144            // NOX_DATAZONE_SIZE
  const DIRECT_THRESHOLD: nat := 1048576
  const MAX_IOV: nat := 8              // NOX_PWRITEV_MAX_IOV
  const BUSY_THRESHOLD: nat := 4194304 // NOX_BCOUNT_BUSY_THRESHOLD
  const WB_SLOTS: nat := 8192          // 1 << NOX_WB_GUARD_BITS
  const PI_BUCKETS: nat := 1024
  const PI_SHARDS: nat := 64
  const IO_MAX_STALL: nat := 4

  const TWO64: nat := 0x1_0000_0000_0000_0000
  const PHI: nat := 0x9E37_79B9_7F4A_7C15

  /** Always true: gives the comprehension below a term to be triggered by. */
  predicate Offset(i: nat) {
    true
  }

  /** The offsets [at, at + size) as a set. */
  function Span(at: nat, size: nat): set<nat> {
    set i: nat {:trigger Offset(i)} | at <= i < at + size
  }

  /** Every offset of a data zone. */
  function FullZone(): set<nat> {
    Span(0, ZONE)
  }

  function Min(a: nat, b: nat): nat {
    if a <= b then a else b
  }

  // Bases are kept as page numbers: the file offset of base b is b * ZONE.

  function BaseOf(address: nat): nat {
    address / ZONE
  }

  function IntraOf(address: nat): nat {
    address % ZONE
  }

  /** The page number times 2^64 divided by the golden ratio, as a 64-bit product. */
  function Mixed(base: nat): nat {
    base * PHI % TWO64
  }

  /** Slot of the writeback guard: top 13 bits of the 64-bit product. */
  function WbSlot(base: nat): (slot: nat)
    ensures slot < WB_SLOTS
  {
    Mixed(base) / 0x8_0000_0000_0000
  }

  /** Bucket of the page index: top 10 bits of the 64-bit product. */
  function PiHash(base: nat): (bucket: nat)
    ensures bucket < PI_BUCKETS
  {
    Mixed(base) / 0x40_0000_0000_0000
  }

  /** Shard of a bucket: top 6 of its 10 bits. */
  function PiShard(bucket: nat): (shard: nat)
    requires bucket < PI_BUCKETS
    ensures shard < PI_SHARDS
  {
    bucket / 16
  }

  function ShardOf(base: nat): nat {
    PiShard(PiHash(base))
  }

  // ------------------------------------------------------------ neighbours

  /** Slot, bucket and shard are the top 13, 10 and 6 bits of the product. */
  lemma TopBits(base: nat)
    ensures WbSlot(base) < 0x2000 && PiHash(base) < 0x400 && ShardOf(base) < 0x40
    ensures WbSlot(base) * 0x8_0000_0000_0000 <= Mixed(base) < (WbSlot(base) + 1) * 0x8_0000_0000_0000
    ensures PiHash(base) * 0x40_0000_0000_0000 <= Mixed(base) < (PiHash(base) + 1) * 0x40_0000_0000_0000
    ensures ShardOf(base) * 0x400_0000_0000_0000 <= Mixed(base) < (ShardOf(base) + 1) * 0x400_0000_0000_0000
  {
  }

  /** Adding d pages adds d * PHI to the product, modulo 2^64. */
  lemma MixedAdds(base: nat, d: nat)
    ensures Mixed(base + d) == Mixed(base) + Mixed(d) || Mixed(base + d) == Mixed(base) + Mixed(d) - TWO64
  {
    var q, r := base * PHI / TWO64, d * PHI / TWO64;
    assert (base + d) * PHI == (q + r) * TWO64 + (Mixed(base) + Mixed(d));
    Remainder((base + d) * PHI, q + r, Mixed(base) + Mixed(d));
  }

  lemma Remainder(x: nat, q: nat, r: nat)
    requires x == q * TWO64 + r && r < 2 * TWO64
    ensures x % TWO64 == if r < TWO64 then r else r - TWO64
  {
    if r < TWO64 {
      assert x / TWO64 == q;
    } else {
      assert x == (q + 1) * TWO64 + (r - TWO64);
      assert x / TWO64 == q + 1;
    }
  }

  /** Up to seven pages apart, the products differ by more than one shard. */
  lemma FewSteps(d: nat)
    requires 1 <= d < 8
    ensures 0x400_0000_0000_0000 <= Mixed(d) <= TWO64 - 0x400_0000_0000_0000
  {
  }

  /** Eight pages in a row, the longest batch, lie in eight different shards, and so in
      different buckets and guard slots. */
  lemma NeighboursSpread(base: nat, d: nat)
    requires 1 <= d < 8
    ensures ShardOf(base + d) != ShardOf(base) && PiHash(base + d) != PiHash(base) && WbSlot(base + d) != WbSlot(base)
  {
    TopBits(base);
    TopBits(base + d);
    MixedAdds(base, d);
    FewSteps(d);
  }
}
