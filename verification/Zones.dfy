/** Data zones and files as byte sequences. */
module Zones {
  import opened Geometry

  /** A zone with `bytes` copied to offset `at`. */
  function Patch(zone: seq<byte>, at: nat, bytes: seq<byte>): (r: seq<byte>)
    requires |zone| == ZONE
  {
    seq(ZONE, i requires 0 <= i < ZONE => if at <= i < at + |bytes| then bytes[i - at] else zone[i])
  }

  /** A zone whose uncovered bytes are taken from `scratch`. */
  function Completed(zone: seq<byte>, cov: set<nat>, scratch: seq<byte>): (r: seq<byte>)
    requires |zone| == ZONE && |scratch| == ZONE
  {
    seq(ZONE, i requires 0 <= i < ZONE => if i in cov then zone[i] else scratch[i])
  }

  /** A byte of a file; zero past its end. */
  function FileByte(file: seq<byte>, a: nat): byte {
    if a < |file| then file[a] else 0
  }

  /** pwrite: the file grows as needed, zeros in between. */
  function WriteAt(file: seq<byte>, off: nat, bytes: seq<byte>): (r: seq<byte>)
    ensures |r| == if |bytes| == 0 || off + |bytes| <= |file| then |file| else off + |bytes|
    ensures forall a: nat {:trigger FileByte(r, a)} ::
              FileByte(r, a) == if off <= a < off + |bytes| then bytes[a - off] else FileByte(file, a)
  {
    if bytes == [] then file
    else
      var n := if off + |bytes| <= |file| then |file| else off + |bytes|;
      seq(n, a requires 0 <= a < n => if off <= a < off + |bytes| then bytes[a - off] else if a < |file| then file[a] else 0)
  }
}
