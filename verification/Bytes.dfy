/** Bytes, inode numbers and the small sequence facts shared by every other module. */
module Bytes {

  type byte = x: int | 0 <= x < 0x100

  /** A `boost::uuids::uuid`: sixteen raw bytes. */
  type Uuid = s: seq<byte> | |s| == 16 witness [0, 0, 0, 0, 0, 0, 0, 0, 0, 0, 0, 0, 0, 0, 0, 0]

  datatype Option<+T> = None | Some(value: T)

  function Min(a: int, b: int): int { if a < b then a else b }

  function Max(a: int, b: int): int { if a > b then a else b }

  /** The number a little-endian machine reads from these bytes. */
  function LittleEndian(s: seq<byte>): nat {
    if s == [] then 0 else s[0] + 0x100 * LittleEndian(s[1..])
  }

  /** The facts that a proof looks into only on request. */
  datatype Topic =
    OfPlaces | OfHolds | OfOrder | OfLanes | OfImages | OfCommits | OfDisk | OfHistory | OfSteps | OfFiles

  /** A fact stated under `Unfold(t)` is looked into only by the proofs that mention `Unfold(t)`. */
  ghost predicate Unfold(t: Topic) { true }

  /** `n` zero bytes. */
  function Zeros(n: nat): (z: seq<byte>)
    ensures |z| == n && forall i :: 0 <= i < n ==> z[i] == 0
  {
    seq(n, i => 0)
  }
}
