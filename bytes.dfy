/** Octets, the unit of a Bluetooth characteristic value (Foundation's `Data`). */
module Bytes {

  newtype byte = x: int | 0 <= x < 256

  /** 256^k: the number of distinct values of a k-byte unsigned integer. */
  function Pow256(k: nat): (p: nat)
    ensures p >= 1
  {
    if k == 0 then 1 else 256 * Pow256(k - 1)
  }
}
