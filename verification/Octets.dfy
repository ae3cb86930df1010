/** Bytes. */
module Octets {

  type Byte = bv8
  type Bytes = seq<Byte>

  lemma RawThereAndBack(n: int)
    requires 0 <= n < 256
    ensures (n as bv8) as int == n
  {
  }
}
