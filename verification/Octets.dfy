/** Bytes as numbers. */
module Octets {
  lemma ByteRoundTrip(n: nat)
    requires n < 256
    ensures (n as bv8) as int == n
  {
  }
}
