/** Byte strings and the fixed-width hashes of the chain (`H160`, `H256`). */
module Bytes {

  newtype byte = x: int | 0 <= x < 256

  type Bytes = seq<byte>

  /** `n` zero bytes, the filler of a placeholder lock and of an unsigned signature slot. */
  function Zeros(n: nat): (z: Bytes)
    ensures |z| == n
    ensures forall i :: 0 <= i < n ==> z[i] == 0
  {
    seq(n, _ => 0)
  }

  /** A 20-byte hash (blake160 / keccak160 of a public key, sighash lock args). */
  type H160 = s: Bytes | |s| == 20 witness Zeros(20)

  /** A 32-byte hash (transaction hash, type hash, blake2b-256 digest, secret-key bytes). */
  type H256 = s: Bytes | |s| == 32 witness Zeros(32)

  /** A `u8` command-line number (multisig threshold, require-first-n). */
  type U8 = x: int | 0 <= x < 256
}
