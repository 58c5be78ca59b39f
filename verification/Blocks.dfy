/** Content addresses of blocks, shared by the two context hashes. */
module Blocks {

  newtype byte = x: int | 0 <= x < 256

  /** The 32 bytes of a SHA-256 digest, taken as given. */
  type BlockId = s: seq<byte> | |s| == 32 witness seq(32, i => 0)

  /** The number that bytes spell, least significant first. */
  function Number(bytes: seq<byte>): (n: nat) {
    if bytes == [] then 0 else bytes[0] as nat + 256 * Number(bytes[1..])
  }
}
