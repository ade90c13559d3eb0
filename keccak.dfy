/** The incremental Keccak-256 hasher of the `sha3` crate, with the
    permutation itself left abstract: a hasher is the byte string absorbed so
    far, and finalising applies a digest function that the caller supplies. */
module Keccak {
  import opened Uint256

  /** A Keccak-256 digest: 32 bytes. */
  type Digest = d: seq<byte> | |d| == 32 witness seq(32, _ => 0)

  /** `Keccak256`: `new`, `update`, `finalize`. */
  class Hasher {
    /** The Keccak-256 function on whole messages. */
    const digestOf: seq<byte> -> Digest
    /** Every byte passed to `Update` so far, in order. */
    var absorbed: seq<byte>

    /** `Keccak256::new()`: nothing absorbed yet. */
    constructor (digestOf: seq<byte> -> Digest)
      ensures this.digestOf == digestOf && absorbed == []
    {
      this.digestOf := digestOf;
      absorbed := [];
    }

    /** `update`: appends `data` to the message, with no separator. */
    method Update(data: seq<byte>)
      modifies this
      ensures absorbed == old(absorbed) + data
    {
      absorbed := absorbed + data;
    }

    /** `finalize`: the digest of exactly the bytes absorbed. */
    method Finalize() returns (d: Digest)
      ensures d == digestOf(absorbed)
    {
      d := digestOf(absorbed);
    }
  }
}
