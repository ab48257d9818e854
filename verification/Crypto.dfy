/** The cryptographic primitives and the library decoder the simulator calls but does not contain. */
module Crypto {
  import opened ByteStrings
  import opened Wrappers

  type Block = b: Bytes | |b| == 16 witness seq(16, _ => 0)
  type Key = Block
  type Mic = b: Bytes | |b| == 4 witness [0, 0, 0, 0]

  /** An element of the decoder's output: a command with its encoding, None if it does not marshal, or something
      else. */
  datatype DecodedPayload = Command(encoded: Option<Bytes>) | OtherPayload

  /** `aes` and `aesInverse` act on one block; `cmac` is AES-CMAC cut to its first four bytes;
      `macCommands` decodes a MAC-command string. */
  datatype Primitives = Primitives(
    aes: (Key, Block) -> Block,
    aesInverse: (Key, Block) -> Block,
    cmac: (Key, Bytes) -> Mic,
    macCommands: Bytes -> Option<seq<DecodedPayload>>)
  {
    /** Under every key AES is a permutation of the blocks, and `aesInverse` inverts it. */
    ghost predicate Lawful() {
      && (forall k: Key, b: Block :: aesInverse(k, aes(k, b)) == b)
      && (forall k: Key, b: Block :: aes(k, aesInverse(k, b)) == b)
    }
  }
}
