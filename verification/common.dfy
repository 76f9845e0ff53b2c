/** Types shared by every component of the model: bytes, digests, the hash
    function parameter and an Option type. */
module Common {

  /** One byte, as Python's `bytes` holds it. */
  type byte = x: int | 0 <= x < 256

  type Bytes = seq<byte>

  /** A SHA3-256 digest is 32 bytes long. */
  const DIGEST_SIZE: nat := 32

  type Digest = s: Bytes | |s| == DIGEST_SIZE witness seq(DIGEST_SIZE, _ => 0)

  /** The one-way hash the system uses (SHA3-256, FIPS 202). It is a parameter
      of every operation that hashes, so every property proved here holds for
      any function of this type. */
  type HashFunction = Bytes -> Digest

  datatype Option<+T> = None | Some(value: T)
}
