/** Vocabulary shared by every layer. */
module Common {
  datatype Option<+T> = None | Some(value: T)

  newtype byte = x: int | 0 <= x < 256
  type Bytes = seq<byte>

  /** SHA-256 idealised as an injective function: a digest is identified with the
      content it was taken of. */
  datatype Digest = Digest(preimage: Bytes)

  function Sha256(body: Bytes): Digest { Digest(body) }

  type Id = string

  const MAX_FILE_BYTES: nat := 64 * 1024 * 1024
  const MAX_CHUNK_BYTES: nat := 256 * 1024
}
