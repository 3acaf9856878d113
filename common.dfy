/** Machine words, digests and the two failure-compatible wrappers the verifier returns. */
module Common {

  /** An unsigned 8-bit value (Rust `u8`). */
  newtype byte = x: int | 0 <= x < 0x100

  /** An unsigned 32-bit value (Rust `u32`). */
  newtype u32 = x: int | 0 <= x < 0x1_0000_0000

  const DIGEST_WORDS: nat := 8

  /** A 256-bit digest, stored as eight 32-bit words. The verifier only ever compares
      digests for equality; how they are computed is left to the hash functions. */
  type Digest = w: seq<u32> | |w| == DIGEST_WORDS witness ZERO_WORDS

  const ZERO_WORDS: seq<u32> := [0, 0, 0, 0, 0, 0, 0, 0]

  /** The all-zero digest. */
  const ZERO: Digest := ZERO_WORDS

  datatype Option<+T> = None | Some(value: T)

  /** Rust's `Result`; `IsFailure`, `PropagateFailure` and `Extract` make `:-` behave like `?`. */
  datatype Result<+T, +E> = Ok(value: T) | Err(error: E) {

    predicate IsFailure() {
      Err?
    }

    function PropagateFailure<U>(): Result<U, E>
      requires Err?
    {
      Err(error)
    }

    function Extract(): T
      requires Ok?
    {
      value
    }
  }
}
