/** Small shared vocabulary: an optional value and the fixed-width integer
    types the transport and the lobby demo exchange with the SDK. */
module Common {

  /** A value that may be absent (the source's `TryParse` out-parameter pattern). */
  datatype Option<+T> = None | Some(value: T)

  const U64_LIMIT: int := 0x1_0000_0000_0000_0000

  /** C# `uint`: the width of a connection handle. */
  newtype u32 = x: int | 0 <= x < 0x1_0000_0000

  /** C# `ulong`: Steam identities and lobby ids. */
  newtype u64 = x: int | 0 <= x < 0x1_0000_0000_0000_0000

  /** One byte of an opaque message payload. */
  newtype byte = x: int | 0 <= x < 256
}
