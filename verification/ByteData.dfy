/** Bytes and strings of bytes. */
module ByteData {
  newtype byte = b: int | 0 <= b < 256

  type Bytes = seq<byte>

  const NEWLINE: byte := 10
  const RETURN: byte := 13
  const HASH: byte := 35
}
