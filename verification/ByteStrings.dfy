/** Bytes and their sequences, as Node.js buffers hold them. */
module ByteStrings {
  type Byte = x: int | 0 <= x < 256

  type Bytes = seq<Byte>
}
