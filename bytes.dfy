/** Octets, as the byte arrays and streams of the file and authorization packages carry them. */
module Bytes {
  type byte = x: int | 0 <= x < 256
}
