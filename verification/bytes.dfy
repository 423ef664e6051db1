/** Octets as integers in 0..255, as Python's `bytes` hands them out. */
module Bytes {
  type byte = b: int | 0 <= b < 256
}
