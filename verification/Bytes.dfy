/** Bytes as integers. */
module Bytes {
  type byte = x: int | 0 <= x < 256
}
