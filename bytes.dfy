/** Octets, as Node's `Buffer` holds them. */
module Bytes {
  type byte = x: int | 0 <= x < 256
}
