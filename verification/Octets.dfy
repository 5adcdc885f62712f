/** Bytes, as the bridges and the stubs move them. */
module Octets {
  type Byte = x: int | 0 <= x < 256
}
