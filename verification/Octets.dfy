module Octets {
  type Byte = x: int | 0 <= x < 256
  type Bytes = seq<Byte>

  function Min(a: int, b: int): (m: int) { if a < b then a else b }
}
