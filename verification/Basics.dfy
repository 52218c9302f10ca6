/** Small shared vocabulary: optional values, fallible results and bytes. */
module Basics {

  datatype Option<+T> = None | Some(value: T)

  newtype byte = x: int | 0 <= x < 0x100

  type Bytes = seq<byte>

  function Min(a: int, b: int): int {
    if a < b then a else b
  }
}
