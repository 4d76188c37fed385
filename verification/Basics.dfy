/** What the other modules share. */
module Basics {

  datatype Option<T> = None | Some(value: T)

  /** The number of values of a uint32. */
  const TWO_32 := 0x1_0000_0000
}
