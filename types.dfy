/** Fixed-width integers and the Option wrapper shared by the renderer modules. */
module Types {

  /** C++ `uint32_t`. */
  newtype uint32 = x: int | 0 <= x < 0x1_0000_0000

  /** C++ `uint64_t`. */
  newtype uint64 = x: int | 0 <= x < 0x1_0000_0000_0000_0000

  /** An absent or present value; `None` stands for a null handle or pointer. */
  datatype Option<+T> = None | Some(value: T)
}
