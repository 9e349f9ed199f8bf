/** Types shared by every module: the 8-bit unsigned integer and an optional value. */
module Common {

  datatype Option<+T> = None | Some(value: T)

  type Byte = n: int | 0 <= n < 256
}
