/** Types shared by the modules of the model. */
module Types {

  datatype Option<+T> = None | Some(value: T)

  type uint8 = n: int | 0 <= n < 0x100
  type uint32 = n: int | 0 <= n < 0x1_0000_0000
}
