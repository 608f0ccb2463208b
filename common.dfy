/** Small value types shared by the client lifecycle model. */
module Common {

  /** A nullable value: `None` stands for a C null pointer. */
  datatype Option<+T> = None | Some(value: T)

  /** An unsigned 8-bit integer (`uint8_t`). */
  newtype byte = b: int | 0 <= b < 0x100

  /** An unsigned 16-bit integer (`uint16_t`). */
  newtype uint16 = x: int | 0 <= x < 0x1_0000

  /** Number of distinct `uint16_t` values: arithmetic on them wraps modulo this. */
  const UINT16_MODULUS: int := 0x1_0000
}
