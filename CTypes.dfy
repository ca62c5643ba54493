/**
 * The C integer widths and the optional value shared by the driver models.
 */
module CTypes {

  /** uint16_t */
  type U16 = x: int | 0 <= x < 0x1_0000

  /** uint32_t */
  type U32 = x: int | 0 <= x < 0x1_0000_0000

  /**
   * An out-pointer's content: `None` where the caller passed NULL or the
   * callee stored nothing.
   */
  datatype Option<T> = None | Some(value: T)
}
