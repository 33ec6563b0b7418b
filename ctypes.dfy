/** Fixed-width C types and status codes shared by both demo programs. */
module CTypes {

  const UINT32_MODULUS: int := 0x1_0000_0000
  const UINT32_MAX: int := 0xFFFF_FFFF

  /** uint32_t: arithmetic on it wraps modulo 2^32 and must be written out. */
  newtype uint32 = x: int | 0 <= x < 0x1_0000_0000

  /**
   * status_t as the modelled code sees it: only kStatus_Success and
   * kStatus_SAI_TxError are told apart, and OtherStatus stands for every
   * code that is neither of them.
   */
  datatype Status = Success | SaiTxError | OtherStatus

  datatype Option<T> = None | Some(value: T)
}
