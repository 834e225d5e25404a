/** Option, and the byte type shared by the client and the speech route. */
module Wrappers {

  datatype Option<+T> = None | Some(value: T)

  /** An octet, as held by a Uint8Array or an ArrayBuffer. */
  type byte = x: int | 0 <= x < 256
}
