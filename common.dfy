/** Small shared vocabulary: an optional value and the byte range. */
module Common {

  datatype Option<+T> = None | Some(value: T)

  /** An unsigned 8-bit value, as a C `uint8_t` or a Python `bytes` element. */
  type Byte = x: int | 0 <= x < 256

  /** The bytes of an ASCII text: UTF-8 writes each code point below 128 as that one byte. */
  function Ascii(s: string): seq<Byte>
    requires forall i :: 0 <= i < |s| ==> s[i] as int < 128
  {
    seq(|s|, i requires 0 <= i < |s| => s[i] as int)
  }
}
