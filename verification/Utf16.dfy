/** UTF-16 text as Windows calls take it; nothing here asks for well-formed surrogate pairs. */
module Utf16 {
  type u16 = c: int | 0 <= c < 0x1_0000

  type Text = seq<u16>

  const NUL: u16 := 0
}
