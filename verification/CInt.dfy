/** The widths of the C integers the program computes with. */
module CInts {

  const U64 := 0x1_0000_0000_0000_0000
  const U32 := 0x1_0000_0000
  const I32 := 0x8000_0000

  /** The conversion of a 64-bit difference to a C int. */
  function ToInt(x: int): (r: int)
    ensures -I32 <= r < I32
  {
    var low := x % U32;
    if low < I32 then low else low - U32
  }
}
