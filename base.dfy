/** Small shared definitions: an option type and Java's 32-bit `int`. */
module Base {

  datatype Option<+T> = None | Some(value: T)

  const Int32Min: int := -0x8000_0000
  const Int32Max: int := 0x7fff_ffff

  /** Values of Java's `int`. */
  type int32 = x: int | Int32Min <= x <= Int32Max

  /**
   * The result of a Java `int` multiplication or addition whose exact value is x:
   * two's-complement wrap-around into 32 bits.
   */
  function Wrap32(x: int): (r: int32)
    ensures (r - x) % 0x1_0000_0000 == 0
    ensures Int32Min <= x <= Int32Max ==> r == x
  {
    var m := x % 0x1_0000_0000;
    if m <= Int32Max then m else m - 0x1_0000_0000
  }
}
