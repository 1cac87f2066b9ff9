/** 32-bit integers: what the machine keeps of an exact result. */
module Machine {
  import opened DmTypes

  const INT32_MAX := 0x7fff_ffff
  const INT32_MIN := -0x8000_0000
  const TWO_32 := 0x1_0000_0000

  predicate IsInt32(x: int) {
    INT32_MIN <= x <= INT32_MAX
  }

  predicate IsUInt32(x: int) {
    0 <= x < TWO_32
  }

  /** A mode whose sides are 32-bit signed numbers. */
  predicate IsPanel(m: Mode) {
    m.width <= INT32_MAX && m.height <= INT32_MAX
  }

  /** What a 32-bit signed operation or a cast to int32_t leaves of an exact result. */
  function Wrap32(x: int): (r: int)
    ensures IsInt32(r)
  {
    (x - INT32_MIN) % TWO_32 + INT32_MIN
  }

  /** The same for uint32_t. */
  function UWrap32(x: int): (r: nat)
    ensures IsUInt32(r)
  {
    x % TWO_32
  }

  /** Unsigned subtraction. */
  function UMinus(a: int, b: int): (r: nat)
    ensures 0 <= b <= a < TWO_32 ==> r == a - b
  {
    UWrap32(a - b)
  }

  lemma WrapExact(x: int)
    ensures Wrap32(x) == x <==> IsInt32(x)
    ensures INT32_MAX < x <= INT32_MAX + TWO_32 ==> Wrap32(x) == x - TWO_32
    ensures INT32_MIN - TWO_32 <= x < INT32_MIN ==> Wrap32(x) == x + TWO_32
  {
    var y := x - INT32_MIN;
    assert y == TWO_32 * (y / TWO_32) + y % TWO_32;
    if 0 <= y < TWO_32 { assert y / TWO_32 == 0; }
    if TWO_32 <= y < 2 * TWO_32 { assert y / TWO_32 == 1; }
    if -TWO_32 <= y < 0 { assert y / TWO_32 == -1; }
  }
}
