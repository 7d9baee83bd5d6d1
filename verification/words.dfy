/** Fixed-width unsigned stores of the C++ code.  Every store that could truncate is written with one of
    these; the branch for values already in range keeps modular arithmetic out of proofs that show that
    nothing is truncated. */
module Words {

  type uint16 = x: int | 0 <= x < 0x1_0000

  /** x modulo m, as an unsigned store of a narrower type leaves it. */
  function Truncated(x: int, m: int): (r: int)
    requires m > 0
    ensures 0 <= r < m
  {
    x % m
  }

  function W8(x: int): (r: int)
    ensures 0 <= r < 0x100
  {
    if 0 <= x < 0x100 then x else Truncated(x, 0x100)
  }

  function W16(x: int): (r: uint16)
  {
    if 0 <= x < 0x1_0000 then x else Truncated(x, 0x1_0000)
  }

  function W32(x: int): (r: int)
    ensures 0 <= r < 0x1_0000_0000
  {
    if 0 <= x < 0x1_0000_0000 then x else Truncated(x, 0x1_0000_0000)
  }

  function Min(a: int, b: int): (r: int)
    ensures r <= a && r <= b && (r == a || r == b)
  {
    if a <= b then a else b
  }
}
