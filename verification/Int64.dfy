// 64-bit two's-complement arithmetic on mathematical integers.
module Int64 {
  import opened Common

  const MIN := -0x8000_0000_0000_0000
  const MAX := 0x7fff_ffff_ffff_ffff
  const MODULUS := 0x1_0000_0000_0000_0000

  predicate InRange(x: int) {
    MIN <= x <= MAX
  }

  function Wrap(x: int): (r: int)
    ensures InRange(r)
    ensures InRange(x) ==> r == x
  {
    (x - MIN) % MODULUS + MIN
  }

  function Abs(x: int): nat {
    if x < 0 then -x else x
  }

  // Division truncates toward zero. Division by zero and MIN / -1 trap.
  function Div(a: int, b: int): Option<int> {
    if b == 0 || (a == MIN && b == -1) then None
    else
      var q := Abs(a) / Abs(b);
      Some(if (a < 0) == (b < 0) then q else -q)
  }

  // The remainder has the sign of the dividend.
  function Rem(a: int, b: int): Option<int> {
    if b == 0 || (a == MIN && b == -1) then None
    else
      var r := Abs(a) % Abs(b);
      Some(if a < 0 then -r else r)
  }

  function Pow2(n: nat): (r: nat)
    ensures r > 0
  {
    if n == 0 then 1 else 2 * Pow2(n - 1)
  }

  // Shift amounts outside 0..63 trap.
  function Shl(a: int, n: int): Option<int> {
    if 0 <= n < 64 then Some(Wrap(a * Pow2(n))) else None
  }

  // The arithmetic shift: `/` by a positive number rounds down.
  function Shr(a: int, n: int): Option<int> {
    if 0 <= n < 64 then Some(a / Pow2(n)) else None
  }

  datatype BitOp = And | Or | Xor

  function Bit(op: BitOp, a: bool, b: bool): bool {
    match op
    case And => a && b
    case Or => a || b
    case Xor => a != b
  }

  // Bitwise operations read the operands from the lowest bit up; an operand that has
  // become 0 or -1 is all zeros or all ones from there on.
  function Bitwise(op: BitOp, a: int, b: int): int
    decreases Abs(a) + Abs(b)
  {
    var low := if Bit(op, a % 2 == 1, b % 2 == 1) then 1 else 0;
    if (a == 0 || a == -1) && (b == 0 || b == -1) then -low
    else 2 * Bitwise(op, a / 2, b / 2) + low
  }

  function Truth(b: bool): int {
    if b then 1 else 0
  }
}
