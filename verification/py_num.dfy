/** Python's integer arithmetic and float-to-int conversion, on Dafny's unbounded numbers. */
module PyNum {

  /** Python's `a // b` for a positive divisor: on `int` Dafny's `/` rounds toward minus infinity then too. */
  function FloorDiv(a: int, b: int): (q: int)
    requires b > 0
    ensures q * b <= a < q * b + b
  {
    a / b
  }

  /** Python's `abs` on an integer. */
  function Abs(n: int): (r: nat)
    ensures r == n || r == -n
  {
    if n < 0 then -n else n
  }

  /** Python's `int(x)` on a float: the integer part, rounding toward zero. */
  function Trunc(x: real): (r: int)
    ensures x >= 0.0 ==> r as real <= x < r as real + 1.0
    ensures x < 0.0 ==> r as real - 1.0 < x <= r as real
  {
    if x >= 0.0 then x.Floor else -((-x).Floor)
  }

  /** `int(x)` is zero exactly for the floats strictly between -1 and 1. */
  lemma TruncIsZero(x: real)
    ensures Trunc(x) == 0 <==> -1.0 < x < 1.0
  {
  }

  /** `n // abs(n)` is the sign of a non-zero integer. */
  lemma FloorDivByAbs(n: int)
    requires n != 0
    ensures FloorDiv(n, Abs(n)) == if n > 0 then 1 else -1
  {
  }
}
