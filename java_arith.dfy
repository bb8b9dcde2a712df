/**
 * Java's integer `/` and `%`, which truncate toward zero.  Dafny's own
 * operators are Euclidean, so the two differ on negative operands.
 */
module JavaArith {

  /** `a / b` for a positive divisor, truncated toward zero as in Java. */
  function JavaDiv(a: int, b: int): (q: int)
    requires b > 0
    ensures a >= 0 ==> 0 <= q && q * b <= a < q * b + b
    ensures a < 0 ==> q <= 0 && q * b - b < a <= q * b
  {
    if a >= 0 then
      assert a == (a / b) * b + a % b && 0 <= a % b < b;
      a / b
    else
      assert -a == ((-a) / b) * b + (-a) % b && 0 <= (-a) % b < b;
      -((-a) / b)
  }

  /** `a % b` for a positive divisor; the remainder takes the sign of `a`, as in Java. */
  function JavaRem(a: int, b: int): (r: int)
    requires b > 0
    ensures a == JavaDiv(a, b) * b + r
    ensures a >= 0 ==> 0 <= r < b
    ensures a < 0 ==> -b < r <= 0
  {
    if a >= 0 then a % b else -((-a) % b)
  }
}
