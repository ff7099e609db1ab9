/** Python's `int(x)` on a float (truncation toward zero) and `x ** 2`. */
module Numbers {

  function Trunc(x: real): (n: int)
    ensures x >= 0.0 ==> n == x.Floor
    ensures x >= 0.0 ==> 0 <= n && n as real <= x < n as real + 1.0
    ensures x < 0.0 ==> n <= 0 && n as real - 1.0 < x <= n as real
  {
    if x >= 0.0 then x.Floor else -((-x).Floor)
  }

  /** Python's `x ** 2`. */
  function Square(x: real): real { x * x }

  lemma SquareOfProduct(k: real, s: real)
    ensures Square(k * s) == Square(k) * Square(s)
  {
    calc {
      Square(k * s);
      (k * s) * (k * s);
      (k * k) * (s * s);
      Square(k) * Square(s);
    }
  }
}
