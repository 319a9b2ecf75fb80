/** JavaScript's `%` on integral numbers. JavaScript truncates the quotient
    toward zero, so the remainder takes the sign of the dividend; Dafny's `%`
    is Euclidean and never negative. */
module JsNumber {

  /** `a % n` as JavaScript evaluates it for an integer `a` and a positive
      integer `n` (a result of -0 is the same array index as 0 and is written
      0 here). */
  function TruncMod(a: int, n: int): (r: int)
    requires n > 0
    ensures a >= 0 ==> 0 <= r < n
    ensures a < 0 ==> -n < r <= 0
    ensures (a - r) % n == 0
  {
    if a >= 0 then
      DivModUnique(a - a % n, n, a / n, 0);
      a % n
    else
      var m := -a;
      DivModUnique(a - -(m % n), n, -(m / n), 0);
      -(m % n)
  }

  /** Where the two remainders agree and where they differ: on a negative
      dividend that is not a multiple of n, truncation gives the Euclidean
      remainder minus n. */
  lemma TruncModVersusEuclidean(a: int, n: int)
    requires n > 0
    ensures a >= 0 ==> TruncMod(a, n) == a % n
    ensures a < 0 && a % n == 0 ==> TruncMod(a, n) == 0
    ensures a < 0 && a % n != 0 ==> TruncMod(a, n) == a % n - n
  {
    if a < 0 {
      var m := -a;
      if m % n == 0 {
        DivModUnique(a, n, -(m / n), 0);
      } else {
        DivModUnique(a, n, -(m / n) - 1, n - m % n);
      }
    }
  }

  /** Euclidean division is determined by its defining equation. */
  lemma DivModUnique(a: int, n: int, q: int, r: int)
    requires n > 0 && a == n * q + r && 0 <= r < n
    ensures a / n == q && a % n == r
  {
    var q0, r0 := a / n, a % n;
    assert n * (q - q0) == r0 - r;
    if q - q0 >= 1 {
      MulAtLeast(n, q - q0);
    } else if q - q0 <= -1 {
      MulAtLeast(n, q0 - q);
    }
  }

  lemma MulAtLeast(n: int, k: int)
    requires n > 0 && k >= 1
    ensures n * k >= n
  {
  }
}
