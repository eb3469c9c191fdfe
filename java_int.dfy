/** Java's integer division, which truncates toward zero (Dafny's `/` is Euclidean). */
module JavaInt {

  function Abs(n: int): nat
  {
    if n < 0 then -n else n
  }

  lemma AbsOfProduct(a: int, b: int)
    ensures Abs(a * b) == Abs(a) * Abs(b)
  {
    if a < 0 && b < 0 {
      assert a * b == (-a) * (-b);
    } else if a < 0 {
      assert -(a * b) == (-a) * b;
    } else if b < 0 {
      assert -(a * b) == a * (-b);
    }
  }

  /** The magnitude of Java's quotient is the Euclidean quotient of the magnitudes. */
  function Magnitude(a: int, b: int): (m: nat)
    requires b != 0
    ensures m * Abs(b) <= Abs(a) < m * Abs(b) + Abs(b)
  {
    var n, d := Abs(a), Abs(b);
    assert n == (n / d) * d + n % d;
    n / d
  }

  lemma {:induction false} SignOfProduct(q: int, b: int, a: int)
    requires b != 0
    requires q == 0 || (a != 0 && (q > 0 <==> ((a >= 0) == (b > 0))))
    ensures q * b == 0 || (q * b > 0 <==> a > 0)
  {
    if q > 0 && b > 0 {
      assert q * b > 0;
    } else if q > 0 && b < 0 {
      assert q * (-b) > 0;
    } else if q < 0 && b > 0 {
      assert (-q) * b > 0;
    } else if q < 0 && b < 0 {
      assert (-q) * (-b) > 0;
    }
  }

  /** `a / b` on Java ints: the quotient is the largest in magnitude whose product with `b`
      does not exceed `a` in magnitude, and the product has the sign of `a`. */
  function Div(a: int, b: int): (q: int)
    requires b != 0
    ensures Abs(q * b) <= Abs(a) < Abs(q * b) + Abs(b)
    ensures q * b == 0 || (q * b > 0 <==> a > 0)
  {
    var m: int := Magnitude(a, b);
    assert a == 0 ==> m == 0;
    var q: int := if (a >= 0) == (b > 0) then m else -m;
    AbsOfProduct(q, b);
    SignOfProduct(q, b, a);
    q
  }
}
