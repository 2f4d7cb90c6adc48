/**
 Go's integer division and remainder. Go truncates the quotient toward zero,
 whereas Dafny's `/` and `%` are Euclidean; the two agree only when both
 operands are non-negative.
 */
module GoInt {

  function Abs(x: int): nat {
    if x < 0 then -x else x
  }

  /** Go's `a / b` (Go panics when `b == 0`). */
  function Quo(a: int, b: int): (q: int)
    requires b != 0
    ensures a >= 0 && b > 0 ==> q == a / b
  {
    var m := Abs(a) / Abs(b);
    if (a < 0) == (b < 0) then m else -m
  }

  /** Go's `a % b`: the sign follows the dividend. */
  function Rem(a: int, b: int): (r: int)
    requires b != 0
    ensures a >= 0 ==> 0 <= r < Abs(b)
    ensures a >= 0 && b > 0 ==> r == a % b
  {
    if a >= 0 && b < 0 then
      NegativeDivisorRem(a, b);
      a - b * Quo(a, b)
    else
      a - b * Quo(a, b)
  }

  lemma NegativeDivisorRem(a: int, b: int)
    requires a >= 0 && b < 0
    ensures a - b * Quo(a, b) == a % (-b)
  {
    var m := a / (-b);
    assert Quo(a, b) == -m;
    assert b * (-m) == (-b) * m;
  }

  /**
   The sign and size of a truncated quotient by a positive divisor: it is
   negative exactly when the dividend is at most `-b`, and for a non-negative
   dividend it is the largest multiple count that does not exceed it.
   */
  lemma QuoByPositive(a: int, b: int)
    requires b > 0
    ensures Quo(a, b) < 0 <==> a <= -b
    ensures -b < a < b ==> Quo(a, b) == 0
    ensures a >= 0 ==> Quo(a, b) * b <= a < Quo(a, b) * b + b
  {
    if a >= 0 {
      DivBounds(a, b);
      if a < b {
        DivSmall(a, b);
      }
    } else {
      var m := (-a) / b;
      assert Quo(a, b) == -m;
      if -a < b {
        DivSmall(-a, b);
      } else {
        DivAtLeastOne(-a, b);
      }
    }
  }

  lemma DivBounds(x: nat, b: int)
    requires b > 0
    ensures (x / b) * b <= x < (x / b) * b + b
  {
    var q, r := x / b, x % b;
    assert x == b * q + r && 0 <= r < b;
    assert b * q == q * b;
  }

  lemma DivSmall(x: nat, b: int)
    requires 0 <= x < b
    ensures x / b == 0
  {
  }

  lemma DivAtLeastOne(x: nat, b: int)
    requires 0 < b <= x
    ensures x / b >= 1
  {
    DivBounds(x, b);
  }
}
