/** Greatest common divisors: the arithmetic behind the weighted balancer's step. */
module Divisibility {

  function Abs(x: int): (r: nat) {
    if x < 0 then -x else x
  }

  // Division by repeated subtraction: equal to / and %, and easier to reason about.

  function Quo(x: nat, m: nat): nat
    requires m > 0
  {
    if x < m then 0 else 1 + Quo(x - m, m)
  }

  function Rem(x: nat, m: nat): (r: nat)
    requires m > 0
    ensures r < m
  {
    if x < m then x else Rem(x - m, m)
  }

  lemma SameQuotient(x: nat, m: nat, q: int, r: nat)
    requires r < m && x == m * q + r
    ensures x / m == q && x % m == r
  {
    assert x == m * (x / m) + x % m;
    assert m * (q - x / m) == x % m - r by {
      assert m * (q - x / m) == m * q - m * (x / m);
    }
    MultipleBound(m, q - x / m);
  }

  lemma {:induction false} QuoRem(x: nat, m: nat)
    requires m > 0
    ensures x == m * Quo(x, m) + Rem(x, m)
    ensures Quo(x, m) == x / m && Rem(x, m) == x % m
    decreases x
  {
    if x >= m {
      QuoRem(x - m, m);
      assert m * (1 + Quo(x - m, m)) == m + m * Quo(x - m, m);
    }
    SameQuotient(x, m, Quo(x, m), Rem(x, m));
  }

  /** d divides x. Zero divides only zero. */
  predicate Divides(d: nat, x: int) {
    if d == 0 then x == 0 else Rem(Abs(x), d) == 0
  }

  function Gcd(a: nat, b: nat): (g: nat)
    decreases b
  {
    if b == 0 then a else Gcd(b, a % b)
  }

  /** The greatest common divisor of all numbers of a list; 0 for an all-zero list. */
  function GcdAll(ws: seq<int>): (g: nat) {
    if |ws| == 0 then 0 else Gcd(GcdAll(ws[..|ws| - 1]), Abs(ws[|ws| - 1]))
  }

  lemma {:induction false} RemOfMultiple(d: nat, j: nat)
    requires d > 0
    ensures d * j >= 0 && Rem(d * j, d) == 0
    decreases j
  {
    if j > 0 {
      RemOfMultiple(d, j - 1);
      assert d * j == d + d * (j - 1);
    }
  }

  lemma MultipleDivides(d: nat, k: int)
    ensures Divides(d, d * k)
  {
    if d > 0 {
      RemOfMultiple(d, Abs(k));
      assert d * -k == -(d * k);
    }
  }

  lemma MultipleBound(d: nat, j: int)
    ensures j >= 1 ==> d * j >= d
    ensures j <= -1 ==> d * j + d <= 0
  {
    if j >= 1 {
      assert d * j == d + d * (j - 1);
    } else if j <= -1 {
      assert d * j + d == d * (j + 1);
    }
  }

  lemma Quotient(d: nat, x: int) returns (k: int)
    requires Divides(d, x)
    ensures x == d * k
  {
    if d == 0 {
      k := 0;
    } else {
      QuoRem(Abs(x), d);
      k := if x < 0 then 0 - Quo(Abs(x), d) else Quo(x, d);
      assert d * -k == -(d * k);
    }
  }

  lemma DividesSum(d: nat, x: int, y: int)
    requires Divides(d, x) && Divides(d, y)
    ensures Divides(d, x + y) && Divides(d, x - y)
  {
    var i := Quotient(d, x);
    var j := Quotient(d, y);
    assert x + y == d * (i + j);
    assert x - y == d * (i - j);
    MultipleDivides(d, i + j);
    MultipleDivides(d, i - j);
  }

  lemma DividesProduct(d: nat, x: int, m: int)
    requires Divides(d, x)
    ensures Divides(d, x * m)
  {
    var k := Quotient(d, x);
    assert x * m == d * (k * m) by { assert x * m == (d * k) * m; }
    MultipleDivides(d, k * m);
  }

  lemma DividesAbs(d: nat, x: int)
    ensures Divides(d, Abs(x)) <==> Divides(d, x)
  {
    if Divides(d, x) {
      DividesProduct(d, x, -1);
    } else if Divides(d, -x) {
      DividesProduct(d, -x, -1);
    }
  }

  /** The common divisors of a and b are exactly the divisors of Gcd(a, b). */
  lemma {:induction false} GcdCharacterised(a: nat, b: nat, d: nat)
    ensures Divides(d, Gcd(a, b)) <==> Divides(d, a) && Divides(d, b)
    decreases b
  {
    if b == 0 {
    } else {
      GcdCharacterised(b, a % b, d);
      assert a == b * (a / b) + a % b;
      if Divides(d, b) {
        DividesProduct(d, b, a / b);
        if Divides(d, a) {
          DividesSum(d, a, b * (a / b));
        }
        if Divides(d, a % b) {
          DividesSum(d, b * (a / b), a % b);
        }
      }
    }
  }

  /** The common divisors of a list are exactly the divisors of GcdAll. */
  lemma {:induction false} GcdAllCharacterised(ws: seq<int>, d: nat)
    ensures Divides(d, GcdAll(ws)) <==> forall i :: 0 <= i < |ws| ==> Divides(d, ws[i])
  {
    if |ws| == 0 {
      if d > 0 { MultipleDivides(d, 0); }
    } else {
      var front, last := ws[..|ws| - 1], ws[|ws| - 1];
      GcdAllCharacterised(front, d);
      GcdCharacterised(GcdAll(front), Abs(last), d);
      DividesAbs(d, last);
      assert forall i :: 0 <= i < |front| ==> front[i] == ws[i];
    }
  }

  lemma GcdAllDivides(ws: seq<int>, i: nat)
    requires i < |ws|
    ensures Divides(GcdAll(ws), ws[i])
  {
    var g := GcdAll(ws);
    assert Divides(g, g) by { if g > 0 { MultipleDivides(g, 1); } }
    GcdAllCharacterised(ws, g);
  }

  /** The greatest common divisor is zero exactly when every number is. */
  lemma GcdAllZero(ws: seq<int>)
    ensures GcdAll(ws) == 0 <==> forall i :: 0 <= i < |ws| ==> ws[i] == 0
  {
    GcdAllCharacterised(ws, 0);
  }

  /** The greatest common divisor is a combination of the two numbers. */
  lemma {:induction false} Bezout(a: nat, b: nat) returns (x: int, y: int)
    ensures Gcd(a, b) == a * x + b * y
    decreases b
  {
    if b == 0 {
      x, y := 1, 0;
    } else {
      var q, r := a / b, a % b;
      var u, v := Bezout(b, r);
      x, y := v, u - q * v;
      assert a == b * q + r;
      assert b * u + r * v == a * v + b * (u - q * v) by {
        assert (b * q + r) * v == b * (q * v) + r * v;
      }
    }
  }

  lemma GcdDividesBoth(a: nat, b: nat)
    ensures Divides(Gcd(a, b), a) && Divides(Gcd(a, b), b)
  {
    var g := Gcd(a, b);
    assert Divides(g, g) by { if g > 0 { MultipleDivides(g, 1); } }
    GcdCharacterised(a, b, g);
  }

  lemma BelowNextMultiple(d: nat, k: int, q: int)
    requires d > 0 && d * k < d * q + d
    ensures d * k <= d * q
  {
    MultipleBound(d, k - q);
    MultipleBound(d, q - k);
    assert d * k == d * q + d * (k - q);
    assert d * q == d * k + d * (q - k);
  }

  /** The largest multiple of d up to a bound is the bound less its remainder. */
  lemma LargestMultiple(d: nat, bound: nat, x: int)
    requires d > 0 && Divides(d, x) && x <= bound
    ensures x <= bound - Rem(bound, d) && Divides(d, bound - Rem(bound, d))
  {
    var q, r := Quo(bound, d), Rem(bound, d);
    var k := Quotient(d, x);
    QuoRem(bound, d);
    MultipleDivides(d, q);
    BelowNextMultiple(d, k, q);
  }
}
