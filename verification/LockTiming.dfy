/** The timing of tryLock's loop: a 32-bit counter of waited milliseconds against a long timeout. */
module LockTiming {
  import opened Divisibility

  const MAX_INT := 0x7fff_ffff
  const TWO_TO_32 := 0x1_0000_0000

  /** The narrowing of a long to an int, as in count += wait. */
  function Narrow(x: int): (r: int)
    ensures -MAX_INT - 1 <= r <= MAX_INT
    ensures -MAX_INT - 1 <= x <= MAX_INT ==> r == x
  {
    (x + MAX_INT + 1) % TWO_TO_32 - MAX_INT - 1
  }

  function Wait(period: int, timeout: int): int {
    if period > timeout then timeout else period
  }

  /** The counter after its n-th increment. */
  function CountAfter(n: nat, wait: int): int {
    if n == 0 then 0 else Narrow(CountAfter(n - 1, wait) + wait)
  }

  /** With every attempt refused, the loop makes its n-th attempt if it gets that far. */
  predicate Attempts(n: nat, period: int, timeout: int) {
    CountAfter(n, Wait(period, timeout)) <= timeout
  }

  lemma {:induction false} CountsExactly(n: nat, wait: nat)
    requires n * wait <= MAX_INT
    ensures CountAfter(n, wait) == n * wait
  {
    if n > 0 {
      assert n * wait == (n - 1) * wait + wait;
      CountsExactly(n - 1, wait);
    }
  }

  /** A timeout of zero never ends the loop while attempts are refused: it waits in steps of zero. */
  lemma {:induction false} ZeroTimeoutNeverEnds(n: nat, period: int)
    requires period > 0
    ensures Attempts(n, period, 0) && CountAfter(n, Wait(period, 0)) == 0
  {
    if n > 0 {
      ZeroTimeoutNeverEnds(n - 1, period);
    }
  }

  /** Without wrap-around the refused loop makes exactly floor(timeout / wait) attempts. */
  lemma RefusedLoopEnds(n: nat, period: int, timeout: int)
    requires period > 0 && 0 < timeout && timeout + Wait(period, timeout) <= MAX_INT
    requires n * Wait(period, timeout) <= timeout < (n + 1) * Wait(period, timeout)
    ensures forall k: nat :: k <= n ==> Attempts(k, period, timeout)
    ensures !Attempts(n + 1, period, timeout)
  {
    var wait := Wait(period, timeout);
    forall k: nat | k <= n ensures Attempts(k, period, timeout) {
      Monotone(k, n, wait);
      CountsExactly(k, wait);
    }
    assert (n + 1) * wait == n * wait + wait;
    CountsExactly(n + 1, wait);
  }

  lemma Monotone(k: nat, n: nat, wait: nat)
    requires k <= n
    ensures k * wait <= n * wait
  {
    assert n * wait - k * wait == (n - k) * wait;
  }

  /** A negative timeout makes one attempt, after which the sleep throws on its negative argument. */
  lemma NegativeTimeoutAttemptsOnce(period: int, timeout: int)
    requires period > 0 && -MAX_INT - 1 <= timeout < 0
    ensures Attempts(1, period, timeout) && Wait(period, timeout) < 0
  {
    assert CountAfter(0, timeout) == 0;
    assert CountAfter(1, timeout) == Narrow(timeout);
  }

  // ----- when the loop ends at all, with the counter wrapping around

  ghost predicate Ends(period: int, timeout: int) {
    exists n: nat :: !Attempts(n, period, timeout)
  }

  lemma NarrowShifts(x: int) returns (k: int)
    ensures Narrow(x) == x + TWO_TO_32 * k
  {
    k := -((x + MAX_INT + 1) / TWO_TO_32);
  }

  /** The wrapped counter differs from the true one by a multiple of 2^32. */
  lemma {:induction false} CountShifts(n: nat, wait: int) returns (k: int)
    ensures CountAfter(n, wait) == n * wait + TWO_TO_32 * k
  {
    if n == 0 {
      k := 0;
    } else {
      var before := CountShifts(n - 1, wait);
      var shift := NarrowShifts(CountAfter(n - 1, wait) + wait);
      k := before + shift;
      assert n * wait == (n - 1) * wait + wait;
    }
  }

  /** Every value of the counter is a multiple of gcd(wait, 2^32). */
  lemma CountsAreMultiples(n: nat, wait: nat)
    ensures Divides(Gcd(wait, TWO_TO_32), CountAfter(n, wait))
  {
    var g := Gcd(wait, TWO_TO_32);
    var k := CountShifts(n, wait);
    GcdDividesBoth(wait, TWO_TO_32);
    DividesProduct(g, wait, n);
    DividesProduct(g, TWO_TO_32, k);
    assert wait * n == n * wait;
    DividesSum(g, n * wait, TWO_TO_32 * k);
  }

  lemma Rearranged(wait: int, x: int, y: int, q: int, a: int, k: int)
    ensures (x * q + TWO_TO_32 * a) * wait + TWO_TO_32 * k
      == (wait * x + TWO_TO_32 * y) * q + TWO_TO_32 * (wait * a - y * q + k)
  {
    assert (x * q) * wait == (wait * x) * q;
    assert (TWO_TO_32 * a) * wait == TWO_TO_32 * (wait * a);
    assert (x * q + TWO_TO_32 * a) * wait == (x * q) * wait + (TWO_TO_32 * a) * wait;
    assert (TWO_TO_32 * y) * q == TWO_TO_32 * (y * q);
    assert (wait * x + TWO_TO_32 * y) * q == (wait * x) * q + (TWO_TO_32 * y) * q;
  }

  lemma SameIfShifted(c: int, m: int, shift: int)
    requires c == m + TWO_TO_32 * shift && -MAX_INT - 1 <= c <= MAX_INT && -MAX_INT - 1 <= m <= MAX_INT
    ensures c == m
  {}

  /** And every multiple of it in int range is reached. */
  lemma MultiplesAreReached(wait: nat, m: int) returns (n: nat)
    requires Divides(Gcd(wait, TWO_TO_32), m) && -MAX_INT - 1 <= m <= MAX_INT
    ensures CountAfter(n, wait) == m
  {
    var x, y := Bezout(wait, TWO_TO_32);
    var q := Quotient(Gcd(wait, TWO_TO_32), m);
    var a := Abs(x * q);
    n := x * q + TWO_TO_32 * a;
    var k := CountShifts(n, wait);
    Rearranged(wait, x, y, q, a, k);
    SameIfShifted(CountAfter(n, wait), m, wait * a - y * q + k);
  }

  /** A refused tryLock ends exactly when some value the counter takes exceeds the timeout: when the
      timeout lies below the largest multiple of gcd(wait, 2^32) that fits an int. */
  lemma EndsExactlyWhen(period: int, timeout: int)
    requires period > 0 && timeout > 0
    ensures var g := Gcd(Wait(period, timeout), TWO_TO_32);
      g > 0 && (Ends(period, timeout) <==> timeout < MAX_INT - Rem(MAX_INT, g))
  {
    var wait: nat := Wait(period, timeout);
    var g := Gcd(wait, TWO_TO_32);
    GcdDividesBoth(wait, TWO_TO_32);
    assert g > 0;
    var top := MAX_INT - Rem(MAX_INT, g);
    if Ends(period, timeout) {
      var n: nat :| !Attempts(n, period, timeout);
      CountsAreMultiples(n, wait);
      LargestMultiple(g, MAX_INT, CountAfter(n, wait));
    }
    if timeout < top {
      assert Divides(g, 0) by { MultipleDivides(g, 0); }
      LargestMultiple(g, MAX_INT, 0);
      var n := MultiplesAreReached(wait, top);
      assert !Attempts(n, period, timeout);
    }
  }

  /** With the default period of 150 the counter stays even: 2147483646 and up never end. */
  lemma DefaultPeriodEnds(timeout: int)
    requires timeout >= 150
    ensures Ends(150, timeout) <==> timeout < 2147483646
  {
    assert Gcd(150, TWO_TO_32) == 2 by {
      assert 150 % TWO_TO_32 == 150 && TWO_TO_32 % 150 == 46 && 150 % 46 == 12 && 46 % 12 == 10 && 12 % 10 == 2;
      assert Gcd(2, 0) == 2;
      assert Gcd(10, 2) == Gcd(2, 10 % 2) == 2;
      assert Gcd(12, 10) == Gcd(10, 2);
      assert Gcd(46, 12) == Gcd(12, 10);
      assert Gcd(150, 46) == Gcd(46, 12);
      assert Gcd(TWO_TO_32, 150) == Gcd(150, 46);
      assert Gcd(150, TWO_TO_32) == Gcd(TWO_TO_32, 150);
    }
    EndsExactlyWhen(150, timeout);
    QuoRem(MAX_INT, 2);
  }
}
