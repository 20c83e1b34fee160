/**
 The full cycle of the generator: from any live seed it runs through all of them. That is to say that
 16807 is a primitive root modulo 2^31 - 1. Its order divides M - 1, and no quotient of M - 1 by a prime
 is a multiple of it.
 */
module LehmerCycle {
  import opened Lehmer
  import opened LehmerPowers
  import opened Sets

  // ---------------------------------------------------------------- prime divisors of M - 1

  ghost predicate Prime(p: nat) {
    p > 1 && forall k :: 1 < k < p ==> p % k != 0
  }

  /** x is a multiple of p. */
  ghost predicate Multiple(x: int, p: nat) {
    exists k :: x == k * p
  }

  /** A prime that divides a product and not one factor divides the other. */
  lemma {:induction false} Euclid(p: nat, a: nat, b: nat)
    requires Prime(p) && a > 0 && Multiple(a * b, p)
    ensures Multiple(a, p) || Multiple(b, p)
    decreases a
  {
    if a == 1 {
      assert a * b == b;
    } else if a >= p {
      EuclidReduce(p, a, b);
    } else {
      var r := p % a;
      assert p == p / a * a + r;
      var k :| a * b == k * p;
      assert r * b == (b - p / a * k) * p by {
        assert r * b == p * b - p / a * (a * b);
      }
      Euclid(p, r, b);
      SmallMultiple(p, r);
    }
  }

  lemma EuclidReduce(p: nat, a: nat, b: nat)
    requires Prime(p) && a >= p && Multiple(a * b, p)
    ensures Multiple(a, p) || Multiple(b, p)
    decreases a, 0
  {
    var k :| a * b == k * p;
    if a == p {
      assert a == 1 * p;
    } else {
      assert (a - p) * b == (k - b) * p;
      Euclid(p, a - p, b);
      if Multiple(a - p, p) {
        var j :| a - p == j * p;
        assert a == (j + 1) * p;
      }
    }
  }

  lemma SmallMultiple(p: nat, r: nat)
    requires 0 < r < p
    ensures !Multiple(r, p)
  {
    forall k ensures r != k * p {
      NotBetween(p, r, k);
    }
  }

  lemma NotBetween(p: nat, r: nat, k: int)
    requires 0 < r < p
    ensures r != k * p
  {
    if k <= 0 {
      assert k * p <= 0;
    } else {
      assert k * p >= p;
    }
  }

  /** If the prime p does not divide q, it can be taken out of the other factor. */
  lemma TakeOut(p: nat, q: nat, g: nat, n: nat) returns (g': nat)
    requires Prime(p) && q > 0 && q * g == p * n && !Multiple(q, p)
    ensures q * g' == n
  {
    assert q * g == n * p;
    Euclid(p, q, g);
    var k :| g == k * p;
    g' := k;
    assert q * k * p == n * p;
    SameFactor(q * k, n, p);
  }

  lemma SameFactor(x: int, y: int, p: nat)
    requires p > 0 && x * p == y * p
    ensures x == y
  {
    assert (x - y) * p == 0;
    assert x > y ==> (x - y) * p > 0;
    assert x < y ==> (y - x) * p > 0;
  }

  /** Trial division up to the square root. */
  lemma PrimeByTrial(p: nat, b: nat)
    requires p > 1 && b * b < p < (b + 1) * (b + 1) && forall k :: 1 < k <= b ==> p % k != 0
    ensures Prime(p)
  {
    forall k | 1 < k < p ensures p % k != 0 {
      if p % k == 0 {
        var j := p / k;
        assert p == k * j;
        if k > b {
          CofactorSmall(p, b, k, j);
          assert p % j == 0 by { RemainderZero(p, k, j); }
        }
      }
    }
  }

  lemma CofactorSmall(p: nat, b: nat, k: nat, j: nat)
    requires p == k * j && b < k < p < (b + 1) * (b + 1)
    ensures 1 < j <= b
  {
    LargeProduct(k, j, b);
    assert j != 0 && j != 1;
  }

  lemma LargeProduct(k: nat, j: nat, b: nat)
    requires k > b
    ensures j > b ==> k * j >= (b + 1) * (b + 1)
  {
    if j > b {
      assert k * j >= (b + 1) * j >= (b + 1) * (b + 1);
    }
  }

  lemma RemainderZero(p: nat, k: nat, j: nat)
    requires p == k * j && j > 0
    ensures p % j == 0
  {
    assert p % j == (k * j) % j;
    var q, r := p / j, p % j;
    assert (k - q) * j == r;
    if r != 0 {
      NotBetween(j, r, k - q);
    }
  }

  lemma SmallPrimes()
    ensures Prime(2) && Prime(3) && Prime(7) && Prime(11) && Prime(31)
  {
  }

  lemma LargePrimes()
    ensures Prime(151) && Prime(331)
  {
    forall k | 1 < k <= 18 ensures 331 % k != 0 && (k <= 12 ==> 151 % k != 0) {
    }
    PrimeByTrial(151, 12);
    PrimeByTrial(331, 18);
  }

  // ---------------------------------------------------------------- the order of A

  lemma {:induction false} PowerOfOne(g: nat, k: nat)
    requires Power(g) == 1
    ensures Power(k * g) == 1
  {
    if k > 0 {
      PowerOfOne(g, k - 1);
      assert k * g == (k - 1) * g + g;
      PowerPlus((k - 1) * g, g);
    }
  }

  lemma {:induction false} LeastOne(d: nat) returns (g: nat)
    requires d > 0 && Power(d) == 1
    ensures 0 < g <= d && Power(g) == 1 && forall e :: 0 < e < g ==> Power(e) != 1
    decreases d
  {
    if e :| 0 < e < d && Power(e) == 1 {
      g := LeastOne(e);
    } else {
      g := d;
    }
  }

  /** The least exponent divides every other. */
  lemma LeastDivides(g: nat, n: nat, q: nat, r: nat)
    requires Power(g) == 1 && Power(n) == 1 && (forall e :: 0 < e < g ==> Power(e) != 1) && n == q * g + r && r < g
    ensures r == 0
  {
    PowerOfOne(g, q);
    OneFactor(q * g, r);
  }

  lemma OneFactor(m: nat, r: nat)
    requires Power(m) == 1
    ensures Power(m + r) == Power(r)
  {
    PowerPlus(m, r);
    PowerBelow(r);
    assert 1 * Power(r) == Power(r);
    RemainderIs(Power(r), 0, Power(r));
  }

  /** If p divides the cofactor q of g, the exponent n / p is a multiple of g. */
  lemma WouldReturn(p: nat, q: nat, g: nat, e: nat)
    requires p > 0 && q * g == p * e && Multiple(q, p) && Power(g) == 1
    ensures Power(e) == 1
  {
    var k :| q == k * p;
    assert e * p == k * g * p;
    SameFactor(e, k * g, p);
    assert k >= 0 by {
      assert k < 0 ==> k * p < 0;
    }
    PowerOfOne(g, k);
  }

  /** M - 1 is 2 * 3 * 3 * 7 * 11 * 31 * 151 * 331, so a cofactor prime to all of these is 1. */
  lemma CofactorIsOne(q: nat, g: nat)
    requires q > 0 && q * g == M - 1
    requires !Multiple(q, 2) && !Multiple(q, 3) && !Multiple(q, 7) && !Multiple(q, 11)
    requires !Multiple(q, 31) && !Multiple(q, 151) && !Multiple(q, 331)
    ensures q == 1
  {
    SmallPrimes();
    LargePrimes();
    var g1 := TakeOut(2, q, g, 1073741823);
    var g2 := TakeOut(3, q, g1, 357913941);
    var g3 := TakeOut(3, q, g2, 119304647);
    var g4 := TakeOut(7, q, g3, 17043521);
    var g5 := TakeOut(11, q, g4, 1549411);
    var g6 := TakeOut(31, q, g5, 49981);
    var g7 := TakeOut(151, q, g6, 331);
    var g8 := TakeOut(331, q, g7, 1);
    assert q * g8 == 1;
    assert q > 1 ==> g8 >= 1 && q * g8 >= q;
  }

  lemma PowerReturns(n: nat)
    requires n == M - 1
    ensures Power(n) == 1
  {
    var e := Power2(0);
    var n' := Even(e, 2147483646, 2147483645, 1);
    assert n' == n;
  }

  /** 16807 is a primitive root: its powers come back to 1 at M - 1 and not before. */
  lemma OrderIsFull(d: nat)
    requires 0 < d < M - 1
    ensures Power(d) != 1
  {
    if Power(d) == 1 {
      var g := LeastOne(d);
      var n := M - 1;
      PowerReturns(n);
      LeastDivides(g, n, n / g, n % g);
      OrderCofactor(g, n / g);
    }
  }

  lemma NotThatPrime(p: nat, q: nat, g: nat, e: nat)
    requires p > 0 && q * g == p * e && Power(g) == 1 && Power(e) != 1
    ensures !Multiple(q, p)
  {
    if Multiple(q, p) {
      WouldReturn(p, q, g, e);
    }
  }

  /** An exponent that returns to 1 and divides M - 1 is M - 1. */
  lemma OrderCofactor(g: nat, q: nat)
    requires q > 0 && q * g == M - 1 && Power(g) == 1
    ensures q == 1
  {
    var e := Power2(0);
    NotThatPrime(2, q, g, e);
    e := Power3(0);
    NotThatPrime(3, q, g, e);
    e := Power7(0);
    NotThatPrime(7, q, g, e);
    e := Power11(0);
    NotThatPrime(11, q, g, e);
    e := Power31(0);
    NotThatPrime(31, q, g, e);
    e := Power151(0);
    NotThatPrime(151, q, g, e);
    e := Power331(0);
    NotThatPrime(331, q, g, e);
    CofactorIsOne(q, g);
  }

  // ---------------------------------------------------------------- the cycle

  lemma {:induction false} PowerLive(n: nat)
    ensures Live(Power(n)) && After(1, n) == Power(n)
  {
    if n > 0 {
      PowerLive(n - 1);
      FoldedIsRemainder(Power(n - 1));
    }
  }

  lemma {:induction false} NoRepeat(i: nat, j: nat)
    requires i < j < M - 1
    ensures Power(i) != Power(j)
  {
    if i == 0 {
      OrderIsFull(j);
    } else {
      NoRepeat(i - 1, j - 1);
      PowerLive(i - 1);
      PowerLive(j - 1);
      if Power(i) == Power(j) {
        BackOfRemainder(Power(i - 1), Power(i));
        BackOfRemainder(Power(j - 1), Power(j));
      }
    }
  }

  ghost function FirstPowers(n: nat): set<int> {
    if n == 0 then {} else FirstPowers(n - 1) + {Power(n - 1)}
  }

  lemma {:induction false} FirstPowersAre(n: nat, y: int)
    ensures y in FirstPowers(n) <==> exists i :: 0 <= i < n && Power(i) == y
  {
    if n > 0 {
      FirstPowersAre(n - 1, y);
      assert y in FirstPowers(n) <==> y in FirstPowers(n - 1) || y == Power(n - 1);
    }
  }

  lemma {:induction false} FirstPowersCount(n: nat)
    requires n <= M - 1
    ensures |FirstPowers(n)| == n
  {
    if n > 0 {
      FirstPowersCount(n - 1);
      var y := Power(n - 1);
      FirstPowersAre(n - 1, y);
      if y in FirstPowers(n - 1) {
        var i :| 0 <= i < n - 1 && Power(i) == y;
        NoRepeat(i, n - 1);
      }
    }
  }

  ghost function UpTo(n: nat): (r: set<int>)
    ensures |r| == n && forall x :: x in r <==> 1 <= x <= n
  {
    if n == 0 then {} else UpTo(n - 1) + {n}
  }

  /** Every live seed is a power of A. */
  lemma EveryPower(y: int, n: nat) returns (i: nat)
    requires Live(y) && n == M - 1
    ensures i < n && Power(i) == y
  {
    FirstPowersCount(n);
    forall x | x in FirstPowers(n) ensures x in UpTo(n) {
      FirstPowersAre(n, x);
      var j :| 0 <= j < n && Power(j) == x;
      PowerLive(j);
    }
    SameSize(FirstPowers(n), UpTo(n));
    FirstPowersAre(n, y);
    i :| 0 <= i < n && Power(i) == y;
  }

  lemma {:induction false} AfterPower(a: nat, n: nat)
    requires Power(a) < U32
    ensures After(Power(a), n) == Power(a + n)
  {
    if n > 0 {
      AfterPower(a, n - 1);
      PowerLive(a + n - 1);
      FoldedIsRemainder(Power(a + n - 1));
    }
  }

  /** From every live seed the generator comes to every live seed in less than M - 1 steps. */
  lemma CyclesThroughAll(x: uint32, y: uint32) returns (n: nat)
    requires Live(x) && Live(y)
    ensures n < M - 1 && After(x, n) == y
  {
    var round := M - 1;
    var a := EveryPower(x, round);
    var b := EveryPower(y, round);
    if a <= b {
      n := b - a;
    } else {
      n := round - a + b;
      PowerReturns(round);
      OneFactor(round, b);
    }
    AfterPower(a, n);
  }

  /** And it does not come to the same one twice within a round. */
  lemma NoneTwice(x: uint32, i: nat, j: nat)
    requires Live(x) && i < j < M - 1
    ensures After(x, i) != After(x, j)
  {
    var a := EveryPower(x, M - 1);
    AfterPower(a, i);
    AfterPower(a, j);
    if Power(a + i) == Power(a + j) {
      StepBack(a, i, j);
      NoRepeat(i, j);
    }
  }

  lemma {:induction false} StepBack(a: nat, i: nat, j: nat)
    requires Power(a + i) == Power(a + j)
    ensures Power(i) == Power(j)
  {
    if a > 0 {
      PowerLive(a + i - 1);
      PowerLive(a + j - 1);
      BackOfRemainder(Power(a + i - 1), Power(a + i));
      BackOfRemainder(Power(a + j - 1), Power(a + j));
      StepBack(a - 1, i, j);
    }
  }
}
