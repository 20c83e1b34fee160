/**
 The pseudo-random generator of the logging library (a Lehmer generator modulo 2^31 - 1 computed
 without division) and the index the randomized key set draws from it. A shift right by 31 is
 division by 2^31 and a mask with 2^31 - 1 the remainder.
 */
module Lehmer {

  const M: nat := 0x7fff_ffff
  const A: nat := 16807
  const B: nat := 1407677000   // A * B == 11017 * M + 1
  const U32: nat := 0x1_0000_0000

  type uint32 = x: int | 0 <= x < U32

  /** Seeds the generator is meant to walk through. */
  predicate Live(x: int) {
    1 <= x <= M - 1
  }

  function GoodSeed(s: uint32): uint32 {
    if s % (M + 1) != 0 then s % (M + 1) else 1
  }

  /** One step as the source computes it: fold the high bits onto the low ones. */
  function Folded(x: uint32): uint32 {
    var product := x as nat * A;
    var sum := product / (M + 1) + product % (M + 1);
    if sum > M then sum - M else sum
  }

  class Random {
    var seed: uint32

    constructor (s: uint32)
      ensures seed == GoodSeed(s)
    {
      seed := GoodSeed(s);
    }

    method Reset(s: uint32)
      modifies this
      ensures seed == GoodSeed(s)
    {
      seed := GoodSeed(s);
    }

    /** For live seeds this is the remainder of the product; the other values stay where they are. */
    method Next() returns (r: uint32)
      modifies this
      ensures seed == r == Folded(old(seed))
      ensures Live(old(seed)) ==> Live(r) && r == old(seed) * A % M
      ensures old(seed) == M ==> r == M
    {
      ghost var before := seed;
      var product := seed as nat * A;
      seed := product / (M + 1) + product % (M + 1);
      if seed > M {
        seed := seed - M;
      }
      r := seed;
      StepIs(before);
    }
  }

  lemma StepIs(x: uint32)
    ensures Live(x) ==> Live(Folded(x)) && Folded(x) == x * A % M
    ensures x == M ==> Folded(x) == M
  {
    if Live(x) {
      FoldedIsRemainder(x);
    }
  }

  // ---------------------------------------------------------------- one step

  lemma RemainderIs(p: int, k: int, r: int)
    requires p == k * M + r && 0 <= r < M
    ensures p % M == r
  {
    assert (p - r) == k * M;
    assert p / M == k by { QuotientIs(p, k, r); }
  }

  lemma QuotientIs(p: int, k: int, r: int)
    requires p == k * M + r && 0 <= r < M
    ensures p / M == k
  {
  }

  /** A multiple of A is a multiple of M only if the factor is. */
  lemma NotMultiple(x: int, k: int)
    requires Live(x)
    ensures x * A != k * M
  {
    assert x * A == k * M ==> x == M * (k * B - 11017 * x);
  }

  /** The division-free step is multiplication by A modulo M. */
  lemma FoldedIsRemainder(x: uint32)
    requires Live(x)
    ensures Folded(x) == x * A % M && Live(Folded(x))
  {
    var p := x * A;
    var q, r := p / (M + 1), p % (M + 1);
    assert p == q * M + (q + r);
    NotMultiple(x, q);
    NotMultiple(x, q + 1);
    if q + r > M {
      RemainderIs(p, q + 1, q + r - M);
    } else {
      RemainderIs(p, q, q + r);
    }
  }

  function Back(y: int): int {
    y * B % M
  }

  lemma BackOfRemainder(x: int, y: int)
    requires Live(x) && y == x * A % M
    ensures Back(y) == x
  {
    var k := x * A / M;
    assert y == x * A - k * M;
    RemainderIs(y * B, 11017 * x - k * B, x);
  }

  lemma RemainderOfBack(x: int, y: int)
    requires Live(y) && x == Back(y)
    ensures x * A % M == y && Live(x)
  {
    var k := y * B / M;
    assert x == y * B - k * M;
    assert x * A == (11017 * y - k * A) * M + y;
    RemainderIs(x * A, 11017 * y - k * A, y);
  }

  /** The step permutes the live seeds; `Back` undoes it. */
  lemma StepIsBijection(x: uint32, y: uint32)
    requires Live(x) && Live(y)
    ensures Live(Folded(x)) && Back(Folded(x)) == x
    ensures Live(Back(y)) && Folded(Back(y)) == y
  {
    FoldedIsRemainder(x);
    BackOfRemainder(x, Folded(x));
    RemainderOfBack(Back(y), y);
    FoldedIsRemainder(Back(y));
  }

  // ---------------------------------------------------------------- runs

  /** The value of the n-th call of Next. */
  function After(x: uint32, n: nat): uint32 {
    if n == 0 then x else Folded(After(x, n - 1))
  }

  /** A generator never leaves the live seeds, and never enters them: M is a fixed point. */
  lemma {:induction false} LiveForever(x: uint32, n: nat)
    requires Live(x) || x == M
    ensures if Live(x) then Live(After(x, n)) else After(x, n) == M
  {
    if n > 0 {
      LiveForever(x, n - 1);
      StaysLive(After(x, n - 1));
    }
  }

  lemma StaysLive(x: uint32)
    requires Live(x) || x == M
    ensures if Live(x) then Live(Folded(x)) else Folded(x) == M
  {
    if Live(x) {
      FoldedIsRemainder(x);
    }
  }

  lemma GoodSeedIsLive(s: uint32)
    ensures Live(GoodSeed(s)) <==> s % (M + 1) != M
    ensures s % (M + 1) == M ==> GoodSeed(s) == M
  {
  }

  // ---------------------------------------------------------------- drawing from a vector

  /** getRandom's index into a vector of `size` keys for a drawn value; RAND_MAX is M. */
  function Index(drawn: uint32, size: nat): int {
    (drawn as real / M as real * size as real).Floor
  }

  lemma IndexInRange(drawn: uint32, size: nat)
    requires 0 < size && drawn <= M
    ensures 0 <= Index(drawn, size) <= size
    ensures Index(drawn, size) < size <==> drawn < M
  {
    var x := drawn as real / M as real;
    assert 0.0 <= x <= 1.0;
    assert x == 1.0 <==> drawn == M;
    ScaledBelow(x, size as real);
  }

  lemma ScaledBelow(x: real, n: real)
    requires 0.0 <= x <= 1.0 && n > 0.0
    ensures 0.0 <= x * n <= n && (x * n < n <==> x < 1.0)
  {
    assert x < 1.0 ==> (1.0 - x) * n > 0.0;
  }

  /** Every index drawn is in range, in every run, if and only if the seed's low 31 bits are not all ones. */
  lemma DrawsInRangeIff(s: uint32, size: nat)
    requires 0 < size
    ensures (forall n: nat :: 0 <= Index(After(GoodSeed(s), n), size) < size) <==> s % (M + 1) != M
  {
    GoodSeedIsLive(s);
    forall n: nat ensures Index(After(GoodSeed(s), n), size) < size <==> s % (M + 1) != M
      ensures 0 <= Index(After(GoodSeed(s), n), size)
    {
      LiveForever(GoodSeed(s), n);
      IndexInRange(After(GoodSeed(s), n), size);
    }
    assert Index(After(GoodSeed(s), 0), size) < size <==> s % (M + 1) != M;
  }
}
