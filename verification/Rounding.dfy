/** Decimal arithmetic in integer cents: HALF_UP division as Trino does it (once,
    to cents) and as Spark does it (to a finer grid first, then to cents). */
module Rounding {
  import opened Options

  /** Integer division by repeated subtraction: the verifier reasons about its
      defining inequality and never about nested non-linear divisions. */
  function Quotient(x: nat, y: int): nat
    requires y > 0
  {
    if x < y then 0 else Quotient(x - y, y) + 1
  }

  /** `p / q` rounded to an integer, halves away from zero. */
  function RoundHalfUp(p: int, q: int): int
    requires q > 0
  {
    if p >= 0 then Quotient(2 * p + q, 2 * q) else 0 - Quotient(2 * -p + q, 2 * q)
  }

  /** `p / q` rounded to the grid of `1/m` and then to an integer. */
  function RoundTwice(p: int, q: int, m: int): int
    requires q > 0 && m > 0
  {
    RoundHalfUp(RoundHalfUp(p * m, q), m)
  }

  /** Spark divides DECIMAL(28,2) by BIGINT in DECIMAL(38,12): 10^10 grid points a cent. */
  const SPARK_GRID: int := 10_000_000_000

  /** The counts for which no sum can be rounded differently by the two routes. */
  predicate GridIsFineEnough(q: int, m: int) {
    if q % 2 == 1 then q < m else q < 2 * m
  }

  /** DECIMAL(18,2) holds exactly the amounts of fewer than 10^18 cents. */
  const DECIMAL_18_2: int := 1_000_000_000_000_000_000

  predicate Fits(x: int) { -DECIMAL_18_2 < x < DECIMAL_18_2 }

  /** `cast(x as decimal(18,2))` outside ANSI mode: NULL on overflow. */
  function Cast(x: Option<int>): Option<int> {
    if x.Some? && Fits(x.value) then x else None
  }

  // ---- lemmas ------------------------------------------------------------------

  lemma MulOrder(a: int, b: int, y: int)
    requires y > 0
    ensures a * y <= b * y <==> a <= b
    ensures a * y < b * y <==> a < b
  {
  }

  lemma {:induction false} QuotientBounds(x: nat, y: int)
    requires y > 0
    ensures Quotient(x, y) * y <= x < Quotient(x, y) * y + y
  {
    if x >= y {
      QuotientBounds(x - y, y);
      assert Quotient(x, y) * y == Quotient(x - y, y) * y + y;
    }
  }

  /** The defining inequality of rounding half up. */
  lemma Rounds(p: int, q: int)
    requires p >= 0 && q > 0
    ensures RoundHalfUp(p, q) >= 0
    ensures 2 * (RoundHalfUp(p, q) * q) <= 2 * p + q < 2 * (RoundHalfUp(p, q) * q) + 2 * q
  {
    QuotientBounds(2 * p + q, 2 * q);
    var r := RoundHalfUp(p, q);
    assert r * (2 * q) == 2 * (r * q);
  }

  lemma RoundsTo(p: int, q: int, r: int)
    requires p >= 0 && q > 0
    ensures RoundHalfUp(p, q) == r <==> 2 * (r * q) <= 2 * p + q < 2 * (r * q) + 2 * q
  {
    Rounds(p, q);
    var d := RoundHalfUp(p, q);
    MulOrder(d, r + 1, q);
    MulOrder(r, d + 1, q);
    assert (d + 1) * q == d * q + q && (r + 1) * q == r * q + q;
  }

  /** The two routes agree exactly when the remainder of the direct division leaves
      room for half a grid step. */
  lemma TwiceVersusOnce(p: int, q: int, m: int) returns (rem: int)
    requires p >= 0 && q > 0 && m > 0 && m % 2 == 0
    ensures 0 <= rem < 2 * q && rem == 2 * p + q - 2 * (RoundHalfUp(p, q) * q)
    ensures RoundTwice(p, q, m) == RoundHalfUp(p, q) <==> rem * m + q < 2 * (q * m)
  {
    var d, pm := RoundHalfUp(p, q), p * m;
    Rounds(p, q);
    Rounds(pm, q);
    var r := RoundHalfUp(pm, q);
    RoundsTo(r, m, d);
    rem := 2 * p + q - 2 * (d * q);
    HalfStep(p, q, m, d, rem, r);
  }

  /** `d` is `p / q` rounded and `r` is `p * m / q` rounded. */
  lemma HalfStep(p: int, q: int, m: int, d: int, rem: int, r: int)
    requires q > 0 && m > 0 && m % 2 == 0
    requires 2 * p + q == 2 * (d * q) + rem && 0 <= rem < 2 * q
    requires 2 * (r * q) <= 2 * (p * m) + q < 2 * (r * q) + 2 * q
    ensures 2 * (d * m) <= 2 * r + m < 2 * (d * m) + 2 * m <==> rem * m + q < 2 * (q * m)
  {
    // half a cent lies on the grid because m is even
    var h := m / 2;
    var a := r + h;
    assert m * q == h * (2 * q) by { assert m == 2 * h; }
    assert a * (2 * q) == 2 * (r * q) + m * q;
    Distribute(p, q, m, d, rem);
    assert rem * m >= 0;
    RoomForHalfStep(a, d * m, m, 2 * q, rem * m + q, 2 * (p * m) + q + m * q);
    assert 2 * q * m == 2 * (q * m);
  }

  lemma Distribute(p: int, q: int, m: int, d: int, rem: int)
    requires 2 * p + q == 2 * (d * q) + rem
    ensures 2 * (p * m) + m * q == d * m * (2 * q) + rem * m
  {
  }

  lemma RoomForHalfStep(a: int, dm: int, m: int, D: int, E: int, X: int)
    requires D > 0 && 0 <= E && X == dm * D + E && a * D <= X < a * D + D
    ensures dm <= a && (a < dm + m <==> E < D * m)
  {
    MulOrder(dm, a + 1, D);
    assert (a + 1) * D == a * D + D;
    assert (dm + m) * D == dm * D + D * m;
    MulOrder(a, dm + m, D);
    MulOrder(dm + m, a + 1, D);
  }

  lemma HarmlessForPositiveSums(p: int, q: int, m: int)
    requires p >= 0 && q > 0 && m > 0 && m % 2 == 0 && GridIsFineEnough(q, m)
    ensures RoundTwice(p, q, m) == RoundHalfUp(p, q)
  {
    var rem := TwiceVersusOnce(p, q, m);
    Slack(q, m, rem, p - RoundHalfUp(p, q) * q);
  }

  lemma Slack(q: int, m: int, rem: int, half: int)
    requires q > 0 && m > 0 && GridIsFineEnough(q, m)
    requires rem < 2 * q && rem == q + 2 * half
    ensures rem * m + q < 2 * (q * m)
  {
    var least := if q % 2 == 1 then 1 else 2;
    MulOrder(least, 2 * q - rem, m);
    assert (2 * q - rem) * m == 2 * (q * m) - rem * m;
  }

  /** Double rounding is harmless whenever the count is small against the grid. */
  lemma DoubleRoundingIsHarmless(p: int, q: int, m: int)
    requires q > 0 && m > 0 && m % 2 == 0 && GridIsFineEnough(q, m)
    ensures RoundTwice(p, q, m) == RoundHalfUp(p, q)
  {
    if p >= 0 {
      HarmlessForPositiveSums(p, q, m);
    } else {
      HarmlessForPositiveSums(-p, q, m);
      TwiceIsOdd(-p, q, m);
      OddSymmetry(-p, q);
    }
  }

  lemma TwiceIsOdd(p: int, q: int, m: int)
    requires p >= 0 && q > 0 && m > 0
    ensures RoundTwice(-p, q, m) == -RoundTwice(p, q, m)
  {
  }

  lemma OddSymmetry(p: int, q: int)
    requires p >= 0 && q > 0
    ensures RoundHalfUp(-p, q) == -RoundHalfUp(p, q)
  {
  }

  /** ... and outside that bound some sum is rounded differently. */
  lemma DoubleRoundingWitness(q: int, m: int) returns (p: int)
    requires q > 0 && m > 0 && m % 2 == 0 && !GridIsFineEnough(q, m)
    ensures RoundTwice(p, q, m) != RoundHalfUp(p, q)
  {
    p := if q % 2 == 1 then (q - 1) / 2 else q / 2 - 1;
    RoundsTo(p, q, 0);
    var rem := TwiceVersusOnce(p, q, m);
    NoSlack(q, m, rem);
  }

  lemma NoSlack(q: int, m: int, rem: int)
    requires q > 0 && m > 0 && !GridIsFineEnough(q, m)
    requires rem == 2 * q - if q % 2 == 1 then 1 else 2
    ensures rem * m + q >= 2 * (q * m)
  {
  }

  /** The exact condition: Spark's average equals Trino's for every sum iff the
      count is below the grid size (twice the grid size for even counts). */
  lemma DoubleRoundingExactly(q: int, m: int)
    requires q > 0 && m > 0 && m % 2 == 0
    ensures GridIsFineEnough(q, m) <==> forall p :: RoundTwice(p, q, m) == RoundHalfUp(p, q)
  {
    if GridIsFineEnough(q, m) {
      forall p ensures RoundTwice(p, q, m) == RoundHalfUp(p, q) { DoubleRoundingIsHarmless(p, q, m); }
    } else {
      var p := DoubleRoundingWitness(q, m);
    }
  }

  /** The rounded average is within half a cent of the exact one. */
  lemma WithinHalfACent(p: int, q: int, m: int)
    requires q > 0 && m > 0 && m % 2 == 0 && GridIsFineEnough(q, m)
    ensures -q <= 2 * (RoundTwice(p, q, m) * q) - 2 * p <= q
  {
    DoubleRoundingIsHarmless(p, q, m);
    if p >= 0 {
      Rounds(p, q);
    } else {
      OddSymmetry(-p, q);
      Rounds(-p, q);
      assert (-RoundHalfUp(-p, q)) * q == -(RoundHalfUp(-p, q) * q);
    }
  }

  /** An average stays in the range of its sum, so its cast never overflows. */
  lemma AverageFits(p: int, q: int)
    requires q > 0
    ensures p >= 0 ==> 0 <= RoundHalfUp(p, q) <= p
    ensures Fits(p) ==> Fits(RoundHalfUp(p, q))
  {
    var a := if p >= 0 then p else -p;
    AverageIsSmaller(a, q);
    OddSymmetry(a, q);
  }

  lemma AverageIsSmaller(a: int, q: int)
    requires a >= 0 && q > 0
    ensures 0 <= RoundHalfUp(a, q) <= a
  {
    Rounds(a, q);
    var r := RoundHalfUp(a, q);
    MulOrder(r, a + 1, q);
    MulOrder(1, q, a + 1);
    assert (a + 1) * q == a * q + q && q * (a + 1) == a * q + q;
  }
}
