/** Fixed-point arithmetic of the rate estimator (driver/vmac/rc80211_minstrel.h):
    12-bit fractions, and the integer moving average and variance built on them. */
module FixedPoint {

  /** Two to the 32nd. */
  const WORD: nat := 0x1_0000_0000

  /** 1.0 as a fraction. */
  const SCALE: nat := 4096

  /** The least count whose shift by twelve bits leaves the 32-bit word. */
  const INTERVAL_LIMIT: nat := 0x10_0000

  /** The longest aggregate whose step of the average is computed without overflow. */
  const AGGREGATE_LIMIT: nat := 0x4000

  /** Division of C's `int`: the quotient is truncated toward zero. */
  function CDiv(a: int, b: int): int
    requires b > 0
  {
    if a >= 0 then a / b else -((-a) / b)
  }

  /** `MINSTREL_FRAC` on 32-bit unsigned operands: the shift drops the bits above the word. */
  function Frac(val: nat, div: nat): nat
    requires div > 0
  {
    val * 4096 % 0x1_0000_0000 / div
  }

  /** `MINSTREL_TRUNC`. */
  function Trunc(val: nat): nat {
    val / 4096
  }

  /** A quarter of a difference: its weight in the moving averages is 1 - 96/128. */
  function Increment(diff: int): int {
    CDiv((128 - 96) * diff, 128)
  }

  /** `minstrel_ewma` at the weight `EWMA_LEVEL`, the only one in use. */
  function Ewma(prev: int, next: int): int {
    prev + Increment(next - prev)
  }

  /** `minstrel_ewmv`; the product of the deviation and its increment is never negative,
      so the right shift of the source is the division below. */
  function Ewmv(prev: int, cur: int, ewma: int): int {
    var diff := cur - ewma;
    CDiv(96 * (prev + diff * Increment(diff) / 4096), 128)
  }

  /** A value stored into a C `int`: 32 bits, two's complement. */
  function Int32(x: int): int {
    var w := x % 0x1_0000_0000;
    if w >= 0x8000_0000 then w - 0x1_0000_0000 else w
  }

  /** `minstrel_ewma` with every intermediate result stored into an `int`, and the outcome into
      an unsigned word. */
  function EwmaWord(prev: int, next: int): nat {
    var diff := Int32(Int32(next) - Int32(prev));
    Int32(Int32(prev) + CDiv(Int32((128 - 96) * diff), 128)) % 0x1_0000_0000
  }

  /** The part of a difference that survives the multiplication by 32: its residue modulo 2^27,
      taken around zero. */
  function Residue(diff: int): int {
    var w := diff % 0x800_0000;
    if w >= 0x400_0000 then w - 0x800_0000 else w
  }

  function Abs(x: int): nat {
    if x < 0 then -x else x
  }

  /** A ratio of at most one is at most 1.0, whatever the shift dropped; without a dropped
      bit it is the exact floor. */
  lemma FracBound(val: nat, div: nat)
    requires div > 0 && val <= div
    ensures Frac(val, div) <= SCALE
    ensures val == 0 ==> Frac(val, div) == 0
    ensures val < INTERVAL_LIMIT ==> Frac(val, div) == val * 4096 / div
  {
    var w := val * 4096 % 0x1_0000_0000;
    assert w <= val * 4096 <= SCALE * div;
    QuotientAtMost(w, div, SCALE);
    if val < INTERVAL_LIMIT {
      assert val * 4096 < WORD;
    }
  }

  lemma QuotientAtMost(a: nat, b: nat, k: nat)
    requires b > 0 && a <= k * b
    ensures a / b <= k
  {
    var q := a / b;
    assert (q - k) * b < b by {
      assert a == q * b + a % b;
      assert (q - k) * b == q * b - k * b;
    }
    FactorAtMostZero(q - k, b);
  }

  lemma FactorAtMostZero(x: int, b: nat)
    requires x * b < b
    ensures x <= 0
  {
    assert x * b == b + (x - 1) * b;
  }

  lemma QuotientShrinks(a: nat, b: nat)
    requires b > 0
    ensures 0 <= a / b <= a
  {
    assert a * b == a + a * (b - 1);
    QuotientAtMost(a, b, a);
  }

  /** While fewer than 2^20 units are counted, a ratio of at least one is at least 1.0. */
  lemma FracAtLeastOne(val: nat, div: nat)
    requires div > 0 && div <= val < INTERVAL_LIMIT
    ensures Frac(val, div) >= SCALE
  {
    assert val * 4096 % 0x1_0000_0000 == val * 4096;
    QuotientAtLeast(val * 4096, div, SCALE);
  }

  lemma FracAtMost(val: nat, div: nat, k: nat)
    requires div > 0 && val <= k * div
    ensures Frac(val, div) <= k * 4096
  {
    var w := val * 4096 % 0x1_0000_0000;
    assert w <= val * 4096 <= k * 4096 * div;
    QuotientAtMost(w, div, k * 4096);
  }

  lemma QuotientAtLeast(a: nat, b: nat, k: nat)
    requires b > 0 && k * b <= a
    ensures a / b >= k
  {
    var q := a / b;
    assert (k - q) * b < b by {
      assert a == q * b + a % b;
      assert (k - q) * b == k * b - q * b;
    }
    FactorAtMostZero(k - q, b);
  }

  lemma WholePart(a: nat, n: nat)
    requires n > 0
    ensures a / n * n <= a < (a / n + 1) * n
  {
    assert a == a / n * n + a % n;
    assert (a / n + 1) * n == a / n * n + n;
  }

  lemma ExactQuotient(a: nat, n: nat, q: nat)
    requires n > 0 && q * n <= a < (q + 1) * n
    ensures a / n == q
  {
    QuotientAtLeast(a, n, q);
    assert (a / n - q) * n == a / n * n - q * n;
    FactorAtMostZero(a / n - q, n);
  }

  /** One update never overshoots: it covers a quarter of the distance, rounded toward the
      old value, and stops exactly when fewer than four units remain. */
  lemma EwmaStep(prev: int, target: int)
    ensures var r := Ewma(prev, target);
            && Abs(target - r) == Abs(target - prev) - Abs(target - prev) / 4
            && (prev <= target ==> prev <= r <= target)
            && (target <= prev ==> target <= r <= prev)
            && (r == prev <==> Abs(target - prev) < 4)
  {
  }

  /** The product by 32 keeps exactly the residue, so a step adds a quarter of that. */
  lemma EwmaWordStep(prev: int, next: int)
    ensures EwmaWord(prev, next) == (prev + CDiv(Residue(next - prev), 4)) % 0x1_0000_0000
  {
    hide Int32, Residue, CDiv;
    var diff, q := Int32(Int32(next) - Int32(prev)), CDiv(Residue(next - prev), 4);
    DifferenceCongruent(next, prev);
    ProductKeepsResidue(diff, next - prev);
    Int32Congruent(prev, q);
    Int32Congruent(Int32(prev) + q, 0);
  }

  lemma Int32Congruent(x: int, y: int)
    ensures (Int32(x) + y) % 0x1_0000_0000 == (x + y) % 0x1_0000_0000
  {
  }

  lemma DifferenceCongruent(x: int, y: int)
    ensures (Int32(Int32(x) - Int32(y)) - (x - y)) % 0x1_0000_0000 == 0
  {
    Wraps(x);
    Wraps(y);
    Wraps(Int32(x) - Int32(y));
  }

  lemma Wraps(x: int)
    ensures exists k :: Int32(x) == x + 0x1_0000_0000 * k
  {
    var k := x / 0x1_0000_0000;
    assert Int32(x) == x + 0x1_0000_0000 * -k || Int32(x) == x + 0x1_0000_0000 * (-k - 1);
  }

  lemma ProductKeepsResidue(diff: int, exact: int)
    requires (diff - exact) % 0x1_0000_0000 == 0
    ensures CDiv(Int32((128 - 96) * diff), 128) == CDiv(Residue(exact), 4)
  {
    assert diff % 0x800_0000 == exact % 0x800_0000;
    assert 32 * diff % 0x1_0000_0000 == 32 * (diff % 0x800_0000);
    assert Int32(32 * diff) == 32 * Residue(exact);
  }

  /** The stored step is the exact one if and only if the product by 32 fits an `int`. */
  lemma EwmaFitsExactly(prev: nat, next: nat)
    requires prev < 0x8000_0000 && next < 0x8000_0000
    ensures EwmaWord(prev, next) == Ewma(prev, next) <==> -0x400_0000 <= next - prev < 0x400_0000
  {
    hide EwmaWord, Residue, CDiv;
    EwmaWordStep(prev, next);
    EwmaQuarter(prev, next);
    ResidueExact(next - prev);
    if Residue(next - prev) != next - prev {
      ResidueDiffers(prev, next);
    }
  }

  lemma EwmaQuarter(prev: nat, next: nat)
    requires prev < 0x8000_0000 && next < 0x8000_0000
    ensures 0 <= Ewma(prev, next) < 0x8000_0000 && Ewma(prev, next) == prev + CDiv(next - prev, 4)
  {
  }

  lemma ResidueExact(d: int)
    ensures -0x400_0000 <= Residue(d) < 0x400_0000
    ensures Residue(d) == d <==> -0x400_0000 <= d < 0x400_0000
    ensures Residue(d) != d ==> Abs(Residue(d) - d) >= 0x800_0000
  {
  }

  lemma ResidueDiffers(prev: nat, next: nat)
    requires prev < 0x8000_0000 && next < 0x8000_0000 && Residue(next - prev) != next - prev
    ensures (prev + CDiv(Residue(next - prev), 4)) % 0x1_0000_0000 != prev + CDiv(next - prev, 4)
  {
    hide Residue;
    var d, r := next - prev, Residue(next - prev);
    ResidueExact(d);
    assert CDiv(r, 4) != CDiv(d, 4);
    assert -0x1_0000_0000 < CDiv(r, 4) - CDiv(d, 4) < 0x1_0000_0000;
  }

  /** The product under the variance's shift is never negative. */
  lemma DeviationProduct(diff: int)
    ensures diff * Increment(diff) >= 0
    ensures Abs(diff) <= SCALE ==> diff * Increment(diff) <= SCALE * 4096 / 4
  {
    var i := Increment(diff);
    assert i == CDiv(diff, 4);
    if diff >= 0 {
      assert 0 <= i <= diff / 4;
      Product(diff, i);
    } else {
      assert 0 <= -i <= -diff / 4;
      Product(-diff, -i);
      assert diff * i == (-diff) * (-i);
    }
  }

  lemma Product(a: nat, b: nat)
    ensures a * b >= 0
    ensures a <= SCALE && b <= SCALE / 4 ==> a * b <= SCALE * 4096 / 4
  {
    if a <= SCALE && b <= SCALE / 4 {
      assert a * b <= SCALE * b;
    }
  }

  /** The variance never exceeds 3072 once it is at most 3072, and 3072 is the exact fixed
      point of the update at the largest possible deviation. */
  lemma VarianceBound(prev: nat, cur: nat, ewma: nat)
    requires prev <= 3072 && cur <= SCALE && ewma <= SCALE
    ensures 0 <= Ewmv(prev, cur, ewma) <= 3072
    ensures Ewmv(3072, SCALE, 0) == 3072
  {
    DeviationProduct(cur - ewma);
    DeviationProduct(SCALE - 0);
    assert Increment(SCALE) == 1024;
  }

  /** The variance from its inputs alone: three quarters of the old one and the deviation times its
      whole quarter. Without deviation it fades. */
  lemma VarianceExactly(prev: nat, cur: nat, ewma: nat)
    ensures var a := Abs(cur - ewma);
            Ewmv(prev, cur, ewma) == 3 * (prev + a * (a / 4) / 4096) / 4
    ensures prev > 0 ==> Ewmv(prev, cur, cur) < prev
  {
    hide Increment, CDiv;
    var diff, a := cur - ewma, Abs(cur - ewma);
    QuarterOf(diff);
    QuarterOf(0);
    SameSigns(a, a / 4);
    var product := a * (a / 4);
    assert diff * Increment(diff) == product;
    ThreeQuarters(prev + product / 4096);
    ThreeQuarters(prev);
  }

  lemma SameSigns(x: int, y: int)
    requires x >= 0 && y >= 0
    ensures (-x) * (-y) == x * y >= 0
  {
    assert (-x) * (-y) == x * y;
  }

  lemma QuarterOf(diff: int)
    ensures Increment(diff) == if diff >= 0 then diff / 4 else -((-diff) / 4)
  {
  }

  lemma ThreeQuarters(x: nat)
    ensures CDiv(96 * x, 128) == 3 * x / 4
  {
  }

  /** On fractions every `int` intermediate of the average and of the variance fits. */
  lemma FractionsFit(prev: nat, cur: nat, ewma: nat)
    requires prev <= 3072 && cur <= SCALE && ewma <= SCALE
    ensures EwmaWord(ewma, cur) == Ewma(ewma, cur)
    ensures var diff := cur - ewma;
            && Abs((128 - 96) * diff) < 0x8000_0000
            && 0 <= diff * Increment(diff) < 0x8000_0000
            && 0 <= 96 * (prev + diff * Increment(diff) / 4096) < 0x8000_0000
  {
    hide EwmaWord;
    EwmaFitsExactly(ewma, cur);
    DeviationProduct(cur - ewma);
  }

  /** Where an estimate stands after `n` intervals that all measured `target`. */
  function Tracked(start: int, target: int, n: nat): int {
    if n == 0 then start else Ewma(Tracked(start, target, n - 1), target)
  }

  /** What one update leaves of a distance. */
  function Shrunk(d: nat): nat {
    d - d / 4
  }

  /** The distance left of an initial distance `d` after `n` updates. */
  function Remaining(d: nat, n: nat): nat {
    if n == 0 then d else Remaining(Shrunk(d), n - 1)
  }

  lemma {:induction false} RemainingMonotone(d: nat, e: nat, n: nat)
    requires d <= e
    ensures Remaining(d, n) <= Remaining(e, n)
  {
    if n > 0 {
      RemainingMonotone(Shrunk(d), Shrunk(e), n - 1);
    }
  }

  lemma {:induction false} RemainingStep(d: nat, n: nat)
    ensures Remaining(d, n + 1) == Shrunk(Remaining(d, n))
  {
    if n > 0 {
      RemainingStep(Shrunk(d), n - 1);
    }
  }

  lemma {:induction false} TrackedRemaining(start: int, target: int, n: nat)
    ensures Abs(target - Tracked(start, target, n)) == Remaining(Abs(target - start), n)
    ensures start <= target ==> start <= Tracked(start, target, n) <= target
    ensures target <= start ==> target <= Tracked(start, target, n) <= start
  {
    if n > 0 {
      TrackedRemaining(start, target, n - 1);
      EwmaStep(Tracked(start, target, n - 1), target);
      RemainingStep(Abs(target - start), n - 1);
    }
  }

  lemma FourSteps(d: nat, e: nat, n: nat)
    requires e == Shrunk(Shrunk(Shrunk(Shrunk(d))))
    ensures Remaining(d, n + 4) == Remaining(e, n)
  {
    assert Remaining(d, n + 4) == Remaining(Shrunk(d), n + 3) == Remaining(Shrunk(Shrunk(d)), n + 2);
    assert Remaining(Shrunk(Shrunk(d)), n + 2) == Remaining(Shrunk(Shrunk(Shrunk(d))), n + 1);
  }

  lemma EightSteps(d: nat, mid: nat, e: nat, n: nat)
    requires mid == Shrunk(Shrunk(Shrunk(Shrunk(d)))) && e == Shrunk(Shrunk(Shrunk(Shrunk(mid))))
    ensures Remaining(d, n + 8) == Remaining(e, n)
  {
    FourSteps(d, mid, n + 4);
    FourSteps(mid, e, n);
  }

  /** Any fraction's distance is gone, up to three units, after 27 updates. */
  lemma RemainingFrom4096(n: nat)
    ensures Remaining(4096, n + 27) == 3
  {
    EightSteps(4096, 1296, 411, n + 19);
    EightSteps(411, 131, 43, n + 11);
    EightSteps(43, 15, 6, n + 3);
    LastSteps(n);
  }

  lemma LastSteps(n: nat)
    ensures Remaining(6, n + 3) == 3
  {
    assert Remaining(6, n + 3) == Remaining(5, n + 2) == Remaining(4, n + 1);
    ThreeRemains(n);
  }

  lemma {:induction false} ThreeRemains(n: nat)
    ensures Remaining(3, n) == 3
  {
    if n > 0 {
      ThreeRemains(n - 1);
    }
  }

  /** From any fraction toward any fraction: the estimate moves monotonically, never
      overshoots, and from the 27th interval on it stays put within three units. */
  lemma Convergence(start: int, target: int, n: nat)
    requires 0 <= start <= SCALE && 0 <= target <= SCALE
    ensures start <= target ==> Tracked(start, target, n) <= Tracked(start, target, n + 1) <= target
    ensures start >= target ==> Tracked(start, target, n) >= Tracked(start, target, n + 1) >= target
    ensures n >= 27 ==> Abs(target - Tracked(start, target, n)) <= 3
    ensures n >= 27 ==> Tracked(start, target, n + 1) == Tracked(start, target, n)
  {
    TrackedRemaining(start, target, n);
    EwmaStep(Tracked(start, target, n), target);
    if n >= 27 {
      RemainingMonotone(Abs(target - start), SCALE, n);
      RemainingFrom4096(n - 27);
    }
  }
}
