/** The clock self-check (driver/vmac/wifi_clock_measure.c): how long the counter is gated, and
    which counter readings pass for the expected frequency. All arithmetic is 32-bit unsigned. */
module ClockMeasure {
  type u32 = x: nat | x < 0x1_0000_0000

  const COUNTER_FULL: nat := 0xFFFFF

  /** `clk_msr_time_set`: the gate time in microseconds. */
  function GateTime(f: u32): (g: u32)
    ensures g >= 1
  {
    if f == 0 || f / 1000000 >= 160 then 1 else 160000000 / f + 1
  }

  /** The measured frequency as the driver computes it. */
  function MeasuredFreq(f: u32, val: nat): nat {
    (val * 1000000) % 0x1_0000_0000 / GateTime(f)
  }

  function Tolerance(f: u32): nat {
    (f * 4) % 0x1_0000_0000 / 100
  }

  /** The verdict of `clk_msr_calc` on a 20-bit counter reading. */
  predicate Accept(f: u32, val: nat)
    requires val <= COUNTER_FULL
  {
    && f != 0
    && val != COUNTER_FULL
    && MeasuredFreq(f, val) >= (f - Tolerance(f)) % 0x1_0000_0000
    && MeasuredFreq(f, val) <= (f + Tolerance(f)) % 0x1_0000_0000
  }

  /** The gate is long enough for at least 160 counts of the expected clock, and no longer than
      one microsecond more than that needs. */
  lemma GateIsTight(f: u32)
    requires f > 0
    ensures f * GateTime(f) >= 160000000
    ensures GateTime(f) > 1 ==> f * (GateTime(f) - 1) <= 160000000
  {
    var g := GateTime(f);
    if f / 1000000 < 160 {
      DivMul(160000000, f);
      assert f * g == f * (160000000 / f) + f;
    }
  }

  lemma DivMul(a: nat, b: nat)
    requires b > 0
    ensures a / b * b <= a < a / b * b + b
  {
  }

  /** The gate minus one fits its 16-bit register field exactly when 2442 Hz or more (or
      nothing) is expected. */
  lemma GateFitsExactly(f: u32)
    ensures GateTime(f) - 1 <= 0xFFFF <==> f == 0 || f >= 2442
  {
    if f > 0 && f / 1000000 < 160 {
      var q := 160000000 / f;
      DivMul(160000000, f);
      if f >= 2442 && q >= 65536 {
        MulAtLeast(q, f, 65536, 2442);
        assert false;
      }
      if f <= 2441 && q <= 65535 {
        MulAtLeast(65536, 2441, q + 1, f);
      }
    }
  }

  lemma MulAtLeast(a: nat, b: nat, c: nat, d: nat)
    requires a >= c && b >= d
    ensures a * b >= c * d
  {
    assert a * b == c * d + (a - c) * b + c * (b - d);
  }

  /** What the counter shows after gating a clock of `f` Hz for `g` microseconds. */
  function Reading(f: nat, g: nat): nat {
    f * g / 1000000
  }

  /** An exact clock shows at least 160 and at most 4294 counts, so nothing wraps. */
  lemma ExactReading(f: u32)
    requires f > 0
    ensures var v := Reading(f, GateTime(f)); 160 <= v <= 4294 && v * 1000000 <= f * GateTime(f) < v * 1000000 + 1000000
  {
    GateIsTight(f);
    DivMul(f * GateTime(f), 1000000);
    if GateTime(f) > 1 {
      assert f * GateTime(f) == f * (GateTime(f) - 1) + f;
      assert f < 160000000;
    }
  }

  lemma NotAbove(f: nat, g: nat, m: nat)
    requires g > 0 && m * g <= f * g
    ensures m <= f
  {
    if m > f {
      MulAtLeast(m, g, f + 1, g);
    }
  }

  /** Two roundings cost less than 4 %. */
  lemma NotBelow(f: nat, g: nat, m: nat)
    requires f >= 2442 && f * g >= 160000000 && m <= f
    requires f * g < (m + 1) * g + 1000000
    ensures f - m <= f * 4 / 100
  {
    var d := f - m - 1;
    assert d * g == f * g - (m + 1) * g;
    if 25 * (d + 1) > f {
      MulAtLeast(25 * d + 24, g, f, g);
      assert (25 * d + 24) * g == 25 * (d * g) + 24 * g;
      MulAtLeast(f, g, 2442, g);
      assert false;
    }
  }

  /** Completeness, exactly: for every expected frequency whose gate fits, an exact clock is
      accepted below 2^30 Hz without condition, and from there on, where the product behind
      the tolerance wraps, if and only if the wrapped tolerance still covers the fraction of a
      megahertz the counter drops and the upper limit does not wrap. */
  lemma ExactClockAccepted(f: u32)
    requires f >= 2442
    ensures Accept(f, ExactCount(f)) <==>
            f < 0x4000_0000 || (f % 1000000 <= Tolerance(f) && f + Tolerance(f) < 0x1_0000_0000)
  {
    if f < 0x4000_0000 {
      AcceptedBelow(f);
    } else {
      assert GateTime(f) == 1 && ExactCount(f) == f / 1000000;
      assert MeasuredFreq(f, ExactCount(f)) == f - f % 1000000;
    }
  }

  /** The reading of an exact clock. */
  function ExactCount(f: u32): (v: nat)
    ensures v <= 4294
  {
    if f == 0 then 0 else ExactReading(f); Reading(f, GateTime(f))
  }

  /** Below 2^30 Hz and up to 4294 counts no step of the check wraps. */
  lemma AcceptUnwrapped(f: u32, v: nat)
    requires 0 < f < 0x4000_0000 && v <= 4294
    ensures Accept(f, v) <==> f - f * 4 / 100 <= v * 1000000 / GateTime(f) <= f + f * 4 / 100
  {
    hide GateTime, MeasuredFreq, Tolerance;
    NothingWraps(f, v);
    var t := f * 4 / 100;
    assert (f - t) % 0x1_0000_0000 == f - t && (f + t) % 0x1_0000_0000 == f + t;
  }

  lemma NothingWraps(f: u32, v: nat)
    requires f < 0x4000_0000 && v <= 4294
    ensures MeasuredFreq(f, v) == v * 1000000 / GateTime(f) && Tolerance(f) == f * 4 / 100
  {
    hide GateTime;
    assert v * 1000000 % 0x1_0000_0000 == v * 1000000;
  }

  lemma AcceptedBelow(f: u32)
    requires 2442 <= f < 0x4000_0000
    ensures Accept(f, ExactCount(f))
  {
    hide GateTime, Accept;
    var v := ExactCount(f);
    ExactReading(f);
    GateIsTight(f);
    AcceptUnwrapped(f, v);
    RoundingCost(f, GateTime(f), v);
  }

  lemma RoundingCost(f: nat, g: nat, v: nat)
    requires f >= 2442 && g > 0 && f * g >= 160000000 && v * 1000000 <= f * g < v * 1000000 + 1000000
    ensures f - f * 4 / 100 <= v * 1000000 / g <= f
  {
    var m := v * 1000000 / g;
    DivMul(v * 1000000, g);
    assert (m + 1) * g == m * g + g;
    NotAbove(f, g, m);
    NotBelow(f, g, m);
  }

  /** The true frequency lies within 4 % of the expected one, give or take what one count and
      the rounding to whole hertz hide. */
  predicate Within(actual: nat, f: u32) {
    actual >= f - f * 4 / 100 && (actual - (f + f * 4 / 100) - 1) * GateTime(f) < 1000000
  }

  /** Soundness, exactly: when a reading is accepted, the clock it was taken from is as good as
      the check claims if and only if the reading is at most 4294, the largest one whose
      conversion to hertz does not wrap. */
  lemma AcceptedIsWithin(f: u32, actual: nat)
    requires 2442 <= f < 0x4000_0000
    requires Reading(actual, GateTime(f)) <= COUNTER_FULL && Accept(f, Reading(actual, GateTime(f)))
    ensures Within(actual, f) <==> Reading(actual, GateTime(f)) <= 4294
  {
    hide GateTime, Accept, Within;
    var v := Reading(actual, GateTime(f));
    DivMul(actual * GateTime(f), 1000000);
    if v <= 4294 {
      AcceptUnwrapped(f, v);
      CloseEnough(f, actual, v);
    } else {
      TooFast(f, actual);
    }
  }

  lemma CloseEnough(f: u32, actual: nat, v: nat)
    requires v * 1000000 <= actual * GateTime(f) < v * 1000000 + 1000000
    requires f - f * 4 / 100 <= v * 1000000 / GateTime(f) <= f + f * 4 / 100
    ensures Within(actual, f)
  {
    hide GateTime;
    var g, top := GateTime(f), f + f * 4 / 100;
    var m := v * 1000000 / g;
    DivMul(v * 1000000, g);
    NotAbove(actual, g, m);
    MulAtLeast(top + 1, g, m + 1, g);
    assert (m + 1) * g == m * g + g;
    assert (actual - top - 1) * g == actual * g - (top + 1) * g;
  }

  lemma TooFast(f: u32, actual: nat)
    requires 2442 <= f < 0x4000_0000 && actual * GateTime(f) >= 4295000000
    ensures !Within(actual, f)
  {
    var g := GateTime(f);
    GateIsTight(f);
    var t := f * 4 / 100;
    MulAtLeast(f, g, 25 * t, g);
    assert 25 * t * g == 25 * (t * g);
    assert (actual - (f + t) - 1) * g == actual * g - f * g - t * g - g;
    MulAtLeast(f, g, 2442, g);
    if g > 1 {
      assert f * g == f * (g - 1) + f;
      assert f < 160000000;
    }
  }

  /** The three limits are real: 2441 Hz needs a longer gate than the field holds, an exact
      2^30 Hz clock is turned down, and a clock 27 times too fast passes for 160 MHz. */
  lemma LimitsAreReal()
    ensures GateTime(2441) - 1 > 0xFFFF
    ensures !Accept(0x4000_0000, ExactCount(0x4000_0000))
    ensures Reading(4455000000, GateTime(160000000)) == 4455 && Accept(160000000, 4455)
  {
    ExactClockAccepted(0x4000_0000);
    assert GateTime(160000000) == 1;
    assert 4455 * 1000000 % 0x1_0000_0000 == 160032704;
  }
}
