/** Estimated throughput of a rate (driver/vmac/rc80211_minstrel_ht.c, `minstrel_ht_get_tp_avg`). */
module Throughput {
  import opened FixedPoint

  /** The estimated time of one frame, in nanoseconds; CCK air times include their overhead. */
  function Nsecs(overhead: nat, avgAmpdu: nat, cck: bool, airtime: nat): (r: nat)
    requires !cck ==> Trunc(avgAmpdu) > 0
    ensures airtime <= r <= airtime + 1000 * overhead
  {
    if cck then airtime
    else
      QuotientShrinks(1000 * overhead, Trunc(avgAmpdu));
      1000 * overhead / Trunc(avgAmpdu) + airtime
  }

  const TENTH: nat := Frac(10, 100)
  const NINE_TENTHS: nat := Frac(90, 100)

  function Saturated(prob: nat): nat {
    if prob > NINE_TENTHS then NINE_TENTHS else prob
  }

  /** Frames per 100 ms at success estimate `prob`, scaled down to a whole number. */
  function FrameRate(prob: nat, nsecs: nat): nat
    requires nsecs > 0
  {
    Trunc(100 * (Saturated(prob) * 1000000 / nsecs))
  }

  /** `minstrel_ht_get_tp_avg`. The precondition is what the division demands: a rate that is
      not written off has an air time, and the average aggregate holds at least one frame. */
  function TpAvg(overhead: nat, avgAmpdu: nat, cck: bool, airtime: nat, prob: nat): nat
    requires prob >= TENTH ==> avgAmpdu >= SCALE && airtime > 0
  {
    if prob < TENTH then 0 else FrameRate(prob, Nsecs(overhead, avgAmpdu, cck, airtime))
  }

  /** The product below 90 % is taken in `int`. It overflows exactly from 2148 (52 %) on; yet
      converted to unsigned it is the exact product. */
  lemma SignedProductWraps(prob: nat)
    requires prob <= NINE_TENTHS
    ensures Int32(prob * 1000000) != prob * 1000000 <==> 2148 <= prob
    ensures Int32(prob * 1000000) % 0x1_0000_0000 == prob * 1000000
  {
    assert NINE_TENTHS == 3686;
  }

  /** The estimate, from its inputs alone. With `n` whole frames in the average aggregate, `t` is
      the share of the overhead that falls to one frame, `q` the frames per millisecond that
      this leaves at a success estimate of 90 % at most. CCK has no share. */
  lemma TpExactly(overhead: nat, avgAmpdu: nat, cck: bool, airtime: nat, prob: nat) returns (n: nat, t: nat, q: nat)
    requires avgAmpdu >= 4096 && airtime > 0
    ensures n * 4096 <= avgAmpdu < (n + 1) * 4096
    ensures if cck then t == 0 else t * n <= 1000 * overhead < (t + 1) * n
    ensures var p := if prob > 3686 then 3686 else prob;
            q * (airtime + t) <= p * 1000000 < (q + 1) * (airtime + t)
    ensures TpAvg(overhead, avgAmpdu, cck, airtime, prob) == if prob < 409 then 0 else 100 * q / 4096
  {
    hide Nsecs, FrameRate;
    assert TENTH == 409;
    n, t := OverheadShare(overhead, avgAmpdu, cck, airtime);
    q := RateAt(prob, airtime + t);
  }

  lemma OverheadShare(overhead: nat, avgAmpdu: nat, cck: bool, airtime: nat) returns (n: nat, t: nat)
    requires avgAmpdu >= 4096
    ensures n * 4096 <= avgAmpdu < (n + 1) * 4096
    ensures if cck then t == 0 else t * n <= 1000 * overhead < (t + 1) * n
    ensures Nsecs(overhead, avgAmpdu, cck, airtime) == airtime + t
  {
    n := avgAmpdu / 4096;
    t := if cck then 0 else 1000 * overhead / n;
    WholePart(1000 * overhead, n);
  }

  lemma RateAt(prob: nat, nsecs: nat) returns (q: nat)
    requires nsecs > 0
    ensures var p := if prob > 3686 then 3686 else prob; q * nsecs <= p * 1000000 < (q + 1) * nsecs
    ensures FrameRate(prob, nsecs) == 100 * q / 4096
  {
    assert NINE_TENTHS == 3686;
    var product := Saturated(prob) * 1000000;
    q := product / nsecs;
    WholePart(product, nsecs);
  }

  /** Longer average aggregates and shorter air times never lower the estimate. */
  lemma TpGrows(overhead: nat, less: nat, more: nat, cck: bool, longer: nat, shorter: nat, prob: nat)
    requires SCALE <= less <= more && 0 < shorter <= longer
    ensures TpAvg(overhead, less, cck, longer, prob) <= TpAvg(overhead, more, cck, shorter, prob)
  {
    if prob >= TENTH {
      if !cck {
        DivisorsOrdered(1000 * overhead, Trunc(less), Trunc(more));
      }
      DivisorsOrdered(Saturated(prob) * 1000000,
                      Nsecs(overhead, more, cck, shorter), Nsecs(overhead, less, cck, longer));
    }
  }

  lemma DivisorsOrdered(a: nat, m: nat, n: nat)
    requires 0 < m <= n
    ensures a / n <= a / m
  {
    WholePart(a, n);
    SmallerFactor(a / n, m, n);
    QuotientAtLeast(a, m, a / n);
  }

  lemma SmallerFactor(q: nat, m: nat, n: nat)
    requires m <= n
    ensures q * m <= q * n
  {
  }

  /** No unsigned intermediate of the throughput estimate overflows. */
  lemma TpFits(overhead: nat, avgAmpdu: nat, cck: bool, airtime: nat, prob: nat)
    requires overhead <= 1000 && prob <= SCALE && avgAmpdu >= SCALE
    requires 443300 <= airtime <= 192948000
    ensures Nsecs(overhead, avgAmpdu, cck, airtime) < WORD
    ensures Saturated(prob) * 1000000 < WORD
    ensures 100 * (Saturated(prob) * 1000000 / Nsecs(overhead, avgAmpdu, cck, airtime)) < WORD
    ensures TpAvg(overhead, avgAmpdu, cck, airtime, prob) <= 203
  {
    FrameRateFits(prob, Nsecs(overhead, avgAmpdu, cck, airtime));
  }

  lemma FrameRateFits(prob: nat, nsecs: nat)
    requires nsecs >= 443300
    ensures 100 * (Saturated(prob) * 1000000 / nsecs) < WORD && FrameRate(prob, nsecs) <= 203
  {
    assert Saturated(prob) * 1000000 <= 8315 * nsecs;
    QuotientAtMost(Saturated(prob) * 1000000, nsecs, 8315);
  }

  /** A better success estimate never lowers the throughput estimate. */
  lemma TpMonotone(overhead: nat, avgAmpdu: nat, cck: bool, airtime: nat, p: nat, q: nat)
    requires avgAmpdu >= SCALE && airtime > 0 && p <= q
    ensures TpAvg(overhead, avgAmpdu, cck, airtime, p) <= TpAvg(overhead, avgAmpdu, cck, airtime, q)
  {
    var a, b := Saturated(p) * 1000000, Saturated(q) * 1000000;
    var n := Nsecs(overhead, avgAmpdu, cck, airtime);
    QuotientsOrdered(a, b, n);
  }

  lemma QuotientsOrdered(a: nat, b: nat, n: nat)
    requires n > 0 && a <= b
    ensures a / n <= b / n
  {
    assert a / n * n <= a;
    QuotientAtLeast(b, n, a / n);
  }
}
