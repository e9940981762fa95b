/** Statistics of one rate and their periodic folding into the moving average
    (driver/vmac/rc80211_minstrel.c, `minstrel_calc_rate_stats`). */
module RateStats {
  import opened FixedPoint

  /** `struct minstrel_rate_stats`; the packet counters do not wrap. */
  datatype Stats = Stats(
    attempts: nat, success: nat, lastAttempts: nat, lastSuccess: nat, attHist: nat, succHist: nat,
    prob: nat, probVar: nat, retryCount: nat, retryRts: nat, retryUpdated: bool)

  const FRESH := Stats(0, 0, 0, 0, 0, 0, 0, 0, 0, 0, false)

  /** A store into a 16-bit field. */
  function U16(x: int): nat {
    x % 0x10000
  }

  /** The new estimate, before the 16-bit store, when the interval measured `cur`. */
  function BlendProb(s: Stats, cur: nat): int {
    if s.attHist == 0 then cur else Ewma(s.prob, cur)
  }

  function BlendVar(s: Stats, cur: nat): int {
    if s.attHist == 0 then s.probVar else Ewmv(s.probVar, cur, s.prob)
  }

  function NewProb(s: Stats): int
    requires s.attempts > 0
  {
    BlendProb(s, Frac(s.success, s.attempts))
  }

  function NewVar(s: Stats): int
    requires s.attempts > 0
  {
    BlendVar(s, Frac(s.success, s.attempts))
  }

  /** Store new estimates, move the counters to the history and start a new interval. */
  function Folded(s: Stats, prob: int, probVar: int): Stats {
    s.(prob := U16(prob), probVar := U16(probVar),
    attHist := s.attHist + s.attempts, succHist := s.succHist + s.success,
    lastSuccess := s.success, lastAttempts := s.attempts, success := 0, attempts := 0)
  }

  /** `minstrel_calc_rate_stats`. */
  function Fold(s: Stats): Stats {
    if s.attempts == 0 then s.(lastSuccess := s.success, lastAttempts := 0, success := 0)
    else Folded(s, NewProb(s), NewVar(s))
  }

  /** One completion's share of a cell. */
  function Credit(s: Stats, tries: nat, acked: nat): Stats {
    s.(attempts := s.attempts + tries, success := s.success + acked)
  }

  /** What `minstrel_clear_unfitable_rate_stats` does to one cell. */
  function Clear(s: Stats): Stats {
    if s.succHist == 0 then s
    else s.(attempts := 1, lastAttempts := 0, attHist := 0, success := 0, lastSuccess := 0, succHist := 0)
  }

  /** The bounds every cell keeps, and: an estimate above zero rests on a recorded success,
      unless the next fold is going to replace it. */
  predicate CellOk(s: Stats) {
    && s.success <= s.attempts
    && s.succHist <= s.attHist
    && s.prob <= SCALE
    && s.probVar <= 3072
    && (s.prob > 0 ==> s.succHist > 0 || (s.attHist == 0 && s.attempts > 0))
  }

  lemma BlendBounds(s: Stats, cur: nat)
    requires CellOk(s) && cur <= SCALE
    ensures 0 <= BlendProb(s, cur) <= SCALE && 0 <= BlendVar(s, cur) <= 3072
    ensures cur == 0 && (s.prob == 0 || s.attHist == 0) ==> BlendProb(s, cur) == 0
  {
    if s.attHist > 0 {
      EwmaStep(s.prob, cur);
      VarianceBound(s.probVar, cur, s.prob);
    }
  }

  lemma FoldedValues(s: Stats)
    requires CellOk(s) && s.attempts > 0
    ensures 0 <= NewProb(s) <= SCALE && 0 <= NewVar(s) <= 3072
    ensures s.success == 0 && (s.prob == 0 || s.attHist == 0) ==> NewProb(s) == 0
  {
    FracBound(s.success, s.attempts);
    BlendBounds(s, Frac(s.success, s.attempts));
  }

  lemma FoldedKeepsBounds(s: Stats, prob: int, probVar: int)
    requires CellOk(s) && s.attempts > 0 && 0 <= prob <= SCALE && 0 <= probVar <= 3072
    requires s.success == 0 && (s.prob == 0 || s.attHist == 0) ==> prob == 0
    ensures CellOk(Folded(s, prob, probVar))
    ensures Folded(s, prob, probVar).prob == prob && Folded(s, prob, probVar).probVar == probVar
  {
  }

  /** Folding keeps the bounds, neither 16-bit store drops a bit, and the average is what its
      `int` computation gives. */
  lemma FoldKeepsBounds(s: Stats)
    requires CellOk(s)
    ensures CellOk(Fold(s))
    ensures s.attempts > 0 && s.attHist > 0 ==> Fold(s).prob == EwmaWord(s.prob, Frac(s.success, s.attempts))
    ensures s.attempts > 0 ==> Fold(s).prob == NewProb(s) && Fold(s).probVar == NewVar(s)
  {
    hide EwmaWord;
    if s.attempts > 0 {
      FoldedValues(s);
      FoldedKeepsBounds(s, NewProb(s), NewVar(s));
      FracBound(s.success, s.attempts);
      FractionsFit(s.probVar, Frac(s.success, s.attempts), s.prob);
    }
  }

  /** Nothing is lost: what was counted moves to the history. */
  lemma FoldConserves(s: Stats)
    requires CellOk(s)
    ensures var f := Fold(s);
            && f.attempts == 0 == f.success
            && f.attHist == s.attHist + s.attempts && f.succHist == s.succHist + s.success
            && f.lastAttempts == s.attempts && f.lastSuccess == s.success
            && (s.attempts == 0 ==> f.prob == s.prob && f.probVar == s.probVar)
            && f.retryCount == s.retryCount && f.retryRts == s.retryRts && f.retryUpdated == s.retryUpdated
  {
    hide Frac, Ewma, Ewmv;
  }

  /** Intervals as (successes, attempts). */
  type Intervals = seq<(nat, nat)>

  ghost predicate Honest(ivs: Intervals) {
    forall i :: 0 <= i < |ivs| ==> ivs[i].0 <= ivs[i].1
  }

  /** A cell after a run of intervals. */
  function History(s: Stats, ivs: Intervals): Stats {
    if ivs == [] then s
    else
      var iv := ivs[|ivs| - 1];
      Fold(Credit(History(s, ivs[..|ivs| - 1]), iv.1, iv.0))
  }

  /** Over every run in which no interval acknowledges more than was sent, the estimate
      stays within [0, 1] and the variance within 3072. */
  lemma {:induction false} BoundsOverRuns(s: Stats, ivs: Intervals)
    requires CellOk(s) && Honest(ivs)
    ensures CellOk(History(s, ivs))
  {
    if ivs != [] {
      var init, iv := ivs[..|ivs| - 1], ivs[|ivs| - 1];
      BoundsOverRuns(s, init);
      FoldKeepsBounds(Credit(History(s, init), iv.1, iv.0));
    }
  }

  /** Every interval sends something and measures the same ratio. */
  ghost predicate Steady(ivs: Intervals, ratio: nat) {
    forall i :: 0 <= i < |ivs| ==> Measures(ivs[i], ratio)
  }

  ghost predicate Measures(iv: (nat, nat), ratio: nat) {
    iv.1 > 0 && Frac(iv.0, iv.1) == ratio
  }

  /** Where a cell starts tracking: without a history the first interval sets the estimate. */
  function TrackedFrom(s: Stats, ratio: nat): nat {
    if s.attHist == 0 then ratio else s.prob
  }

  lemma TrackStep(h: Stats, iv: (nat, nat), ratio: nat)
    requires CellOk(h) && h.attempts == 0 == h.success && iv.0 <= iv.1 && Measures(iv, ratio)
    ensures var f := Fold(Credit(h, iv.1, iv.0));
            && f.prob == (if h.attHist == 0 then ratio else Ewma(h.prob, ratio))
            && f.attHist > 0 && f.attempts == 0 == f.success
  {
    hide Frac, EwmaWord, Ewmv;
    FoldKeepsBounds(Credit(h, iv.1, iv.0));
  }

  /** With the same measured ratio in every interval, the estimate of a cell is the tracked
      moving average, to which `FixedPoint.Convergence` applies. */
  lemma {:induction false} SteadyLinkTracks(s: Stats, ivs: Intervals, ratio: nat)
    requires CellOk(s) && s.attempts == 0 && Honest(ivs) && Steady(ivs, ratio)
    ensures ivs != [] ==> History(s, ivs).prob == Tracked(TrackedFrom(s, ratio), ratio, |ivs|)
    ensures ivs != [] ==> History(s, ivs).attHist > 0
    ensures History(s, ivs).attempts == 0 == History(s, ivs).success
  {
    hide Fold, Measures, Credit;
    if ivs != [] {
      var init, iv := ivs[..|ivs| - 1], ivs[|ivs| - 1];
      SteadyLinkTracks(s, init, ratio);
      BoundsOverRuns(s, init);
      TrackStep(History(s, init), iv, ratio);
      TrackedRemaining(TrackedFrom(s, ratio), ratio, |init|);
    }
  }

  /** After 28 or more such intervals the estimate is within three units of the true ratio,
      and the last one did not move it. */
  lemma SteadyLinkSettles(s: Stats, ivs: Intervals, ratio: nat)
    requires CellOk(s) && s.attempts == 0 && Honest(ivs) && |ivs| > 27
    requires Steady(ivs, ratio)
    ensures Abs(ratio - History(s, ivs).prob) <= 3
    ensures History(s, ivs).prob == History(s, ivs[..|ivs| - 1]).prob
  {
    hide History, Fold, Tracked, Frac;
    assert ratio <= SCALE by {
      assert Measures(ivs[0], ratio);
      FracBound(ivs[0].0, ivs[0].1);
    }
    var n, start := |ivs| - 1, TrackedFrom(s, ratio);
    assert History(s, ivs).prob == Tracked(start, ratio, n + 1) by {
      SteadyLinkTracks(s, ivs, ratio);
    }
    assert History(s, ivs[..n]).prob == Tracked(start, ratio, n) by {
      SteadyLinkTracks(s, ivs[..n], ratio);
    }
    Convergence(start, ratio, n);
  }

  /** Forgetting: after a clear, the next estimate is the ratio of what was sent since, with
      one failed attempt added, whatever the cell held before; with nothing sent it is 0. */
  lemma ClearForgets(s: Stats, tries: nat, acked: nat)
    requires CellOk(s) && s.succHist != 0 && acked <= tries
    ensures CellOk(Clear(s))
    ensures Fold(Credit(Clear(s), tries, acked)).prob == Frac(acked, tries + 1)
    ensures Fold(Clear(s)).prob == 0
  {
    FoldKeepsBounds(Credit(Clear(s), tries, acked));
    FoldKeepsBounds(Clear(s));
  }
}
