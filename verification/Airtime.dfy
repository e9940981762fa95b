/** Retry budgets (driver/vmac/rc80211_minstrel_ht.c, `minstrel_calc_retransmit`): how many
    transmissions of a frame fit into one segment of air time. */
module Airtime {

  // ----- Budgets over any cost of the j-th transmission

  /** Air time of the first `n` transmissions. */
  ghost function Total(cost: seq<nat>, n: nat): nat
    requires n <= |cost|
  {
    if n == 0 then 0 else Total(cost, n - 1) + cost[n - 1]
  }

  /** `r` is the largest number of tries from 2 to the last costed one whose air time is below `segment`;
      two tries are always granted. */
  ghost predicate IsBudget(cost: seq<nat>, segment: nat, r: nat) {
    && 2 <= r <= |cost|
    && (r == 2 || Total(cost, r) < segment)
    && (r == |cost| || Total(cost, r + 1) >= segment)
  }

  lemma {:induction false} TotalGrows(cost: seq<nat>, m: nat, n: nat)
    requires m <= n <= |cost|
    ensures Total(cost, m) <= Total(cost, n)
  {
    if m < n {
      TotalGrows(cost, m, n - 1);
    }
  }

  lemma {:induction false} TotalMonotone(cost: seq<nat>, more: seq<nat>, n: nat)
    requires n <= |cost| == |more| && forall j :: 0 <= j < |cost| ==> cost[j] <= more[j]
    ensures Total(cost, n) <= Total(more, n)
  {
    if n > 0 {
      TotalMonotone(cost, more, n - 1);
    }
  }

  /** At most one number is the budget. */
  lemma BudgetUnique(cost: seq<nat>, segment: nat, a: nat, b: nat)
    requires IsBudget(cost, segment, a) && IsBudget(cost, segment, b)
    ensures a == b
  {
    if a < b {
      TotalGrows(cost, a + 1, b);
    } else if b < a {
      TotalGrows(cost, b + 1, a);
    }
  }

  /** A larger cost never grants more tries. */
  lemma CostlierNeverGrantsMore(cost: seq<nat>, more: seq<nat>, segment: nat, r: nat, p: nat)
    requires |cost| == |more| && forall j :: 0 <= j < |cost| ==> cost[j] <= more[j]
    requires IsBudget(cost, segment, r) && IsBudget(more, segment, p)
    ensures p <= r
  {
    if p > r {
      TotalGrows(cost, r + 1, p);
      TotalMonotone(cost, more, p);
    }
  }

  /** How many tries a running count has granted after `n` transmissions. */
  ghost function Granted(cost: seq<nat>, segment: nat, n: nat): nat
    requires n <= |cost|
  {
    if n <= 2 then 2 else Granted(cost, segment, n - 1) + if Total(cost, n) < segment then 1 else 0
  }

  lemma {:induction false} GrantedWhileFitting(cost: seq<nat>, segment: nat, n: nat)
    requires 2 <= n <= |cost| && (n == 2 || Total(cost, n) < segment)
    ensures Granted(cost, segment, n) == n
  {
    if n > 2 {
      TotalGrows(cost, n - 1, n);
      GrantedWhileFitting(cost, segment, n - 1);
    }
  }

  /** Once a transmission does not fit, or the limit is reached, the running count is the budget. */
  lemma {:induction false} GrantedIsBudget(cost: seq<nat>, segment: nat, n: nat)
    requires 3 <= n <= |cost| && (n == |cost| || Total(cost, n) >= segment)
    ensures IsBudget(cost, segment, Granted(cost, segment, n))
  {
    if Total(cost, n) < segment {
      GrantedWhileFitting(cost, segment, n);
    } else if n == 3 || Total(cost, n - 1) < segment {
      GrantedWhileFitting(cost, segment, n - 1);
    } else {
      GrantedIsBudget(cost, segment, n - 1);
    }
  }

  // ----- The driver's costs

  /** `struct minstrel_priv`'s contention and retry limits. */
  datatype Limits = Limits(cwMin: nat, cwMax: nat, segment: nat, maxRetry: nat)

  /** The limits this driver runs with: three tries per rate. */
  const DRIVER_LIMITS := Limits(15, 1023, 6000, 3)

  /** The window after a collision: doubled plus one, up to the maximum. */
  function Widen(lim: Limits, cw: nat): nat {
    if 2 * cw + 1 < lim.cwMax then 2 * cw + 1 else lim.cwMax
  }

  /** The contention window of the `j`-th transmission. */
  function Window(lim: Limits, j: nat): nat {
    if j == 0 then lim.cwMin else Widen(lim, Window(lim, j - 1))
  }

  /** The back-off window starts at cwMin, never shrinks and never exceeds cwMax. */
  lemma {:induction false} WindowBounds(lim: Limits, j: nat)
    requires lim.cwMin <= lim.cwMax
    ensures lim.cwMin <= Window(lim, j) <= Window(lim, j + 1) <= lim.cwMax
  {
    if j > 0 {
      WindowBounds(lim, j - 1);
    }
  }

  /** The loop tests the limit only after granting a third try. */
  function Limit(lim: Limits): nat {
    if lim.maxRetry < 3 then 3 else lim.maxRetry
  }

  /** Of each transmission: expected back-off in slots of 9 us, plus overhead plus data. */
  function Cost(lim: Limits, overhead: nat, data: nat): (cost: seq<nat>)
    ensures |cost| == Limit(lim)
    ensures forall j :: 0 <= j < |cost| ==> cost[j] == 9 * Window(lim, j) / 2 + overhead + data
  {
    seq(Limit(lim), (j: nat) => 9 * Window(lim, j) / 2 + overhead + data)
  }

  /** `retries` is what the retry loop computes for the given overhead. */
  ghost predicate IsRetryCount(lim: Limits, overhead: nat, data: nat, retries: nat) {
    IsBudget(Cost(lim, overhead, data), lim.segment, retries)
  }

  /** The one number that is the retry count. */
  ghost function RetryCount(lim: Limits, overhead: nat, data: nat): (r: nat)
    ensures IsRetryCount(lim, overhead, data, r)
    ensures forall other :: IsRetryCount(lim, overhead, data, other) ==> other == r
  {
    var cost := Cost(lim, overhead, data);
    var r := Granted(cost, lim.segment, Limit(lim));
    GrantedIsBudget(cost, lim.segment, Limit(lim));
    assert forall other :: IsRetryCount(lim, overhead, data, other) ==> other == r by {
      forall other | IsRetryCount(lim, overhead, data, other)
        ensures other == r
      {
        BudgetUnique(cost, lim.segment, other, r);
      }
    }
    r
  }

  lemma FirstTwo(lim: Limits, overhead: nat, data: nat)
    ensures Total(Cost(lim, overhead, data), 2) ==
            9 * lim.cwMin / 2 + 9 * Widen(lim, lim.cwMin) / 2 + 2 * (overhead + data)
    ensures Window(lim, 2) == Widen(lim, Widen(lim, lim.cwMin))
  {
    var c := Cost(lim, overhead, data);
    assert Window(lim, 1) == Widen(lim, lim.cwMin);
    assert Total(c, 1) == c[0];
    assert Total(c, 2) == c[0] + c[1];
  }

  lemma NextTotal(lim: Limits, overhead: nat, data: nat, n: nat)
    requires n < Limit(lim)
    ensures Total(Cost(lim, overhead, data), n + 1)
         == Total(Cost(lim, overhead, data), n) + 9 * Window(lim, n) / 2 + overhead + data
  {
  }

  /** The do-while loop of `minstrel_calc_retransmit`, entered after two transmissions. */
  method GrantMore(lim: Limits, overhead: nat, overheadRts: nat, data: nat, window: nat, time: nat, timeRts: nat)
    returns (retries: nat, guarded: nat, ghost n: nat)
    requires window == Window(lim, 2)
    requires time == Total(Cost(lim, overhead, data), 2) && timeRts == Total(Cost(lim, overheadRts, data), 2)
    ensures 3 <= n <= Limit(lim)
    ensures n == Limit(lim) || Total(Cost(lim, overhead, data), n) >= lim.segment
    ensures retries == Granted(Cost(lim, overhead, data), lim.segment, n)
    ensures guarded == Granted(Cost(lim, overheadRts, data), lim.segment, n)
  {
    ghost var cost, more := Cost(lim, overhead, data), Cost(lim, overheadRts, data);
    retries, guarded, n := 2, 2, 2;
    var cw, txTime, txTimeRts, again := window, time, timeRts, true;
    while again
      invariant 2 <= n <= Limit(lim) && cw == Window(lim, n)
      invariant txTime == Total(cost, n) && txTimeRts == Total(more, n)
      invariant retries == Granted(cost, lim.segment, n) && guarded == Granted(more, lim.segment, n)
      invariant if again then n == retries < Limit(lim) else n >= 3 && (n == Limit(lim) || txTime >= lim.segment)
      decreases Limit(lim) - n
    {
      NextTotal(lim, overhead, data, n);
      NextTotal(lim, overheadRts, data, n);
      n := n + 1;
      var ctime := 9 * cw / 2;
      cw := Widen(lim, cw);
      txTime := txTime + ctime + overhead + data;
      txTimeRts := txTimeRts + ctime + overheadRts + data;
      if txTimeRts < lim.segment {
        guarded := guarded + 1;
      }
      again := txTime < lim.segment;
      if again {
        retries := retries + 1;
        again := retries < lim.maxRetry;
      }
    }
  }

  /** The retry counting of `minstrel_calc_retransmit`: it ends with the budget without
      protection and the budget with RTS/CTS protection. */
  method CountRetries(lim: Limits, overhead: nat, overheadRts: nat, data: nat)
    returns (retries: nat, guarded: nat)
    requires overhead <= overheadRts
    ensures retries == RetryCount(lim, overhead, data)
    ensures guarded == RetryCount(lim, overheadRts, data)
  {
    var cw := lim.cwMin;
    var ctime := 9 * cw / 2;
    cw := Widen(lim, cw);
    ctime := ctime + 9 * cw / 2;
    cw := Widen(lim, cw);
    FirstTwo(lim, overhead, data);
    FirstTwo(lim, overheadRts, data);
    ghost var n;
    retries, guarded, n := GrantMore(lim, overhead, overheadRts, data, cw,
      ctime + 2 * (overhead + data), ctime + 2 * (overheadRts + data));
    ghost var cost, more := Cost(lim, overhead, data), Cost(lim, overheadRts, data);
    TotalMonotone(cost, more, n);
    GrantedIsBudget(cost, lim.segment, n);
    GrantedIsBudget(more, lim.segment, n);
    assert IsRetryCount(lim, overhead, data, retries) && IsRetryCount(lim, overheadRts, data, guarded);
  }

  /** Any two such counts: at least two tries, protection never more than without. */
  lemma RetryOrder(lim: Limits, overhead: nat, more: nat, data: nat, retries: nat, guarded: nat)
    requires overhead <= more
    requires IsRetryCount(lim, overhead, data, retries) && IsRetryCount(lim, more, data, guarded)
    ensures 2 <= guarded <= retries <= Limit(lim)
    ensures lim.maxRetry >= 3 ==> retries <= lim.maxRetry
  {
    CostlierNeverGrantsMore(Cost(lim, overhead, data), Cost(lim, more, data), lim.segment, retries, guarded);
  }

  /** The configured limit is respected exactly when it allows three tries, or allows two and
      a third does not fit into the segment. */
  lemma LimitRespectedExactly(lim: Limits, overhead: nat, data: nat, retries: nat)
    requires IsRetryCount(lim, overhead, data, retries)
    ensures retries <= lim.maxRetry <==>
            lim.maxRetry >= 3 || (lim.maxRetry == 2 && Total(Cost(lim, overhead, data), 3) >= lim.segment)
  {
  }
}
