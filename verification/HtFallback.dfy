/** What the fallback rate is after an update (`minstrel_ht_set_best_prob_rate` over the sweep):
    when it is the most reliable rate, and how the half-swept table can spoil that. */
module HtFallback {
  import opened FixedPoint
  import opened RateGroups
  import opened TopRates
  import opened HtState
  import opened HtUpdate
  import opened Throughput

  const RELIABLE: nat := Frac(75, 100)

  /** Whose fallback: that of a group, or, `GROUPS`, that of the station. */
  type Scope = w: nat | w <= GROUPS

  const STATION: Scope := GROUPS

  /** The rate is offered as such a fallback: within its group only, and CCK rates only while the
      primary rate is one. */
  predicate Offered(st: Ht, w: Scope, k: nat)
    requires |st.supported| == GROUPS && |st.maxTp| == MAX_THR_RATES && k < CELLS
  {
    Supports(st.supported, k) && (k / 10 != CCK || st.maxTp[0] / 10 == CCK) && (w == STATION || k / 10 == w)
  }

  /** The fallback of the previous update, the one when the sweep has passed the first `n` rates,
      and the one after the update. */
  ghost function Prev(st: Sound, w: Scope): (k: nat)
    ensures k < CELLS
  {
    InvShape(st);
    if w == STATION then st.maxProb else st.groupProb[w]
  }

  ghost function At(st: Sound, w: Scope, n: nat): (k: nat)
    requires n <= CELLS
    ensures k < CELLS
  {
    if w == STATION then FallbacksAt(st, n).best else FallbacksAt(st, n).groups[w]
  }

  ghost function NewFallback(st: Sound, w: Scope): (k: nat)
    ensures k < CELLS
  {
    UpdateKeepsInv(st);
    InvShape(UpdateStats(st));
    if w == STATION then UpdateStats(st).maxProb else UpdateStats(st).groupProb[w]
  }

  lemma NewFallbackIs(st: Sound, w: Scope)
    ensures NewFallback(st, w) == At(st, w, CELLS)
  {
    hide Inv, FallbacksAt, NewMaxTp, GroupListsAt;
  }

  /** The key of a rate when the sweep has passed the first `n`: its estimate is still that of
      the previous update if it is ahead of the sweep. */
  ghost function Now(st: Sound, n: nat, k: nat): Key
    requires n <= CELLS && k < CELLS
  {
    DuringUpdateMeasurable(st, n);
    KeyOf(NewMeter(st), FoldedUpTo(st.supported, st.cells, n), k)
  }

  lemma NowIs(st: Sound, n: nat, k: nat)
    requires n <= CELLS && k < CELLS
    ensures |st.cells| == CELLS && |st.supported| == GROUPS
    ensures k < n || !Supports(st.supported, k) ==> Now(st, n, k) == NewKeys(st)[k]
    ensures k >= n ==> Now(st, n, k) == Now(st, 0, k) && Now(st, n, k).prob == st.cells[k].prob
    ensures n < CELLS && k != n ==> Now(st, n + 1, k) == Now(st, n, k)
  {
    hide Inv, TpAvg, NewMeter;
    InvShape(st);
    DuringUpdateMeasurable(st, CELLS);
  }

  /** The fallback of the previous update is sent, falls, and in falling passes rate `k`, which
      comes before it in the sweep. */
  ghost predicate Overtaken(st: Sound, w: Scope, k: nat)
    requires k < CELLS
  {
    InvShape(st);
    var b := Prev(st, w);
    k < b && Supports(st.supported, b) && NewKeys(st)[b].prob < NewKeys(st)[k].prob <= st.cells[b].prob
  }

  /** The branches of `minstrel_ht_set_best_prob_rate`: throughput decides above 75 %, the
      estimate below. */
  predicate Takes(here: Key, best: Key) {
    if here.prob > RELIABLE then here.tp > best.tp else here.prob > best.prob
  }

  /** A step of the sweep. */
  lemma SweepStep(st: Sound, w: Scope, n: nat)
    requires n < CELLS
    ensures |st.supported| == GROUPS && |st.maxTp| == MAX_THR_RATES
    ensures var b := At(st, w, n);
            At(st, w, n + 1) ==
            if Offered(st, w, n) && Takes(NewKeys(st)[n], Now(st, n + 1, b)) then n else b
  {
    hide Inv, KeyOf, FoldedUpTo, Measurable;
    InvShape(st);
    NowIs(st, n + 1, n);
    if Supports(st.supported, n) {
      DuringUpdateMeasurable(st, n + 1);
    }
  }

  /** The fallback is the previous one or a rate that the sweep has passed. */
  lemma {:induction false} FallbackPlace(st: Sound, w: Scope, n: nat)
    requires n <= CELLS
    ensures var b := At(st, w, n);
            b == Prev(st, w) || b < n
  {
    hide Inv, Now, OfferFallback, NewKeys;
    if n > 0 {
      FallbackPlace(st, w, n - 1);
      SweepStep(st, w, n - 1);
    }
  }

  /** How the previous fallback stood before the update. */
  ghost function Before(st: Sound, w: Scope): Key {
    InvShape(st);
    Now(st, 0, Prev(st, w))
  }

  /** The fallback's key changes in a step only when the previous fallback itself is swept. */
  lemma FallbackKey(st: Sound, w: Scope, n: nat)
    requires n < CELLS
    ensures var b := At(st, w, n);
            && (b != n ==> Now(st, n + 1, b) == Now(st, n, b)) && (b == n ==> b == Prev(st, w))
            && (b < n ==> Now(st, n, b) == NewKeys(st)[b])
            && (b >= n ==> Now(st, n, b) == Before(st, w))
  {
    hide Inv, Now, NewKeys, FallbacksAt, At;
    InvShape(st);
    FallbackPlace(st, w, n);
    var b := At(st, w, n);
    NowIs(st, n, b);
    NowIs(st, 0, b);
  }

  /** The fallback holds its place until the sweep comes to it: nothing before takes over. */
  ghost predicate Holds(st: Sound, w: Scope, n: nat)
    requires n <= CELLS
  {
    InvShape(st);
    forall j :: 0 <= j < n && Offered(st, w, j) ==> !Takes(NewKeys(st)[j], Before(st, w))
  }

  lemma {:induction false} HoldsExactly(st: Sound, w: Scope, n: nat)
    requires n <= Prev(st, w) < CELLS
    ensures At(st, w, n) == Prev(st, w) <==> Holds(st, w, n)
  {
    hide Inv, Now, NewKeys, Takes, FallbacksAt, At;
    InvShape(st);
    if n == 0 {
      FallbackPlace(st, w, 0);
    } else {
      HoldsExactly(st, w, n - 1);
      SweepStep(st, w, n - 1);
      FallbackPlace(st, w, n - 1);
      FallbackKey(st, w, n - 1);
    }
  }

  /** No offered rate up to 75 % that was swept has a higher estimate, unless it was overtaken. */
  lemma {:induction false} FallbackCovers(st: Sound, w: Scope, n: nat, k: nat)
    requires k < n <= CELLS && |st.supported| == GROUPS && |st.maxTp| == MAX_THR_RATES && Offered(st, w, k)
    requires NewKeys(st)[k].prob <= RELIABLE && (!Overtaken(st, w, k) || !Holds(st, w, Prev(st, w)))
    ensures NewKeys(st)[k].prob <= Now(st, n, At(st, w, n)).prob
  {
    hide Inv, Now, NewKeys, FallbacksAt, At;
    InvShape(st);
    SweepStep(st, w, n - 1);
    NowIs(st, n, k);
    NowIs(st, n, n - 1);
    if k < n - 1 {
      FallbackCovers(st, w, n - 1, k);
      FallbackKey(st, w, n - 1);
      var b := At(st, w, n - 1);
      if b == n - 1 {
        HoldsExactly(st, w, n - 1);
        NowIs(st, 0, b);
      }
    }
  }

  // ----- When the fallback is not the most reliable rate

  /** Among the previous fallback and the offered rates behind it up to `n`, as far as they are
      not above 75 %, rate `r` is the first with the highest estimate. */
  ghost predicate Leads(st: Sound, w: Scope, r: nat, n: nat)
    requires n <= CELLS
  {
    InvShape(st);
    var keys, b := NewKeys(st), Prev(st, w);
    && b <= r < n && (r == b || Offered(st, w, r)) && keys[r].prob <= RELIABLE
    && forall j :: b <= j < n && (j == b || Offered(st, w, j)) && keys[j].prob <= RELIABLE ==>
         keys[j].prob <= keys[r].prob && (j < r ==> keys[j].prob < keys[r].prob)
  }

  /** An offered rate `j` behind the previous fallback does not make up for it: its estimate is
      below that of `k`, or it is above 75 % but slower than the leading one. */
  ghost predicate Fails(st: Sound, w: Scope, k: nat, j: nat)
    requires k < CELLS && j < CELLS
  {
    var keys := NewKeys(st);
    if keys[j].prob <= RELIABLE then keys[j].prob < keys[k].prob
    else exists r :: 0 <= r < j && Leads(st, w, r, j) && keys[j].tp <= keys[r].tp
  }

  ghost predicate AllFail(st: Sound, w: Scope, k: nat, n: nat)
    requires k < CELLS && n <= CELLS
  {
    InvShape(st);
    forall j :: Prev(st, w) < j < n && Offered(st, w, j) ==> Fails(st, w, k, j)
  }

  /** The previous fallback passes `k` in falling, nothing before takes its place while it still
      has its old estimate, and nothing behind makes up for it. */
  ghost predicate Spoiled(st: Sound, w: Scope, k: nat)
    requires k < CELLS
  {
    InvShape(st);
    Overtaken(st, w, k) && Holds(st, w, Prev(st, w)) && AllFail(st, w, k, CELLS)
  }

  lemma LeadsUnique(st: Sound, w: Scope, r: nat, q: nat, n: nat)
    requires n <= CELLS && Leads(st, w, r, n) && Leads(st, w, q, n)
    ensures r == q
  {
    hide Inv, NewKeys;
  }

  /** While nothing makes up for it, the fallback is the leading rate. */
  lemma {:induction false} FallbackLeads(st: Sound, w: Scope, k: nat, n: nat)
    requires k < CELLS && Prev(st, w) < n <= CELLS && Overtaken(st, w, k) && Holds(st, w, Prev(st, w))
    requires AllFail(st, w, k, n)
    requires NewKeys(st)[k].prob <= RELIABLE
    ensures var b := At(st, w, n);
            Leads(st, w, b, n) && NewKeys(st)[b].prob < NewKeys(st)[k].prob
  {
    hide Inv, Now, NewKeys, FallbacksAt, At, Leads;
    InvShape(st);
    if n == Prev(st, w) + 1 {
      FallbackReached(st, w, k);
    } else {
      FallbackLeads(st, w, k, n - 1);
      FallbackStep(st, w, n - 1);
      LeadsOn(st, w, k, At(st, w, n - 1), n - 1);
    }
  }

  /** Behind the previous fallback all keys are the new ones. */
  lemma FallbackStep(st: Sound, w: Scope, n: nat)
    requires Prev(st, w) < n < CELLS && |st.supported| == GROUPS && |st.maxTp| == MAX_THR_RATES
    ensures var b := At(st, w, n);
            && At(st, w, n + 1) == if Offered(st, w, n) && Takes(NewKeys(st)[n], NewKeys(st)[b]) then n else b
  {
    hide Inv, Now, NewKeys, FallbacksAt, At, Takes;
    SweepStep(st, w, n);
    FallbackPlace(st, w, n);
    FallbackKey(st, w, n);
  }

  lemma FallbackReached(st: Sound, w: Scope, k: nat)
    requires k < CELLS && Overtaken(st, w, k) && Holds(st, w, Prev(st, w)) && NewKeys(st)[k].prob <= RELIABLE
    ensures Prev(st, w) < CELLS && At(st, w, Prev(st, w) + 1) == Prev(st, w)
    ensures Leads(st, w, Prev(st, w), Prev(st, w) + 1)
  {
    hide Inv, Now, NewKeys, FallbacksAt, At;
    InvShape(st);
    HoldsExactly(st, w, Prev(st, w));
    SweepStep(st, w, Prev(st, w));
    NowIs(st, Prev(st, w) + 1, Prev(st, w));
  }

  lemma LeadsOn(st: Sound, w: Scope, k: nat, r: nat, n: nat)
    requires k < CELLS && Prev(st, w) < n < CELLS && Leads(st, w, r, n)
    requires NewKeys(st)[r].prob < NewKeys(st)[k].prob <= RELIABLE
    requires |st.supported| == GROUPS && |st.maxTp| == MAX_THR_RATES && (Offered(st, w, n) ==> Fails(st, w, k, n))
    ensures var r' := if Offered(st, w, n) && Takes(NewKeys(st)[n], NewKeys(st)[r]) then n else r;
            Leads(st, w, r', n + 1) && NewKeys(st)[r'].prob < NewKeys(st)[k].prob
  {
    hide Inv, NewKeys, Offered;
    if Offered(st, w, n) && NewKeys(st)[n].prob > RELIABLE {
      var q :| 0 <= q < n && Leads(st, w, q, n) && NewKeys(st)[n].tp <= NewKeys(st)[q].tp;
      LeadsUnique(st, w, r, q, n);
    }
  }

  /** If the fallback ends up below `k`, nothing has made up for it. */
  lemma {:induction false} NothingMadeUp(st: Sound, w: Scope, k: nat, n: nat)
    requires k < CELLS && Prev(st, w) < n <= CELLS && Overtaken(st, w, k) && Holds(st, w, Prev(st, w))
    requires NewKeys(st)[At(st, w, n)].prob < NewKeys(st)[k].prob <= RELIABLE
    ensures AllFail(st, w, k, n)
  {
    hide Inv, Now, NewKeys, FallbacksAt, At, Leads, Holds, Overtaken;
    InvShape(st);
    if n > Prev(st, w) + 1 {
      FallbackStep(st, w, n - 1);
      NothingMadeUp(st, w, k, n - 1);
      FallbackLeads(st, w, k, n - 1);
      FallbackPlace(st, w, n - 1);
      var b := At(st, w, n - 1);
      assert 0 <= b < n - 1 && Leads(st, w, b, n - 1);
    }
  }

  /** After an update an offered rate up to 75 % has a higher estimate than the fallback if and
      only if the previous fallback has fallen below it in that way. */
  lemma FallbackSpoiledExactly(st: Sound, w: Scope, k: nat)
    requires k < CELLS && |st.supported| == GROUPS && |st.maxTp| == MAX_THR_RATES && Offered(st, w, k)
    requires NewKeys(st)[k].prob <= RELIABLE
    ensures NewKeys(st)[k].prob > NewKeys(st)[NewFallback(st, w)].prob <==> Spoiled(st, w, k)
  {
    hide Inv, NewKeys, Now, Overtaken, Holds, NewMaxTp, GroupListsAt, AllFail, Leads, Offered;
    InvShape(st);
    var b := NewFallback(st, w);
    NowIs(st, CELLS, b);
    if !Overtaken(st, w, k) || !Holds(st, w, Prev(st, w)) {
      FallbackCovers(st, w, CELLS, k);
    } else if AllFail(st, w, k, CELLS) {
      FallbackLeads(st, w, k, CELLS);
    } else if NewKeys(st)[k].prob > NewKeys(st)[b].prob {
      NothingMadeUp(st, w, k, CELLS);
    }
  }

  /** In particular it is the most reliable one if the previous fallback did not fall. */
  lemma UnfallenFallback(st: Sound, w: Scope, k: nat)
    requires k < CELLS && |st.supported| == GROUPS && |st.maxTp| == MAX_THR_RATES && Offered(st, w, k)
    requires Prev(st, w) < CELLS == |st.cells| && NewKeys(st)[Prev(st, w)].prob >= st.cells[Prev(st, w)].prob
    ensures NewKeys(st)[k].prob <= RELIABLE ==> NewKeys(st)[k].prob <= NewKeys(st)[NewFallback(st, w)].prob
  {
    hide Inv, NewKeys, UpdateStats, Offered, Holds, AllFail;
    if NewKeys(st)[k].prob <= RELIABLE {
      FallbackSpoiledExactly(st, w, k);
    }
  }

  // ----- Above 75 %

  /** A rate above 75 % takes over when the sweep comes to it: the guard of that branch. */
  ghost predicate TakesOver(st: Sound, w: Scope, i: nat) {
    InvShape(st);
    && i < CELLS && Offered(st, w, i) && NewKeys(st)[i].prob > RELIABLE
    && NewKeys(st)[i].tp > Now(st, i + 1, At(st, w, i)).tp
  }

  /** The previous fallback is in place and not yet swept. */
  ghost predicate Unswept(st: Sound, w: Scope, n: nat)
    requires n <= CELLS
  {
    At(st, w, n) == Prev(st, w) && n <= Prev(st, w)
  }

  /** Among the first `n` rates something has brought the fallback above 75 %. */
  ghost predicate Reached75(st: Sound, w: Scope, n: nat)
    requires n <= CELLS
  {
    InvShape(st);
    || (Prev(st, w) < n && Holds(st, w, Prev(st, w)) && NewKeys(st)[Prev(st, w)].prob > RELIABLE)
    || exists i :: 0 <= i < n && TakesOver(st, w, i)
  }

  lemma {:induction false} AboveAt(st: Sound, w: Scope, n: nat)
    requires n <= CELLS
    ensures Unswept(st, w, n) ==> !Reached75(st, w, n)
    ensures !Unswept(st, w, n) ==> (NewKeys(st)[At(st, w, n)].prob > RELIABLE <==> Reached75(st, w, n))
  {
    hide Inv, Now, NewKeys, FallbacksAt, At, Offered, Holds, Reached75;
    InvShape(st);
    if n == 0 {
      StartsWithPrevious(st, w);
      NothingReached(st, w);
    } else {
      var m := n - 1;
      AboveAt(st, w, m);
      SweepStep(st, w, m);
      FallbackKey(st, w, m);
      FallbackPlace(st, w, m);
      NowIs(st, n, m);
      if m == Prev(st, w) {
        HoldsExactly(st, w, m);
      }
      Reached75Next(st, w, m);
    }
  }

  lemma Reached75Is(st: Sound, w: Scope)
    ensures Reached75(st, w, CELLS) <==>
            || (Holds(st, w, Prev(st, w)) && NewKeys(st)[Prev(st, w)].prob > RELIABLE)
            || exists i :: 0 <= i < CELLS && TakesOver(st, w, i)
  {
    hide Inv, NewKeys, TakesOver, Holds, Prev;
  }

  lemma NothingReached(st: Sound, w: Scope)
    ensures !Reached75(st, w, 0)
  {
  }

  lemma Reached75Next(st: Sound, w: Scope, m: nat)
    requires m < CELLS
    ensures Reached75(st, w, m + 1) <==>
            || Reached75(st, w, m) || TakesOver(st, w, m)
            || (m == Prev(st, w) && Holds(st, w, m) && NewKeys(st)[m].prob > RELIABLE)
  {
    hide Inv, NewKeys, TakesOver, Holds;
    InvShape(st);
    var b := Prev(st, w);
    if Reached75(st, w, m) && !(b < m && Holds(st, w, b) && NewKeys(st)[b].prob > RELIABLE) {
      var i :| 0 <= i < m && TakesOver(st, w, i);
      assert 0 <= i < m + 1;
    }
  }

  /** After an update the fallback is above 75 % if and only if the previous one is and has held
      its place, or some offered rate above 75 % was faster than the fallback when the sweep
      came to it. */
  lemma AboveExactly(st: Sound, w: Scope)
    ensures Prev(st, w) < CELLS
    ensures NewKeys(st)[NewFallback(st, w)].prob > RELIABLE <==>
            || (Holds(st, w, Prev(st, w)) && NewKeys(st)[Prev(st, w)].prob > RELIABLE)
            || exists i :: 0 <= i < CELLS && TakesOver(st, w, i)
  {
    hide Inv, Now, NewKeys, FallbacksAt, At, Holds, TakesOver, NewFallback, Reached75;
    NewFallbackIs(st, w);
    AboveAt(st, w, CELLS);
    Reached75Is(st, w);
  }

  /** Once one has, no offered rate above 75 % behind it is faster than the fallback. */
  lemma {:induction false} AboveIsFastest(st: Sound, w: Scope, i: nat, n: nat, j: nat)
    requires TakesOver(st, w, i) && i <= j < n <= CELLS && |st.supported| == GROUPS && |st.maxTp| == MAX_THR_RATES
    requires Offered(st, w, j) && NewKeys(st)[j].prob > RELIABLE
    ensures var b := At(st, w, n);
            && !Unswept(st, w, n) && NewKeys(st)[b].prob > RELIABLE && NewKeys(st)[j].tp <= NewKeys(st)[b].tp
  {
    hide Inv, Now, NewKeys, FallbacksAt, At, Offered, Holds;
    InvShape(st);
    var m := n - 1;
    AboveAt(st, w, n);
    AboveAt(st, w, m);
    SweepStep(st, w, m);
    FallbackKey(st, w, m);
    FallbackPlace(st, w, m);
    NowIs(st, n, m);
    if j < m {
      AboveIsFastest(st, w, i, m, j);
    }
  }

  /** The previous fallback is above 75 % and does not fall. */
  ghost predicate StaysReliable(st: Sound, w: Scope) {
    InvShape(st);
    RELIABLE < st.cells[Prev(st, w)].prob <= NewKeys(st)[Prev(st, w)].prob
  }

  lemma SoundAverage(st: Sound)
    ensures IntervalOk(st) && SCALE <= st.avgAmpdu <= 16384 * 4096
  {
  }

  lemma BeforeIsBelow(st: Sound, w: Scope)
    requires StaysReliable(st, w) && Prev(st, w) < CELLS
    ensures RELIABLE < Before(st, w).prob && Before(st, w).tp <= NewKeys(st)[Prev(st, w)].tp
  {
    hide Inv, TpAvg;
    InvShape(st);
    var b := Prev(st, w);
    NowIs(st, 0, b);
    NowIs(st, CELLS, b);
    DuringUpdateMeasurable(st, 0);
    DuringUpdateMeasurable(st, CELLS);
    SoundAverage(st);
    NewAvgAtLeastOne(st);
    TpMonotone(st.overhead, NewAvg(st), b / 10 == CCK, st.air[b], Now(st, 0, b).prob, NewKeys(st)[b].prob);
  }

  /** Then the fallback stays above 75 %, and no rate above 75 % that was swept is faster. */
  lemma {:induction false} FallbackStaysReliable(st: Sound, w: Scope, n: nat, k: nat)
    requires n <= CELLS && |st.supported| == GROUPS && |st.maxTp| == MAX_THR_RATES && StaysReliable(st, w)
    ensures Now(st, n, At(st, w, n)).prob > RELIABLE
    ensures k < n && Offered(st, w, k) && NewKeys(st)[k].prob > RELIABLE ==>
              NewKeys(st)[k].tp <= Now(st, n, At(st, w, n)).tp
  {
    hide Inv, Now, NewKeys, FallbacksAt, At, Offered, Before;
    InvShape(st);
    BeforeIsBelow(st, w);
    if n == 0 {
      StartsWithPrevious(st, w);
    } else {
      FallbackStaysReliable(st, w, n - 1, k);
      SweepStep(st, w, n - 1);
      FallbackKey(st, w, n - 1);
      NowIs(st, n, n - 1);
    }
  }

  lemma StartsWithPrevious(st: Sound, w: Scope)
    ensures At(st, w, 0) == Prev(st, w) && Prev(st, w) < CELLS && Now(st, 0, Prev(st, w)) == Before(st, w)
  {
    hide Inv, Now;
    InvShape(st);
  }

  /** After an update no offered rate above 75 % is faster than the fallback, if the previous
      one was above 75 % and did not fall. */
  lemma UpdatedFallback(st: Sound, w: Scope, k: nat)
    requires k < CELLS && |st.supported| == GROUPS && |st.maxTp| == MAX_THR_RATES && Offered(st, w, k)
    requires StaysReliable(st, w)
    ensures var keys, b := NewKeys(st), NewFallback(st, w);
            keys[b].prob > RELIABLE && (keys[k].prob > RELIABLE ==> keys[k].tp <= keys[b].tp)
  {
    hide Inv, NewKeys, Now, StaysReliable, NewMaxTp, GroupListsAt;
    NowIs(st, CELLS, NewFallback(st, w));
    FallbackStaysReliable(st, w, CELLS, k);
  }
}
