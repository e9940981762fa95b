/** The periodic statistics update of the HT/VHT engine (`minstrel_ht_update_stats`) as a
    function of the state, and what it establishes. */
module HtUpdate {
  import opened FixedPoint
  import opened RateGroups
  import opened RateStats
  import opened Throughput
  import opened TopRates
  import opened HtState

  // ----- The pieces of the update

  /** The new average aggregate length. */
  function NewAvg(st: Ht): nat {
    if st.ampduPackets == 0 then st.avgAmpdu
    else EwmaWord(st.avgAmpdu, Frac(st.ampduLen, st.ampduPackets))
  }

  function FoldedCell(sup: Masks, cells: seq<Stats>, k: nat): Stats
    requires |sup| == GROUPS && |cells| == CELLS && k < CELLS
  {
    if Supports(sup, k) then Fold(cells[k]).(retryUpdated := false) else cells[k]
  }

  /** The cells when the sweep over the supported rates has passed the first `n`. */
  function FoldedUpTo(sup: Masks, cells: seq<Stats>, n: nat): (r: seq<Stats>)
    requires |sup| == GROUPS && |cells| == CELLS && n <= CELLS
    ensures |r| == CELLS
    ensures forall k :: 0 <= k < CELLS ==> r[k] == if k < n then FoldedCell(sup, cells, k) else cells[k]
  {
    seq(CELLS, k requires 0 <= k < CELLS => if k < n then FoldedCell(sup, cells, k) else cells[k])
  }

  datatype Which = McsRates | CckRates | AllRates

  predicate Selected(w: Which, k: nat) {
    w.AllRates? || (w.CckRates? <==> k / 10 == CCK)
  }

  /** The supported rates below `n`, in the order of the sweep. */
  function Visited(sup: Masks, w: Which, n: nat): (r: seq<nat>)
    requires |sup| == GROUPS && n <= CELLS
    ensures forall i :: 0 <= i < |r| ==> r[i] < n && Supports(sup, r[i]) && Selected(w, r[i])
  {
    if n == 0 then []
    else if Supports(sup, n - 1) && Selected(w, n - 1) then Visited(sup, w, n - 1) + [n - 1]
    else Visited(sup, w, n - 1)
  }

  /** The fallback rate and the per-group fallback rates. */
  datatype Fallbacks = Fallbacks(best: nat, groups: seq<nat>)

  predicate FallbacksInRange(f: Fallbacks) {
    f.best < CELLS && |f.groups| == GROUPS && AllBelow(f.groups, CELLS)
  }

  /** `minstrel_ht_set_best_prob_rate`; `top` is the primary rate of the previous update. */
  function OfferFallback(m: Meter, cells: seq<Stats>, top: nat, f: Fallbacks, k: nat): (r: Fallbacks)
    requires Measurable(m, cells) && k < CELLS && FallbacksInRange(f)
    ensures FallbacksInRange(r)
  {
    var g := k / 10;
    if g == CCK && top / 10 != CCK then f
    else
      var here, best, gbest := KeyOf(m, cells, k), KeyOf(m, cells, f.best), KeyOf(m, cells, f.groups[g]);
      if here.prob > Frac(75, 100) then
        Fallbacks(if here.tp > best.tp then k else f.best,
                  if here.tp > gbest.tp then f.groups[g := k] else f.groups)
      else
        Fallbacks(if here.prob > best.prob then k else f.best,
                  if here.prob > gbest.prob then f.groups[g := k] else f.groups)
  }

  lemma FoldedCellsOk(sup: Masks, cells: seq<Stats>, n: nat)
    requires CellsOk(cells, sup) && n <= CELLS
    ensures CellsOk(FoldedUpTo(sup, cells, n), sup)
  {
    var r := FoldedUpTo(sup, cells, n);
    forall k | 0 <= k < CELLS
      ensures CellOk(r[k]) && (r[k].prob > 0 ==> Supports(sup, k))
    {
      FoldKeepsBounds(cells[k]);
    }
  }

  /** The average stays between one frame and the longest aggregate, and no step of its
      computation overflows. */
  lemma NewAvgAtLeastOne(st: Ht)
    requires IntervalOk(st) && SCALE <= st.avgAmpdu <= 16384 * 4096
    ensures SCALE <= NewAvg(st) <= 16384 * 4096
    ensures st.ampduPackets > 0 ==> NewAvg(st) == Ewma(st.avgAmpdu, Frac(st.ampduLen, st.ampduPackets))
  {
    hide EwmaWord, Ewma, Frac;
    if st.ampduPackets > 0 {
      FracAtLeastOne(st.ampduLen, st.ampduPackets);
      FracAtMost(st.ampduLen, st.ampduPackets, 16384);
      EwmaFitsExactly(st.avgAmpdu, Frac(st.ampduLen, st.ampduPackets));
      EwmaStep(st.avgAmpdu, Frac(st.ampduLen, st.ampduPackets));
    }
  }

  /** The meter the update ranks with. */
  function NewMeter(st: Sound): Meter
  {
    NewAvgAtLeastOne(st);
    Meter(st.air, st.overhead, NewAvg(st))
  }

  lemma DuringUpdateMeasurable(st: Sound, n: nat)
    requires n <= CELLS
    ensures Measurable(NewMeter(st), FoldedUpTo(st.supported, st.cells, n))
  {
    FoldedCellsOk(st.supported, st.cells, n);
    NewAvgAtLeastOne(st);
    CellsMeasurable(NewMeter(st), FoldedUpTo(st.supported, st.cells, n), st.supported);
  }

  /** The fallbacks after the sweep has passed the first `n` rates. A rate that is ahead of
      the sweep still counts with its previous estimate. */
  function FallbacksAt(st: Sound, n: nat): (f: Fallbacks)
    requires n <= CELLS
    ensures FallbacksInRange(f)
  {
    if n == 0 then Fallbacks(st.maxProb, st.groupProb)
    else
      var f := FallbacksAt(st, n - 1);
      if !Supports(st.supported, n - 1) then f
      else
        DuringUpdateMeasurable(st, n);
        OfferFallback(NewMeter(st), FoldedUpTo(st.supported, st.cells, n), st.maxTp[0], f, n - 1)
  }

  /** The ranking keys after the update. */
  function NewKeys(st: Sound): (keys: seq<Key>)
    ensures |keys| == CELLS
  {
    DuringUpdateMeasurable(st, CELLS);
    Keys(NewMeter(st), FoldedUpTo(st.supported, st.cells, CELLS))
  }

  /** `minstrel_ht_assign_best_tp_rates`. */
  function Merge(keys: seq<Key>, mcs: seq<nat>, cck: seq<nat>): (r: seq<nat>)
    requires InRange(keys, mcs) && InRange(keys, cck) && |mcs| == |cck| == MAX_THR_RATES
    ensures |r| == MAX_THR_RATES && InRange(keys, r)
  {
    if keys[cck[0]].tp > keys[mcs[0]].tp then TopInto(keys, mcs, cck) else mcs
  }

  /** The four best of the supported rates below `n` that `w` selects. */
  function Best(st: Sound, w: Which, n: nat): (r: seq<nat>)
    requires n <= CELLS
    ensures |r| == MAX_THR_RATES && InRange(NewKeys(st), r)
  {
    TopFour(NewKeys(st), Visited(st.supported, w, n))
  }

  function NewMaxTp(st: Sound): (r: seq<nat>)
    ensures |r| == MAX_THR_RATES && InRange(NewKeys(st), r)
  {
    Merge(NewKeys(st), Best(st, McsRates, CELLS), Best(st, CckRates, CELLS))
  }

  /** A supported group lists the best rates of all supported groups up to its own: the
      scratch list of the sweep is not reset between groups. */
  function GroupListsAt(st: Sound, n: nat): (r: seq<seq<nat>>)
    requires n <= GROUPS
    ensures |r| == GROUPS
    ensures forall g :: 0 <= g < GROUPS ==>
              r[g] == if g < n && st.supported[g] != {} then Best(st, AllRates, (g + 1) * 10) else st.groupTp[g]
  {
    InvShape(st);
    seq(GROUPS, g requires 0 <= g < GROUPS =>
      if g < n && st.supported[g] != {} then Best(st, AllRates, (g + 1) * 10) else st.groupTp[g])
  }

  function SupportedGroups(sup: Masks, n: nat): nat
    requires n <= |sup|
  {
    if n == 0 then 0 else SupportedGroups(sup, n - 1) + if sup[n - 1] != {} then 1 else 0
  }

  /** `minstrel_ht_update_stats`. */
  function UpdateStats(st: Sound): Ht
  {
    var f := FallbacksAt(st, CELLS);
    NewAvgAtLeastOne(st);
    st.(avgAmpdu := NewAvg(st),
    ampduLen := if st.ampduPackets > 0 then 0 else st.ampduLen,
    ampduPackets := 0,
    cells := FoldedUpTo(st.supported, st.cells, CELLS),
    maxTp := NewMaxTp(st),
    groupTp := GroupListsAt(st, GROUPS),
    maxProb := f.best,
    groupProb := f.groups,
    sampleCount := 10 * SupportedGroups(st.supported, GROUPS))
  }

  // ----- What the update establishes

  lemma {:induction false} VisitedComplete(sup: Masks, w: Which, n: nat, k: nat)
    requires |sup| == GROUPS && k < n <= CELLS && Supports(sup, k) && Selected(w, k)
    ensures k in Visited(sup, w, n)
  {
    if k < n - 1 {
      VisitedComplete(sup, w, n - 1, k);
    }
  }

  /** A listed rate is the placeholder 0, or a selected supported rate with an estimate. */
  lemma BestElements(st: Sound, w: Which, n: nat, i: nat)
    requires n <= CELLS && i < MAX_THR_RATES
    ensures var e := Best(st, w, n)[i];
            e == 0 || (e < n && Supports(st.supported, e) && UpdateStats(st).cells[e].prob > 0)
  {
    var xs := Visited(st.supported, w, n);
    TopIntoElements(NewKeys(st), [0, 0, 0, 0], xs);
    var e := Best(st, w, n)[i];
    if e in xs {
      DuringUpdateMeasurable(st, CELLS);
      ZeroProbZeroKey(NewMeter(st), FoldedUpTo(st.supported, st.cells, CELLS), e);
    }
  }

  lemma NewMaxTpElements(st: Sound, i: nat)
    requires i < MAX_THR_RATES
    ensures var e := NewMaxTp(st)[i];
            e == 0 || (e < CELLS && Supports(st.supported, e) && UpdateStats(st).cells[e].prob > 0)
  {
    var mcs, cck := Best(st, McsRates, CELLS), Best(st, CckRates, CELLS);
    TopIntoElements(NewKeys(st), mcs, cck);
    var e := NewMaxTp(st)[i];
    if e in mcs {
      var j :| 0 <= j < |mcs| && mcs[j] == e;
      BestElements(st, McsRates, CELLS, j);
    } else {
      var j :| 0 <= j < |cck| && cck[j] == e;
      BestElements(st, CckRates, CELLS, j);
    }
  }

  /** The throughput of a ranking key, from what it is made of: `n` whole frames in the average
      aggregate, the share `t` of the overhead per frame, `q` frames per millisecond. */
  predicate ThroughputIs(key: Key, overhead: nat, avg: nat, cck: bool, air: nat, n: nat, t: nat, q: nat) {
    var p := if key.prob > 3686 then 3686 else key.prob;
    if key.prob < 409 then key.tp == 0
    else
      && n * 4096 <= avg < (n + 1) * 4096
      && (if cck then t == 0 else t * n <= 1000 * overhead < (t + 1) * n)
      && q * (air + t) <= p * 1000000 < (q + 1) * (air + t)
      && key.tp == 100 * q / 4096
  }

  lemma KeyExactly(m: Meter, cells: seq<Stats>, k: nat) returns (n: nat, t: nat, q: nat)
    requires Measurable(m, cells) && k < CELLS
    ensures KeyOf(m, cells, k).prob == cells[k].prob
    ensures ThroughputIs(KeyOf(m, cells, k), m.overhead, m.avg, k / 10 == 4, m.air[k], n, t, q)
  {
    hide TpAvg;
    n, t, q := 0, 0, 0;
    if cells[k].prob > 0 {
      n, t, q := TpExactly(m.overhead, m.avg, k / 10 == CCK, m.air[k], cells[k].prob);
    } else {
      ZeroProbZeroKey(m, cells, k);
    }
  }

  /** What the update ranks by: the folded success estimate, and the throughput at that estimate
      with the new average aggregate. */
  lemma NewKeysExactly(st: Sound, k: nat) returns (n: nat, t: nat, q: nat)
    requires k < CELLS && |st.air| == CELLS
    ensures var s', key := UpdateStats(st), NewKeys(st)[k];
            && |s'.cells| == CELLS && key.prob == s'.cells[k].prob
            && ThroughputIs(key, st.overhead, s'.avgAmpdu, k / 10 == 4, st.air[k], n, t, q)
  {
    hide Inv, ThroughputIs, FallbacksAt, NewMaxTp, GroupListsAt, NewAvg, Measurable, FoldedUpTo, KeyOf;
    InvShape(st);
    DuringUpdateMeasurable(st, CELLS);
    n, t, q := KeyExactly(NewMeter(st), FoldedUpTo(st.supported, st.cells, CELLS), k);
  }

  /** The probes of the next interval: twenty for each supported group, besides those that may be
      sent at once. */
  lemma UpdateGrantsProbes(st: Sound)
    requires |st.supported| == GROUPS
    ensures UpdateStats(st).sampleCount == 10 * |UsedGroups(st.supported, GROUPS)|
  {
    hide Inv, FallbacksAt, NewMaxTp, GroupListsAt, UsedGroups;
    CountsGroups(st.supported, GROUPS);
  }

  /** The supported groups below `n`. */
  ghost function UsedGroups(sup: Masks, n: nat): set<nat>
    requires n <= |sup|
  {
    set g | 0 <= g < n && sup[g] != {}
  }

  lemma {:induction false} CountsGroups(sup: Masks, n: nat)
    requires n <= |sup|
    ensures SupportedGroups(sup, n) == |UsedGroups(sup, n)|
  {
    hide UsedGroups;
    if n == 0 {
      NoGroups(sup);
    } else {
      CountsGroups(sup, n - 1);
      OneMoreGroup(sup, n - 1);
    }
  }

  lemma NoGroups(sup: Masks)
    ensures UsedGroups(sup, 0) == {}
  {
  }

  lemma OneMoreGroup(sup: Masks, n: nat)
    requires n < |sup|
    ensures n !in UsedGroups(sup, n)
    ensures UsedGroups(sup, n + 1) == if sup[n] != {} then UsedGroups(sup, n) + {n} else UsedGroups(sup, n)
  {
  }

  /** The list of four that the update builds for any class of rates is the head of the
      stable descending sort of four placeholders followed by the supported rates. */
  lemma ListsAreStableSorts(st: Sound, w: Which, n: nat, sorted: seq<nat>)
    requires n <= CELLS
    requires InRange(NewKeys(st), [0, 0, 0, 0] + Visited(st.supported, w, n))
    requires IsStableSort(NewKeys(st), [0, 0, 0, 0] + Visited(st.supported, w, n), sorted)
    ensures |sorted| >= MAX_THR_RATES && Best(st, w, n) == sorted[..MAX_THR_RATES]
  {
    TopFourIsStableSort(NewKeys(st), Visited(st.supported, w, n), sorted);
  }

  /** The head of the merged list is at least as fast as everything offered to either. */
  lemma MergedHead(keys: seq<Key>, mcs: seq<nat>, cck: seq<nat>, k: nat)
    requires 0 < |keys| && InRange(keys, mcs) && InRange(keys, cck) && (k in mcs || k in cck)
    ensures keys[Merge(keys, TopFour(keys, mcs), TopFour(keys, cck))[0]].tp >= keys[k].tp
  {
    var m, c := TopFour(keys, mcs), TopFour(keys, cck);
    TopIntoHead(keys, [0, 0, 0, 0], mcs);
    TopIntoHead(keys, [0, 0, 0, 0], cck);
    TopIntoHead(keys, m, c);
    assert m[0] in m && c[0] in c;
  }

  /** After the CCK merge the primary rate attains the largest throughput of all supported
      rates, CCK included. */
  lemma PrimaryIsBest(st: Sound, k: nat)
    requires k < CELLS && Supports(st.supported, k)
    ensures NewKeys(st)[NewMaxTp(st)[0]].tp >= NewKeys(st)[k].tp
  {
    var w := if Selected(McsRates, k) then McsRates else CckRates;
    VisitedComplete(st.supported, w, CELLS, k);
    MergedHead(NewKeys(st), Visited(st.supported, McsRates, CELLS), Visited(st.supported, CckRates, CELLS), k);
  }

  lemma ListsInRange(st: Sound)
    ensures ListsOk(GroupListsAt(st, GROUPS))
    ensures forall g :: 0 <= g < GROUPS ==>
              |GroupListsAt(st, GROUPS)[g]| == MAX_THR_RATES && AllBelow(GroupListsAt(st, GROUPS)[g], CELLS)
  {
    var lists := GroupListsAt(st, GROUPS);
    forall g, j | 0 <= g < GROUPS && 0 <= j < |lists[g]|
      ensures lists[g][j] / 10 <= g
    {
      if st.supported[g] != {} {
        BestElements(st, AllRates, (g + 1) * 10, j);
      }
    }
  }

  /** The update keeps every bound of the state. */
  lemma UpdateKeepsInv(st: Sound)
    ensures Inv(UpdateStats(st))
  {
    FoldedCellsOk(st.supported, st.cells, CELLS);
    NewAvgAtLeastOne(st);
    ListsInRange(st);
  }

  /** Exactly when the average stays at one frame or more, so that the next throughput
      estimate can divide by it, for intervals, aggregates and averages of any length: the
      quarter of the distance to the measured length, as far as the product by 32 keeps it,
      does not leave the sum short of one frame, before or after its 32-bit store. */
  lemma AverageSurvivesExactly(st: Ht)
    requires SCALE <= st.avgAmpdu < 0x1_0000_0000
    ensures NewAvg(st) >= SCALE <==>
            || st.ampduPackets == 0
            || var next := st.avgAmpdu + CDiv(Residue(Frac(st.ampduLen, st.ampduPackets) - st.avgAmpdu), 4);
               next < 0 || 4096 <= next < 0x1_0000_0000 || 0x1_0000_0000 + 4096 <= next
  {
    hide EwmaWord, Frac;
    if st.ampduPackets > 0 {
      EwmaWordStep(st.avgAmpdu, Frac(st.ampduLen, st.ampduPackets));
    }
  }

  /** The bound on an interval cannot be dropped: after 2^20 single frames the shift in
      `MINSTREL_FRAC` loses every bit, and the average falls below one frame. */
  lemma LongIntervalBreaksAverage(st: Ht)
    requires st.avgAmpdu == SCALE && st.ampduLen == st.ampduPackets == INTERVAL_LIMIT
    ensures NewAvg(st) < SCALE
  {
    hide EwmaWord;
    AverageSurvivesExactly(st);
  }

  /** Nor can the bound on an aggregate: one aggregate of 2^19 frames does the same, because
      the product of the moving average overflows. */
  lemma LongAggregateBreaksAverage(st: Ht)
    requires st.avgAmpdu == SCALE && st.ampduPackets == 1 && st.ampduLen == 0x8_0000
    ensures NewAvg(st) == 3072
  {
    hide EwmaWord;
    assert Frac(0x8_0000, 1) == 0x8000_0000;
    assert Residue(0x8000_0000 - 4096) == -4096;
    EwmaWordStep(SCALE, 0x8000_0000);
  }

  /** The bound is tight: from an average of one frame, a single aggregate is averaged
      correctly if and only if it has at most 2^14 frames. */
  lemma AggregateLimitIsTight(st: Ht)
    requires st.avgAmpdu == SCALE && st.ampduPackets == 1 && st.ampduLen < 0x8_0000
    ensures NewAvg(st) == Ewma(SCALE, Frac(st.ampduLen, 1)) <==> st.ampduLen <= AGGREGATE_LIMIT
  {
    hide EwmaWord, Ewma;
    assert Frac(st.ampduLen, 1) == st.ampduLen * 4096;
    EwmaFitsExactly(SCALE, Frac(st.ampduLen, 1));
  }

  /** A rate cleared before the update and not sent since has left every list of four. */
  lemma ClearedRateLeavesLists(st: Sound, before: Stats, k: nat)
    requires 0 < k < CELLS && Supports(st.supported, k)
    requires CellOk(before) && before.succHist != 0 && st.cells[k] == Clear(before)
    ensures UpdateStats(st).cells[k].prob == 0
    ensures k !in UpdateStats(st).maxTp
    ensures forall g :: 0 <= g < GROUPS && st.supported[g] != {} ==> k !in UpdateStats(st).groupTp[g]
  {
    ClearForgets(before, 0, 0);
    var top := NewMaxTp(st);
    if i: nat :| i < MAX_THR_RATES && top[i] == k {
      NewMaxTpElements(st, i);
    }
    forall g | 0 <= g < GROUPS && st.supported[g] != {}
      ensures k !in UpdateStats(st).groupTp[g]
    {
      var list := Best(st, AllRates, (g + 1) * 10);
      if i: nat :| i < MAX_THR_RATES && list[i] == k {
        BestElements(st, AllRates, (g + 1) * 10, i);
      }
    }
  }
}
