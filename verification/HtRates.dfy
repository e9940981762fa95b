/** From statistics to the rate table: correcting the primary and the fallback rate,
    downgrading a failing rate, and encoding the retry chain. */
module HtRates {
  import opened FixedPoint
  import opened RateGroups
  import opened RateStats
  import opened TopRates
  import opened HtState
  import opened Airtime

  // ----- `minstrel_ht_modify_tp_rates`

  const HALF: nat := Frac(50, 100)

  /** Step down within group `g` from rate `i` to one that succeeds half of the time. */
  function Reliable(cells: seq<Stats>, g: nat, i: nat): (r: nat)
    requires |cells| == CELLS && g < GROUPS && i < GROUP_RATES
    ensures r <= i
  {
    if cells[Cell(g, i)].prob >= HALF || i == 0 then i else Reliable(cells, g, i - 1)
  }

  /** The best-ranked of the rates 0..i of group `g`, the lowest one among equals. */
  function BestUpTo(m: Meter, cells: seq<Stats>, g: nat, i: nat): (r: nat)
    requires Measurable(m, cells) && g < GROUPS && i < GROUP_RATES
    ensures r <= i
  {
    if i == 0 then 0
    else
      var r := BestUpTo(m, cells, g, i - 1);
      if Below(KeyOf(m, cells, Cell(g, r)), KeyOf(m, cells, Cell(g, i))) then i else r
  }

  function ModifiedPrimary(cells: seq<Stats>, k: nat): (r: nat)
    requires |cells| == CELLS && k < CELLS
    ensures r < CELLS && r / 10 == k / 10 && r <= k
  {
    Cell(k / 10, Reliable(cells, k / 10, k % 10))
  }

  function ModifiedFallback(m: Meter, cells: seq<Stats>, primary: nat, f: nat): (r: nat)
    requires Measurable(m, cells) && primary < CELLS && f < CELLS
    ensures r < CELLS && r / 10 == f / 10
    ensures r % 10 <= primary % 10
  {
    var top, g := primary % 10, f / 10;
    if f % 10 < top then f
    else Cell(g, BestUpTo(m, cells, g, if top > 0 then top - 1 else 0))
  }

  function ModifyTpRates(st: Sound): Ht
  {
    InvMeasurable(st);
    var primary := ModifiedPrimary(st.cells, st.maxTp[0]);
    st.(maxTp := st.maxTp[0 := primary],
    maxProb := ModifiedFallback(MeterOf(st), st.cells, primary, st.maxProb))
  }

  lemma {:induction false} ReliableSpec(cells: seq<Stats>, g: nat, i: nat)
    requires |cells| == CELLS && g < GROUPS && i < GROUP_RATES
    ensures var r := Reliable(cells, g, i);
            && (r == 0 || cells[Cell(g, r)].prob >= HALF)
            && (forall j :: r < j <= i ==> cells[Cell(g, j)].prob < HALF)
  {
    if cells[Cell(g, i)].prob < HALF && i > 0 {
      ReliableSpec(cells, g, i - 1);
    }
  }

  /** No rate up to `i` outranks the result, and every lower one ranks strictly below it. */
  lemma {:induction false} BestUpToSpec(m: Meter, cells: seq<Stats>, g: nat, i: nat)
    requires Measurable(m, cells) && g < GROUPS && i < GROUP_RATES
    ensures var r := BestUpTo(m, cells, g, i);
            && (forall j :: 0 <= j <= i ==>
                  !Below(KeyOf(m, cells, Cell(g, r)), KeyOf(m, cells, Cell(g, j))))
            && (forall j :: 0 <= j < r ==>
                  Below(KeyOf(m, cells, Cell(g, j)), KeyOf(m, cells, Cell(g, r))))
  {
    if i > 0 {
      BestUpToSpec(m, cells, g, i - 1);
    }
  }

  /** Only one rate number is the lowest best-ranked one. */
  lemma BestUpToUnique(m: Meter, cells: seq<Stats>, g: nat, i: nat, r: nat)
    requires Measurable(m, cells) && g < GROUPS && r <= i < GROUP_RATES
    requires forall j :: 0 <= j <= i ==> !Below(KeyOf(m, cells, Cell(g, r)), KeyOf(m, cells, Cell(g, j)))
    requires forall j :: 0 <= j < r ==> Below(KeyOf(m, cells, Cell(g, j)), KeyOf(m, cells, Cell(g, r)))
    ensures r == BestUpTo(m, cells, g, i)
  {
    BestUpToSpec(m, cells, g, i);
    var b := BestUpTo(m, cells, g, i);
    assert !Below(KeyOf(m, cells, Cell(g, r)), KeyOf(m, cells, Cell(g, b)));
    assert !Below(KeyOf(m, cells, Cell(g, b)), KeyOf(m, cells, Cell(g, r)));
  }

  /** The corrected primary is the highest rate at or below the old one in its group that
      succeeds half of the time, or rate 0. */
  lemma PrimaryCorrected(cells: seq<Stats>, k: nat)
    requires |cells| == CELLS && k < CELLS
    ensures var g, i, p := k / 10, k % 10, ModifiedPrimary(cells, k) % 10;
            && ModifiedPrimary(cells, k) == Cell(g, p) && p <= i
            && (p == 0 || cells[Cell(g, p)].prob >= HALF)
            && (forall j :: p < j <= i ==> cells[Cell(g, j)].prob < HALF)
  {
    ReliableSpec(cells, k / 10, k % 10);
  }

  /** The corrected fallback's rate number is below the primary's unless both are 0, and a
      replaced fallback is the best-ranked of the rates of its group it could be. */
  lemma FallbackCorrected(m: Meter, cells: seq<Stats>, primary: nat, f: nat)
    requires Measurable(m, cells) && primary < CELLS && f < CELLS
    ensures var p, g, r := primary % 10, f / 10, ModifiedFallback(m, cells, primary, f);
            && r / 10 == g
            && (r % 10 < p || r % 10 == p == 0)
            && (f % 10 < p ==> r == f)
            && (f % 10 >= p ==>
                  forall j :: (0 <= j < p || j == 0) ==> !Below(KeyOf(m, cells, r), KeyOf(m, cells, Cell(g, j))))
  {
    var p := primary % 10;
    BestUpToSpec(m, cells, f / 10, if p > 0 then p - 1 else 0);
  }

  lemma ReliableStable(cells: seq<Stats>, k: nat)
    requires |cells| == CELLS && k < CELLS
    ensures ModifiedPrimary(cells, ModifiedPrimary(cells, k)) == ModifiedPrimary(cells, k)
  {
    ReliableSpec(cells, k / 10, k % 10);
  }

  /** Correcting twice changes nothing more. */
  lemma ModifyIdempotent(st: Sound)
    ensures Inv(ModifyTpRates(st))
    ensures ModifyTpRates(ModifyTpRates(st)) == ModifyTpRates(st)
  {
    ModifyKeepsInv(st);
    ReliableStable(st.cells, st.maxTp[0]);
    InvMeasurable(st);
    var once := ModifyTpRates(st);
    assert MeterOf(once) == MeterOf(st);
    assert once.maxTp[0 := once.maxTp[0]] == once.maxTp;
    FallbackCorrected(MeterOf(st), st.cells, once.maxTp[0], st.maxProb);
  }

  lemma ModifyFrame(st: Sound)
    ensures ModifyTpRates(st) == st.(maxTp := ModifyTpRates(st).maxTp, maxProb := ModifyTpRates(st).maxProb)
  {
  }

  lemma ModifyKeepsInv(st: Sound)
    ensures Inv(ModifyTpRates(st))
  {
    InvMeasurable(st);
  }

  // ----- `minstrel_downgrade_rate`

  /** The highest supported group below `group` with no more streams than `orig`. */
  function LowerGroup(sup: Masks, group: nat, orig: nat): (r: nat)
    requires |sup| == GROUPS && group <= GROUPS
    ensures r <= group
    ensures r < group ==> sup[r] != {} && Streams(r) <= Streams(orig)
    ensures r < group ==> forall g :: r < g < group ==> sup[g] == {} || Streams(g) > Streams(orig)
    ensures r == group ==> forall g :: 0 <= g < group ==> sup[g] == {} || Streams(g) > Streams(orig)
  {
    if group == 0 then 0
    else if sup[group - 1] != {} && Streams(group - 1) <= Streams(orig) then group - 1
    else
      var r := LowerGroup(sup, group - 1, orig);
      if r < group - 1 then r else group
  }

  /** The rate that replaces `k`; entry `j` of the lower group's list. */
  function Downgraded(st: Sound, k: nat, j: nat): (r: nat)
    requires k < CELLS && j < MAX_THR_RATES
    ensures r < CELLS
  {
    var g := k / 10;
    var lower := LowerGroup(st.supported, g, g);
    if lower < g then st.groupTp[lower][j] else k
  }

  /** Downgrading makes progress: the rate stays, or its group number strictly falls. */
  lemma DowngradeProgress(st: Sound, k: nat, j: nat)
    requires k < CELLS && j < MAX_THR_RATES
    ensures Downgraded(st, k, j) == k || Downgraded(st, k, j) / 10 < k / 10
  {
  }

  /** How often a rate can be downgraded in a row before it stays. */
  function Downgrades(st: Sound, k: nat, j: nat): nat
    requires k < CELLS && j < MAX_THR_RATES
    decreases k / 10
  {
    DowngradeProgress(st, k, j);
    var r := Downgraded(st, k, j);
    if r == k then 0 else 1 + Downgrades(st, r, j)
  }

  lemma {:induction false} DowngradesBounded(st: Sound, k: nat, j: nat)
    requires k < CELLS && j < MAX_THR_RATES
    ensures Downgrades(st, k, j) <= k / 10
    decreases k / 10
  {
    DowngradeProgress(st, k, j);
    if Downgraded(st, k, j) != k {
      DowngradesBounded(st, Downgraded(st, k, j), j);
    }
  }

  // ----- `minstrel_calc_retransmit` and `minstrel_ht_set_rate`

  /** Air time of the data part in microseconds; the product is taken in 32 bits. */
  function DataTime(st: Ht, k: nat): nat
    requires |st.air| == CELLS && k < CELLS
  {
    st.air[k] * Trunc(st.avgAmpdu) % 0x1_0000_0000 / 1000
  }

  ghost function Retransmit(st: Sound, k: nat): Stats
    requires k < CELLS
  {
    var s := st.cells[k];
    if s.prob < Frac(1, 10) then s.(retryCount := 1, retryRts := 1)
    else
      var cck := k / 10 == CCK;
      s.(retryCount := RetryCount(DRIVER_LIMITS, if cck then 0 else st.overhead, DataTime(st, k)),
      retryRts := RetryCount(DRIVER_LIMITS, if cck then 0 else st.overheadRts, DataTime(st, k)),
      retryUpdated := true)
  }

  /** The retry budget of a station's rate: one try each below 10 %, otherwise two or three,
      with protection never more than without. */
  lemma RetryBudget(st: Sound, k: nat)
    requires k < CELLS
    ensures var s := Retransmit(st, k);
            if st.cells[k].prob < Frac(1, 10) then s.retryCount == s.retryRts == 1
            else 2 <= s.retryRts <= s.retryCount <= DRIVER_LIMITS.maxRetry
  {
    var cck := k / 10 == CCK;
    var a, b := if cck then 0 else st.overhead, if cck then 0 else st.overheadRts;
    RetryOrder(DRIVER_LIMITS, a, b, DataTime(st, k), RetryCount(DRIVER_LIMITS, a, DataTime(st, k)),
               RetryCount(DRIVER_LIMITS, b, DataTime(st, k)));
  }

  /** The budgets of a rate of 10 % or more, from the state alone. A try takes its back-off, half
      of a window of 15, 31 or 63 slots of 9 us, the overhead, which CCK rates have in their air
      time, and the air time of as many frames as the average aggregate has, as far as the
      32-bit product keeps it. A third try is granted exactly if three of them fit into 6 ms. */
  lemma RetriesExactly(st: Sound, k: nat)
    requires k < CELLS && |st.cells| == |st.air| == CELLS && st.cells[k].prob >= 409
    ensures var s, data := Retransmit(st, k), st.air[k] * (st.avgAmpdu / 4096) % 0x1_0000_0000 / 1000;
            var plain, rts := if k / 10 == 4 then 0 else st.overhead, if k / 10 == 4 then 0 else st.overheadRts;
            && s.retryCount == (if 67 + 139 + 283 + 3 * (plain + data) < 6000 then 3 else 2)
            && s.retryRts == (if 67 + 139 + 283 + 3 * (rts + data) < 6000 then 3 else 2)
            && s == st.cells[k].(retryCount := s.retryCount, retryRts := s.retryRts, retryUpdated := true)
  {
    hide Inv;
    assert Frac(1, 10) == 409;
    var cck := k / 10 == CCK;
    BudgetOfThree(if cck then 0 else st.overhead, DataTime(st, k));
    BudgetOfThree(if cck then 0 else st.overheadRts, DataTime(st, k));
  }

  lemma BudgetOfThree(overhead: nat, data: nat)
    ensures RetryCount(DRIVER_LIMITS, overhead, data) == if 67 + 139 + 283 + 3 * (overhead + data) < 6000 then 3 else 2
  {
    var cost, r := Cost(DRIVER_LIMITS, overhead, data), RetryCount(DRIVER_LIMITS, overhead, data);
    FirstTwo(DRIVER_LIMITS, overhead, data);
    NextTotal(DRIVER_LIMITS, overhead, data, 2);
    assert Total(cost, 3) == 67 + 139 + 283 + 3 * (overhead + data);
    assert IsBudget(cost, 6000, r);
  }

  /** The 32-bit sums of air times behind these counts never wrap. */
  lemma AirTimesFit(st: Sound, k: nat)
    requires k < CELLS
    ensures Total(Cost(DRIVER_LIMITS, st.overheadRts, DataTime(st, k)), DRIVER_LIMITS.maxRetry) < 0x1_0000_0000
    ensures Total(Cost(DRIVER_LIMITS, st.overhead, DataTime(st, k)), DRIVER_LIMITS.maxRetry) < 0x1_0000_0000
  {
    var data := DataTime(st, k);
    var more, less := Cost(DRIVER_LIMITS, st.overheadRts, data), Cost(DRIVER_LIMITS, st.overhead, data);
    ThreeTries(st.overheadRts, data);
    TotalMonotone(less, more, 3);
  }

  lemma ThreeTries(overhead: nat, data: nat)
    requires overhead <= 1000 && data <= 4294967
    ensures Total(Cost(DRIVER_LIMITS, overhead, data), 3) < 0x1_0000_0000
  {
    FirstTwo(DRIVER_LIMITS, overhead, data);
    NextTotal(DRIVER_LIMITS, overhead, data, 2);
    WindowBounds(DRIVER_LIMITS, 2);
  }

  /** The table entry for cell `k`; later entries are sent with RTS/CTS protection. */
  function EncodeEntry(s: Stats, k: nat, offset: nat): Entry
    requires k < CELLS
  {
    var count := if s.prob < Frac(20, 100) || s.retryCount == 0 then 2
                 else if offset > 0 then s.retryRts else s.retryCount;
    Entry(RateIdx(k), GroupFlags(k / 10).(rts := offset > 0), count)
  }

  ghost function SetRate(st: Sound, offset: nat, k: nat): Ht
    requires offset < 3 && k < CELLS
  {
    var s := if st.cells[k].retryUpdated then st.cells[k] else Retransmit(st, k);
    st.(cells := st.cells[k := s], table := st.table[offset := EncodeEntry(s, k, offset)])
  }

  lemma SetRateKeepsInv(st: Sound, offset: nat, k: nat)
    requires offset < 3 && k < CELLS
    ensures Inv(SetRate(st, offset, k))
    ensures forall j :: 0 <= j < CELLS ==> SameEstimate(SetRate(st, offset, k).cells[j], st.cells[j])
  {
  }

  lemma SetRateFrame(st: Sound, offset: nat, k: nat)
    requires offset < 3 && k < CELLS
    ensures var s' := SetRate(st, offset, k);
            && s'.maxTp == st.maxTp && s'.maxProb == st.maxProb && |st.table| == |s'.table| == 4
            && s'.table == st.table[offset := s'.table[offset]]
  {
  }

  lemma ModifyShape(st: Sound)
    ensures var s' := ModifyTpRates(st);
            |s'.maxTp| == MAX_THR_RATES && AllBelow(s'.maxTp, CELLS) && s'.maxProb < CELLS && |s'.table| == 4
  {
    ModifyKeepsInv(st);
  }

  /** Everything but the retry budget is the same. */
  predicate SameEstimate(a: Stats, b: Stats) {
    a == b.(retryCount := a.retryCount, retryRts := a.retryRts, retryUpdated := a.retryUpdated)
  }

  /** `minstrel_ht_update_rates`. */
  ghost function UpdateRates(st: Sound): Ht
  {
    var s0 := ModifyTpRates(st);
    ModifyKeepsInv(st);
    var s1 := SetRate(s0, 0, s0.maxTp[0]);
    SetRateKeepsInv(s0, 0, s0.maxTp[0]);
    var s2 := SetRate(s1, 1, s0.maxTp[1]);
    SetRateKeepsInv(s1, 1, s0.maxTp[1]);
    var s3 := SetRate(s2, 2, s0.maxProb);
    s3.(table := s3.table[3 := s3.table[3].(idx := -1)])
  }

  /** The table after an update encodes the corrected primary, the second-best rate and the
      corrected fallback, and ends there; statistics do not change. */
  lemma UpdateRatesSpec(st: Sound)
    ensures var s' := UpdateRates(st);
            var m := ModifyTpRates(st);
            && Inv(s')
            && s'.table[0].idx == RateIdx(m.maxTp[0]) && s'.table[0].flags == GroupFlags(m.maxTp[0] / 10)
            && s'.table[1].idx == RateIdx(m.maxTp[1])
            && s'.table[1].flags == GroupFlags(m.maxTp[1] / 10).(rts := true)
            && s'.table[2].idx == RateIdx(m.maxProb)
            && s'.table[2].flags == GroupFlags(m.maxProb / 10).(rts := true)
            && s'.table[3].idx == -1
            && (forall k :: 0 <= k < CELLS ==> SameEstimate(s'.cells[k], st.cells[k]))
            && s' == m.(cells := s'.cells, table := s'.table)
  {
    hide ModifyTpRates, Retransmit;
    var s0 := ModifyTpRates(st);
    ModifyKeepsInv(st);
    ModifyFrame(st);
    var s1 := SetRate(s0, 0, s0.maxTp[0]);
    SetRateKeepsInv(s0, 0, s0.maxTp[0]);
    var s2 := SetRate(s1, 1, s0.maxTp[1]);
    SetRateKeepsInv(s1, 1, s0.maxTp[1]);
    SetRateKeepsInv(s2, 2, s0.maxProb);
  }
}
