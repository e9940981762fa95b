/** The state of one HT/VHT station (`struct minstrel_ht_sta`) as a value, what every
    reachable state satisfies, and the ranking of its rates. */
module HtState {
  import opened FixedPoint
  import opened RateGroups
  import opened RateStats
  import opened Throughput
  import opened TopRates

  /** A rate entry of the table, of a frame's retry chain, or of a completion report. */
  datatype Entry = Entry(idx: int, flags: Flags, count: nat)

  const NO_ENTRY := Entry(-1, NO_FLAGS, 0)

  datatype Ht = Ht(
    air: seq<nat>, supported: Masks, cells: seq<Stats>,
    overhead: nat, overheadRts: nat,
    ampduLen: nat, ampduPackets: nat, avgAmpdu: nat,
    maxTp: seq<nat>, maxProb: nat, groupTp: seq<seq<nat>>, groupProb: seq<nat>,
    sampleWait: nat, sampleTries: nat, sampleCount: nat,
    sampleGroup: nat, sampleIdx: seq<nat>, sampleCol: seq<nat>,
    table: seq<Entry>)

  predicate AllBelow(s: seq<nat>, n: nat) {
    forall i :: 0 <= i < |s| ==> s[i] < n
  }

  /** Array sizes and index ranges. */
  ghost predicate Shape(st: Ht) {
    && |st.air| == CELLS && |st.cells| == CELLS && ValidMasks(st.supported)
    && |st.maxTp| == MAX_THR_RATES && AllBelow(st.maxTp, CELLS) && st.maxProb < CELLS
    && |st.groupTp| == GROUPS && |st.groupProb| == GROUPS && AllBelow(st.groupProb, CELLS)
    && (forall g :: 0 <= g < GROUPS ==> |st.groupTp[g]| == MAX_THR_RATES && AllBelow(st.groupTp[g], CELLS))
    && st.sampleGroup < GROUPS
    && |st.sampleIdx| == GROUPS && AllBelow(st.sampleIdx, GROUP_RATES)
    && |st.sampleCol| == GROUPS && AllBelow(st.sampleCol, 10)
    && |st.table| == 4
  }

  /** Every supported rate has a sane air time. */
  ghost predicate AirOk(air: seq<nat>, sup: Masks) {
    && |air| == CELLS && |sup| == GROUPS
    && forall k :: 0 <= k < CELLS && Supports(sup, k) ==> 443300 <= air[k] <= 192948000
  }

  /** The bounds of every cell hold, and only supported rates have an estimate. */
  ghost predicate CellsOk(cells: seq<Stats>, sup: Masks) {
    && |cells| == CELLS && |sup| == GROUPS
    && forall k :: 0 <= k < CELLS ==> CellOk(cells[k]) && (cells[k].prob > 0 ==> Supports(sup, k))
  }

  /** A group's list ranges over the groups up to its own. */
  ghost predicate ListsOk(groupTp: seq<seq<nat>>) {
    && |groupTp| == GROUPS
    && forall g, j :: 0 <= g < GROUPS && 0 <= j < |groupTp[g]| ==> groupTp[g][j] / 10 <= g
  }

  /** Since the last update fewer than 2^20 frames were completed, in aggregates of at most 2^14. */
  predicate IntervalOk(st: Ht) {
    && st.ampduPackets <= st.ampduLen < INTERVAL_LIMIT
    && st.ampduLen <= 16384 * st.ampduPackets
  }

  /** What every reachable state satisfies. */
  ghost predicate Inv(st: Ht) {
    && Shape(st)
    && AirOk(st.air, st.supported)
    && CellsOk(st.cells, st.supported)
    && ListsOk(st.groupTp)
    && IntervalOk(st)
    && SCALE <= st.avgAmpdu <= 16384 * 4096
    && st.overhead <= st.overheadRts <= 1000
  }

  /** Some state that satisfies it: a station that supports one rate. */
  ghost function AnyState(): Ht {
    Ht(seq(CELLS, k => 443300), seq(GROUPS, g => if g == 0 then {0} else {}), seq(CELLS, k => FRESH),
       0, 0, 0, 0, SCALE, [0, 0, 0, 0], 0, seq(GROUPS, g => [0, 0, 0, 0]), seq(GROUPS, g => 0),
       0, 0, 0, 0, seq(GROUPS, g => 0), seq(GROUPS, g => 0), [NO_ENTRY, NO_ENTRY, NO_ENTRY, NO_ENTRY])
  }

  lemma AnyStateInv()
    ensures Inv(AnyState())
  {
    assert AnyState().supported[0] == {0};
  }

  /** A state that satisfies the invariant. */
  type Sound = st: Ht | Inv(st) ghost witness (AnyStateInv(); AnyState())

  lemma InvShape(st: Sound)
    ensures Shape(st) && |st.cells| == CELLS && |st.supported| == GROUPS
  {
  }

  // ----- Ranking

  /** What a throughput estimate needs besides the success estimate. */
  datatype Meter = Meter(air: seq<nat>, overhead: nat, avg: nat)

  function MeterOf(st: Ht): Meter {
    Meter(st.air, st.overhead, st.avgAmpdu)
  }

  /** No throughput estimate divides by zero. */
  ghost predicate Measurable(m: Meter, cells: seq<Stats>) {
    && |m.air| == CELLS && |cells| == CELLS && m.avg >= SCALE
    && forall k :: 0 <= k < CELLS && cells[k].prob > 0 ==> m.air[k] > 0
  }

  function KeyOf(m: Meter, cells: seq<Stats>, k: nat): Key
    requires Measurable(m, cells) && k < CELLS
  {
    Key(TpAvg(m.overhead, m.avg, k / 10 == CCK, m.air[k], cells[k].prob), cells[k].prob)
  }

  function Keys(m: Meter, cells: seq<Stats>): (keys: seq<Key>)
    requires Measurable(m, cells)
    ensures |keys| == CELLS
    ensures forall k :: 0 <= k < CELLS ==> keys[k] == KeyOf(m, cells, k)
  {
    seq(CELLS, k requires 0 <= k < CELLS => KeyOf(m, cells, k))
  }

  lemma CellsMeasurable(m: Meter, cells: seq<Stats>, sup: Masks)
    requires CellsOk(cells, sup) && AirOk(m.air, sup) && m.avg >= SCALE
    ensures Measurable(m, cells)
  {
  }

  /** In every reachable state no throughput division is by zero. */
  lemma InvMeasurable(st: Sound)
    ensures Measurable(MeterOf(st), st.cells)
  {
    CellsMeasurable(MeterOf(st), st.cells, st.supported);
  }

  lemma ZeroProbZeroKey(m: Meter, cells: seq<Stats>, k: nat)
    requires Measurable(m, cells) && k < CELLS
    ensures cells[k].prob == 0 <==> KeyOf(m, cells, k) == Key(0, 0)
  {
  }
}
