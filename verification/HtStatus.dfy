/** Completion reports, clearing and seeding of the statistics, and the start of a station
    (driver/vmac/rc80211_minstrel_ht.c). */
module HtStatus {
  import opened FixedPoint
  import opened RateGroups
  import opened RateStats
  import opened HtState
  import opened HtUpdate
  import opened HtRates

  // ----- `minstrel_ht_tx_status`

  /** `minstrel_ht_txstat_valid`. */
  predicate TxValid(e: Entry) {
    e.idx >= 0 && e.count > 0 && (e.flags.mcs || e.flags.vht || e.idx in CCK_RATES)
  }

  /** The first three entries name cells of the table. */
  ghost predicate Creditable(sup: Masks, ar: seq<Entry>) {
    && |sup| == GROUPS && |ar| == 4
    && forall i :: 0 <= i < 3 ==>
         && (ar[i].flags.mcs || ar[i].flags.vht ==> ar[i].idx >= 0)
         && 0 <= CellOf(sup, ar[i].idx, ar[i].flags) < CELLS
  }

  function EntryCell(sup: Masks, ar: seq<Entry>, i: nat): (k: nat)
    requires Creditable(sup, ar) && i < 3
    ensures k < CELLS
  {
    CellOf(sup, ar[i].idx, ar[i].flags)
  }

  /** Credit the tried entries from the `i`-th on; the last one that was tried gets the
      acknowledged frames. */
  function CreditFrom(sup: Masks, cells: seq<Stats>, ar: seq<Entry>, len: nat, acked: nat, i: nat): (r: seq<Stats>)
    requires Creditable(sup, ar) && |cells| == CELLS && i <= 3
    ensures |r| == CELLS
    decreases 3 - i
  {
    if i == 3 then cells
    else
      var last := !TxValid(ar[i + 1]);
      var k := EntryCell(sup, ar, i);
      var credited := cells[k := Credit(cells[k], ar[i].count * len, if last then acked else 0)];
      if last then credited else CreditFrom(sup, credited, ar, len, acked, i + 1)
  }

  /** The last entry of the chain that was tried. */
  function LastTried(ar: seq<Entry>, i: nat): (r: nat)
    requires |ar| == 4 && i < 3
    ensures i <= r < 3
    decreases 3 - i
  {
    if i == 2 || !TxValid(ar[i + 1]) then i else LastTried(ar, i + 1)
  }

  /** Tries reported for cell `k` by the entries from `i` to the last tried one. */
  function TriesFor(sup: Masks, ar: seq<Entry>, k: nat, i: nat): nat
    requires Creditable(sup, ar) && i < 3
    decreases 3 - i
  {
    (if EntryCell(sup, ar, i) == k then ar[i].count else 0)
    + if i == LastTried(ar, i) then 0 else TriesFor(sup, ar, k, i + 1)
  }

  /** What a report adds to cell `k`: the aggregate length times the tries reported for it,
      and the acknowledged frames if it is the last tried entry's cell. */
  function CreditTo(sup: Masks, ar: seq<Entry>, len: nat, acked: nat, i: nat, k: nat, s: Stats): Stats
    requires Creditable(sup, ar) && i < 3
  {
    var tries := TriesFor(sup, ar, k, i);
    Product(tries, len);
    Credit(s, tries * len, if EntryCell(sup, ar, LastTried(ar, i)) == k then acked else 0)
  }

  /** Credit conservation, cell by cell. The acknowledged frames go to exactly one cell, because
      the fourth slot is always the terminator. */
  lemma {:induction false} CreditConserved(sup: Masks, cells: seq<Stats>, ar: seq<Entry>, len: nat, acked: nat,
                                           i: nat, k: nat)
    requires Creditable(sup, ar) && |cells| == CELLS && i < 3 && k < CELLS && !TxValid(ar[3])
    ensures CreditFrom(sup, cells, ar, len, acked, i)[k] == CreditTo(sup, ar, len, acked, i, k, cells[k])
    decreases 3 - i
  {
    if TxValid(ar[i + 1]) {
      var j := EntryCell(sup, ar, i);
      var credited := cells[j := Credit(cells[j], ar[i].count * len, 0)];
      CreditConserved(sup, credited, ar, len, acked, i + 1, k);
      CreditToStep(sup, ar, len, acked, i, k, cells[k]);
    }
  }

  lemma CreditToStep(sup: Masks, ar: seq<Entry>, len: nat, acked: nat, i: nat, k: nat, s: Stats)
    requires Creditable(sup, ar) && i < 2 && TxValid(ar[i + 1])
    ensures CreditTo(sup, ar, len, acked, i, k, s) ==
            CreditTo(sup, ar, len, acked, i + 1, k,
                     if EntryCell(sup, ar, i) == k then Credit(s, ar[i].count * len, 0) else s)
  {
    Distribute(if EntryCell(sup, ar, i) == k then ar[i].count else 0, TriesFor(sup, ar, k, i + 1), len);
  }

  lemma Distribute(a: nat, b: nat, c: nat)
    ensures (a + b) * c == a * c + b * c
  {
  }

  /** Acknowledged frames come with a try of the entry they are credited to. */
  predicate AckedWasTried(ar: seq<Entry>, acked: nat)
    requires |ar| == 4
  {
    acked > 0 ==> ar[LastTried(ar, 0)].count > 0
  }

  lemma {:induction false} LastTriedCounts(sup: Masks, ar: seq<Entry>, k: nat, i: nat)
    requires Creditable(sup, ar) && i < 3 && EntryCell(sup, ar, LastTried(ar, i)) == k
    ensures TriesFor(sup, ar, k, i) >= ar[LastTried(ar, i)].count
    decreases 3 - i
  {
    if i != LastTried(ar, i) {
      LastTriedCounts(sup, ar, k, i + 1);
    }
  }

  lemma TriedCreditOk(s: Stats, tries: nat, len: nat, got: nat)
    requires CellOk(s) && got <= len && (got > 0 ==> tries >= 1)
    ensures CellOk(Credit(s, tries * len, got))
  {
    var sent := tries * len;
    assert got <= sent by {
      if got > 0 {
        Distribute(1, tries - 1, len);
      }
    }
  }

  lemma CreditKeepsCell(sup: Masks, ar: seq<Entry>, len: nat, acked: nat, k: nat, s: Stats)
    requires Creditable(sup, ar) && acked <= len && AckedWasTried(ar, acked) && CellOk(s)
    ensures CellOk(CreditTo(sup, ar, len, acked, 0, k, s))
  {
    var hit := EntryCell(sup, ar, LastTried(ar, 0)) == k;
    if hit {
      LastTriedCounts(sup, ar, k, 0);
    }
    TriedCreditOk(s, TriesFor(sup, ar, k, 0), len, if hit then acked else 0);
  }

  /** A report whose acknowledged frames were tried leaves no cell with more successes than
      attempts, whatever the table held. */
  lemma CreditKeepsCells(sup: Masks, cells: seq<Stats>, ar: seq<Entry>, len: nat, acked: nat)
    requires CellsOk(cells, sup) && Creditable(sup, ar) && !TxValid(ar[3])
    requires acked <= len && AckedWasTried(ar, acked)
    ensures CellsOk(CreditFrom(sup, cells, ar, len, acked, 0), sup)
  {
    var r := CreditFrom(sup, cells, ar, len, acked, 0);
    forall k | 0 <= k < CELLS
      ensures CellOk(r[k]) && (r[k].prob > 0 ==> Supports(sup, k))
    {
      CreditConserved(sup, cells, ar, len, acked, 0, k);
      CreditKeepsCell(sup, ar, len, acked, k, cells[k]);
    }
  }

  /** Every other report breaks some table: here the empty one. */
  lemma UntriedAckBreaksCell(sup: Masks, ar: seq<Entry>, len: nat, acked: nat)
    requires Creditable(sup, ar) && !TxValid(ar[3]) && !AckedWasTried(ar, acked)
    ensures var cells := seq(CELLS, k => FRESH);
            !CellOk(CreditFrom(sup, cells, ar, len, acked, 0)[EntryCell(sup, ar, 0)])
  {
    var cells := seq(CELLS, k => FRESH);
    CreditConserved(sup, cells, ar, len, acked, 0, EntryCell(sup, ar, 0));
  }

  /** More than thirty attempts in the interval, fewer than one in five successful. */
  predicate Failing(s: Stats) {
    s.attempts > 30 && Frac(s.success, s.attempts) < Frac(20, 100)
  }

  /** What the driver may report: a chain that names cells and ends at slot 3, one or more
      frames (2^14 at most) of which at most all are acknowledged, and an interval that stays short. */
  ghost predicate ReportOk(st: Ht, ar: seq<Entry>, len: nat, acked: nat) {
    && Creditable(st.supported, ar) && !TxValid(ar[3]) && AckedWasTried(ar, acked)
    && 1 <= len <= AGGREGATE_LIMIT && acked <= len && st.ampduLen + len < INTERVAL_LIMIT
  }

  /** Frames counted, the probe budget refilled when it ran dry, and the entries credited. */
  function Counted(st: Ht, ar: seq<Entry>, len: nat, acked: nat): Ht
    requires Shape(st) && Creditable(st.supported, ar)
  {
    var refill := st.sampleWait == 0 && st.sampleTries == 0 && st.sampleCount > 0;
    st.(ampduPackets := st.ampduPackets + 1, ampduLen := st.ampduLen + len,
    sampleWait := if refill then 10 else st.sampleWait,
    sampleTries := if refill then 2 else st.sampleTries,
    sampleCount := if refill then st.sampleCount - 1 else st.sampleCount,
    cells := CreditFrom(st.supported, st.cells, ar, len, acked, 0))
  }

  lemma CountedKeepsInv(st: Sound, ar: seq<Entry>, len: nat, acked: nat)
    requires ReportOk(st, ar, len, acked)
    ensures Inv(Counted(st, ar, len, acked))
  {
    CreditKeepsCells(st.supported, st.cells, ar, len, acked);
  }

  /** One of the two best rates, if it is failing, falls back to a lower group. */
  function DowngradeBest(st: Sound, j: nat): Ht
    requires j < 2
  {
    if Failing(st.cells[st.maxTp[j]]) then st.(maxTp := st.maxTp[j := Downgraded(st, st.maxTp[j], j)]) else st
  }

  lemma DowngradeKeepsInv(st: Sound, j: nat)
    requires j < 2
    ensures Inv(DowngradeBest(st, j))
  {
  }

  /** Counting and downgrading, up to the statistics update. */
  function Digested(st: Sound, ar: seq<Entry>, len: nat, acked: nat): (s': Ht)
    requires ReportOk(st, ar, len, acked)
    ensures Inv(s')
  {
    var s1 := Counted(st, ar, len, acked);
    CountedKeepsInv(st, ar, len, acked);
    var s2 := DowngradeBest(s1, 0);
    DowngradeKeepsInv(s1, 0);
    DowngradeKeepsInv(s2, 1);
    DowngradeBest(s2, 1)
  }

  /** One of the two best rates was failing when it was looked at. */
  predicate NeedsUpdate(st: Sound, ar: seq<Entry>, len: nat, acked: nat)
    requires ReportOk(st, ar, len, acked)
  {
    var s1 := Counted(st, ar, len, acked);
    Failing(s1.cells[s1.maxTp[0]]) || Failing(s1.cells[s1.maxTp[1]])
  }

  /** `minstrel_ht_tx_status`; `elapsed` tells that the update interval has passed. */
  ghost function TxStatus(st: Sound, ar: seq<Entry>, len: nat, acked: nat, elapsed: bool): (s': Ht)
    requires ReportOk(st, ar, len, acked)
    ensures Inv(s')
  {
    var s1 := Digested(st, ar, len, acked);
    var s2 := if elapsed then UpdateStats(s1) else s1;
    UpdateKeepsInv(s1);
    UpdateRatesSpec(s2);
    if elapsed || NeedsUpdate(st, ar, len, acked) then UpdateRates(s2) else s2
  }

  // ----- `minstrel_clear_unfitable_rate_stats`

  function ClearedCell(sup: Masks, cells: seq<Stats>, maxRate: nat, k: nat): Stats
    requires |sup| == GROUPS && |cells| == CELLS && k < CELLS
  {
    if Supports(sup, k) && k % 10 >= maxRate + 2 then Clear(cells[k]) else cells[k]
  }

  lemma ClearedCellAt(sup: Masks, cells: seq<Stats>, maxRate: nat, g: nat, i: nat)
    requires |sup| == GROUPS && |cells| == CELLS && g < GROUPS && i < GROUP_RATES
    ensures var k := g * 10 + i;
            ClearedCell(sup, cells, maxRate, k) == if maxRate + 2 <= i && i in sup[g] then Clear(cells[k]) else cells[k]
  {
  }

  function ClearUnfitable(st: Ht, maxRate: nat): Ht
    requires Shape(st)
  {
    st.(cells := seq(CELLS, k requires 0 <= k < CELLS => ClearedCell(st.supported, st.cells, maxRate, k)))
  }

  lemma ClearKeepsInv(st: Sound, maxRate: nat)
    ensures Inv(ClearUnfitable(st, maxRate))
  {
  }

  // ----- `minstrel_init_start_stats`

  /** Group `g` works at bandwidth `bw` and supports rate `i`. */
  predicate HasRate(sup: Masks, bw: nat, g: nat, i: nat)
    requires |sup| == GROUPS && g < GROUPS
  {
    GroupBw(g) == bw && i in sup[g]
  }

  /** The highest rate not above `i` that some group of bandwidth `bw` supports, or -1. */
  function TopRate(sup: Masks, bw: nat, i: int): (r: int)
    requires |sup| == GROUPS && -1 <= i
    ensures -1 <= r <= i
    ensures r >= 0 ==> exists g :: 0 <= g < GROUPS && HasRate(sup, bw, g, r)
    ensures forall j, g :: r < j <= i && 0 <= g < GROUPS ==> !HasRate(sup, bw, g, j)
    decreases i + 1
  {
    if i < 0 then -1
    else if exists g :: 0 <= g < GROUPS && HasRate(sup, bw, g, i) then i
    else TopRate(sup, bw, i - 1)
  }

  function SeedRate(sup: Masks, maxRate: nat, bw: nat): (r: nat)
    requires |sup| == GROUPS
    ensures r <= maxRate
  {
    var top := TopRate(sup, bw, 9);
    if 0 <= top < maxRate then top else maxRate
  }

  /** Some group of bandwidth `bw` supports a rate from `m` on. */
  ghost predicate Reaches(sup: Masks, bw: nat, m: nat)
    requires |sup| == GROUPS
  {
    exists g, i :: 0 <= g < GROUPS && i in sup[g] && i >= m && HasRate(sup, bw, g, i)
  }

  /** The seeded rate is the permitted one, unless the rates of that bandwidth end below it; then
      it is the highest of them. */
  lemma SeedRateExactly(sup: Masks, maxRate: nat, bw: nat)
    requires ValidMasks(sup)
    ensures var r := SeedRate(sup, maxRate, bw);
            && (Reaches(sup, bw, maxRate) || !Reaches(sup, bw, 0) ==> r == maxRate)
            && (Reaches(sup, bw, 0) && !Reaches(sup, bw, maxRate) ==> Reaches(sup, bw, r) && !Reaches(sup, bw, r + 1))
  {
    var top := TopRate(sup, bw, 9);
    if top >= 0 {
      var g :| 0 <= g < GROUPS && HasRate(sup, bw, g, top);
      assert top in sup[g];
    }
  }

  function Seed(s: Stats, attempts: nat, success: nat): Stats {
    s.(attempts := attempts, attHist := attempts, success := success, succHist := success)
  }

  /** A group that supports the seed rate starts with a good record for it and a token one
      for rate 2. */
  function SeededCell(sup: Masks, cells: seq<Stats>, bw: nat, rate: nat, k: nat): Stats
    requires |sup| == GROUPS && |cells| == CELLS && k < CELLS
  {
    if !HasRate(sup, bw, k / 10, rate) then cells[k]
    else if k % 10 == 2 then Seed(cells[k], 1, 1)
    else if k % 10 == rate then Seed(cells[k], 20, 18)
    else cells[k]
  }

  function Seeded(st: Ht, maxRate: nat, bw: nat): Ht
    requires Shape(st)
  {
    st.(cells := seq(CELLS, k requires 0 <= k < CELLS =>
      SeededCell(st.supported, st.cells, bw, SeedRate(st.supported, maxRate, bw), k)))
  }

  lemma SeededKeepsInv(st: Sound, maxRate: nat, bw: nat)
    ensures Inv(Seeded(st, maxRate, bw))
  {
  }

  function InitStart(st: Sound, maxRate: nat, bw: nat): (s': Ht)
    ensures Inv(s')
  {
    SeededKeepsInv(st, maxRate, bw);
    UpdateKeepsInv(Seeded(st, maxRate, bw));
    UpdateStats(Seeded(st, maxRate, bw))
  }

  // ----- `minstrel_ht_update_caps`

  /** `ieee80211_frame_duration` for OFDM at 6 Mbit/s: section 17.4.3 of IEEE 802.11-2016. */
  function OfdmDuration(len: nat): nat {
    16 + 16 + 4 + 4 * (((16 + 8 * (len + 4) + 6) * 10 + 240 - 1) / 240)
  }

  function AirTable(): (air: seq<nat>)
    ensures |air| == CELLS && forall k :: 0 <= k < CELLS ==> air[k] == Duration(k)
  {
    seq(CELLS, k requires 0 <= k < CELLS => Duration(k))
  }

  function MasksOf(c: Caps): (sup: Masks)
    ensures |sup| == GROUPS && forall g :: 0 <= g < GROUPS ==> sup[g] == Mask(c, g)
  {
    seq(GROUPS, g requires 0 <= g < GROUPS => Mask(c, g))
  }

  /** A station whose capabilities were just read. */
  function Fresh(c: Caps, table: seq<Entry>): Ht {
    var ack := OfdmDuration(10);
    Ht(AirTable(), MasksOf(c), seq(CELLS, k => FRESH),
       OfdmDuration(0) + ack, OfdmDuration(0) + ack + 2 * ack,
       0, 0, SCALE,
       [0, 0, 0, 0], 0, seq(GROUPS, g => [0, 0, 0, 0]), seq(GROUPS, g => 0),
       0, 4, 64,
       0, seq(GROUPS, g => 0), seq(GROUPS, g => 0),
       table)
  }

  /** The overheads of a new station: a frame without data and its acknowledgement take 108 us; RTS
      and CTS take another 120. */
  lemma FreshOverheads(c: Caps, table: seq<Entry>)
    ensures Fresh(c, table).overhead == 108 && Fresh(c, table).overheadRts == 228
  {
    assert OfdmDuration(0) == 48 && OfdmDuration(10) == 60;
  }

  /** Every supported rate of every station has an air time in the sane range. */
  lemma FreshInv(c: Caps, table: seq<Entry>)
    requires ValidCaps(c) && HtUsable(c) && |table| == 4
    ensures Inv(Fresh(c, table))
  {
    var st := Fresh(c, table);
    MasksAreValid(c, st.supported);
    forall k | 0 <= k < CELLS && Supports(st.supported, k)
      ensures 443300 <= st.air[k] <= 192948000
    {
      DurationPositive(k);
    }
  }

  ghost function UpdateCaps(c: Caps, table: seq<Entry>): (s': Ht)
    requires ValidCaps(c) && HtUsable(c) && |table| == 4
    ensures Inv(s')
  {
    FreshInv(c, table);
    UpdateKeepsInv(Fresh(c, table));
    UpdateRatesSpec(UpdateStats(Fresh(c, table)));
    UpdateRates(UpdateStats(Fresh(c, table)))
  }
}
