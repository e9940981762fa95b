/** The driver around the engine (driver/vmac/rc80211_minstrel_init.c): handing out a retry
    chain for a frame, and feeding back its completion. */
module Driver {
  import opened FixedPoint
  import opened RateGroups
  import opened RateStats
  import opened HtState
  import opened HtUpdate
  import opened HtRates
  import opened HtSample
  import opened HtStatus
  import opened HtCap
  import opened SampleTable
  import opened Signal

  /** A frame's chain: up to three entries, then the terminator in slot 3. */
  type Chain = seq<Entry>

  const BLANK: Chain := [NO_ENTRY, NO_ENTRY, NO_ENTRY, NO_ENTRY]

  predicate FlagsOk(f: Flags) {
    f.vht ==> !(f.bw40 && f.bw80)
  }

  /** An entry that names one of the ten rates of a group. */
  predicate EntryOk(e: Entry) {
    0 <= e.idx < GROUP_RATES && FlagsOk(e.flags)
  }

  predicate ChainOk(c: Chain) {
    |c| == 4 && (forall i :: 0 <= i < 3 ==> EntryOk(c[i])) && c[3].idx == -1
  }

  // ----- `minstrel_find_rate`

  function ProbeEntry(k: nat): Entry
    requires k < CELLS
  {
    Entry(RateIdx(k), GroupFlags(k / 10), 1)
  }

  /** The control entries after sampling: blank except for the probe. */
  function Placed(p: Probe): (c: Chain)
    requires p.Probe? ==> p.cell < CELLS && p.slot < 2
    ensures |c| == 4
  {
    if p.NoProbe? then BLANK else BLANK[p.slot := ProbeEntry(p.cell)]
  }

  predicate IsSet(e: Entry) {
    e.idx >= 0 && e.count > 0
  }

  /** The last of the first `n` entries that is set, or -1. */
  function LastSet(c: Chain, n: nat): (r: int)
    requires n <= |c|
    ensures -1 <= r < n && (r >= 0 ==> IsSet(c[r])) && (forall i :: r < i < n ==> !IsSet(c[i]))
  {
    if n == 0 then -1 else if IsSet(c[n - 1]) then n - 1 else LastSet(c, n - 1)
  }

  /** `check_is_rate_fitable`: the probe is wide enough and not above what the signal permits. */
  predicate Fitable(l: Link, c: Chain) {
    var j := LastSet(c, |c|);
    j >= 0 && FlagsBw(c[j].flags) >= FitableBw(l) && FitableMcs(l, FlagsBw(c[j].flags)) >= c[j].idx
  }

  /** The statistics after the check: a probe that is wide enough but too fast for the signal
      clears the rates well above what is permitted. */
  function Checked(st: Ht, l: Link, c: Chain): Ht
    requires Shape(st)
  {
    var j := LastSet(c, |c|);
    if j < 0 || FlagsBw(c[j].flags) < FitableBw(l) then st
    else
      var permitted := FitableMcs(l, FlagsBw(c[j].flags));
      if permitted < c[j].idx then ClearUnfitable(st, permitted) else st
  }

  /** `rate_control_fill_sta_table` from slot `i` on: keep what is set, take the rest from the
      station's table, stop at an entry that is not usable. */
  function FillFrom(rates: Chain, table: seq<Entry>, i: nat): (r: Chain)
    requires |rates| == 4 && |table| == 4 && i <= 3
    ensures |r| == 4
    decreases 3 - i
  {
    if i == 3 then rates[3 := NO_ENTRY]
    else
      var e := if IsSet(rates[i]) then rates[i] else Entry(table[i].idx, table[i].flags, 2);
      if e.idx < 0 then rates[i := e][3 := NO_ENTRY] else FillFrom(rates[i := e], table, i + 1)
  }

  /** With a usable table every slot holds the control entry that was set, or the table's. */
  lemma FillSpec(rates: Chain, table: seq<Entry>, i: nat)
    requires |rates| == 4 && |table| == 4 && i <= 3
    requires forall j :: 0 <= j < 3 ==> table[j].idx >= 0
    ensures var r := FillFrom(rates, table, i);
            && r[3] == NO_ENTRY
            && (forall j :: 0 <= j < i ==> r[j] == rates[j])
            && (forall j :: i <= j < 3 ==>
                  r[j] == if IsSet(rates[j]) then rates[j] else Entry(table[j].idx, table[j].flags, 2))
    decreases 3 - i
  {
  }

  /** `minstrel_rate_index_to_vendor_rate_code` has an MCS prefix: the rate can be floored. */
  predicate HasMcsCode(l: Link, idx: int) {
    0 <= idx <= if l.vht then 9 else 7
  }

  /** The access point's floor on the first rate of a frame that is not a probe. */
  function Floored(l: Link, probed: bool, c: Chain): (r: Chain)
    requires |c| == 4
    ensures |r| == 4
  {
    if l.ap && !probed && HasMcsCode(l, c[0].idx) && FitableMcs(l, FlagsBw(c[0].flags)) > c[0].idx then
      c[0 := c[0].(idx := FitableMcs(l, FlagsBw(c[0].flags)))]
    else c
  }

  /** The final numbers of tries. */
  function WithTries(l: Link, c: Chain): (r: Chain)
    requires |c| == 4
    ensures |r| == 4
  {
    [c[0].(count := 2), c[1].(count := 2), c[2].(count := l.tailTries), c[3]]
  }

  datatype Found = Found(st: Ht, chain: Chain, probed: bool)

  /** Everything after sampling; only a station checks its probe against the signal. */
  function HandOut(s: Sampled, l: Link): Found
    requires Shape(s.st) && (s.probe.Probe? ==> s.probe.cell < CELLS && s.probe.slot < 2)
  {
    var control := Placed(s.probe);
    var vetoed := !l.ap && !Fitable(l, control);
    var probed := s.probe.Probe? && !vetoed;
    var filled := FillFrom(if vetoed then BLANK else control, s.st.table, 0);
    Found(if l.ap then s.st else Checked(s.st, l, control),
          WithTries(l, Floored(l, probed, filled)), probed)
  }

  ghost function FindRate(st: Sound, columns: seq<seq<nat>>, l: Link): Found
    requires IsSampleTable(columns)
  {
    SampleRateFrame(st, columns);
    ProbeBound(st, columns);
    HandOut(SampleRate(st, columns), l)
  }

  /** What is true of the station between driver calls, in either mode. */
  ghost predicate Ready(st: Ht) {
    Inv(st) && ChainOk(st.table)
  }

  lemma EncodedEntryOk(k: nat, rts: bool)
    requires k < CELLS
    ensures RateIdx(k) < GROUP_RATES && FlagsOk(GroupFlags(k / 10).(rts := rts))
  {
  }

  /** The slots of a handed-out chain. */
  lemma HandOutSlots(s: Sampled, l: Link)
    requires Ready(s.st) && LinkOk(l) && (s.probe.Probe? ==> s.probe.cell < CELLS && s.probe.slot < 2)
    ensures ChainOk(HandOut(s, l).chain)
    ensures !l.ap && HandOut(s, l).probed ==> RateIdx(s.probe.cell) <= CAP
    ensures !l.ap ==> forall i :: 0 <= i < 3 ==>
              var c := HandOut(s, l).chain[i];
              c.idx == s.st.table[i].idx || (HandOut(s, l).probed && c.idx == RateIdx(s.probe.cell))
  {
    hide FitableMcs, FitableBw, Checked, RateIdx, GroupFlags;
    var control := Placed(s.probe);
    FillSpec(control, s.st.table, 0);
    FillSpec(BLANK, s.st.table, 0);
    if s.probe.Probe? {
      EncodedEntryOk(s.probe.cell, false);
      assert IsSet(control[s.probe.slot]) && LastSet(control, 4) == s.probe.slot;
      var bw := FlagsBw(control[s.probe.slot].flags);
      GateCap(l, bw);
    }
    GateCap(l, BW_20);
    GateCap(l, BW_40);
    GateCap(l, BW_80);
  }

  lemma FindRateKeepsReady(st: Ht, columns: seq<seq<nat>>, l: Link)
    requires Ready(st) && IsSampleTable(columns) && LinkOk(l)
    ensures Ready(FindRate(st, columns, l).st) && ChainOk(FindRate(st, columns, l).chain)
    ensures FindRate(st, columns, l).st.table == st.table
  {
    SampleRateFrame(st, columns);
    ProbeBound(st, columns);
    var s := SampleRate(st, columns);
    HandOutSlots(s, l);
    var j := LastSet(Placed(s.probe), 4);
    if j >= 0 {
      ClearKeepsInv(s.st, FitableMcs(l, FlagsBw(Placed(s.probe)[j].flags)));
    }
  }

  /** The check lets the sampled rate pass: wide enough, and not above what the gate permits. */
  predicate Passes(l: Link, k: nat)
    requires k < CELLS
  {
    WideEnough(l, GroupBw(k / 10)) && RateIdx(k) <= FitableMcs(l, GroupBw(k / 10))
  }

  /** A cell that the check clears: a supported rate two or more above the permitted one, with a
      recorded success. It is left with one failed attempt and no history. */
  function Wiped(st: Ht, permitted: nat, k: nat): Stats
    requires |st.cells| == CELLS && |st.supported| == GROUPS && k < CELLS
  {
    var s := st.cells[k];
    if k % 10 in st.supported[k / 10] && k % 10 >= permitted + 2 && s.succHist > 0 then
      s.(attempts := 1, success := 0, attHist := 0, succHist := 0, lastAttempts := 0, lastSuccess := 0)
    else s
  }

  /** A station's request is answered with the sampled rate if and only if there is one and it
      passes. Statistics change if and only if it is wide enough but too fast, and then exactly
      those cells are cleared. */
  lemma StationProbeExactly(st: Ht, columns: seq<seq<nat>>, l: Link)
    requires Ready(st) && IsSampleTable(columns) && LinkOk(l) && !l.ap
    ensures var p, f := SampleRate(st, columns).probe, FindRate(st, columns, l);
            && (p.Probe? ==> p.cell < CELLS)
            && (f.probed <==> p.Probe? && Passes(l, p.cell))
            && |f.st.cells| == |st.cells| == CELLS && |st.supported| == GROUPS
            && forall k :: 0 <= k < CELLS ==>
                 f.st.cells[k] ==
                 if p.Probe? && WideEnough(l, GroupBw(p.cell / 10)) && !Passes(l, p.cell)
                 then Wiped(st, FitableMcs(l, GroupBw(p.cell / 10)), k) else st.cells[k]
  {
    hide SampleRate, FitableMcs, FitableBw, WideEnough, FillFrom, Floored, WithTries, RateIdx, GroupFlags, Inv;
    InvShape(st);
    SampleRateFrame(st, columns);
    ProbeBound(st, columns);
    var p := SampleRate(st, columns).probe;
    if p.Probe? {
      EncodedEntryOk(p.cell, false);
      assert IsSet(Placed(p)[p.slot]) && LastSet(Placed(p), 4) == p.slot;
      FitableBwExactly(l, GroupBw(p.cell / 10));
    }
  }

  /** In station mode a capped station hands out only capped chains and stays capped. */
  lemma FindRateKeepsCap(st: Ht, columns: seq<seq<nat>>, l: Link)
    requires Ready(st) && IsSampleTable(columns) && LinkOk(l) && !l.ap
    requires Capped(st) && forall i :: 0 <= i < 3 ==> st.table[i].idx <= CAP
    ensures Capped(FindRate(st, columns, l).st)
    ensures forall i :: 0 <= i < 3 ==> FindRate(st, columns, l).chain[i].idx <= CAP
  {
    SampleRateFrame(st, columns);
    ProbeBound(st, columns);
    var s := SampleRate(st, columns);
    HandOutSlots(s, l);
    var j := LastSet(Placed(s.probe), 4);
    if j >= 0 {
      ClearKeepsCap(s.st, FitableMcs(l, FlagsBw(Placed(s.probe)[j].flags)));
    }
  }

  /** In access-point mode at -72 dBm or better, the first rate of a frame that is not a probe
      is never below MCS 6. */
  lemma ApFloor(st: Ht, columns: seq<seq<nat>>, l: Link)
    requires Ready(st) && IsSampleTable(columns) && LinkOk(l)
    requires l.ap && Power(l) >= -72 && Power(l) != 0 && !FindRate(st, columns, l).probed
    ensures FindRate(st, columns, l).chain[0].idx >= 6
  {
    SampleRateFrame(st, columns);
    ProbeBound(st, columns);
    var s := SampleRate(st, columns);
    FillSpec(Placed(s.probe), s.st.table, 0);
    var f := FillFrom(Placed(s.probe), s.st.table, 0);
    GateMonotoneAndCapped(Power(l), Power(l), l.snr, l.snr, l.rssiOffset, FlagsBw(f[0].flags));
  }

  /** The cap does not extend to access points: their chains stay at or below MCS 6 exactly
      when the table's entries that are used and the probe are. */
  lemma ApCapExactly(st: Ht, columns: seq<seq<nat>>, l: Link)
    requires Ready(st) && IsSampleTable(columns) && LinkOk(l) && l.ap
    ensures (forall i :: 0 <= i < 3 ==> FindRate(st, columns, l).chain[i].idx <= CAP) <==>
            var p := SampleRate(st, columns).probe;
            && (forall i :: 0 <= i < 3 && !(p.Probe? && p.slot == i) ==> st.table[i].idx <= CAP)
            && (p.Probe? ==> p.cell < CELLS && RateIdx(p.cell) <= CAP)
  {
    SampleRateFrame(st, columns);
    ProbeBound(st, columns);
    var s := SampleRate(st, columns);
    var control := Placed(s.probe);
    FillSpec(control, s.st.table, 0);
    var f := FillFrom(control, s.st.table, 0);
    GateMonotoneAndCapped(Power(l), Power(l), l.snr, l.snr, l.rssiOffset, FlagsBw(f[0].flags));
    var chain := FindRate(st, columns, l).chain;
    assert chain[0].idx <= CAP <==> f[0].idx <= CAP;
    assert chain[1].idx == f[1].idx && chain[2].idx == f[2].idx;
  }

  // ----- `minstrel_tx_complete`

  /** The entries a completion reports: those that were tried. */
  function Reported(c: Chain, tries: seq<nat>): (ar: Chain)
    requires |c| == 4 && |tries| == 4
    ensures |ar| == 4
    ensures forall i :: 0 <= i < 4 ==>
              ar[i] == if tries[i] != 0 then Entry(c[i].idx, c[i].flags, tries[i]) else NO_ENTRY
  {
    seq(4, i requires 0 <= i < 4 => if tries[i] != 0 then Entry(c[i].idx, c[i].flags, tries[i]) else NO_ENTRY)
  }

  /** The reported number of frames: at least one. */
  function Frames(ampdu: nat): nat {
    if ampdu > 1 then ampdu else 1
  }

  lemma EntryNamesCell(sup: Masks, e: Entry)
    requires ValidMasks(sup) && (EntryOk(e) || e == NO_ENTRY)
    ensures e.flags.mcs || e.flags.vht ==> e.idx >= 0
    ensures 0 <= CellOf(sup, e.idx, e.flags) < CELLS
    ensures e.idx <= CAP ==> CellOf(sup, e.idx, e.flags) % 10 <= CAP || CellOf(sup, e.idx, e.flags) / 10 == CCK
  {
    if e.flags.mcs || e.flags.vht {
      McsEntryNamesCell(sup, e);
    } else {
      assert CckPosition(e.idx) <= 4;
    }
  }

  lemma McsEntryNamesCell(sup: Masks, e: Entry)
    requires |sup| == GROUPS && (e.flags.mcs || e.flags.vht) && EntryOk(e)
    ensures 0 <= CellOf(sup, e.idx, e.flags) < CELLS
    ensures e.idx <= CAP ==> CellOf(sup, e.idx, e.flags) % 10 <= CAP
  {
    var f := e.flags;
    var g: nat := if f.mcs then (if f.bw40 then 2 else 0) + (if f.sgi then 1 else 0) + e.idx / 8
                  else VHT_0 + 2 * ((if f.bw40 then 1 else 0) + if f.bw80 then 2 else 0) + if f.sgi then 1 else 0;
    assert CellOf(sup, e.idx, f) == Cell(g, if f.mcs then e.idx % 8 else e.idx);
  }

  /** What a completion of chain `c` may tell: the terminator is never tried, and an acknowledged
      frame comes with a try of the slot it is credited to. */
  predicate TriesOk(c: Chain, tries: seq<nat>, ack: bool) {
    |c| == 4 && |tries| == 4 && tries[3] == 0 && (ack ==> AckedWasTried(Reported(c, tries), 1))
  }

  /** A completion of a handed-out chain is a sound report. */
  lemma CompletionIsReport(st: Sound, c: Chain, tries: seq<nat>, ack: bool, ampdu: nat)
    requires ChainOk(c) && TriesOk(c, tries, ack)
    requires Frames(ampdu) <= AGGREGATE_LIMIT && st.ampduLen + Frames(ampdu) < INTERVAL_LIMIT
    ensures ReportOk(st, Reported(c, tries), Frames(ampdu), if ack then Frames(ampdu) else 0)
    ensures (forall i :: 0 <= i < 3 ==> c[i].idx <= CAP) ==> ReportLow(st.supported, Reported(c, tries))
  {
    var ar := Reported(c, tries);
    forall i | 0 <= i < 3
      ensures ar[i].flags.mcs || ar[i].flags.vht ==> ar[i].idx >= 0
      ensures 0 <= CellOf(st.supported, ar[i].idx, ar[i].flags) < CELLS
      ensures var k := CellOf(st.supported, ar[i].idx, ar[i].flags);
              c[i].idx <= CAP ==> k % 10 <= CAP || k / 10 == CCK
    {
      EntryNamesCell(st.supported, ar[i]);
    }
  }

  // ----- Which rates a completion credits

  /** The entry is the encoding of cell `k`, with or without protection. */
  predicate Names(e: Entry, k: nat) {
    k < CELLS && e.idx == RateIdx(k) && e.flags == GroupFlags(k / 10).(rts := e.flags.rts)
  }

  /** The first three entries encode the rates `ks`. */
  predicate ChainNames(c: Chain, ks: seq<nat>) {
    |c| == 4 && |ks| == 3 && forall i :: 0 <= i < 3 ==> Names(c[i], ks[i])
  }

  ghost predicate IsNamed(c: Chain) {
    exists ks :: ChainNames(c, ks)
  }

  /** The table that an update writes encodes the corrected primary rate, the second-best rate
      and the corrected fallback. */
  lemma TableNamesRates(st: Sound)
    ensures var m := ModifyTpRates(st);
            |m.maxTp| == 4 && ChainNames(UpdateRates(st).table, [m.maxTp[0], m.maxTp[1], m.maxProb])
  {
    hide UpdateRates, ModifyTpRates, GroupFlags, RateIdx;
    UpdateRatesSpec(st);
    ModifyShape(st);
  }

  /** The rates of a handed-out chain: the table's, with the sampled one in its place. */
  function HandedRates(ks: seq<nat>, p: Probe, probed: bool): (r: seq<nat>)
    requires |ks| == 3
    ensures |r| == 3
  {
    if probed && p.Probe? && p.slot < 2 then ks[p.slot := p.cell] else ks
  }

  /** Without the access point's floor, slots hold the sampled entry or the table's. */
  lemma HandOutEntries(s: Sampled, l: Link, i: nat)
    requires Shape(s.st) && (s.probe.Probe? ==> s.probe.cell < CELLS && s.probe.slot < 2) && i < 3
    requires forall j :: 0 <= j < 3 ==> s.st.table[j].idx >= 0
    requires !l.ap || HandOut(s, l).probed
    ensures var f := HandOut(s, l);
            var e := if f.probed && s.probe.slot == i then ProbeEntry(s.probe.cell) else s.st.table[i];
            f.chain[i].idx == e.idx && f.chain[i].flags == e.flags
  {
    hide Fitable, Checked, ValidMasks, AllBelow;
    FillSpec(Placed(s.probe), s.st.table, 0);
    FillSpec(BLANK, s.st.table, 0);
  }

  /** Every chain that is handed out without the access point's floor encodes these rates. */
  lemma HandedChainNames(st: Ht, ks: seq<nat>, columns: seq<seq<nat>>, l: Link)
    requires Ready(st) && IsSampleTable(columns) && LinkOk(l) && ChainNames(st.table, ks)
    requires !l.ap || FindRate(st, columns, l).probed
    ensures var f := FindRate(st, columns, l);
            ChainNames(f.chain, HandedRates(ks, SampleRate(st, columns).probe, f.probed))
  {
    hide SampleRate, HandOut, Inv, GroupFlags, RateIdx;
    InvShape(st);
    SampleRateFrame(st, columns);
    ProbeBound(st, columns);
    var s := SampleRate(st, columns);
    var f, rates := HandOut(s, l), HandedRates(ks, s.probe, HandOut(s, l).probed);
    FindRateKeepsReady(st, columns, l);
    ProbedHasProbe(s, l);
    forall i | 0 <= i < 3
      ensures Names(f.chain[i], rates[i])
    {
      HandOutEntries(s, l, i);
      assert Names(st.table[i], ks[i]);
    }
  }

  /** How often each slot is tried: twice, twice, as often as configured, and never. */
  lemma HandedCounts(st: Ht, columns: seq<seq<nat>>, l: Link)
    requires Ready(st) && IsSampleTable(columns) && LinkOk(l)
    ensures var c := FindRate(st, columns, l).chain;
            |c| == 4 && c[0].count == 2 && c[1].count == 2 && c[2].count == l.tailTries && c[3] == NO_ENTRY
  {
    hide SampleRate, Inv, Fitable, Checked, FitableMcs;
    InvShape(st);
    SampleRateFrame(st, columns);
    ProbeBound(st, columns);
    var s := SampleRate(st, columns);
    FillSpec(Placed(s.probe), s.st.table, 0);
    FillSpec(BLANK, s.st.table, 0);
  }

  // ----- Which chains encode rates

  /** The access point's floor has raised a CCK entry above the four CCK rates. */
  predicate Raised(e: Entry) {
    !e.flags.mcs && !e.flags.vht && e.idx > 3
  }

  /** The floor is going to do so. */
  predicate WillRaise(e: Entry, l: Link, probed: bool) {
    l.ap && !probed && !e.flags.mcs && !e.flags.vht && FitableMcs(l, BW_20) > 3
  }

  /** Without a probe, slots of an access point hold the table's entries, the first one floored. */
  lemma FlooredEntries(s: Sampled, l: Link, i: nat)
    requires Shape(s.st) && s.probe.NoProbe? && l.ap && i < 3 && forall j :: 0 <= j < 3 ==> s.st.table[j].idx >= 0
    ensures var c, e := HandOut(s, l).chain[i], s.st.table[i];
            var m := FitableMcs(l, FlagsBw(e.flags));
            && c.flags == e.flags
            && (c.idx == e.idx || (i == 0 && c.idx == m > e.idx))
            && (i == 0 && HasMcsCode(l, e.idx) ==> c.idx >= m)
  {
    hide FitableMcs, ValidMasks, AllBelow;
    FillSpec(BLANK, s.st.table, 0);
  }

  lemma NamedIsNotRaised(e: Entry, k: nat)
    requires Names(e, k)
    ensures !Raised(e)
    ensures !e.flags.mcs && !e.flags.vht ==> k / 10 == CCK && 0 <= e.idx <= 3 && FlagsBw(e.flags) == BW_20
  {
  }

  /** A floored entry names a rate of the same group, unless it is raised. */
  lemma FlooredNames(e: Entry, k: nat, m: nat) returns (k': nat)
    requires Names(e, k) && m <= CAP
    ensures !Raised(e.(idx := m)) ==> Names(e.(idx := m), k')
  {
    k' := Cell(k / 10, m);
    if !Raised(e.(idx := m)) {
      assert k' < CELLS && RateIdx(k') == m;
    }
  }

  lemma FlooredChainNamed(s: Sampled, l: Link, ks: seq<nat>)
    requires Shape(s.st) && s.probe.NoProbe? && l.ap && ChainNames(s.st.table, ks) && |HandOut(s, l).chain| == 4
    ensures var c := HandOut(s, l).chain[0];
            && (Raised(c) <==> WillRaise(s.st.table[0], l, false))
            && (!Raised(c) ==> IsNamed(HandOut(s, l).chain))
  {
    hide HandOut, FitableMcs, RateIdx, GroupFlags;
    var f, e := HandOut(s, l).chain, s.st.table[0];
    forall i | 0 <= i < 3
      ensures s.st.table[i].idx >= 0
    {
      assert Names(s.st.table[i], ks[i]);
    }
    NamedIsNotRaised(e, ks[0]);
    GateCap(l, FlagsBw(e.flags));
    FlooredEntries(s, l, 0);
    FlooredEntries(s, l, 1);
    FlooredEntries(s, l, 2);
    if !Raised(f[0]) {
      var k := FlooredNames(e, ks[0], FitableMcs(l, FlagsBw(e.flags)));
      var k0 := if f[0].idx == e.idx then ks[0] else k;
      assert Names(f[0], k0) && Names(s.st.table[1], ks[1]) && Names(s.st.table[2], ks[2]);
      assert ChainNames(f, [k0, ks[1], ks[2]]);
    }
  }

  /** A chain that is handed out encodes rates, in either mode, if and only if the floor of an
      access point does not raise a CCK entry of the table above the CCK rates. */
  lemma HandedChainNamedExactly(st: Ht, columns: seq<seq<nat>>, l: Link)
    requires Ready(st) && IsSampleTable(columns) && LinkOk(l) && IsNamed(st.table)
    ensures var f := FindRate(st, columns, l);
            && |f.chain| == 4 && (IsNamed(f.chain) <==> !Raised(f.chain[0]))
            && (Raised(f.chain[0]) <==> WillRaise(st.table[0], l, f.probed))
  {
    hide SampleRate, HandOut, Inv, FitableMcs, Raised, ChainNames, ChainOk, IsPermutation;
    InvShape(st);
    SampleRateFrame(st, columns);
    ProbeBound(st, columns);
    FindRateKeepsReady(st, columns, l);
    var s, f := SampleRate(st, columns), FindRate(st, columns, l);
    var ks :| ChainNames(st.table, ks);
    if !l.ap || f.probed {
      HandedChainNames(st, ks, columns, l);
    } else {
      UnprobedHasNone(s, l);
      FlooredChainNamed(s, l, ks);
    }
    NamedChainIsNotRaised(f.chain);
  }

  lemma NamedChainIsNotRaised(c: Chain)
    ensures IsNamed(c) ==> |c| == 4 && !Raised(c[0])
  {
    if ks :| ChainNames(c, ks) {
      assert Names(c[0], ks[0]);
      NamedIsNotRaised(c[0], ks[0]);
    }
  }

  /** The report of a raised entry is credited to a slot that belongs to no rate of the peer. */
  lemma RaisedReport(sup: Masks, e: Entry)
    requires ValidMasks(sup) && Raised(e)
    ensures CellOf(sup, e.idx, e.flags) == 48 && !Supports(sup, 48)
  {
    assert CckPosition(e.idx) == 4;
  }

  lemma UnprobedHasNone(s: Sampled, l: Link)
    requires Shape(s.st) && (s.probe.Probe? ==> s.probe.cell < CELLS && s.probe.slot < 2) && l.ap
    ensures HandOut(s, l).probed <==> s.probe.Probe?
  {
  }

  lemma ProbedHasProbe(s: Sampled, l: Link)
    requires Shape(s.st) && (s.probe.Probe? ==> s.probe.cell < CELLS && s.probe.slot < 2)
    ensures HandOut(s, l).probed ==> s.probe.Probe?
  {
  }

  /** Where the reports of the rates `ks` land. */
  function Landed(sup: Masks, ks: seq<nat>): (r: seq<int>)
    requires |sup| == GROUPS && forall i :: 0 <= i < |ks| ==> ks[i] < CELLS
    ensures |r| == |ks| && forall i :: 0 <= i < |ks| ==> r[i] == Report(sup, ks[i], false)
  {
    seq(|ks|, i requires 0 <= i < |ks| => Report(sup, ks[i], false))
  }

  /** The last slot of the unbroken series of tried slots. */
  function LastSlot(tries: seq<nat>): (i: nat)
    requires |tries| == 4
    ensures i < 3
  {
    if tries[1] == 0 then 0 else if tries[2] == 0 then 1 else 2
  }

  /** How often cell `k` was tried, if slot `i` belongs to cell `cells[i]`. */
  function TriesOf(cells: seq<int>, tries: seq<nat>, k: nat): nat
    requires |cells| == 3 && |tries| == 4
  {
    (if cells[0] == k then tries[0] else 0)
    + (if LastSlot(tries) >= 1 && cells[1] == k then tries[1] else 0)
    + if LastSlot(tries) == 2 && cells[2] == k then tries[2] else 0
  }

  lemma NamedEntryReport(sup: Masks, e: Entry, k: nat)
    requires ValidMasks(sup) && Names(e, k)
    ensures CellOf(sup, e.idx, e.flags) == Report(sup, k, false)
    ensures 0 <= CellOf(sup, e.idx, e.flags) < CELLS
    ensures e.count > 0 ==> TxValid(e)
  {
    CreditReturnsToCell(sup, k, false);
  }

  lemma ReportedNames(sup: Masks, c: Chain, ks: seq<nat>, tries: seq<nat>)
    requires ValidMasks(sup) && ChainNames(c, ks) && |tries| == 4 && tries[3] == 0
    ensures var ar := Reported(c, tries);
            && Creditable(sup, ar) && !TxValid(ar[3]) && LastTried(ar, 0) == LastSlot(tries)
            && forall i :: 0 <= i < 3 && tries[i] > 0 ==> EntryCell(sup, ar, i) == Landed(sup, ks)[i]
  {
    hide CellOf, Report;
    var ar := Reported(c, tries);
    forall i | 0 <= i < 3
      ensures ar[i].flags.mcs || ar[i].flags.vht ==> ar[i].idx >= 0
      ensures 0 <= CellOf(sup, ar[i].idx, ar[i].flags) < CELLS
      ensures tries[i] > 0 ==> TxValid(ar[i]) && CellOf(sup, ar[i].idx, ar[i].flags) == Landed(sup, ks)[i]
    {
      if tries[i] > 0 {
        NamedEntryReport(sup, ar[i], ks[i]);
      } else {
        EntryNamesCell(sup, NO_ENTRY);
      }
    }
    assert TxValid(ar[1]) <==> tries[1] > 0;
    assert TxValid(ar[2]) <==> tries[2] > 0;
  }

  /** The report of chain `c` of the rates `ks` changes cell `k` as it should: by the frames of
      each try of the rate, and the acknowledged frames if it is the last rate tried; and a
      rate's report lands on its own cell exactly if the slot is real. */
  ghost predicate CreditsRates(sup: Masks, cells: seq<Stats>, c: Chain, ks: seq<nat>, tries: seq<nat>,
                               len: nat, acked: nat, k: nat) {
    && |cells| == CELLS && k < CELLS && |tries| == 4 && ChainNames(c, ks) && Creditable(sup, Reported(c, tries))
    && var at, frames := Landed(sup, ks), TriesOf(Landed(sup, ks), tries, k) * len;
       && (forall i :: 0 <= i < 3 ==> (at[i] == ks[i] <==> RealSlot(sup, ks[i])))
       && frames >= 0
       && CreditFrom(sup, cells, Reported(c, tries), len, acked, 0)[k]
          == Credit(cells[k], frames, if at[LastSlot(tries)] == k then acked else 0)
  }

  /** Credit conservation for a handed-out chain, cell by cell. */
  lemma CompletionCreditsRates(sup: Masks, cells: seq<Stats>, c: Chain, ks: seq<nat>, tries: seq<nat>,
                               len: nat, acked: nat, k: nat)
    requires ValidMasks(sup) && |cells| == CELLS && ChainNames(c, ks) && k < CELLS
    requires |tries| == 4 && tries[3] == 0 && (acked > 0 ==> tries[LastSlot(tries)] > 0)
    ensures CreditsRates(sup, cells, c, ks, tries, len, acked, k)
  {
    hide CellOf, Report, RealSlot, TxValid, Creditable;
    var ar := Reported(c, tries);
    ReportedNames(sup, c, ks, tries);
    CreditConserved(sup, cells, ar, len, acked, 0, k);
    TriesAgree(sup, ar, Landed(sup, ks), tries, k);
    Product(TriesOf(Landed(sup, ks), tries, k), len);
    forall i | 0 <= i < 3
      ensures Landed(sup, ks)[i] == ks[i] <==> RealSlot(sup, ks[i])
    {
      assert Names(c[i], ks[i]);
      CreditReturnsToCell(sup, ks[i], false);
    }
  }

  lemma TriesAgree(sup: Masks, ar: Chain, at: seq<int>, tries: seq<nat>, k: nat)
    requires Creditable(sup, ar) && |at| == 3 && |tries| == 4 && LastTried(ar, 0) == LastSlot(tries)
    requires forall i :: 0 <= i < 3 ==> ar[i].count == tries[i]
    requires forall i :: 0 <= i < 3 && tries[i] > 0 ==> EntryCell(sup, ar, i) == at[i]
    ensures TriesFor(sup, ar, k, 0) == TriesOf(at, tries, k)
  {
    hide CellOf, TxValid;
  }

  ghost function TxComplete(st: Sound, c: Chain, tries: seq<nat>, ack: bool, ampdu: nat, elapsed: bool): Ht
    requires ChainOk(c) && TriesOk(c, tries, ack)
    requires Frames(ampdu) <= AGGREGATE_LIMIT && st.ampduLen + Frames(ampdu) < INTERVAL_LIMIT
  {
    CompletionIsReport(st, c, tries, ack, ampdu);
    TxStatus(st, Reported(c, tries), Frames(ampdu), if ack then Frames(ampdu) else 0, elapsed)
  }

  lemma UpdateRatesTable(st: Sound)
    ensures ChainOk(UpdateRates(st).table)
  {
    hide UpdateRates, ModifyTpRates;
    UpdateRatesSpec(st);
    ModifyKeepsInv(st);
    var m := ModifyTpRates(st);
    EncodedEntryOk(m.maxTp[0], false);
    EncodedEntryOk(m.maxTp[1], true);
    EncodedEntryOk(m.maxProb, true);
    assert |UpdateRates(st).table| == 4;
  }

  lemma TxStatusTable(st: Sound, ar: seq<Entry>, len: nat, acked: nat, elapsed: bool)
    requires ReportOk(st, ar, len, acked) && ChainOk(st.table)
    ensures ChainOk(TxStatus(st, ar, len, acked, elapsed).table)
  {
    var s1 := Digested(st, ar, len, acked);
    UpdateKeepsInv(s1);
    UpdateRatesTable(if elapsed then UpdateStats(s1) else s1);
  }

  lemma TxCompleteKeepsReady(st: Ht, c: Chain, tries: seq<nat>, ack: bool, ampdu: nat, elapsed: bool)
    requires Ready(st) && ChainOk(c) && TriesOk(c, tries, ack)
    requires Frames(ampdu) <= AGGREGATE_LIMIT && st.ampduLen + Frames(ampdu) < INTERVAL_LIMIT
    ensures Ready(TxComplete(st, c, tries, ack, ampdu, elapsed))
  {
    CompletionIsReport(st, c, tries, ack, ampdu);
    TxStatusTable(st, Reported(c, tries), Frames(ampdu), if ack then Frames(ampdu) else 0, elapsed);
  }

  lemma TxStatusNamed(st: Sound, ar: seq<Entry>, len: nat, acked: nat, elapsed: bool)
    requires ReportOk(st, ar, len, acked) && IsNamed(st.table)
    ensures IsNamed(TxStatus(st, ar, len, acked, elapsed).table)
  {
    hide ChainNames, Inv, UpdateRates, ReportOk;
    var s1 := Digested(st, ar, len, acked);
    DigestedTable(st, ar, len, acked);
    UpdateKeepsInv(s1);
    TableNamesRates(if elapsed then UpdateStats(s1) else s1);
  }

  lemma DigestedTable(st: Sound, ar: seq<Entry>, len: nat, acked: nat)
    requires ReportOk(st, ar, len, acked)
    ensures Digested(st, ar, len, acked).table == st.table
  {
  }
}
