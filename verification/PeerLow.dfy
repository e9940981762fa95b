/** Peers for which rate 5 stays out of reach: the lists never name a rate from which a probe or
    the floor would get there. Each step of the engine keeps this. */
module PeerLow {
  import opened FixedPoint
  import opened RateGroups
  import opened RateStats
  import opened Throughput
  import opened TopRates
  import opened HtState
  import opened HtUpdate
  import opened HtRates
  import opened HtSample
  import opened HtStatus
  import opened HtCap
  import opened SampleTable
  import opened Signal
  import opened Driver
  import opened ApSteps

  /** The highest rate that ever gets an estimate, among MCS and among CCK rates; and whether
      CCK stays out of the list of the best rates. */
  datatype Lim = Lim(mcs: nat, cck: nat, mcsOnly: bool)

  predicate Within(lim: Lim, k: nat) {
    k % 10 <= if k / 10 == CCK then lim.cck else lim.mcs
  }

  /** A rate that the list of the best rates may name. */
  predicate MayLead(lim: Lim, k: nat) {
    Within(lim, k) && k / 10 <= CCK && (lim.mcsOnly ==> k / 10 != CCK)
  }

  /** What an HT peer supports. */
  lemma HtMasks(c: Caps)
    requires ValidCaps(c) && HtUsable(c) && !c.vht
    ensures var sup := MasksOf(c);
            && ValidMasks(sup) && sup[0] == c.htRates
            && (c.bandwidth >= BW_40 ==> sup[2] == c.htRates) && (c.sgi20 ==> sup[1] == c.htRates)
            && (forall g :: 0 <= g < CCK ==> sup[g] == c.htRates || sup[g] == {})
            && sup[CCK] == (if c.band2g then c.cckRates else {})
            && forall g :: CCK < g < GROUPS ==> sup[g] == {}
  {
    MasksAreValid(c, MasksOf(c));
  }

  /** The two kinds of peers: rates 0 to 2 besides HT rates 5 and 7; or HT rates 0, 5 and 7
      with any CCK rates, on a link that seeds no CCK rate. */
  ghost predicate LimOf(lim: Lim, sup: Masks) {
    && ValidMasks(sup)
    && (forall g :: CCK < g < GROUPS ==> sup[g] == {})
    && (LowPeer(lim, sup) || ZeroPeer(lim, sup))
  }

  ghost predicate LowPeer(lim: Lim, sup: Masks)
    requires |sup| == GROUPS
  {
    && lim == Lim(2, 2, false) && (forall i :: i in sup[CCK] ==> i <= 2)
    && forall g, i :: 0 <= g < CCK && i in sup[g] ==> i in {0, 1, 2, 5, 7}
  }

  ghost predicate ZeroPeer(lim: Lim, sup: Masks)
    requires |sup| == GROUPS
  {
    lim == Lim(0, 1, true) && forall g, i :: 0 <= g < CCK && i in sup[g] ==> i in {0, 5, 7}
  }

  /** The gate never answers 5. */
  lemma GateSkipsFive(l: Link, bw: nat)
    requires LinkOk(l)
    ensures FitableMcs(l, bw) in {0, 1, 2, 3, 4, 6}
  {
    var power, off := Power(l), l.rssiOffset;
    var t := RssiThresholds(bw);
    if -85 < power < -72 {
      assert power < t[4] + off && power < t[3] + off && power < t[2] + off && power < t[1] + off && power < t[0] + off;
      assert Grade(t, off, power, 3) == Grade(t, off, power, 5);
      assert Grade(t, off, power, 0) == Grade(t, off, power, 3);
      assert Grade(t, off, power, 0) <= 4;
    }
  }

  // ----- Entries

  /** A report of the entry credits no supported rate beyond the limit. */
  predicate EntryTame(lim: Lim, sup: Masks, e: Entry)
    requires |sup| == GROUPS
  {
    && (e.flags.mcs || e.flags.vht ==> e.idx >= 0)
    && 0 <= CellOf(sup, e.idx, e.flags) < CELLS
    && (Supports(sup, CellOf(sup, e.idx, e.flags)) ==> Within(lim, CellOf(sup, e.idx, e.flags)))
  }

  predicate ChainTame(lim: Lim, sup: Masks, c: Chain)
    requires |sup| == GROUPS
  {
    ChainOk(c) && forall i :: 0 <= i < 3 ==> c[i].idx <= CAP && EntryTame(lim, sup, c[i])
  }

  /** An encoded rate within the limit is tame. */
  lemma NamedTame(lim: Lim, sup: Masks, e: Entry, k: nat)
    requires LimOf(lim, sup) && Names(e, k)
    requires var j := if k / 10 == CCK then 40 + k % 4 else k; Supports(sup, j) ==> Within(lim, j)
    ensures EntryTame(lim, sup, e)
  {
    NamedEntryReport(sup, e, k);
    CreditReturnsToCell(sup, k, false);
    if k / 10 < CCK {
      HtReport(sup, k, false);
    } else if k / 10 == CCK {
      CckReport(sup, k, false);
    }
  }

  /** A probe from a best rate within the limit. */
  lemma ProbeTame(lim: Lim, sup: Masks, tp1: nat, idx: nat, g: nat, e: Entry)
    requires LimOf(lim, sup) && tp1 < CELLS && MayLead(lim, tp1) && idx < GROUP_RATES && g < GROUPS
    requires e.idx == RateIdx(Cell(g, ProbeIdx(tp1, idx))) && e.flags == GroupFlags(g)
    ensures e.idx <= 3 && EntryTame(lim, sup, e)
  {
    var k := Cell(g, ProbeIdx(tp1, idx));
    assert tp1 % 10 % 2 == tp1 % 2;
    assert k % 10 <= if lim.mcs == 0 then 1 else 3;
    PlainNames(e, k);
    ProbeLands(lim, sup, k);
    NamedTame(lim, sup, e, k);
  }

  lemma PlainNames(e: Entry, k: nat)
    requires k < CELLS && e.idx == RateIdx(k) && e.flags == GroupFlags(k / 10)
    ensures Names(e, k)
  {
  }

  lemma ProbeLands(lim: Lim, sup: Masks, k: nat)
    requires LimOf(lim, sup) && k < CELLS && k % 10 <= if lim.mcs == 0 then 1 else 3
    ensures var j := if k / 10 == CCK then 40 + k % 4 else k; Supports(sup, j) ==> Within(lim, j)
    ensures RateIdx(k) <= 3
  {
    if k / 10 == CCK {
      assert (40 + k % 10) % 4 == k % 10 % 4;
    }
  }

  /** The floor on an entry of a rate that may lead. */
  lemma FloorTame(lim: Lim, sup: Masks, k: nat, m: nat, e: Entry)
    requires LimOf(lim, sup) && k < CELLS && MayLead(lim, k) && m in {0, 1, 2, 3, 4, 6}
    requires e.idx == m && e.flags == GroupFlags(k / 10).(rts := e.flags.rts)
    ensures EntryTame(lim, sup, e)
  {
    var g := k / 10;
    if g != CCK {
      assert Names(e, Cell(g, m));
      assert Supports(sup, Cell(g, m)) ==> Within(lim, Cell(g, m));
      NamedTame(lim, sup, e, Cell(g, m));
    } else if m <= 3 {
      assert Names(e, Cell(g, m));
      NamedTame(lim, sup, e, Cell(g, m));
    } else {
      assert CellOf(sup, m, e.flags) == 48;
    }
  }

  // ----- States

  /** A supported rate beyond the limit has no success pending and no estimate. */
  ghost predicate Mute(lim: Lim, sup: Masks, cells: seq<Stats>) {
    && |sup| == GROUPS && |cells| == CELLS
    && forall k :: 0 <= k < CELLS && Supports(sup, k) && !Within(lim, k) ==> cells[k].success == 0 && cells[k].prob == 0
  }

  ghost predicate AllWithin(lim: Lim, s: seq<nat>) {
    forall i :: 0 <= i < |s| ==> Within(lim, s[i])
  }

  /** The lists name only rates within the limit. */
  ghost predicate ListsWithin(lim: Lim, st: Ht) {
    && (forall i :: 0 <= i < |st.maxTp| ==> MayLead(lim, st.maxTp[i])) && Within(lim, st.maxProb)
    && forall g :: 0 <= g < |st.groupTp| ==> AllWithin(lim, st.groupTp[g])
  }

  /** So does the table. */
  ghost predicate TableWithin(lim: Lim, table: seq<Entry>) {
    |table| == 4 && exists ks ::
      ChainNames(table, ks) && MayLead(lim, ks[0]) && Within(lim, ks[1]) && Within(lim, ks[2])
  }

  ghost predicate StateTame(lim: Lim, st: Ht) {
    Mute(lim, st.supported, st.cells) && ListsWithin(lim, st)
  }

  /** A supported rate with an estimate is within the limit. */
  lemma RatedWithin(lim: Lim, sup: Masks, cells: seq<Stats>, k: nat)
    requires Mute(lim, sup, cells) && CellsOk(cells, sup) && k < CELLS && cells[k].prob > 0
    ensures Within(lim, k)
  {
  }

  lemma FoldMute(lim: Lim, sup: Masks, cells: seq<Stats>, n: nat)
    requires CellsOk(cells, sup) && Mute(lim, sup, cells) && n <= CELLS
    ensures Mute(lim, sup, FoldedUpTo(sup, cells, n))
  {
    forall k: nat | k < CELLS && Supports(sup, k) && !Within(lim, k)
      ensures FoldedUpTo(sup, cells, n)[k].success == 0 && FoldedUpTo(sup, cells, n)[k].prob == 0
    {
      if cells[k].attempts > 0 {
        FoldedValues(cells[k]);
        FoldKeepsBounds(cells[k]);
      }
    }
  }

  lemma SoundCells(st: Sound)
    ensures CellsOk(st.cells, st.supported) && ValidMasks(st.supported) && |st.maxTp| == MAX_THR_RATES
  {
  }

  // ----- The update

  /** CCK's two slowest rates have no throughput to speak of. */
  lemma SlowCck(overhead: nat, avg: nat, k: nat, p: nat)
    requires k in {40, 41} && avg >= SCALE
    ensures Duration(k) > 0 && TpAvg(overhead, avg, true, Duration(k), p) == 0
  {
    assert NINE_TENTHS == 3686 && Duration(40) == 192948000 && Duration(41) == 96676000;
    QuotientAtMost(Saturated(p) * 1000000, Duration(k), 40);
  }

  /** So with such rates only, the merge leaves CCK out. */
  lemma CckStaysOut(lim: Lim, st: Sound, i: nat)
    requires StateTame(lim, st) && LimOf(lim, st.supported) && lim.mcsOnly && st.air == AirTable() && i < MAX_THR_RATES
    ensures NewMaxTp(st)[i] / 10 != CCK
  {
    hide NewKeys, Best, FoldedUpTo, Inv, TopInto;
    var mcs, cck := Best(st, McsRates, CELLS), Best(st, CckRates, CELLS);
    assert NewKeys(st)[cck[0]].tp <= NewKeys(st)[mcs[0]].tp by {
      CckHeadSlow(lim, st);
    }
    BestElementsOf(st, i);
  }

  lemma BestElementsOf(st: Sound, i: nat)
    requires i < MAX_THR_RATES
    ensures Best(st, McsRates, CELLS)[i] / 10 != CCK
  {
    hide NewKeys, Inv;
    TopIntoElements(NewKeys(st), [0, 0, 0, 0], Visited(st.supported, McsRates, CELLS)) by {
      InvShape(st);
    }
  }

  lemma CckHeadSlow(lim: Lim, st: Sound)
    requires StateTame(lim, st) && LimOf(lim, st.supported) && lim.mcsOnly && st.air == AirTable()
    ensures NewKeys(st)[Best(st, CckRates, CELLS)[0]].tp <= NewKeys(st)[Best(st, McsRates, CELLS)[0]].tp
  {
    hide Best, Inv, FoldedUpTo, NewAvg, Duration, LimOf;
    var e := Best(st, CckRates, CELLS)[0];
    CckHead(st);
    if e == 0 {
      ZeroBelowHead(st);
    } else {
      SoundCells(st);
      FoldMute(lim, st.supported, st.cells, CELLS);
      FoldedCellsOk(st.supported, st.cells, CELLS);
      BestElements(st, CckRates, CELLS, 0);
      RatedWithin(lim, st.supported, FoldedUpTo(st.supported, st.cells, CELLS), e);
      assert lim.cck == 1 by {
        LimCck(lim, st.supported);
      }
      NewAvgAtLeastOne(st) by {
        SoundInterval(st);
      }
      SlowKey(st, e);
    }
  }

  lemma LimCck(lim: Lim, sup: Masks)
    requires LimOf(lim, sup) && lim.mcsOnly
    ensures lim == Lim(0, 1, true)
  {
  }

  lemma SoundInterval(st: Sound)
    ensures IntervalOk(st) && SCALE <= st.avgAmpdu <= 16384 * 4096
  {
  }

  lemma CckHead(st: Sound)
    ensures var e := Best(st, CckRates, CELLS)[0];
            e == 0 || (e < CELLS && e / 10 == CCK)
  {
    hide NewKeys, Inv;
    TopIntoElements(NewKeys(st), [0, 0, 0, 0], Visited(st.supported, CckRates, CELLS)) by {
      InvShape(st);
    }
  }

  lemma ZeroBelowHead(st: Sound)
    ensures NewKeys(st)[0].tp <= NewKeys(st)[Best(st, McsRates, CELLS)[0]].tp
  {
    hide NewKeys, Inv;
    TopIntoHead(NewKeys(st), [0, 0, 0, 0], Visited(st.supported, McsRates, CELLS)) by {
      InvShape(st);
    }
    assert 0 in [0, 0, 0, 0];
  }

  lemma SlowKey(st: Sound, e: nat)
    requires e in {40, 41} && st.air == AirTable() && NewAvg(st) >= SCALE
    ensures NewKeys(st)[e].tp == 0
  {
    hide Inv, FoldedUpTo, NewAvg, Duration;
    DuringUpdateMeasurable(st, CELLS);
    SlowCck(st.overhead, NewAvg(st), e, FoldedUpTo(st.supported, st.cells, CELLS)[e].prob) by {
      InvShape(st);
    }
  }

  ghost predicate Keeps(lim: Lim, st: Ht) {
    StateTame(lim, st) && LimOf(lim, st.supported) && st.air == AirTable()
  }

  lemma UpdateKeepsTame(lim: Lim, st: Sound)
    requires Keeps(lim, st)
    ensures Keeps(lim, UpdateStats(st))
  {
    hide Inv, FoldedUpTo, FallbacksAt, NewMaxTp, Best, Within, LimOf;
    SoundCells(st);
    FoldMute(lim, st.supported, st.cells, CELLS);
    FoldedCellsOk(st.supported, st.cells, CELLS);
    var cells := FoldedUpTo(st.supported, st.cells, CELLS);
    SweptFallbackRated(st, CELLS);
    if cells[FallbacksAt(st, CELLS).best].prob > 0 {
      RatedWithin(lim, st.supported, cells, FallbacksAt(st, CELLS).best);
    }
    ZeroLeads(lim);
    forall i: nat | i < MAX_THR_RATES
      ensures MayLead(lim, NewMaxTp(st)[i])
    {
      LeadsAfter(lim, st, i);
    }
    forall g: nat | g < GROUPS
      ensures AllWithin(lim, GroupListsAt(st, GROUPS)[g])
    {
      GroupAfter(lim, st, g);
    }
  }

  lemma ZeroLeads(lim: Lim)
    ensures MayLead(lim, 0)
  {
  }

  lemma LeadsAfter(lim: Lim, st: Sound, i: nat)
    requires Keeps(lim, st) && i < MAX_THR_RATES
    ensures MayLead(lim, NewMaxTp(st)[i])
  {
    hide Inv, FoldedUpTo, NewMaxTp, FallbacksAt, GroupListsAt;
    SoundCells(st);
    FoldMute(lim, st.supported, st.cells, CELLS);
    FoldedCellsOk(st.supported, st.cells, CELLS);
    NewMaxTpElements(st, i);
    var e := NewMaxTp(st)[i];
    if e != 0 {
      RatedWithin(lim, st.supported, FoldedUpTo(st.supported, st.cells, CELLS), e);
    }
    if lim.mcsOnly {
      CckStaysOut(lim, st, i);
    }
  }

  lemma GroupAfter(lim: Lim, st: Sound, g: nat)
    requires Keeps(lim, st) && g < GROUPS
    ensures AllWithin(lim, GroupListsAt(st, GROUPS)[g])
  {
    hide Inv, FoldedUpTo, Best, LimOf, FallbacksAt, NewMaxTp;
    SoundCells(st);
    FoldMute(lim, st.supported, st.cells, CELLS);
    FoldedCellsOk(st.supported, st.cells, CELLS);
    InvShape(st);
    if st.supported[g] != {} {
      var list := Best(st, AllRates, (g + 1) * 10);
      forall j: nat | j < |list|
        ensures Within(lim, list[j])
      {
        BestElements(st, AllRates, (g + 1) * 10, j);
        if list[j] != 0 {
          RatedWithin(lim, st.supported, FoldedUpTo(st.supported, st.cells, CELLS), list[j]);
        }
      }
    } else {
      assert AllWithin(lim, st.groupTp[g]);
    }
  }

  // ----- The table

  lemma CorrectedWithin(lim: Lim, st: Sound, k: nat)
    requires Keeps(lim, st) && k < CELLS && MayLead(lim, k)
    ensures MayLead(lim, ModifiedPrimary(st.cells, k))
  {
    PrimaryCorrected(st.cells, k);
  }

  lemma FallbackKeptWithin(lim: Lim, st: Sound, primary: nat)
    requires Keeps(lim, st) && primary < CELLS
    ensures Measurable(MeterOf(st), st.cells)
    ensures Within(lim, ModifiedFallback(MeterOf(st), st.cells, primary, st.maxProb))
  {
    hide KeyOf, Inv, LimOf;
    InvShape(st);
    InvMeasurable(st);
    SoundCells(st);
    var m, f := MeterOf(st), st.maxProb;
    var top, g := primary % 10, f / 10;
    if f % 10 >= top {
      var i := if top > 0 then top - 1 else 0;
      BestUpToSpec(m, st.cells, g, i);
      var r := BestUpTo(m, st.cells, g, i);
      if r > 0 {
        assert Below(KeyOf(m, st.cells, Cell(g, 0)), KeyOf(m, st.cells, Cell(g, r)));
        ZeroProbZeroKey(m, st.cells, Cell(g, r));
        RatedWithin(lim, st.supported, st.cells, Cell(g, r));
      }
    }
  }

  lemma RatesKeepTame(lim: Lim, st: Sound)
    requires Keeps(lim, st)
    ensures Inv(UpdateRates(st)) && Keeps(lim, UpdateRates(st)) && TableWithin(lim, UpdateRates(st).table)
  {
    hide Inv, UpdateRates, ModifiedPrimary, ModifiedFallback, LimOf, Names, Within;
    InvShape(st);
    CorrectedWithin(lim, st, st.maxTp[0]);
    FallbackKeptWithin(lim, st, ModifiedPrimary(st.cells, st.maxTp[0]));
    UpdateRatesSpec(st);
    TableNamesRates(st);
    var s', m := UpdateRates(st), ModifyTpRates(st);
    InvShape(s');
    assert ChainNames(s'.table, [m.maxTp[0], m.maxTp[1], m.maxProb]);
    forall k: nat | k < CELLS
      ensures SameEstimate(s'.cells[k], st.cells[k])
    {
    }
  }

  // ----- Reports

  lemma DowngradeKeepsTame(lim: Lim, st: Sound, j: nat)
    requires Keeps(lim, st) && j < 2
    ensures Keeps(lim, DowngradeBest(st, j))
  {
    var k := st.maxTp[j];
    var lower := LowerGroup(st.supported, k / 10, k / 10);
    assert AllWithin(lim, st.groupTp[lower]) && MayLead(lim, k);
    if lower < k / 10 {
      assert Within(lim, st.groupTp[lower][j]) && st.groupTp[lower][j] / 10 <= lower < CCK;
    }
  }

  ghost predicate ReportTame(lim: Lim, sup: Masks, ar: Chain) {
    Creditable(sup, ar) && forall i :: 0 <= i < 3 ==> EntryTame(lim, sup, ar[i])
  }

  lemma CountedKeepsTame(lim: Lim, st: Sound, ar: Chain, len: nat, acked: nat)
    requires Keeps(lim, st) && ReportOk(st, ar, len, acked) && ReportTame(lim, st.supported, ar)
    ensures Keeps(lim, Counted(st, ar, len, acked))
  {
    hide CellOf, Within, LimOf, CreditFrom;
    var s' := Counted(st, ar, len, acked);
    forall k: nat | k < CELLS && Supports(st.supported, k) && !Within(lim, k)
      ensures s'.cells[k].success == 0 && s'.cells[k].prob == 0
    {
      CreditConserved(st.supported, st.cells, ar, len, acked, 0, k);
      assert EntryTame(lim, st.supported, ar[LastTried(ar, 0)]);
    }
  }

  lemma StatusKeepsTame(lim: Lim, st: Sound, ar: Chain, len: nat, acked: nat, elapsed: bool)
    requires Keeps(lim, st) && ReportOk(st, ar, len, acked) && ReportTame(lim, st.supported, ar)
    requires TableWithin(lim, st.table)
    ensures var s' := TxStatus(st, ar, len, acked, elapsed);
            Keeps(lim, s') && TableWithin(lim, s'.table) && s'.supported == st.supported
  {
    hide Inv, UpdateRates, UpdateStats, DowngradeBest, Keeps, Counted, ReportTame, TableWithin, Creditable;
    InvShape(st);
    var s1 := Counted(st, ar, len, acked);
    CountedKeepsInv(st, ar, len, acked);
    CountedKeepsTame(lim, st, ar, len, acked);
    DowngradeKeepsInv(s1, 0);
    DowngradeKeepsTame(lim, s1, 0);
    DowngradeKeepsTame(lim, DowngradeBest(s1, 0), 1);
    var s2 := Digested(st, ar, len, acked);
    DigestedFrame(st, ar, len, acked);
    UpdateKeepsTame(lim, s2);
    UpdateKeepsInv(s2);
    RatesKeepTame(lim, if elapsed then UpdateStats(s2) else s2);
    UpdateFrames(s2);
    RatesFrame(if elapsed then UpdateStats(s2) else s2);
  }

  lemma DigestedFrame(st: Sound, ar: Chain, len: nat, acked: nat)
    requires ReportOk(st, ar, len, acked)
    ensures Digested(st, ar, len, acked).supported == st.supported && Digested(st, ar, len, acked).table == st.table
  {
    hide Inv, CreditFrom, CellOf, Downgraded;
  }

  lemma UpdateFrames(st: Sound)
    ensures UpdateStats(st).supported == st.supported && UpdateStats(st).table == st.table
  {
  }

  lemma RatesFrame(st: Sound)
    ensures UpdateRates(st).supported == st.supported
  {
    hide UpdateRates, ModifyTpRates;
    UpdateRatesSpec(st);
    ModifyFrame(st);
  }

  lemma ClearKeepsTame(lim: Lim, st: Sound, maxRate: nat)
    requires Keeps(lim, st)
    ensures Keeps(lim, ClearUnfitable(st, maxRate))
  {
    hide LimOf;
  }

  // ----- Requests

  /** Slot `i` of a chain: the sampled entry, the table's, or the table's first entry raised by
      the floor. */
  lemma HandOutCases(s: Sampled, l: Link, i: nat)
    requires Shape(s.st) && (s.probe.Probe? ==> s.probe.cell < CELLS && s.probe.slot < 2) && i < 3
    requires forall j :: 0 <= j < 3 ==> s.st.table[j].idx >= 0
    ensures var e, t := HandOut(s, l).chain[i], s.st.table[i];
            || (s.probe.Probe? && e.idx == RateIdx(s.probe.cell) && e.flags == GroupFlags(s.probe.cell / 10))
            || (e.idx == t.idx && e.flags == t.flags)
            || (i == 0 && e.idx == FitableMcs(l, FlagsBw(t.flags)) && e.flags == t.flags)
  {
    hide Fitable, Checked, FitableMcs, ValidMasks, AllBelow;
    FillSpec(Placed(s.probe), s.st.table, 0);
    FillSpec(BLANK, s.st.table, 0);
  }

  /** The sampled rate is tame. */
  lemma SampledTame(lim: Lim, st: Ht, columns: seq<seq<nat>>, e: Entry)
    requires Shape(st) && Keeps(lim, st) && IsSampleTable(columns) && SampleRate(st, columns).probe.Probe?
    requires var p := SampleRate(st, columns).probe;
             p.cell < CELLS && e.idx == RateIdx(p.cell) && e.flags == GroupFlags(p.cell / 10)
    ensures e.idx <= 3 && EntryTame(lim, st.supported, e)
  {
    hide Walk, LimOf, GroupFlags, RateIdx, CellOf, NextSample;
    var d, tp1 := Decide(st, columns), FasterBest(st);
    assert SampleRate(st, columns) == Chosen(st, d);
    assert MayLead(lim, tp1);
    ProbeTame(lim, st.supported, tp1, d.idx, d.group, e);
  }

  lemma TableEntryTame(lim: Lim, sup: Masks, table: seq<Entry>, i: nat)
    requires LimOf(lim, sup) && TableWithin(lim, table) && i < 3
    ensures table[i].idx <= 3 && EntryTame(lim, sup, table[i])
  {
    hide CellOf, GroupFlags, RateIdx, EntryTame;
    var ks :| ChainNames(table, ks) && MayLead(lim, ks[0]) && Within(lim, ks[1]) && Within(lim, ks[2]);
    var k := ks[i];
    assert Names(table[i], k) && Within(lim, k);
    LowRateIdx(k);
    NamedTame(lim, sup, table[i], k);
  }

  lemma LowRateIdx(k: nat)
    requires k < CELLS && k % 10 <= 3
    ensures RateIdx(k) == k % 10 && (k / 10 == CCK ==> 40 + k % 4 == k)
  {
  }

  lemma FlooredTame(lim: Lim, sup: Masks, table: seq<Entry>, l: Link, e: Entry)
    requires LimOf(lim, sup) && TableWithin(lim, table) && LinkOk(l)
    requires e.idx == FitableMcs(l, FlagsBw(table[0].flags)) && e.flags == table[0].flags
    ensures e.idx <= CAP && EntryTame(lim, sup, e)
  {
    hide CellOf, GroupFlags, FitableMcs;
    var ks :| ChainNames(table, ks) && MayLead(lim, ks[0]) && Within(lim, ks[1]) && Within(lim, ks[2]);
    assert Names(table[0], ks[0]);
    GateSkipsFive(l, FlagsBw(table[0].flags));
    FloorTame(lim, sup, ks[0], e.idx, e);
  }

  lemma FindTame(lim: Lim, st: Ht, columns: seq<seq<nat>>, l: Link)
    requires Ready(st) && Keeps(lim, st) && TableWithin(lim, st.table) && IsSampleTable(columns) && LinkOk(l)
    ensures var f := FindRate(st, columns, l);
            && Keeps(lim, f.st) && f.st.table == st.table && f.st.supported == st.supported
            && ChainTame(lim, st.supported, f.chain)
  {
    hide SampleRate, Inv, TableWithin, EntryTame, LimOf, HandOut, FitableMcs, RateIdx, GroupFlags;
    InvShape(st);
    FindRateKeepsReady(st, columns, l);
    SampleRateFrame(st, columns);
    ProbeBound(st, columns);
    var s := SampleRate(st, columns);
    forall i: nat | i < 3
      ensures HandOut(s, l).chain[i].idx <= CAP && EntryTame(lim, st.supported, HandOut(s, l).chain[i])
    {
      var e := HandOut(s, l).chain[i];
      HandOutCases(s, l, i);
      TableEntryTame(lim, st.supported, st.table, i);
      SameEntryTame(lim, st.supported, st.table[i], e);
      if s.probe.Probe? && e.idx == RateIdx(s.probe.cell) && e.flags == GroupFlags(s.probe.cell / 10) {
        SampledTame(lim, st, columns, e);
      } else if !(e.idx == st.table[i].idx && e.flags == st.table[i].flags) {
        FlooredTame(lim, st.supported, st.table, l, e);
      }
    }
    FoundState(lim, s, l);
  }

  lemma SameEntryTame(lim: Lim, sup: Masks, t: Entry, e: Entry)
    requires |sup| == GROUPS && EntryTame(lim, sup, t)
    ensures e.idx == t.idx && e.flags == t.flags ==> EntryTame(lim, sup, e)
  {
    hide CellOf;
  }

  lemma FoundState(lim: Lim, s: Sampled, l: Link)
    requires Inv(s.st) && Keeps(lim, s.st) && (s.probe.Probe? ==> s.probe.cell < CELLS && s.probe.slot < 2)
    ensures var st' := HandOut(s, l).st;
            Keeps(lim, st') && st'.table == s.st.table && st'.supported == s.st.supported
  {
    hide Inv, Keeps, FillFrom, Fitable, FitableMcs, FitableBw, ClearUnfitable;
    InvShape(s.st);
    var j := LastSet(Placed(s.probe), 4);
    if j >= 0 {
      var rate := FitableMcs(l, FlagsBw(Placed(s.probe)[j].flags));
      ClearKeepsTame(lim, s.st, rate);
      ClearFrame(s.st, rate);
    }
  }

  lemma ClearFrame(st: Sound, maxRate: nat)
    ensures ClearUnfitable(st, maxRate).table == st.table && ClearUnfitable(st, maxRate).supported == st.supported
  {
  }
}
