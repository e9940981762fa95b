/** When an access point keeps the MCS 6 cap: a property of its peer's rates under which no run
    in either mode exceeds it. */
module PeerCap {
  import opened RateGroups
  import opened TopRates
  import opened HtState
  import opened HtUpdate
  import opened HtRates
  import opened HtSample
  import opened HtStatus
  import opened HtCap
  import opened SampleTable
  import opened Signal
  import opened Driver
  import opened Runs
  import opened PeerLow

  /** What decides it, read off the peer's capabilities: VHT; or two of the HT rates 5, 6 and 7,
      except that 5 and 6 alone do not suffice where CCK catches the walk, nor 5 and 7 where
      rate 5 is out of reach. */
  predicate MayExceed(c: Caps) {
    || c.vht
    || (6 in c.htRates && 7 in c.htRates)
    || (5 in c.htRates && 6 in c.htRates && !CckCatches(c))
    || (5 in c.htRates && 7 in c.htRates && FiveInReach(c))
  }

  /** Rate 5 is reached from rate 3 or 4, be it rate 3 of CCK: that one is seeded at 20 MHz, and
      else reached from HT rate 1 or 2. */
  predicate FiveInReach(c: Caps) {
    || 3 in c.htRates || 4 in c.htRates
    || (c.band2g && 3 in c.cckRates && (c.bandwidth == BW_20 || 1 in c.htRates || 2 in c.htRates))
  }

  /** CCK rates are usable, and only one HT group. */
  predicate CckCatches(c: Caps) {
    c.band2g && c.cckRates != {} && !c.sgi20 && c.bandwidth < BW_40
  }

  /** A supported rate from 5 on. */
  predicate High(sup: Masks, k: nat)
    requires |sup| == GROUPS
  {
    k < CELLS && k % 10 >= 5 && Supports(sup, k)
  }

  /** At most one rate from 5 on is supported, and none above 7. */
  ghost predicate OneHigh(sup: Masks) {
    && |sup| == GROUPS
    && (forall k: nat :: High(sup, k) ==> k % 10 <= 7)
    && forall j: nat, k: nat :: High(sup, j) && High(sup, k) ==> j % 10 == k % 10
  }

  /** Besides CCK only the plain 20 MHz HT group is supported, and there no rate above 6. */
  ghost predicate Narrow(sup: Masks) {
    && ValidMasks(sup) && sup[CCK] != {} && (forall i :: i in sup[0] ==> i <= CAP)
    && forall g :: 0 < g < GROUPS && g != CCK ==> sup[g] == {}
  }

  ghost predicate Tame(sup: Masks) {
    OneHigh(sup) || Narrow(sup)
  }

  lemma PeerIsTame(c: Caps)
    requires ValidCaps(c) && HtUsable(c) && !MayExceed(c) && !(5 in c.htRates && 7 in c.htRates)
    ensures Tame(MasksOf(c))
  {
    var sup := MasksOf(c);
    forall k: nat | High(sup, k)
      ensures k % 10 <= 7 && k % 10 in c.htRates
    {
      HighIsHt(c, k);
    }
    if 5 in c.htRates && 6 in c.htRates {
      HtMasks(c);
    }
  }

  lemma HighIsHt(c: Caps, k: nat)
    requires ValidCaps(c) && !c.vht && k < CELLS && Supports(MasksOf(c), k)
    ensures k % 10 <= 7 && (k % 10 >= 5 ==> k % 10 in c.htRates)
  {
    assert k % 10 in Mask(c, k / 10);
  }

  // ----- Which rates the lists name

  /** The rate is supported, or rate 0 of its group. */
  predicate Rooted(sup: Masks, k: nat)
    requires |sup| == GROUPS
  {
    k < CELLS && (k % 10 == 0 || Supports(sup, k))
  }

  ghost predicate AllRooted(sup: Masks, s: seq<nat>) {
    |sup| == GROUPS && forall i :: 0 <= i < |s| ==> Rooted(sup, s[i])
  }

  ghost predicate ListsRooted(sup: Masks, maxTp: seq<nat>, groupTp: seq<seq<nat>>) {
    AllRooted(sup, maxTp) && forall g :: 0 <= g < |groupTp| ==> AllRooted(sup, groupTp[g])
  }

  ghost predicate StateRooted(st: Ht) {
    ListsRooted(st.supported, st.maxTp, st.groupTp)
  }

  lemma UpdateKeepsRooted(st: Sound)
    requires StateRooted(st)
    ensures StateRooted(UpdateStats(st))
  {
    hide Inv, NewMaxTp, Best, FoldedUpTo;
    InvShape(st);
    var top, lists := NewMaxTp(st), GroupListsAt(st, GROUPS);
    forall i | 0 <= i < MAX_THR_RATES
      ensures Rooted(st.supported, top[i])
    {
      NewMaxTpElements(st, i);
    }
    forall g, j | 0 <= g < GROUPS && 0 <= j < |lists[g]|
      ensures Rooted(st.supported, lists[g][j])
    {
      if st.supported[g] != {} {
        BestElements(st, AllRates, (g + 1) * 10, j);
      } else {
        assert AllRooted(st.supported, st.groupTp[g]);
      }
    }
  }

  lemma ModifyKeepsRooted(st: Sound)
    requires StateRooted(st)
    ensures StateRooted(ModifyTpRates(st))
  {
    PrimaryCorrected(st.cells, st.maxTp[0]);
  }

  lemma UpdateRatesKeepsRooted(st: Sound)
    requires StateRooted(st)
    ensures StateRooted(UpdateRates(st)) && UpdateRates(st).supported == st.supported
  {
    hide Inv, UpdateRates, ModifyTpRates;
    ModifyKeepsRooted(st);
    ModifyFrame(st);
    UpdateRatesSpec(st);
  }

  lemma DowngradeKeepsRooted(st: Sound, j: nat)
    requires StateRooted(st) && j < 2
    ensures StateRooted(DowngradeBest(st, j)) && DowngradeBest(st, j).supported == st.supported
  {
    var k := st.maxTp[j];
    var lower := LowerGroup(st.supported, k / 10, k / 10);
    assert AllRooted(st.supported, st.groupTp[lower]);
  }

  lemma TxStatusKeepsRooted(st: Sound, ar: seq<Entry>, len: nat, acked: nat, elapsed: bool)
    requires StateRooted(st) && ReportOk(st, ar, len, acked)
    ensures StateRooted(TxStatus(st, ar, len, acked, elapsed))
    ensures TxStatus(st, ar, len, acked, elapsed).supported == st.supported
  {
    hide Inv, UpdateRates, DowngradeBest, ListsRooted, CreditFrom;
    InvShape(st);
    var s1 := Counted(st, ar, len, acked);
    CountedKeepsInv(st, ar, len, acked);
    DowngradeKeepsInv(s1, 0);
    DowngradeKeepsRooted(s1, 0);
    DowngradeKeepsRooted(DowngradeBest(s1, 0), 1);
    var s2 := Digested(st, ar, len, acked);
    UpdateKeepsRooted(s2);
    UpdateKeepsInv(s2);
    UpdateRatesKeepsRooted(if elapsed then UpdateStats(s2) else s2);
  }

  // ----- The probe

  /** Of a supported draw `d`, a best rate `tp1`, and the deciding draw `idx`, which is `d`
      itself unless `d` is above the best rate: the probe is at most 6. */
  lemma ProbeIdxStaysLow(sup: Masks, tp1: nat, d: nat, idx: nat)
    requires OneHigh(sup) && tp1 < CELLS && Rooted(sup, tp1) && Low(tp1)
    requires d < CELLS && Supports(sup, d) && idx < GROUP_RATES && (idx == d % 10 || d % 10 > tp1 % 10)
    ensures ProbeIdx(tp1, idx) <= CAP
  {
    assert tp1 % 10 % 2 == tp1 % 2;
    assert d % 10 >= 5 ==> High(sup, d);
    assert tp1 % 10 >= 5 ==> High(sup, tp1);
  }

  /** Where CCK catches the walk, the probe is a CCK rate, or the best rate is below 5. */
  lemma WalkIsCaught(st: Ht, columns: seq<seq<nat>>, top: nat)
    requires Shape(st) && IsSampleTable(columns) && Narrow(st.supported) && st.sampleGroup == 0 && 5 <= top
    ensures Shape(NextSample(st)) && Walk(NextSample(st), columns, top).group == CCK
  {
    NextSampleKeepsShape(st);
    assert st.supported[Ring(0, 4)] != {};
    assert NextGroup(st.supported, 0) == CCK;
    var s' := NextSample(st);
    assert Stops(s'.supported, CCK, Current(s', columns), top);
  }

  lemma ProbeStaysLow(st: Ht, columns: seq<seq<nat>>)
    requires Shape(st) && IsSampleTable(columns) && StateRooted(st) && AllLow(st.maxTp)
    requires Tame(st.supported)
    ensures var p := SampleRate(st, columns).probe;
            p.Probe? ==> p.cell < CELLS && RateIdx(p.cell) <= CAP
  {
    hide OneHigh, Walk, NextGroup;
    var p := SampleRate(st, columns).probe;
    if p.Probe? {
      var tp1, d := FasterBest(st), Decide(st, columns);
      assert Rooted(st.supported, tp1) && Low(tp1);
      var first := Cell(st.sampleGroup, Current(st, columns));
      assert Supports(st.supported, first);
      assert p.cell == Cell(d.group, ProbeIdx(tp1, d.idx));
      if OneHigh(st.supported) {
        ProbeIdxStaysLow(st.supported, tp1, first, d.idx);
      } else if tp1 % 10 >= 5 && Current(st, columns) > tp1 % 10 {
        WalkIsCaught(st, columns, tp1 % 10);
      }
    }
  }

  // ----- Runs

  ghost predicate SysPeer(s: Sys, sup: Masks) {
    s.ht.supported == sup && StateRooted(s.ht)
  }

  lemma FindFrame(st: Ht, columns: seq<seq<nat>>, l: Link)
    requires Ready(st) && IsSampleTable(columns)
    ensures var s' := FindRate(st, columns, l).st;
            && s'.supported == st.supported && s'.maxTp == st.maxTp && s'.groupTp == st.groupTp
            && (l.ap ==> s'.cells == st.cells && s'.maxProb == st.maxProb && s'.groupProb == st.groupProb)
  {
    hide SampleRate, FillFrom, Fitable;
    SampleRateFrame(st, columns);
    ProbeBound(st, columns);
  }

  /** An access point's request keeps the cap. */
  lemma ApFindKeepsCap(s: Sys, columns: seq<seq<nat>>, l: Link)
    requires SysReady(s) && IsSampleTable(columns) && LinkOk(l) && l.ap
    requires SysCapped(s) && SysPeer(s, s.ht.supported) && Tame(s.ht.supported)
    ensures SysCapped(Step(s, columns, Find(l)))
  {
    hide SampleRate, FindRate;
    FindRateKeepsReady(s.ht, columns, l);
    FindFrame(s.ht, columns, l);
    ProbeStaysLow(s.ht, columns);
    ApCapExactly(s.ht, columns, l);
  }

  lemma StepKeepsPeer(s: Sys, columns: seq<seq<nat>>, e: Event, sup: Masks)
    requires SysReady(s) && IsSampleTable(columns) && Allowed(s, e) && SysPeer(s, sup)
    ensures SysPeer(Step(s, columns, e), sup)
  {
    hide FindRate, TxStatus, ListsRooted;
    match e
    case Find(l) =>
      FindFrame(s.ht, columns, l);
    case Done(c, tries, ack, ampdu, elapsed) =>
      CompletionIsReport(s.ht, c, tries, ack, ampdu);
      TxStatusKeepsRooted(s.ht, Reported(c, tries), Frames(ampdu), if ack then Frames(ampdu) else 0, elapsed);
  }

  lemma {:induction false} RunKeepsPeerCap(s: Sys, columns: seq<seq<nat>>, es: seq<Event>, sup: Masks)
    requires SysReady(s) && IsSampleTable(columns) && ValidRun(s, columns, es)
    requires SysCapped(s) && SysPeer(s, sup) && Tame(sup)
    ensures SysCapped(Run(s, columns, es))
    decreases |es|
  {
    hide Step, SysCapped, StateRooted, Tame, Ready;
    if es != [] {
      var e := es[0];
      StepKeepsPeer(s, columns, e, sup);
      if e.Find? && e.link.ap {
        ApFindKeepsCap(s, columns, e.link);
      } else {
        StepKeepsCap(s, columns, e);
      }
      RunKeepsPeerCap(Step(s, columns, e), columns, es[1..], sup);
    }
  }

  lemma StartIsPeer(c: Caps, l: Link, table: seq<Entry>)
    requires StartOk(c, l, table)
    ensures SysPeer(Start(c, l, table), MasksOf(c))
  {
    hide Inv, UpdateRates, UpdateStats, InitStart, FitableMcs, FitableBw;
    FreshInv(c, table);
    var blank := Fresh(c, table);
    UpdateKeepsInv(blank);
    UpdateKeepsRooted(blank);
    UpdateSupported(blank);
    UpdateRatesKeepsRooted(UpdateStats(blank));
    InitStartKeepsRooted(UpdateCaps(c, table), FitableMcs(l, FitableBw(l)), FitableBw(l));
  }

  lemma UpdateSupported(st: Sound)
    ensures UpdateStats(st).supported == st.supported
  {
  }

  lemma InitStartKeepsRooted(st: Sound, maxRate: nat, bw: nat)
    requires StateRooted(st)
    ensures StateRooted(InitStart(st, maxRate, bw)) && InitStart(st, maxRate, bw).supported == st.supported
  {
    hide Inv, UpdateStats, ListsRooted;
    InvShape(st);
    SeededKeepsInv(st, maxRate, bw);
    UpdateSupported(Seeded(st, maxRate, bw));
    UpdateKeepsRooted(Seeded(st, maxRate, bw));
  }

  // ----- Peers whose rate 5 is out of reach

  /** The limit of such a peer. */
  function LimFor(c: Caps): Lim {
    if c.band2g && 3 in c.cckRates then Lim(0, 1, true) else Lim(2, 2, false)
  }

  ghost predicate OutOfReach(c: Caps) {
    && ValidCaps(c) && HtUsable(c) && !c.vht && c.bandwidth <= BW_80
    && 5 in c.htRates && 7 in c.htRates && 6 !in c.htRates && !FiveInReach(c)
  }

  lemma LimIs(c: Caps)
    requires OutOfReach(c)
    ensures LimOf(LimFor(c), MasksOf(c))
  {
    HtMasks(c);
    assert forall i :: i in c.htRates ==> i in {0, 1, 2, 5, 7};
  }

  ghost predicate SysTame(s: Sys, lim: Lim, sup: Masks) {
    && s.ht.supported == sup && |sup| == GROUPS && Keeps(lim, s.ht) && TableWithin(lim, s.ht.table)
    && forall c :: c in s.handed ==> ChainTame(lim, sup, c)
  }

  lemma ReportedTame(lim: Lim, sup: Masks, c: Chain, tries: seq<nat>)
    requires LimOf(lim, sup) && ChainTame(lim, sup, c) && |tries| == 4
    ensures ReportTame(lim, sup, Reported(c, tries))
  {
    hide Within, CellOf;
    var ar := Reported(c, tries);
    forall i | 0 <= i < 3
      ensures EntryTame(lim, sup, ar[i])
    {
      NoEntryTame(lim, sup);
      SameEntryTame(lim, sup, c[i], ar[i]);
    }
  }

  lemma NoEntryTame(lim: Lim, sup: Masks)
    requires LimOf(lim, sup)
    ensures EntryTame(lim, sup, NO_ENTRY)
  {
  }

  lemma StepKeepsTame(s: Sys, columns: seq<seq<nat>>, e: Event, lim: Lim, sup: Masks)
    requires SysReady(s) && IsSampleTable(columns) && Allowed(s, e) && SysTame(s, lim, sup)
    ensures SysTame(Step(s, columns, e), lim, sup)
  {
    hide FindRate, TxStatus, Inv, TableWithin, StateTame, ChainTame, LimOf;
    match e
    case Find(l) =>
      FindTame(lim, s.ht, columns, l);
    case Done(c, tries, ack, ampdu, elapsed) =>
      CompletionIsReport(s.ht, c, tries, ack, ampdu);
      ReportedTame(lim, sup, c, tries);
      StatusKeepsTame(lim, s.ht, Reported(c, tries), Frames(ampdu), if ack then Frames(ampdu) else 0, elapsed);
  }

  lemma {:induction false} RunKeepsTame(s: Sys, columns: seq<seq<nat>>, es: seq<Event>, lim: Lim, sup: Masks)
    requires SysReady(s) && IsSampleTable(columns) && ValidRun(s, columns, es) && SysTame(s, lim, sup)
    ensures SysTame(Run(s, columns, es), lim, sup)
    decreases |es|
  {
    hide Step, SysTame, Ready;
    if es != [] {
      StepKeepsTame(s, columns, es[0], lim, sup);
      RunKeepsTame(Step(s, columns, es[0]), columns, es[1..], lim, sup);
    }
  }

  lemma SeedsWithin(c: Caps, l: Link, k: nat)
    requires OutOfReach(c) && LinkOk(l) && l.ap && l.chbw == c.bandwidth && k < CELLS && Supports(MasksOf(c), k)
    ensures var bw := FitableBw(l);
            var m := SeedRate(MasksOf(c), FitableMcs(l, bw), bw);
            HasRate(MasksOf(c), bw, k / 10, m) && k % 10 in {2, m} ==> Within(LimFor(c), k)
  {
    hide FitableMcs, ValidMasks;
    HtMasks(c);
    var sup, bw := MasksOf(c), FitableBw(l);
    GateSkipsFive(l, bw);
    if bw < BW_80 {
      assert HasRate(sup, bw, if bw == BW_20 then 0 else 2, 7);
      assert TopRate(sup, bw, 9) >= 7;
    }
  }

  lemma FreshKeeps(c: Caps, table: seq<Entry>)
    requires OutOfReach(c) && |table| == 4
    ensures Inv(Fresh(c, table)) && Keeps(LimFor(c), Fresh(c, table))
  {
    FreshInv(c, table);
    LimIs(c);
  }

  lemma CapsTame(c: Caps, table: seq<Entry>)
    requires OutOfReach(c) && |table| == 4
    ensures var u := UpdateCaps(c, table);
            Inv(u) && Keeps(LimFor(c), u) && TableWithin(LimFor(c), u.table) && u.supported == MasksOf(c)
  {
    hide Inv, UpdateRates, UpdateStats, Keeps, TableWithin;
    FreshKeeps(c, table);
    var blank := Fresh(c, table);
    UpdateKeepsInv(blank);
    UpdateKeepsTame(LimFor(c), blank);
    RatesKeepTame(LimFor(c), UpdateStats(blank));
    UpdateFrames(blank);
    RatesFrame(UpdateStats(blank));
  }

  lemma SeedsKeepTame(c: Caps, l: Link, u: Sound)
    requires OutOfReach(c) && LinkOk(l) && l.ap && l.chbw == c.bandwidth && Keeps(LimFor(c), u)
    requires u.supported == MasksOf(c)
    ensures var s := Seeded(u, FitableMcs(l, FitableBw(l)), FitableBw(l));
            Inv(s) && Keeps(LimFor(c), s) && s.supported == u.supported && s.table == u.table
  {
    hide FitableMcs, FitableBw, Inv, SeedRate, HasRate, LimFor, OutOfReach;
    InvShape(u);
    var bw := FitableBw(l);
    SeededKeepsInv(u, FitableMcs(l, bw), bw);
    forall k: nat | k < CELLS && Supports(u.supported, k) && !Within(LimFor(c), k)
      ensures var s := SeededCell(u.supported, u.cells, bw, SeedRate(u.supported, FitableMcs(l, bw), bw), k);
              s.success == 0 && s.prob == 0
    {
      SeedsWithin(c, l, k);
    }
  }

  lemma StartIsTame(c: Caps, l: Link, table: seq<Entry>)
    requires StartOk(c, l, table) && l.ap && OutOfReach(c)
    ensures SysTame(Start(c, l, table), LimFor(c), MasksOf(c))
  {
    hide UpdateCaps, Inv, FitableMcs, FitableBw, UpdateStats, Seeded, Keeps, TableWithin, LimFor;
    CapsTame(c, table);
    var u, bw := UpdateCaps(c, table), FitableBw(l);
    InvShape(u);
    SeedsKeepTame(c, l, u);
    UpdateKeepsTame(LimFor(c), Seeded(u, FitableMcs(l, bw), bw));
    UpdateFrames(Seeded(u, FitableMcs(l, bw), bw));
  }

  // ----- The cap

  /** The cap over whole runs in either mode: a peer that does not meet the condition is never
      sent a frame above MCS 6; with rates 5 and 7, a peer that an access point has started. */
  lemma PeerNeverExceedsMcs6(c: Caps, l: Link, table: seq<Entry>, columns: seq<seq<nat>>, es: seq<Event>)
    requires StartOk(c, l, table) && IsSampleTable(columns) && (5 in c.htRates && 7 in c.htRates ==> l.ap)
    requires ValidRun(Start(c, l, table), columns, es) && !MayExceed(c)
    ensures forall chain: Chain, i :: chain in Run(Start(c, l, table), columns, es).handed && 0 <= i < 3 ==>
              |chain| == 4 && chain[i].idx <= CAP
  {
    hide Start, Capped, Keeps, TableWithin, FiveInReach;
    if 5 in c.htRates && 7 in c.htRates {
      StartIsTame(c, l, table);
      RunKeepsTame(Start(c, l, table), columns, es, LimFor(c), MasksOf(c));
    } else {
      StartIsCapped(c, l, table);
      StartIsPeer(c, l, table);
      PeerIsTame(c);
      RunKeepsPeerCap(Start(c, l, table), columns, es, MasksOf(c));
    }
  }
}
