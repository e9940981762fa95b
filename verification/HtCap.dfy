/** The MCS 6 cap of station mode: rate numbers above 6 carry no estimate and are named by no
    list. Each operation of the engine keeps this. */
module HtCap {
  import opened RateGroups
  import opened RateStats
  import opened TopRates
  import opened HtState
  import opened HtUpdate
  import opened HtRates
  import opened HtStatus

  const CAP: nat := 6

  predicate Low(k: nat) {
    k % 10 <= CAP
  }

  predicate AllLow(s: seq<nat>) {
    forall i :: 0 <= i < |s| ==> Low(s[i])
  }

  /** An MCS cell above the cap has no success pending and no estimate. */
  predicate Quiet(k: nat, s: Stats) {
    k % 10 > CAP && k / 10 != CCK ==> s.success == 0 && s.prob == 0
  }

  ghost predicate CellsQuiet(cells: seq<Stats>) {
    |cells| == CELLS && forall k :: 0 <= k < CELLS ==> Quiet(k, cells[k])
  }

  /** No list names a rate above the cap. */
  ghost predicate ListsLow(st: Ht) {
    && AllLow(st.maxTp) && Low(st.maxProb) && AllLow(st.groupProb)
    && forall g :: 0 <= g < |st.groupTp| ==> AllLow(st.groupTp[g])
  }

  ghost predicate Capped(st: Ht) {
    CellsQuiet(st.cells) && ListsLow(st)
  }

  /** A rate with an estimate is not above the cap. */
  lemma EstimateIsLow(cells: seq<Stats>, sup: Masks, k: nat)
    requires ValidMasks(sup) && CellsOk(cells, sup) && CellsQuiet(cells) && k < CELLS && cells[k].prob > 0
    ensures Low(k)
  {
    assert Quiet(k, cells[k]) && Supports(sup, k);
  }

  lemma QuietFold(k: nat, s: Stats)
    requires CellOk(s) && Quiet(k, s)
    ensures Quiet(k, Fold(s))
  {
    if s.attempts > 0 {
      FoldedValues(s);
      FoldKeepsBounds(s);
    }
  }

  lemma FoldedQuiet(sup: Masks, cells: seq<Stats>, n: nat)
    requires CellsOk(cells, sup) && CellsQuiet(cells) && n <= CELLS
    ensures CellsQuiet(FoldedUpTo(sup, cells, n))
  {
    forall k | 0 <= k < CELLS
      ensures Quiet(k, FoldedUpTo(sup, cells, n)[k])
    {
      QuietFold(k, cells[k]);
    }
  }

  predicate FallbacksLow(f: Fallbacks) {
    Low(f.best) && AllLow(f.groups)
  }

  /** Only a rate with an estimate becomes a fallback. */
  lemma OfferedIsLow(m: Meter, cells: seq<Stats>, sup: Masks, top: nat, f: Fallbacks, k: nat)
    requires ValidMasks(sup) && CellsOk(cells, sup) && CellsQuiet(cells)
    requires Measurable(m, cells) && k < CELLS && FallbacksInRange(f) && FallbacksLow(f)
    ensures FallbacksLow(OfferFallback(m, cells, top, f, k))
  {
    ZeroProbZeroKey(m, cells, k);
    if cells[k].prob > 0 {
      EstimateIsLow(cells, sup, k);
    }
  }

  lemma {:induction false} FallbacksAreLow(st: Sound, n: nat)
    requires Capped(st) && n <= CELLS
    ensures FallbacksLow(FallbacksAt(st, n))
  {
    if n > 0 {
      FallbacksAreLow(st, n - 1);
      if Supports(st.supported, n - 1) {
        var cells := FoldedUpTo(st.supported, st.cells, n);
        FoldedCellsOk(st.supported, st.cells, n);
        FoldedQuiet(st.supported, st.cells, n);
        DuringUpdateMeasurable(st, n);
        OfferedIsLow(NewMeter(st), cells, st.supported, st.maxTp[0], FallbacksAt(st, n - 1), n - 1);
      }
    }
  }

  lemma BestIsLow(st: Sound, w: Which, n: nat)
    requires Capped(st) && n <= CELLS
    ensures AllLow(Best(st, w, n))
  {
    hide Best, FoldedUpTo, GroupListsAt, FallbacksAt, NewMaxTp;
    FoldedCellsOk(st.supported, st.cells, CELLS);
    FoldedQuiet(st.supported, st.cells, CELLS);
    forall i | 0 <= i < MAX_THR_RATES
      ensures Low(Best(st, w, n)[i])
    {
      BestElements(st, w, n, i);
      if Best(st, w, n)[i] != 0 {
        EstimateIsLow(FoldedUpTo(st.supported, st.cells, CELLS), st.supported, Best(st, w, n)[i]);
      }
    }
  }

  lemma NewMaxTpIsLow(st: Sound)
    requires Capped(st)
    ensures AllLow(NewMaxTp(st))
  {
    hide NewMaxTp, FoldedUpTo, GroupListsAt, FallbacksAt;
    FoldedCellsOk(st.supported, st.cells, CELLS);
    FoldedQuiet(st.supported, st.cells, CELLS);
    forall i | 0 <= i < MAX_THR_RATES
      ensures Low(NewMaxTp(st)[i])
    {
      NewMaxTpElements(st, i);
      if NewMaxTp(st)[i] != 0 {
        EstimateIsLow(FoldedUpTo(st.supported, st.cells, CELLS), st.supported, NewMaxTp(st)[i]);
      }
    }
  }

  lemma UpdateStatsKeepsCap(st: Sound)
    requires Capped(st)
    ensures Capped(UpdateStats(st))
  {
    FoldedQuiet(st.supported, st.cells, CELLS);
    FallbacksAreLow(st, CELLS);
    NewMaxTpIsLow(st);
    var lists := GroupListsAt(st, GROUPS);
    forall g | 0 <= g < GROUPS
      ensures AllLow(lists[g])
    {
      if st.supported[g] != {} {
        BestIsLow(st, AllRates, (g + 1) * 10);
      }
    }
  }

  lemma ModifyKeepsCap(st: Sound)
    requires Capped(st)
    ensures Capped(ModifyTpRates(st))
  {
    InvMeasurable(st);
    PrimaryCorrected(st.cells, st.maxTp[0]);
  }

  lemma UpdateRatesKeepsCap(st: Sound)
    requires Capped(st)
    ensures Capped(UpdateRates(st))
    ensures forall j :: 0 <= j < 3 ==> 0 <= UpdateRates(st).table[j].idx <= CAP
  {
    hide UpdateRates, ModifyTpRates;
    UpdateRatesSpec(st);
    ModifyKeepsCap(st);
    var s' := UpdateRates(st);
    forall k | 0 <= k < CELLS
      ensures Quiet(k, s'.cells[k])
    {
      assert SameEstimate(s'.cells[k], st.cells[k]) && Quiet(k, st.cells[k]);
    }
  }

  /** A report that names no MCS rate above the cap credits no cell above it. */
  ghost predicate ReportLow(sup: Masks, ar: seq<Entry>) {
    && Creditable(sup, ar)
    && forall i :: 0 <= i < 3 ==> Low(EntryCell(sup, ar, i)) || EntryCell(sup, ar, i) / 10 == CCK
  }

  lemma CountedKeepsCap(st: Sound, ar: seq<Entry>, len: nat, acked: nat)
    requires Capped(st) && ReportOk(st, ar, len, acked) && ReportLow(st.supported, ar)
    ensures Capped(Counted(st, ar, len, acked))
  {
    forall k | 0 <= k < CELLS
      ensures Quiet(k, Counted(st, ar, len, acked).cells[k])
    {
      CreditConserved(st.supported, st.cells, ar, len, acked, 0, k);
      assert Quiet(k, st.cells[k]);
      var last := EntryCell(st.supported, ar, LastTried(ar, 0));
      assert Low(last) || last / 10 == CCK;
    }
  }

  lemma DowngradeKeepsCap(st: Sound, j: nat)
    requires Capped(st) && j < 2
    ensures Capped(DowngradeBest(st, j))
  {
    var k := st.maxTp[j];
    var lower := LowerGroup(st.supported, k / 10, k / 10);
    assert Low(k) && AllLow(st.groupTp[lower]);
  }

  lemma TxStatusKeepsCap(st: Sound, ar: seq<Entry>, len: nat, acked: nat, elapsed: bool)
    requires Capped(st) && ReportOk(st, ar, len, acked) && ReportLow(st.supported, ar)
    ensures Capped(TxStatus(st, ar, len, acked, elapsed))
    ensures var s' := TxStatus(st, ar, len, acked, elapsed);
            s'.table == st.table || forall j :: 0 <= j < 3 ==> 0 <= s'.table[j].idx <= CAP
  {
    var s1 := Counted(st, ar, len, acked);
    CountedKeepsInv(st, ar, len, acked);
    CountedKeepsCap(st, ar, len, acked);
    var s2 := DowngradeBest(s1, 0);
    DowngradeKeepsInv(s1, 0);
    DowngradeKeepsCap(s1, 0);
    DowngradeKeepsCap(s2, 1);
    var s3 := Digested(st, ar, len, acked);
    UpdateStatsKeepsCap(s3);
    UpdateKeepsInv(s3);
    UpdateRatesKeepsCap(if elapsed then UpdateStats(s3) else s3);
  }

  lemma ClearKeepsCap(st: Sound, maxRate: nat)
    requires Capped(st)
    ensures Capped(ClearUnfitable(st, maxRate))
  {
    forall k | 0 <= k < CELLS
      ensures Quiet(k, ClearUnfitable(st, maxRate).cells[k])
    {
      assert Quiet(k, st.cells[k]);
    }
  }

  lemma InitStartKeepsCap(st: Sound, maxRate: nat, bw: nat)
    requires Capped(st) && maxRate <= CAP
    ensures Capped(InitStart(st, maxRate, bw))
  {
    var s1 := Seeded(st, maxRate, bw);
    SeededKeepsInv(st, maxRate, bw);
    forall k | 0 <= k < CELLS
      ensures Quiet(k, s1.cells[k])
    {
      assert Quiet(k, st.cells[k]);
    }
    UpdateStatsKeepsCap(s1);
  }

  lemma UpdateCapsIsCapped(c: Caps, table: seq<Entry>)
    requires ValidCaps(c) && HtUsable(c) && |table| == 4
    ensures Capped(UpdateCaps(c, table))
    ensures forall j :: 0 <= j < 3 ==> 0 <= UpdateCaps(c, table).table[j].idx <= CAP
  {
    var st := Fresh(c, table);
    FreshInv(c, table);
    UpdateStatsKeepsCap(st);
    UpdateKeepsInv(st);
    UpdateRatesKeepsCap(UpdateStats(st));
  }
}
