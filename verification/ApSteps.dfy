/** Completions as steps on the table of estimates: how a station's state follows from what was
    reported, as long as it sends single frames. */
module ApSteps {
  import opened FixedPoint
  import opened RateGroups
  import opened RateStats
  import opened TopRates
  import opened HtState
  import opened HtUpdate
  import opened HtRates
  import opened HtStatus
  import opened HtCap
  import opened Driver
  import opened ApTables

  /** An estimate after `good` of `tried` frames. */
  function Next(e: nat, tried: nat, good: nat): int {
    if tried == 0 then e else if e == 0 then Frac(good, tried) else Ewma(e, Frac(good, tried))
  }

  /** The cells: their estimates, what was tried of the supported ones since the last update,
      and what of that succeeded. An estimate above zero is one that rests on a history. */
  ghost predicate Tally(cells: seq<Stats>, sup: Masks, est: Table, tried: Table, good: Table) {
    && IsTable(sup, est) && |cells| == |tried| == |good| == CELLS
    && forall k :: 0 <= k < CELLS ==>
         && cells[k].prob == est[k]
         && (Supports(sup, k) ==>
               && cells[k].attempts == tried[k] && cells[k].success == good[k]
               && (cells[k].attHist > 0 <==> est[k] > 0))
         && (!Supports(sup, k) ==> cells[k].attempts <= 1)
  }

  /** No rate gets a first report without a success. */
  ghost predicate FirstsGood(sup: Masks, est: Table, tried: Table, good: Table) {
    && IsTable(sup, est) && |tried| == |good| == CELLS
    && forall k :: 0 <= k < CELLS && Supports(sup, k) ==>
         good[k] <= tried[k] <= 100 && (est[k] == 0 && tried[k] > 0 ==> good[k] > 0)
  }

  function NextTable(sup: Masks, est: Table, tried: Table, good: Table): (r: seq<int>)
    requires |sup| == GROUPS && |est| == |tried| == |good| == CELLS
    ensures |r| == CELLS
    ensures forall k :: 0 <= k < CELLS ==> r[k] == if Supports(sup, k) then Next(est[k], tried[k], good[k]) else 0
  {
    seq(CELLS, k requires 0 <= k < CELLS => if Supports(sup, k) then Next(est[k], tried[k], good[k]) else 0)
  }

  function None(): (r: Table)
    ensures |r| == CELLS && forall k :: 0 <= k < CELLS ==> r[k] == 0
  {
    seq(CELLS, k => 0)
  }

  lemma NextBounds(e: nat, tried: nat, good: nat)
    requires e <= SCALE && good <= tried <= 100 && (e == 0 && tried > 0 ==> good > 0)
    ensures 0 <= Next(e, tried, good) <= SCALE
    ensures Next(e, tried, good) > 0 <==> e > 0 || tried > 0
  {
    if tried > 0 {
      FracBound(good, tried);
      if e > 0 {
        EwmaStep(e, Frac(good, tried));
      } else {
        QuotientAtLeast(good * 4096, tried, 1);
      }
    }
  }

  lemma FoldNext(s: Stats)
    requires CellOk(s) && (s.attHist > 0 <==> s.prob > 0)
    requires s.attempts <= 100 && (s.prob == 0 && s.attempts > 0 ==> s.success > 0)
    ensures var f := Fold(s);
            && f.prob == Next(s.prob, s.attempts, s.success) && f.attempts == 0 && f.success == 0
            && (f.attHist > 0 <==> f.prob > 0)
  {
    NextBounds(s.prob, s.attempts, s.success);
    FoldKeepsBounds(s);
  }

  lemma NextIsTable(sup: Masks, est: Table, tried: Table, good: Table)
    requires FirstsGood(sup, est, tried, good)
    ensures forall k :: 0 <= k < CELLS ==> NextTable(sup, est, tried, good)[k] >= 0
    ensures IsTable(sup, NextTable(sup, est, tried, good))
    ensures forall k :: 0 <= k < CELLS && est[k] > 0 ==> NextTable(sup, est, tried, good)[k] > 0
  {
    forall k | 0 <= k < CELLS
      ensures 0 <= NextTable(sup, est, tried, good)[k] <= SCALE
      ensures est[k] > 0 ==> NextTable(sup, est, tried, good)[k] > 0
    {
      if Supports(sup, k) {
        NextBounds(est[k], tried[k], good[k]);
      }
    }
  }

  /** Folding the cells moves the table one step. */
  lemma FoldTally(cells: seq<Stats>, sup: Masks, est: Table, tried: Table, good: Table)
    requires CellsOk(cells, sup) && Tally(cells, sup, est, tried, good) && FirstsGood(sup, est, tried, good)
    ensures IsTable(sup, NextTable(sup, est, tried, good))
    ensures Tally(FoldedUpTo(sup, cells, CELLS), sup, NextTable(sup, est, tried, good), None(), None())
  {
    hide Fold, Next, FoldedUpTo;
    NextIsTable(sup, est, tried, good);
    var est', r := NextTable(sup, est, tried, good), FoldedUpTo(sup, cells, CELLS);
    forall k: nat | k < CELLS
      ensures r[k].prob == est'[k]
      ensures Supports(sup, k) ==> r[k].attempts == 0 == r[k].success && (r[k].attHist > 0 <==> est'[k] > 0)
      ensures !Supports(sup, k) ==> r[k].attempts <= 1
    {
      assert r[k] == FoldedCell(sup, cells, k);
      if Supports(sup, k) {
        FoldNext(cells[k]);
      }
    }
  }

  // ----- The update

  predicate InitialMeter(st: Ht) {
    st.air == AirTable() && st.overhead == 108 && st.avgAmpdu == SCALE
  }

  /** Only single frames were counted since the last update. */
  predicate SingleFrames(st: Ht) {
    st.ampduLen == st.ampduPackets < 1000
  }

  lemma AverageStays(st: Ht)
    requires st.avgAmpdu == SCALE && SingleFrames(st)
    ensures NewAvg(st) == SCALE
  {
    hide EwmaWord;
    if st.ampduPackets > 0 {
      var n := st.ampduPackets;
      FracAtLeastOne(n, n);
      FracBound(n, n);
      EwmaFitsExactly(SCALE, SCALE);
    }
  }

  /** The keys of an update are those of the table. */
  lemma UpdateKeys(u: Sound, est: Table, tried: Table, good: Table)
    requires InitialMeter(u) && SingleFrames(u) && |u.supported| == GROUPS && |u.cells| == CELLS
    requires Tally(FoldedUpTo(u.supported, u.cells, CELLS), u.supported, est, tried, good)
    ensures NewKeys(u) == EstKeys(est)
  {
    hide Inv, FoldedUpTo, NewAvg, Duration;
    AverageStays(u);
    DuringUpdateMeasurable(u, CELLS);
    var cells := FoldedUpTo(u.supported, u.cells, CELLS);
    forall k | 0 <= k < CELLS
      ensures NewKeys(u)[k] == EstKeys(est)[k]
    {
      KeyIsTableKey(NewMeter(u), cells, est, k);
    }
  }

  lemma KeyIsTableKey(m: Meter, cells: seq<Stats>, est: Table, k: nat)
    requires Measurable(m, cells) && k < CELLS && |est| == CELLS && cells[k].prob == est[k]
    requires m == Meter(AirTable(), 108, SCALE)
    ensures KeyOf(m, cells, k) == Key(TpOf(k, est[k]), est[k])
  {
    hide Duration;
    assert m.air[k] == Duration(k);
  }

  /** `s'` is `u` with the table of estimates `est` and the lists that follow from it. */
  ghost predicate UpdatedTo(u: Ht, s': Ht, est: Table) {
    && IsTable(u.supported, est) && Tally(s'.cells, u.supported, est, None(), None())
    && s'.supported == u.supported && InitialMeter(s') && s'.ampduPackets == 0 == s'.ampduLen
    && s'.maxTp == TopList(u.supported, est) && s'.table == u.table && |s'.groupTp| == GROUPS
    && (forall g :: 0 <= g < GROUPS && u.supported[g] != {} ==> s'.groupTp[g] == GroupList(u.supported, est, g))
    && s'.sampleCount > 0 && SameSampling(u, s')
  }

  /** The update of a state whose cells fold to the table `est`. */
  lemma UpdateFrom(u: Sound, est: Table)
    requires InitialMeter(u) && SingleFrames(u) && |u.supported| == GROUPS && |u.cells| == CELLS
    requires Tally(FoldedUpTo(u.supported, u.cells, CELLS), u.supported, est, None(), None())
    ensures Inv(UpdateStats(u)) && UpdatedTo(u, UpdateStats(u), est)
  {
    hide Inv, FoldedUpTo, FallbacksAt, EstKeys, NewKeys, TopFour, Merge, NewAvg, Visited;
    UpdateKeys(u, est, None(), None());
    UpdateKeepsInv(u);
    AverageStays(u);
    SomeGroupCounts(u, GROUPS);
  }

  /** What an update makes of a state whose cells are as told. */
  lemma UpdateIs(u: Sound, est: Table, tried: Table, good: Table)
    requires InitialMeter(u) && SingleFrames(u) && |u.supported| == GROUPS && |u.cells| == CELLS
    requires Tally(u.cells, u.supported, est, tried, good) && FirstsGood(u.supported, est, tried, good)
    ensures IsTable(u.supported, NextTable(u.supported, est, tried, good))
    ensures Inv(UpdateStats(u)) && UpdatedTo(u, UpdateStats(u), NextTable(u.supported, est, tried, good))
  {
    hide Inv, FoldedUpTo, NextTable, UpdateStats, Tally, UpdatedTo;
    InvCells(u);
    FoldTally(u.cells, u.supported, est, tried, good);
    UpdateFrom(u, NextTable(u.supported, est, tried, good));
  }

  lemma InvCells(u: Sound)
    ensures CellsOk(u.cells, u.supported) && ValidMasks(u.supported)
  {
  }

  predicate SameSampling(u: Ht, s': Ht) {
    && s'.sampleWait == u.sampleWait && s'.sampleTries == u.sampleTries && s'.sampleGroup == u.sampleGroup
    && s'.sampleIdx == u.sampleIdx && s'.sampleCol == u.sampleCol
  }

  lemma {:induction false} SomeGroupCounts(u: Sound, n: nat)
    requires n <= GROUPS == |u.supported|
    ensures (exists g :: 0 <= g < n && u.supported[g] != {}) ==> SupportedGroups(u.supported, n) > 0
    ensures n == GROUPS ==> SupportedGroups(u.supported, n) > 0
  {
    if n > 0 {
      SomeGroupCounts(u, n - 1);
    }
  }

  // ----- The fallback

  /** The fallback has an estimate, or is rate 0 of its group. */
  predicate FallbackRated(k: nat, est: Table)
    requires |est| == CELLS
  {
    k < CELLS && (est[k] > 0 || k % 10 == 0)
  }

  lemma OfferedIsRated(m: Meter, cells: seq<Stats>, top: nat, f: Fallbacks, k: nat)
    requires Measurable(m, cells) && k < CELLS && FallbacksInRange(f)
    ensures var b := OfferFallback(m, cells, top, f, k).best;
            b == f.best || (b == k && cells[k].prob > 0)
  {
    ZeroProbZeroKey(m, cells, k);
  }

  lemma {:induction false} SweptFallbackRated(u: Sound, n: nat)
    requires n <= CELLS && |u.supported| == GROUPS && |u.cells| == CELLS
    ensures var b := FallbacksAt(u, n).best;
            b == u.maxProb || (b < n && FoldedUpTo(u.supported, u.cells, CELLS)[b].prob > 0)
  {
    hide Inv, OfferFallback, FoldedUpTo, Measurable;
    InvShape(u);
    if n > 0 {
      SweptFallbackRated(u, n - 1);
      if Supports(u.supported, n - 1) {
        DuringUpdateMeasurable(u, n);
        assert FoldedUpTo(u.supported, u.cells, n)[n - 1] == FoldedUpTo(u.supported, u.cells, CELLS)[n - 1];
        OfferedIsRated(NewMeter(u), FoldedUpTo(u.supported, u.cells, n), u.maxTp[0], FallbacksAt(u, n - 1), n - 1);
      }
    }
  }

  lemma UpdateFallback(u: Sound, est: Table)
    requires |u.supported| == GROUPS && |u.cells| == CELLS && FallbackRatedOf(u, est)
    requires Tally(FoldedUpTo(u.supported, u.cells, CELLS), u.supported, est, None(), None())
    ensures FallbackRated(UpdateStats(u).maxProb, est)
  {
    hide Inv, FoldedUpTo, FallbacksAt, NewMaxTp, GroupListsAt;
    SweptFallbackRated(u, CELLS);
  }

  predicate FallbackRatedOf(st: Ht, est: Table) {
    |est| == CELLS && FallbackRated(st.maxProb, est)
  }

  lemma ModifiedFallbackRated(m: Meter, cells: seq<Stats>, primary: nat, f: nat, est: Table)
    requires Measurable(m, cells) && primary < CELLS && |est| == CELLS && FallbackRated(f, est)
    requires forall k :: 0 <= k < CELLS ==> cells[k].prob == est[k]
    ensures FallbackRated(ModifiedFallback(m, cells, primary, f), est)
  {
    hide KeyOf;
    var top, g := primary % 10, f / 10;
    if f % 10 >= top {
      var i := if top > 0 then top - 1 else 0;
      BestUpToSpec(m, cells, g, i);
      var r := BestUpTo(m, cells, g, i);
      if r > 0 {
        ZeroProbZeroKey(m, cells, Cell(g, r));
        assert Below(KeyOf(m, cells, Cell(g, 0)), KeyOf(m, cells, Cell(g, r)));
      }
    }
  }

  // ----- The table of rates

  /** The first two lists after the correction. */
  function CorrectedList(sup: Masks, est: Table): (r: seq<nat>)
    requires |sup| == GROUPS && |est| == CELLS
    ensures |r| == MAX_THR_RATES && r[0] < CELLS && r[1] < CELLS
  {
    var t := TopList(sup, est);
    t[0 := Corrected(est, t[0])]
  }

  /** The lists are those of the table of estimates, and the rate table encodes them. */
  ghost predicate Listed(st: Ht, sup: Masks, est: Table) {
    && |sup| == GROUPS && |est| == CELLS && st.maxTp == CorrectedList(sup, est)
    && |st.groupTp| == GROUPS && |st.table| == 4 && st.ampduPackets == 0
    && (forall g :: 0 <= g < GROUPS && sup[g] != {} ==> st.groupTp[g] == GroupList(sup, est, g))
    && Names(st.table[0], st.maxTp[0]) && !st.table[0].flags.rts && Names(st.table[1], st.maxTp[1])
  }

  lemma SameEstimates(a: seq<Stats>, b: seq<Stats>, sup: Masks, est: Table, tried: Table, good: Table)
    requires Tally(b, sup, est, tried, good) && |a| == CELLS
    requires forall k :: 0 <= k < CELLS ==> SameEstimate(a[k], b[k])
    ensures Tally(a, sup, est, tried, good)
  {
  }

  lemma ModifiedIs(s: Sound, est: Table)
    requires |est| == CELLS && |s.cells| == CELLS && |s.maxTp| == MAX_THR_RATES && s.maxTp[0] < CELLS
    requires FallbackRatedOf(s, est) && forall k :: 0 <= k < CELLS ==> s.cells[k].prob == est[k]
    ensures var m := ModifyTpRates(s);
            && m == s.(maxTp := s.maxTp[0 := Corrected(est, s.maxTp[0])], maxProb := m.maxProb)
            && FallbackRatedOf(m, est)
  {
    hide Inv, KeyOf, BestUpTo, Measurable;
    InvMeasurable(s);
    SteadyIsReliable(s.cells, est, s.maxTp[0] / 10, s.maxTp[0] % 10);
    ModifiedFallbackRated(MeterOf(s), s.cells, ModifiedPrimary(s.cells, s.maxTp[0]), s.maxProb, est);
  }

  lemma PlainFlags(g: nat)
    requires g < GROUPS
    ensures !GroupFlags(g).rts
  {
  }

  lemma RatesEncode(s: Sound, est: Table)
    requires |est| == CELLS && |s.cells| == CELLS && |s.maxTp| == MAX_THR_RATES && s.maxTp[0] < CELLS
    requires FallbackRatedOf(s, est) && forall k :: 0 <= k < CELLS ==> s.cells[k].prob == est[k]
    ensures var s' := UpdateRates(s);
            && Inv(s') && s'.maxTp == s.maxTp[0 := Corrected(est, s.maxTp[0])] && FallbackRatedOf(s', est)
            && s' == s.(maxTp := s'.maxTp, maxProb := s'.maxProb, cells := s'.cells, table := s'.table)
            && |s'.table| == 4 && Names(s'.table[0], s'.maxTp[0]) && !s'.table[0].flags.rts
            && Names(s'.table[1], s'.maxTp[1])
            && |s'.cells| == CELLS && forall k :: 0 <= k < CELLS ==> SameEstimate(s'.cells[k], s.cells[k])
  {
    hide Inv, UpdateRates, ModifyTpRates, RateIdx, GroupFlags, SameEstimate, Corrected;
    InvShape(s);
    UpdateRatesSpec(s);
    ModifiedIs(s, est);
    ModifyShape(s);
    var s' := UpdateRates(s);
    InvShape(s');
    PlainFlags(s'.maxTp[0] / 10);
  }

  /** `s'` is `u` after an update and a new table, resting on `est`. */
  ghost predicate Rebuilt(u: Ht, s': Ht, est: Table) {
    && IsTable(u.supported, est) && Listed(s', u.supported, est)
    && Tally(s'.cells, u.supported, est, None(), None())
    && FallbackRatedOf(s', est) && s'.supported == u.supported && InitialMeter(s')
    && s'.ampduPackets == 0 == s'.ampduLen && s'.sampleCount > 0 && SameSampling(u, s')
  }

  lemma RatesListed(u: Ht, s: Sound, est: Table)
    requires UpdatedTo(u, s, est) && FallbackRatedOf(s, est)
    ensures Inv(UpdateRates(s)) && Rebuilt(u, UpdateRates(s), est)
  {
    hide Inv, UpdateRates, TopList, GroupList, Names, IsTable, SameEstimate, Corrected;
    InvShape(s);
    RatesEncode(s, est);
    SameEstimates(UpdateRates(s).cells, s.cells, u.supported, est, None(), None());
  }

  // ----- Completions

  predicate ChainLow(c: Chain) {
    |c| == 4 && forall i :: 0 <= i < 3 ==> c[i].idx <= CAP
  }

  /** The state rests on the table of estimates `est`; `due` was tried in vain since. */
  ghost predicate Stands(st: Ht, sup: Masks, est: Table, due: Table) {
    && Ready(st) && Capped(st) && ChainLow(st.table) && st.supported == sup && ValidMasks(sup)
    && InitialMeter(st) && SingleFrames(st) && st.ampduPackets < 900 && st.sampleCount > 0
    && |due| == CELLS && Tally(st.cells, sup, est, due, None()) && FallbackRatedOf(st, est)
  }

  /** A report of `n` tries of slot `j` and of nothing else. */
  function TriesAt(j: nat, n: nat): (t: seq<nat>)
    ensures |t| == 4 && t[2] == t[3] == 0
  {
    if j == 0 then [n, 0, 0, 0] else [0, n, 0, 0]
  }

  /** The report, seen from the station: `n` tries of rate `x`, of which `a` succeeded. */
  predicate ReportsOn(sup: Masks, chain: Chain, j: nat, n: nat, a: nat, x: nat) {
    && |sup| == GROUPS && ChainOk(chain) && ChainLow(chain) && j < 2 && a <= 1 && a <= n <= 31
    && x < CELLS && Supports(sup, x) && (n > 0 ==> Names(chain[j], x)) && (n == 0 ==> j == 0)
  }

  lemma TriesAtOk(sup: Masks, chain: Chain, j: nat, n: nat, a: nat, x: nat)
    requires ValidMasks(sup) && ReportsOn(sup, chain, j, n, a, x)
    ensures TriesOk(chain, TriesAt(j, n), a == 1)
    ensures var ar := Reported(chain, TriesAt(j, n));
            && LastTried(ar, 0) == j && !TxValid(ar[2]) && (j == 0 ==> !TxValid(ar[1]))
            && (n > 0 ==> ar[j].count == n && CellOf(sup, ar[j].idx, ar[j].flags) == x)
            && (j == 1 ==> ar[0] == NO_ENTRY) && (n == 0 ==> ar[0].count == 0)
  {
    hide CellOf, Report;
    var ar := Reported(chain, TriesAt(j, n));
    if n > 0 {
      NamedEntryReport(sup, ar[j], x);
      CreditReturnsToCell(sup, x, false);
    }
  }

  lemma CountedCells(sup: Masks, cells: seq<Stats>, chain: Chain, j: nat, n: nat, a: nat, x: nat)
    requires ValidMasks(sup) && |cells| == CELLS && ReportsOn(sup, chain, j, n, a, x)
    requires Creditable(sup, Reported(chain, TriesAt(j, n)))
    ensures CreditFrom(sup, cells, Reported(chain, TriesAt(j, n)), 1, a, 0) == cells[x := Credit(cells[x], n, a)]
  {
    hide CellOf, Reported, TriesAt, TxValid, Names;
    TriesAtOk(sup, chain, j, n, a, x);
    var ar := Reported(chain, TriesAt(j, n));
    if n == 0 {
      NothingCredited(sup, cells, ar);
    } else if j == 1 {
      var k := EntryCell(sup, ar, 0);
      assert cells[k := Credit(cells[k], 0, 0)] == cells;
    }
  }

  lemma NothingCredited(sup: Masks, cells: seq<Stats>, ar: Chain)
    requires Creditable(sup, ar) && |cells| == CELLS && !TxValid(ar[1]) && ar[0].count == 0
    ensures CreditFrom(sup, cells, ar, 1, 0, 0) == cells
  {
    hide CellOf, TxValid;
    var k := EntryCell(sup, ar, 0);
    assert cells[k := Credit(cells[k], 0, 0)] == cells;
  }

  /** The probe budget is refilled when it has run dry. */
  function Refilled(st: Ht): (int, int) {
    if st.sampleWait == 0 && st.sampleTries == 0 && st.sampleCount > 0 then (10, 2)
    else (st.sampleWait, st.sampleTries)
  }

  /** Neither of the two best rates looks failing after `n` more tries of `x`. */
  predicate Calm(st: Ht, x: nat, n: nat)
    requires |st.cells| == CELLS && |st.maxTp| == MAX_THR_RATES && AllBelow(st.maxTp, CELLS)
  {
    forall i :: 0 <= i < 2 ==> st.cells[st.maxTp[i]].attempts + (if st.maxTp[i] == x then n else 0) <= 30
  }

  /** Counting such a report: only `x` is credited, and nothing is downgraded. */
  lemma DigestedIs(st: Sound, sup: Masks, chain: Chain, j: nat, n: nat, a: nat, x: nat)
    requires st.supported == sup && ReportsOn(sup, chain, j, n, a, x)
    requires |st.cells| == CELLS && |st.maxTp| == MAX_THR_RATES && AllBelow(st.maxTp, CELLS) && Calm(st, x, n)
    requires ReportOk(st, Reported(chain, TriesAt(j, n)), 1, a)
    ensures var u := Digested(st, Reported(chain, TriesAt(j, n)), 1, a);
            && u == st.(ampduPackets := st.ampduPackets + 1, ampduLen := st.ampduLen + 1,
                        cells := st.cells[x := Credit(st.cells[x], n, a)],
                        sampleWait := u.sampleWait, sampleTries := u.sampleTries, sampleCount := u.sampleCount)
            && (u.sampleWait, u.sampleTries) == Refilled(st)
    ensures !NeedsUpdate(st, Reported(chain, TriesAt(j, n)), 1, a)
  {
    hide CreditFrom, CellOf, Reported, TriesAt, Names, TxValid, Inv;
    InvShape(st);
    CountedCells(sup, st.cells, chain, j, n, a, x);
    CountedKeepsInv(st, Reported(chain, TriesAt(j, n)), 1, a);
    var s1 := Counted(st, Reported(chain, TriesAt(j, n)), 1, a);
    assert !Failing(s1.cells[s1.maxTp[0]]) && !Failing(s1.cells[s1.maxTp[1]]);
    assert DowngradeBest(s1, 0) == s1;
  }

  /** The completion as the driver reports it. */
  ghost function Completed(st: Sound, chain: Chain, j: nat, n: nat, a: nat, elapsed: bool): Ht
    requires ChainOk(chain) && TriesOk(chain, TriesAt(j, n), a == 1) && st.ampduLen + 1 < INTERVAL_LIMIT
  {
    TxComplete(st, chain, TriesAt(j, n), a == 1, 0, elapsed)
  }

  lemma CompletedIs(st: Ht, chain: Chain, j: nat, n: nat, a: nat, elapsed: bool)
    requires Ready(st) && Capped(st) && ChainLow(st.table) && st.ampduLen < 1000
    requires ChainOk(chain) && ChainLow(chain) && a <= 1 && TriesOk(chain, TriesAt(j, n), a == 1)
    ensures ReportOk(st, Reported(chain, TriesAt(j, n)), 1, a)
    ensures var s' := Completed(st, chain, j, n, a, elapsed);
            && s' == TxStatus(st, Reported(chain, TriesAt(j, n)), 1, a, elapsed)
            && Ready(s') && Capped(s') && ChainLow(s'.table)
  {
    hide TxStatus, Reported, ReportOk, Capped, TriesAt, Inv, TriesOk;
    CompletionIsReport(st, chain, TriesAt(j, n), a == 1, 0);
    TxCompleteKeepsReady(st, chain, TriesAt(j, n), a == 1, 0, elapsed);
    TxStatusKeepsCap(st, Reported(chain, TriesAt(j, n)), 1, a, elapsed);
  }

  lemma TriedMore(cells: seq<Stats>, sup: Masks, est: Table, due: Table, x: nat, n: nat, a: nat)
    requires Tally(cells, sup, est, due, None()) && x < CELLS && Supports(sup, x)
    ensures Tally(cells[x := Credit(cells[x], n, a)], sup, est, due[x := due[x] + n], None()[x := a])
  {
  }

  /** Ready for an update that makes `NextTable` of `est`. */
  ghost predicate Prepared(u: Ht, est: Table, tried: Table, good: Table) {
    && InitialMeter(u) && SingleFrames(u) && |u.supported| == GROUPS && |u.cells| == CELLS
    && |est| == |tried| == |good| == CELLS
    && Tally(u.cells, u.supported, est, tried, good) && FirstsGood(u.supported, est, tried, good)
    && FallbackRatedOf(u, est)
  }

  lemma Rebuilds(u: Sound, est: Table, tried: Table, good: Table)
    requires Prepared(u, est, tried, good)
    ensures IsTable(u.supported, NextTable(u.supported, est, tried, good))
    ensures Inv(UpdateStats(u))
    ensures Rebuilt(u, UpdateRates(UpdateStats(u)), NextTable(u.supported, est, tried, good))
  {
    hide Inv, UpdateStats, UpdateRates, NextTable, FirstsGood, Tally, Rebuilt, UpdatedTo, IsTable;
    UpdateIs(u, est, tried, good);
    InvCells(u);
    FoldTally(u.cells, u.supported, est, tried, good);
    NextIsTable(u.supported, est, tried, good);
    var est' := NextTable(u.supported, est, tried, good);
    assert FallbackRatedOf(u, est');
    UpdateFallback(u, est');
    RatesListed(u, UpdateStats(u), est');
  }

  predicate SamePosition(st: Ht, s': Ht) {
    s'.sampleGroup == st.sampleGroup && s'.sampleIdx == st.sampleIdx && s'.sampleCol == st.sampleCol
  }

  /** The table after `n` more tries of `x`, of which `a` succeeded. */
  function After(sup: Masks, est: Table, due: Table, x: nat, n: nat, a: nat): (r: seq<int>)
    requires |sup| == GROUPS && |est| == |due| == CELLS && x < CELLS
    ensures |r| == CELLS
  {
    NextTable(sup, est, due[x := due[x] + n], None()[x := a])
  }

  ghost predicate FirstGood(sup: Masks, est: Table, due: Table, x: nat, n: nat, a: nat)
    requires |est| == |due| == CELLS && x < CELLS
  {
    FirstsGood(sup, est, due[x := due[x] + n], None()[x := a])
  }

  lemma DigestedPrepared(st: Ht, sup: Masks, est: Table, due: Table, chain: Chain, j: nat, n: nat, a: nat, x: nat)
    requires Stands(st, sup, est, due) && ReportsOn(sup, chain, j, n, a, x) && FirstGood(sup, est, due, x, n, a)
    requires |st.cells| == CELLS && |st.maxTp| == MAX_THR_RATES && AllBelow(st.maxTp, CELLS) && Calm(st, x, n)
    requires ReportOk(st, Reported(chain, TriesAt(j, n)), 1, a)
    ensures var u := Digested(st, Reported(chain, TriesAt(j, n)), 1, a);
            && Prepared(u, est, due[x := due[x] + n], None()[x := a]) && u.supported == sup
            && SamePosition(st, u) && (u.sampleWait, u.sampleTries) == Refilled(st)
  {
    hide Inv, Capped, Digested, Reported, ReportOk, TriesAt, Tally, Calm, FirstsGood, ValidMasks;
    DigestedIs(st, sup, chain, j, n, a, x);
    TriedMore(st.cells, sup, est, due, x, n, a);
  }

  /** A report with an update moves the table of estimates by one step, and the lists with it. */
  lemma DoneUpdates(st: Ht, sup: Masks, est: Table, due: Table, chain: Chain, j: nat, n: nat, a: nat, x: nat)
    requires Stands(st, sup, est, due) && ReportsOn(sup, chain, j, n, a, x) && FirstGood(sup, est, due, x, n, a)
    requires |st.cells| == CELLS && |st.maxTp| == MAX_THR_RATES && AllBelow(st.maxTp, CELLS) && Calm(st, x, n)
    ensures TriesOk(chain, TriesAt(j, n), a == 1)
    ensures IsTable(sup, After(sup, est, due, x, n, a))
    ensures var s' := Completed(st, chain, j, n, a, true);
            && Stands(s', sup, After(sup, est, due, x, n, a), None()) && Listed(s', sup, After(sup, est, due, x, n, a))
            && SamePosition(st, s') && (s'.sampleWait, s'.sampleTries) == Refilled(st)
  {
    hide Inv, Capped, UpdateStats, UpdateRates, Digested, Reported, ReportOk, TriesAt, NextTable, FirstsGood,
      Tally, Listed, Calm, TriesOk, Names, Completed, InitialMeter;
    TriesAtOk(sup, chain, j, n, a, x);
    CompletedIs(st, chain, j, n, a, true);
    DigestedPrepared(st, sup, est, due, chain, j, n, a, x);
    Rebuilds(Digested(st, Reported(chain, TriesAt(j, n)), 1, a), est, due[x := due[x] + n], None()[x := a]);
  }
}
