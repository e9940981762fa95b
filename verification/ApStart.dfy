/** How an access point starts a peer: the table of estimates that the seeds leave behind. */
module ApStart {
  import opened FixedPoint
  import opened RateGroups
  import opened RateStats
  import opened HtState
  import opened HtUpdate
  import opened HtRates
  import opened HtStatus
  import opened HtCap
  import opened Signal
  import opened Driver
  import opened Runs
  import opened ApTables
  import opened ApSteps

  /** Nothing was sampled yet. */
  predicate Unsampled(st: Ht) {
    && st.sampleWait == 0 && st.sampleTries == 4 && st.sampleGroup == 0
    && |st.sampleIdx| == |st.sampleCol| == GROUPS
    && forall g :: 0 <= g < GROUPS ==> st.sampleIdx[g] == 0 == st.sampleCol[g]
  }

  lemma FreshPrepared(c: Caps, table: seq<Entry>)
    requires ValidCaps(c) && HtUsable(c) && |table| == 4
    ensures Inv(Fresh(c, table)) && Prepared(Fresh(c, table), None(), None(), None()) && Unsampled(Fresh(c, table))
    ensures Fresh(c, table).supported == MasksOf(c)
  {
    FreshInv(c, table);
    assert OfdmDuration(0) == 48 && OfdmDuration(10) == 60;
  }

  lemma NothingNext(sup: Masks)
    requires |sup| == GROUPS
    ensures NextTable(sup, None(), None(), None()) == None() && IsTable(sup, None())
  {
  }

  /** Before the seeds the station knows nothing. */
  lemma CapsBlank(c: Caps, table: seq<Entry>)
    requires ValidCaps(c) && HtUsable(c) && |table| == 4
    ensures Rebuilt(Fresh(c, table), UpdateCaps(c, table), None()) && Unsampled(UpdateCaps(c, table))
    ensures Inv(UpdateCaps(c, table)) && UpdateCaps(c, table).supported == MasksOf(c)
  {
    hide Fresh, UpdateRates, UpdateStats, Prepared, Listed, Tally, Inv;
    FreshPrepared(c, table);
    NothingNext(MasksOf(c));
    Rebuilds(Fresh(c, table), None(), None(), None());
  }

  // ----- The seeds

  /** The estimate of cell `k` when rate `m` was seeded in the groups of bandwidth `bw`. */
  function SeedEstimate(sup: Masks, bw: nat, m: nat, k: nat): nat
    requires |sup| == GROUPS && k < CELLS
  {
    if !Supports(sup, k) || !HasRate(sup, bw, k / 10, m) then 0
    else if k % 10 == 2 then 1024
    else if k % 10 == m then 921
    else 0
  }

  function SeedTable(sup: Masks, bw: nat, m: nat): (est: Table)
    requires |sup| == GROUPS
    ensures |est| == CELLS && forall k :: 0 <= k < CELLS ==> est[k] == SeedEstimate(sup, bw, m, k)
  {
    seq(CELLS, k requires 0 <= k < CELLS => SeedEstimate(sup, bw, m, k))
  }

  lemma SeedEstimates(s: Stats)
    requires s.prob == 0
    ensures Fold(Seed(s, 20, 18)).prob == 921 && Fold(Seed(s, 1, 1)).prob == 1024
  {
    assert Frac(18, 20) == 3686 && Frac(1, 1) == 4096;
    assert Increment(3686) == 921 && Increment(4096) == 1024;
  }

  lemma SeedFolds(sup: Masks, cells: seq<Stats>, bw: nat, m: nat, k: nat)
    requires Tally(cells, sup, None(), None(), None()) && k < CELLS
    ensures var s := SeededCell(sup, cells, bw, m, k);
            var r := if Supports(sup, k) then Fold(s).(retryUpdated := false) else s;
            && r.prob == SeedEstimate(sup, bw, m, k)
            && (Supports(sup, k) ==> r.attempts == 0 == r.success && (r.attHist > 0 <==> r.prob > 0))
            && (!Supports(sup, k) ==> r.attempts <= 1)
  {
    assert cells[k].prob == 0;
    assert Supports(sup, k) ==> cells[k].attempts == 0 && cells[k].success == 0 && cells[k].attHist == 0;
    SeedEstimates(cells[k]);
  }

  lemma SeedsTally(st: Sound, sup: Masks, bw: nat, m: nat)
    requires st.supported == sup && |sup| == GROUPS && Tally(st.cells, sup, None(), None(), None())
    ensures var s, r := Seeded(st, m, bw), SeedRate(sup, m, bw);
            && Inv(s) && |s.cells| == CELLS && IsTable(sup, SeedTable(sup, bw, r))
            && Tally(FoldedUpTo(sup, s.cells, CELLS), sup, SeedTable(sup, bw, r), None(), None())
  {
    hide Inv, Fold, SeededCell, SeedEstimate, FoldedUpTo;
    InvShape(st);
    SeededKeepsInv(st, m, bw);
    var s, r := Seeded(st, m, bw), SeedRate(sup, m, bw);
    var f := FoldedUpTo(sup, s.cells, CELLS);
    forall k | 0 <= k < CELLS
      ensures f[k].prob == SeedEstimate(sup, bw, r, k)
      ensures Supports(sup, k) ==> f[k].attempts == 0 == f[k].success && (f[k].attHist > 0 <==> f[k].prob > 0)
      ensures !Supports(sup, k) ==> f[k].attempts <= 1
    {
      SeedFolds(sup, st.cells, bw, r, k);
      assert f[k] == FoldedCell(sup, s.cells, k);
      assert s.cells[k] == SeededCell(sup, st.cells, bw, r, k);
    }
    SeedTableOk(sup, bw, r);
  }

  lemma SeedTableOk(sup: Masks, bw: nat, m: nat)
    requires |sup| == GROUPS
    ensures IsTable(sup, SeedTable(sup, bw, m))
  {
  }

  /** The rate that is seeded on link `l`. */
  function StartRate(c: Caps, l: Link): nat {
    SeedRate(MasksOf(c), FitableMcs(l, FitableBw(l)), FitableBw(l))
  }

  /** What the seeds make of a station that knows nothing. */
  ghost predicate Seedling(u: Ht, s': Ht, sup: Masks, est: Table) {
    && UpdatedTo(u, s', est) && FallbackRatedOf(s', est) && Unsampled(s') && s'.supported == sup
  }

  lemma InitSeeds(f: Ht, u: Sound, m: nat, bw: nat)
    requires Rebuilt(f, u, None()) && Unsampled(u) && |u.supported| == GROUPS
    ensures Seedling(u, InitStart(u, m, bw), u.supported, SeedTable(u.supported, bw, SeedRate(u.supported, m, bw)))
  {
    hide Inv, SeedTable, UpdateStats, Seeded, Tally, UpdatedTo, SeedRate;
    InvShape(u);
    SeedsTally(u, u.supported, bw, m);
    SeedsFrame(u, m, bw);
    var s, est := Seeded(u, m, bw), SeedTable(u.supported, bw, SeedRate(u.supported, m, bw));
    UpdateFrom(s, est);
    UpdateFallback(s, est);
    SameUpdated(u, s, UpdateStats(s), est);
  }

  lemma SameUpdated(u: Ht, s: Ht, s': Ht, est: Table)
    requires UpdatedTo(s, s', est) && s == u.(cells := s.cells)
    ensures UpdatedTo(u, s', est) && (Unsampled(u) ==> Unsampled(s'))
    ensures s'.supported == u.supported
  {
    hide Tally, TopList, GroupList, InitialMeter;
  }

  /** Where a run starts: the seeds are the only estimates, and the table still holds rate 0. */
  ghost predicate StartsWith(st: Ht, sup: Masks, est: Table) {
    && IsTable(sup, est) && Stands(st, sup, est, None()) && st.maxTp == TopList(sup, est)
    && Unsampled(st) && |st.table| == 4 && Names(st.table[0], 0) && !st.table[0].flags.rts
  }

  lemma SeedlingStarts(f: Ht, u: Ht, st: Ht, sup: Masks, est: Table)
    requires Seedling(u, st, sup, est) && Rebuilt(f, u, None()) && u.supported == sup && ValidMasks(sup)
    requires Ready(st) && Capped(st) && ChainLow(st.table)
    ensures StartsWith(st, sup, est)
  {
    hide Inv, Capped, Tally, TopList, GroupList, ValidMasks, Names;
    BlankPrimary(sup);
  }

  lemma StartStands(c: Caps, l: Link, table: seq<Entry>)
    requires StartOk(c, l, table)
    ensures StartsWith(Start(c, l, table).ht, MasksOf(c), SeedTable(MasksOf(c), FitableBw(l), StartRate(c, l)))
  {
    hide UpdateCaps, Capped, FitableMcs, FitableBw, SeedTable, InitStart, SeedRate, Seedling, Rebuilt, StartsWith, Inv;
    CapsBlank(c, table);
    MasksAreValid(c, MasksOf(c));
    var u := UpdateCaps(c, table);
    InitSeeds(Fresh(c, table), u, FitableMcs(l, FitableBw(l)), FitableBw(l));
    StartIsCapped(c, l, table);
    SeedlingStarts(Fresh(c, table), u, Start(c, l, table).ht, MasksOf(c),
                   SeedTable(MasksOf(c), FitableBw(l), StartRate(c, l)));
  }

  lemma SeedsFrame(st: Sound, m: nat, bw: nat)
    ensures Seeded(st, m, bw) == st.(cells := Seeded(st, m, bw).cells)
  {
  }

  lemma BlankPrimary(sup: Masks)
    requires |sup| == GROUPS
    ensures CorrectedList(sup, None())[0] == 0
  {
    TopListElements(sup, None(), 0);
  }
}
