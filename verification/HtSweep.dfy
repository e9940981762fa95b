/** The sweep of the statistics update over the rate table, one rate at a time: what the
    update's working state is when the first `n` rates are done. */
module HtSweep {
  import opened FixedPoint
  import opened RateGroups
  import opened RateStats
  import opened TopRates
  import opened HtState
  import opened HtUpdate

  /** The station after the first `n` rates, `g` finished groups and `count` supported ones. */
  function Swept(st: Sound, n: nat, g: nat, count: nat): (r: Ht)
    requires n <= CELLS && g <= GROUPS
    ensures r.supported == st.supported && |r.supported| == GROUPS && |r.cells| == CELLS
    ensures |r.groupTp| == GROUPS && r.sampleCount == count
    ensures |r.maxTp| == MAX_THR_RATES && FallbacksInRange(Fallbacks(r.maxProb, r.groupProb))
  {
    var f := FallbacksAt(st, n);
    NewAvgAtLeastOne(st);
    st.(avgAmpdu := NewAvg(st),
    ampduLen := if st.ampduPackets > 0 then 0 else st.ampduLen,
    ampduPackets := 0,
    cells := FoldedUpTo(st.supported, st.cells, n),
    groupTp := GroupListsAt(st, g),
    maxProb := f.best,
    groupProb := f.groups,
    sampleCount := count)
  }

  /** The three scratch lists of the sweep. */
  datatype Scratch = Scratch(mcs: seq<nat>, cck: seq<nat>, grp: seq<nat>)

  /** The scratch lists when the first `n` rates are done. */
  function ScratchAt(st: Sound, n: nat): (s: Scratch)
    requires n <= CELLS
    ensures |s.mcs| == |s.cck| == |s.grp| == MAX_THR_RATES
    ensures AllBelow(s.mcs, CELLS) && AllBelow(s.cck, CELLS) && AllBelow(s.grp, CELLS)
  {
    Scratch(Best(st, McsRates, n), Best(st, CckRates, n), Best(st, AllRates, n))
  }

  /** Folding one more supported rate. */
  lemma FoldOne(sup: Masks, cells: seq<Stats>, n: nat)
    requires |sup| == GROUPS && |cells| == CELLS && n < CELLS
    ensures FoldedUpTo(sup, cells, n)[n := FoldedCell(sup, cells, n)] == FoldedUpTo(sup, cells, n + 1)
  {
  }

  /** Offering one more rate to a list of four. The keys used meanwhile agree with the final
      ones, because only rates that are already folded are involved. */
  lemma OfferOne(st: Sound, w: Which, n: nat)
    requires n < CELLS && Supports(st.supported, n) && Selected(w, n)
    ensures Measurable(NewMeter(st), FoldedUpTo(st.supported, st.cells, n + 1))
    ensures InsertTop(Keys(NewMeter(st), FoldedUpTo(st.supported, st.cells, n + 1)), Best(st, w, n), n)
         == Best(st, w, n + 1)
  {
    DuringUpdateMeasurable(st, n + 1);
    DuringUpdateMeasurable(st, CELLS);
    var meanwhile := Keys(NewMeter(st), FoldedUpTo(st.supported, st.cells, n + 1));
    var list := Best(st, w, n);
    forall i | 0 <= i < |list|
      ensures meanwhile[list[i]] == NewKeys(st)[list[i]]
    {
      BestElements(st, w, n, i);
    }
    SlotSameKeys(meanwhile, NewKeys(st), list, n, |list|);
    var xs := Visited(st.supported, w, n);
    assert (xs + [n])[..|xs|] == xs;
  }

  /** A rate that is not selected leaves a list as it is. */
  lemma SkipOne(st: Sound, w: Which, n: nat)
    requires n < CELLS && !(Supports(st.supported, n) && Selected(w, n))
    ensures Best(st, w, n + 1) == Best(st, w, n)
  {
  }

  /** What the body of the sweep does to a rate's statistics. */
  function FoldNow(s: Stats): Stats {
    Fold(s).(retryUpdated := false)
  }

  /** Folding supported rate `n` leaves a rankable table. */
  lemma SweepFold(st: Sound, n: nat, g: nat, count: nat)
    requires n < CELLS && Supports(st.supported, n) && g <= GROUPS
    ensures var s := Swept(st, n, g, count);
            && s.cells[n := FoldNow(s.cells[n])] == FoldedUpTo(st.supported, st.cells, n + 1)
            && MeterOf(s) == NewMeter(st)
            && Measurable(MeterOf(s), s.cells[n := FoldNow(s.cells[n])])
  {
    FoldOne(st.supported, st.cells, n);
    DuringUpdateMeasurable(st, n + 1);
  }

  /** Offering it to the lists. */
  lemma SweepLists(st: Sound, n: nat)
    requires n < CELLS && Supports(st.supported, n)
    ensures Measurable(NewMeter(st), FoldedUpTo(st.supported, st.cells, n + 1))
    ensures var keys, s := Keys(NewMeter(st), FoldedUpTo(st.supported, st.cells, n + 1)), ScratchAt(st, n);
            ScratchAt(st, n + 1) ==
              Scratch(if n / 10 != CCK then InsertTop(keys, s.mcs, n) else s.mcs,
                      if n / 10 == CCK then InsertTop(keys, s.cck, n) else s.cck,
                      InsertTop(keys, s.grp, n))
  {
    hide Best, InsertTop, Inv;
    OfferOne(st, AllRates, n);
    if n / 10 == CCK {
      OfferOne(st, CckRates, n);
      SkipOne(st, McsRates, n);
    } else {
      OfferOne(st, McsRates, n);
      SkipOne(st, CckRates, n);
    }
  }

  /** Offering it as a fallback completes the step. */
  lemma SweepFallbacks(st: Sound, n: nat, g: nat, count: nat)
    requires n < CELLS && Supports(st.supported, n) && g <= GROUPS
    ensures Measurable(NewMeter(st), FoldedUpTo(st.supported, st.cells, n + 1))
    ensures var s, cells := Swept(st, n, g, count), FoldedUpTo(st.supported, st.cells, n + 1);
            var f := OfferFallback(NewMeter(st), cells, s.maxTp[0], Fallbacks(s.maxProb, s.groupProb), n);
            s.(cells := cells, maxProb := f.best, groupProb := f.groups) == Swept(st, n + 1, g, count)
  {
    DuringUpdateMeasurable(st, n + 1);
  }

  /** An unsupported rate leaves everything as it is. */
  lemma SkipRate(st: Sound, n: nat, g: nat, count: nat)
    requires n < CELLS && !Supports(st.supported, n) && g <= GROUPS
    ensures Swept(st, n + 1, g, count) == Swept(st, n, g, count) && ScratchAt(st, n + 1) == ScratchAt(st, n)
  {
    SkipOne(st, McsRates, n);
    SkipOne(st, CckRates, n);
    SkipOne(st, AllRates, n);
    assert FoldedUpTo(st.supported, st.cells, n + 1) == FoldedUpTo(st.supported, st.cells, n);
  }

  /** So does a stretch of unsupported rates. */
  lemma {:induction false} SkipRange(st: Sound, m: nat, n: nat, g: nat, count: nat)
    requires m <= n <= CELLS && g <= GROUPS
    requires forall k :: m <= k < n ==> !Supports(st.supported, k)
    ensures Swept(st, n, g, count) == Swept(st, m, g, count) && ScratchAt(st, n) == ScratchAt(st, m)
  {
    hide Swept, ScratchAt;
    if m < n {
      SkipRange(st, m, n - 1, g, count);
      SkipRate(st, n - 1, g, count);
    }
  }

  /** A finished group takes its list from the scratch list. */
  lemma FinishGroup(st: Sound, g: nat, count: nat)
    requires g < GROUPS
    ensures var n, s := (g + 1) * 10, Swept(st, (g + 1) * 10, g, count);
            Swept(st, n, g + 1, count) ==
              s.(groupTp := if st.supported[g] != {} then s.groupTp[g := ScratchAt(st, n).grp] else s.groupTp)
  {
    var before, after := GroupListsAt(st, g), GroupListsAt(st, g + 1);
    assert forall h :: 0 <= h < GROUPS && h != g ==> after[h] == before[h];
    assert after == if st.supported[g] != {} then before[g := Best(st, AllRates, (g + 1) * 10)] else before;
  }

  /** Counting a group touches nothing else. */
  lemma SweptCount(st: Sound, n: nat, g: nat, count: nat, more: nat)
    requires n <= CELLS && g <= GROUPS
    ensures Swept(st, n, g, count).(sampleCount := more) == Swept(st, n, g, more)
  {
  }

  /** Where the sweep starts. */
  lemma SweepStart(st: Sound)
    ensures NewAvg(st) >= SCALE
    ensures Swept(st, 0, 0, 0) ==
            st.(avgAmpdu := NewAvg(st), ampduLen := if st.ampduPackets > 0 then 0 else st.ampduLen,
                ampduPackets := 0, sampleCount := 0)
    ensures ScratchAt(st, 0) == Scratch([0, 0, 0, 0], [0, 0, 0, 0], [0, 0, 0, 0])
  {
    NewAvgAtLeastOne(st);
    assert FoldedUpTo(st.supported, st.cells, 0) == st.cells;
    assert GroupListsAt(st, 0) == st.groupTp;
  }

  /** Once every rate is swept, merging the lists completes the update. */
  lemma SweepDone(st: Sound, count: nat)
    requires count == SupportedGroups(st.supported, GROUPS)
    ensures MeterOf(Swept(st, CELLS, GROUPS, count)) == NewMeter(st)
    ensures Measurable(NewMeter(st), Swept(st, CELLS, GROUPS, count).cells)
    ensures var s, l := Swept(st, CELLS, GROUPS, count), ScratchAt(st, CELLS);
            s.(sampleCount := 10 * count, maxTp := Merge(Keys(NewMeter(st), s.cells), l.mcs, l.cck)) == UpdateStats(st)
  {
    DuringUpdateMeasurable(st, CELLS);
  }
}
