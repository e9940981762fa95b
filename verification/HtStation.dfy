/** The HT/VHT engine as the driver runs it: a station object whose methods update its
    statistics, lists and sampling state in place. Each method is proved to change the state
    exactly as the corresponding function on states says. */
module HtStation {
  import opened FixedPoint
  import opened RateGroups
  import opened RateStats
  import opened TopRates
  import opened HtState
  import opened HtUpdate
  import opened HtRates
  import opened HtSample
  import opened HtStatus
  import opened HtSweep
  import opened SampleTable
  import opened Signal
  import Driver
  import opened Airtime

  class Station {
    var air: seq<nat>
    var supported: Masks
    var cells: seq<Stats>
    var overhead: nat
    var overheadRts: nat
    var ampduLen: nat
    var ampduPackets: nat
    var avgAmpdu: nat
    var maxTp: seq<nat>
    var maxProb: nat
    var groupTp: seq<seq<nat>>
    var groupProb: seq<nat>
    var sampleWait: nat
    var sampleTries: nat
    var sampleCount: nat
    var sampleGroup: nat
    var sampleIdx: seq<nat>
    var sampleCol: seq<nat>
    var table: seq<Entry>

    ghost function State(): Ht
      reads this
    {
      Ht(air, supported, cells, overhead, overheadRts, ampduLen, ampduPackets, avgAmpdu,
         maxTp, maxProb, groupTp, groupProb, sampleWait, sampleTries, sampleCount,
         sampleGroup, sampleIdx, sampleCol, table)
    }

    /** `minstrel_ht_update_caps` for a peer with a usable HT or VHT group. */
    constructor (c: Caps, initial: seq<Entry>)
      requires ValidCaps(c) && HtUsable(c) && |initial| == 4
      ensures State() == UpdateCaps(c, initial)
    {
      hide Mask, ValidCaps, HtUsable, Duration;
      var masks: Masks := [];
      for i := 0 to GROUPS
        invariant |masks| == i && forall g :: 0 <= g < i ==> masks[g] == Mask(c, g)
      {
        masks := masks + [Mask(c, i)];
      }
      assert masks == MasksOf(c);
      var ack := OfdmDuration(10);
      air, supported, cells := AirTable(), masks, seq(CELLS, k => FRESH);
      overhead, overheadRts := OfdmDuration(0) + ack, OfdmDuration(0) + ack + 2 * ack;
      ampduLen, ampduPackets, avgAmpdu := 0, 0, SCALE;
      maxTp, maxProb := [0, 0, 0, 0], 0;
      groupTp, groupProb := seq(GROUPS, g => [0, 0, 0, 0]), seq(GROUPS, g => 0);
      sampleWait, sampleTries, sampleCount := 0, 4, 64;
      sampleGroup, sampleIdx, sampleCol := 0, seq(GROUPS, g => 0), seq(GROUPS, g => 0);
      table := initial;
      new;
      hide Inv, HtUpdate.UpdateStats, HtRates.UpdateRates;
      FreshInv(c, initial);
      assert State() == Fresh(c, initial);
      UpdateKeepsInv(Fresh(c, initial));
      UpdateStats();
      UpdateRates();
    }

    // ----- Building the lists

    /** `minstrel_ht_sort_best_tp_rates`: find the slot from the back, move the tail up. */
    method SortBestTpRates(index: nat, list: array<nat>)
      requires Measurable(MeterOf(State()), cells) && index < CELLS
      requires list.Length == MAX_THR_RATES && AllBelow(list[..], CELLS)
      modifies list
      ensures list[..] == InsertTop(Keys(MeterOf(State()), cells), old(list[..]), index)
    {
      var m := Meter(air, overhead, avgAmpdu);
      ghost var keys, s := Keys(m, cells), list[..];
      var cur := KeyOf(m, cells, index);
      var j := 4;
      while j > 0 && Below(KeyOf(m, cells, list[j - 1]), cur)
        invariant 0 <= j <= 4 && Slot(keys, s, index, 4) == Slot(keys, s, index, j)
      {
        j := j - 1;
      }
      ghost var p := j;
      var t := 3;
      while t > j
        invariant (j <= t <= 3 || t == 3) && list[..t + 1] == s[..t + 1]
        invariant forall i :: t < i < 4 ==> list[i] == s[i - 1]
      {
        list[t] := list[t - 1];
        t := t - 1;
      }
      if j < 4 {
        list[j] := index;
      }
      assert list[..] == (s[..p] + [index] + s[p..])[..4];
    }

    /** `minstrel_ht_set_best_prob_rate`. */
    method SetBestProbRate(index: nat)
      requires Measurable(MeterOf(State()), cells) && index < CELLS && |maxTp| == MAX_THR_RATES
      requires FallbacksInRange(Fallbacks(maxProb, groupProb))
      modifies this`maxProb, this`groupProb
      ensures Fallbacks(maxProb, groupProb) ==
              OfferFallback(MeterOf(old(State())), cells, maxTp[0], old(Fallbacks(maxProb, groupProb)), index)
    {
      var m := Meter(air, overhead, avgAmpdu);
      var g := index / 10;
      if g == CCK && maxTp[0] / 10 != CCK {
        return;
      }
      var best, gbest, here := KeyOf(m, cells, maxProb), KeyOf(m, cells, groupProb[g]), KeyOf(m, cells, index);
      if here.prob > Frac(75, 100) {
        if here.tp > best.tp {
          maxProb := index;
        }
        if here.tp > gbest.tp {
          groupProb := groupProb[g := index];
        }
      } else {
        if here.prob > best.prob {
          maxProb := index;
        }
        if here.prob > gbest.prob {
          groupProb := groupProb[g := index];
        }
      }
    }

    /** `minstrel_ht_assign_best_tp_rates`. */
    method AssignBestTpRates(mcs: array<nat>, cck: array<nat>)
      requires Measurable(MeterOf(State()), cells) && mcs != cck
      requires mcs.Length == cck.Length == MAX_THR_RATES && AllBelow(mcs[..], CELLS) && AllBelow(cck[..], CELLS)
      modifies mcs
      ensures mcs[..] == Merge(Keys(MeterOf(State()), cells), old(mcs[..]), cck[..])
    {
      var m := Meter(air, overhead, avgAmpdu);
      ghost var keys, s := Keys(m, cells), mcs[..];
      if KeyOf(m, cells, cck[0]).tp > KeyOf(m, cells, mcs[0]).tp {
        var i := 0;
        while i < 4
          invariant 0 <= i <= 4 && cck[..] == old(cck[..])
          invariant mcs[..] == TopInto(keys, s, cck[..i])
        {
          assert cck[..i + 1][..i] == cck[..i];
          SortBestTpRates(cck[i], mcs);
          i := i + 1;
        }
        assert cck[..4] == cck[..];
      }
    }

    // ----- `minstrel_ht_update_stats`

    /** One supported rate of the sweep. */
    method SweepRate(k: nat, mcs: array<nat>, cck: array<nat>, grp: array<nat>)
      requires k < CELLS && |cells| == CELLS && Measurable(MeterOf(State()), cells[k := FoldNow(cells[k])])
      requires |maxTp| == MAX_THR_RATES && FallbacksInRange(Fallbacks(maxProb, groupProb))
      requires mcs != cck && mcs != grp && cck != grp && mcs.Length == cck.Length == grp.Length == MAX_THR_RATES
      requires AllBelow(mcs[..], CELLS) && AllBelow(cck[..], CELLS) && AllBelow(grp[..], CELLS)
      modifies this`cells, this`maxProb, this`groupProb, mcs, cck, grp
      ensures cells == old(cells)[k := FoldNow(old(cells)[k])]
      ensures var keys := Keys(MeterOf(old(State())), cells);
              && mcs[..] == (if k / 10 != CCK then InsertTop(keys, old(mcs[..]), k) else old(mcs[..]))
              && cck[..] == (if k / 10 == CCK then InsertTop(keys, old(cck[..]), k) else old(cck[..]))
              && grp[..] == InsertTop(keys, old(grp[..]), k)
      ensures Fallbacks(maxProb, groupProb) ==
              OfferFallback(MeterOf(old(State())), cells, maxTp[0], old(Fallbacks(maxProb, groupProb)), k)
    {
      cells := cells[k := FoldNow(cells[k])];
      if k / 10 != CCK {
        SortBestTpRates(k, mcs);
      } else {
        SortBestTpRates(k, cck);
      }
      SortBestTpRates(k, grp);
      SetBestProbRate(k);
    }

    /** The sweep over one supported group. */
    method SweepGroup(g: nat, mcs: array<nat>, cck: array<nat>, grp: array<nat>, ghost st: Sound, ghost count: nat)
      requires g < GROUPS && State() == Swept(st, g * 10, g, count)
      requires mcs != cck && mcs != grp && cck != grp
      requires Scratch(mcs[..], cck[..], grp[..]) == ScratchAt(st, g * 10)
      modifies this`cells, this`maxProb, this`groupProb, mcs, cck, grp
      ensures State() == Swept(st, (g + 1) * 10, g, count)
      ensures Scratch(mcs[..], cck[..], grp[..]) == ScratchAt(st, (g + 1) * 10)
    {
      hide Swept, ScratchAt, Inv, Measurable, Keys, NewMeter, OfferFallback, InsertTop;
      var i := 0;
      while i < 10
        invariant 0 <= i <= 10
        invariant State() == Swept(st, g * 10 + i, g, count)
        invariant Scratch(mcs[..], cck[..], grp[..]) == ScratchAt(st, g * 10 + i)
      {
        ghost var n := g * 10 + i;
        if i in supported[g] {
          SweepFold(st, n, g, count);
          SweepLists(st, n);
          SweepFallbacks(st, n, g, count);
          SweepRate(g * 10 + i, mcs, cck, grp);
        } else {
          SkipRate(st, n, g, count);
        }
        i := i + 1;
      }
    }

    /** The sweep over all groups. */
    method Sweep(mcs: array<nat>, cck: array<nat>, grp: array<nat>, ghost st: Sound)
      requires State() == Swept(st, 0, 0, 0)
      requires mcs != cck && mcs != grp && cck != grp
      requires Scratch(mcs[..], cck[..], grp[..]) == ScratchAt(st, 0)
      modifies this, mcs, cck, grp
      ensures State() == Swept(st, CELLS, GROUPS, SupportedGroups(st.supported, GROUPS))
      ensures Scratch(mcs[..], cck[..], grp[..]) == ScratchAt(st, CELLS)
    {
      hide Swept, ScratchAt, Inv;
      var g := 0;
      while g < GROUPS
        invariant 0 <= g <= GROUPS
        invariant State() == Swept(st, g * 10, g, SupportedGroups(st.supported, g))
        invariant Scratch(mcs[..], cck[..], grp[..]) == ScratchAt(st, g * 10)
      {
        ghost var count := SupportedGroups(st.supported, g + 1);
        FinishGroup(st, g, count);
        if supported[g] == {} {
          SkipRange(st, g * 10, (g + 1) * 10, g, count);
        } else {
          sampleCount := sampleCount + 1;
          SweptCount(st, g * 10, g, SupportedGroups(st.supported, g), count);
          SweepGroup(g, mcs, cck, grp, st, count);
          groupTp := groupTp[g := grp[..]];
        }
        g := g + 1;
      }
    }

    /** Sweep all groups into empty lists and merge these. */
    method RebuildLists(ghost st: Sound)
      requires State() == Swept(st, 0, 0, 0)
      modifies this
      ensures State() == HtUpdate.UpdateStats(st)
    {
      hide Swept, ScratchAt, HtUpdate.UpdateStats, Inv, Measurable, Keys, Merge, NewMeter;
      SweepStart(st);
      var mcs, cck, grp := new nat[4](i => 0), new nat[4](i => 0), new nat[4](i => 0);
      assert mcs[..] == [0, 0, 0, 0] && cck[..] == [0, 0, 0, 0] && grp[..] == [0, 0, 0, 0];
      Sweep(mcs, cck, grp, st);
      SweepDone(st, sampleCount);
      AssignBestTpRates(mcs, cck);
      maxTp := mcs[..];
      sampleCount := sampleCount * 10;
    }

    method UpdateStats()
      requires Inv(State())
      modifies this
      ensures State() == HtUpdate.UpdateStats(old(State()))
    {
      hide Swept, ScratchAt, HtUpdate.UpdateStats;
      ghost var st: Sound := State();
      SweepStart(st);
      if ampduPackets > 0 {
        avgAmpdu := EwmaWord(avgAmpdu, Frac(ampduLen, ampduPackets));
        ampduLen, ampduPackets := 0, 0;
      }
      sampleCount := 0;
      RebuildLists(st);
    }

    // ----- From statistics to the table

    /** The downward search of `minstrel_ht_modify_tp_rates` for a replacement fallback. */
    method BestFallback(g: nat, top: nat) returns (best: nat)
      requires Measurable(MeterOf(State()), cells) && g < GROUPS && top < 10
      ensures best == BestUpTo(MeterOf(State()), cells, g, top)
    {
      var m := Meter(air, overhead, avgAmpdu);
      best := top;
      var cur := KeyOf(m, cells, Cell(g, top));
      var i := top;
      while i > 0
        invariant i <= best <= top && cur == KeyOf(m, cells, Cell(g, best))
        invariant forall j: nat :: i <= j <= top ==> !Below(cur, KeyOf(m, cells, Cell(g, j)))
        invariant forall j: nat :: i <= j < best ==> Below(KeyOf(m, cells, Cell(g, j)), cur)
      {
        i := i - 1;
        var tmp := KeyOf(m, cells, Cell(g, i));
        if cur.tp < tmp.tp || (cur.tp == tmp.tp && cur.prob <= tmp.prob) {
          cur, best := tmp, i;
        }
      }
      BestUpToUnique(m, cells, g, top, best);
    }

    method ModifyTpRates()
      requires Inv(State())
      modifies this`maxTp, this`maxProb
      ensures State() == HtRates.ModifyTpRates(old(State()))
    {
      hide Measurable, KeyOf, BestUpTo;
      InvMeasurable(State());
      var g, i := maxTp[0] / 10, maxTp[0] % 10;
      while cells[Cell(g, i)].prob < HALF && i > 0
        invariant 0 <= i < 10 && Reliable(cells, g, i) == Reliable(cells, g, old(maxTp)[0] % 10)
        decreases i
      {
        i := i - 1;
      }
      maxTp := maxTp[0 := Cell(g, i)];
      if maxProb % 10 >= i {
        var r := BestFallback(maxProb / 10, if i > 0 then i - 1 else i);
        maxProb := Cell(maxProb / 10, r);
      }
    }

    /** `minstrel_calc_retransmit`. */
    method CalcRetransmit(k: nat)
      requires Inv(State()) && k < CELLS
      modifies this`cells
      ensures cells == old(cells)[k := Retransmit(old(State()), k)]
    {
      var s := cells[k];
      if s.prob < Frac(1, 10) {
        cells := cells[k := s.(retryCount := 1, retryRts := 1)];
      } else {
        var data := air[k] * Trunc(avgAmpdu) % 0x1_0000_0000 / 1000;
        var a, b := 0, 0;
        if k / 10 != CCK {
          a, b := overhead, overheadRts;
        }
        var retries, guarded := CountRetries(DRIVER_LIMITS, a, b, data);
        cells := cells[k := s.(retryCount := retries, retryRts := guarded, retryUpdated := true)];
      }
    }

    /** `minstrel_ht_set_rate`. */
    method SetRate(offset: nat, k: nat)
      requires Inv(State()) && offset < 3 && k < CELLS
      modifies this`cells, this`table
      ensures State() == HtRates.SetRate(old(State()), offset, k)
    {
      if !cells[k].retryUpdated {
        CalcRetransmit(k);
      } else {
        assert cells[k := cells[k]] == cells;
      }
      var s := cells[k];
      var count := 2;
      if !(s.prob < Frac(20, 100) || s.retryCount == 0) {
        count := if offset > 0 then s.retryRts else s.retryCount;
      }
      table := table[offset := Entry(RateIdx(k), GroupFlags(k / 10).(rts := offset > 0), count)];
    }

    method UpdateRates()
      requires Inv(State())
      modifies this`maxTp, this`maxProb, this`cells, this`table
      ensures State() == HtRates.UpdateRates(old(State()))
    {
      hide Inv, HtRates.ModifyTpRates, HtRates.SetRate;
      ghost var st := State();
      ModifyKeepsInv(st);
      ModifyTpRates();
      ghost var s0 := State();
      ModifyShape(st);
      SetRateKeepsInv(s0, 0, maxTp[0]);
      SetRate(0, maxTp[0]);
      ghost var s1 := State();
      SetRateFrame(s0, 0, s0.maxTp[0]);
      SetRateKeepsInv(s1, 1, maxTp[1]);
      SetRate(1, maxTp[1]);
      ghost var s2 := State();
      SetRateFrame(s1, 1, s0.maxTp[1]);
      SetRateFrame(s2, 2, s0.maxProb);
      SetRate(2, maxProb);
      table := table[3 := table[3].(idx := -1)];
    }

    // ----- Sampling

    /** The loop of `minstrel_set_next_sample_idx`: it ends because some group is supported. */
    method AdvanceGroup()
      requires ValidMasks(supported) && sampleGroup < GROUPS
      modifies this`sampleGroup
      ensures sampleGroup == NextGroup(supported, old(sampleGroup))
    {
      hide Ring, Ahead;
      ghost var g0 := sampleGroup;
      sampleGroup := (sampleGroup + 1) % 11;
      ghost var e := 1;
      RingStep(g0, 1);
      while supported[sampleGroup] == {}
        invariant 1 <= e <= 11 && sampleGroup == Ring(g0, e)
        invariant forall d :: 1 <= d < e ==> supported[Ring(g0, d)] == {}
        decreases 11 - e
      {
        SomeGroupAhead(supported, g0, e);
        RingStep(g0, e);
        sampleGroup := (sampleGroup + 1) % 11;
        e := e + 1;
      }
      AheadUnique(supported, g0, e);
    }

    /** `minstrel_set_next_sample_idx`. */
    method SetNextSampleIdx()
      requires Shape(State())
      modifies this`sampleGroup, this`sampleIdx, this`sampleCol
      ensures State() == NextSample(old(State()))
    {
      hide NextGroup, ValidMasks;
      AdvanceGroup();
      var g := sampleGroup;
      var row, col := sampleIdx[g] + 1, sampleCol[g];
      if row >= 10 {
        row, col := 0, col + 1;
        if col >= 10 {
          col := 0;
        }
      }
      assert Pos(row, col) == Advance(PosOf(old(State()), g));
      sampleIdx, sampleCol := sampleIdx[g := row], sampleCol[g := col];
    }

    /** `minstrel_check_sample_idx`, entered with a draw above the weak best rate `top`: draw
        on until a draw stops the walk. The potential of the sample table bounds the loop. */
    method CheckSampleIdx(columns: seq<seq<nat>>, top: nat) returns (group: nat, idx: nat)
      requires Shape(State()) && IsSampleTable(columns)
      modifies this`sampleGroup, this`sampleIdx, this`sampleCol
      ensures Draw(State(), group, idx) == Walk(old(State()), columns, top)
    {
      hide Shape, IsSampleTable, NextSample;
      group := sampleGroup;
      idx := Peek(columns);
      NextSampleKeepsShape(State());
      ghost var st := State();
      SetNextSampleIdx();
      while !(idx !in supported[group] || idx <= top)
        invariant Shape(st) && Shape(State()) && State() == NextSample(st) && |supported| == GROUPS
        invariant group == st.sampleGroup < GROUPS && idx == Current(st, columns) && supported == st.supported
        invariant Walk(st, columns, top) == Walk(old(State()), columns, top)
        decreases Potential(st, columns, GROUPS)
      {
        WalkProgress(st, columns, top);
        st := State();
        group := sampleGroup;
        idx := Peek(columns);
        NextSampleKeepsShape(st);
        SetNextSampleIdx();
      }
    }

    /** What the current sample position names. */
    method Peek(columns: seq<seq<nat>>) returns (idx: nat)
      requires Shape(State()) && IsSampleTable(columns)
      ensures idx == Current(State(), columns)
      ensures idx < GROUP_RATES && sampleGroup < GROUPS && |supported| == GROUPS
    {
      idx := columns[sampleCol[sampleGroup]][sampleIdx[sampleGroup]];
    }

    /** The second half of `minstrel_get_sample_rate`: sampling began in state `st` with group
        `group`, and the draw that decides named rate `drawn` of `drawnGroup`. */
    method ChooseProbe(group: nat, drawnGroup: nat, drawn: nat, ghost st: Ht) returns (probe: Probe)
      requires Shape(st) && group == st.sampleGroup && drawnGroup < GROUPS && drawn < GROUP_RATES && st.sampleTries > 0
      requires State() == st.(sampleGroup := sampleGroup, sampleIdx := sampleIdx, sampleCol := sampleCol)
      modifies this`sampleTries
      ensures Sampled(State(), probe) == Chosen(st, Draw(old(State()), drawnGroup, drawn))
    {
      var tp1, tp2 := maxTp[0], maxTp[1];
      if air[maxTp[0]] > air[maxTp[1]] {
        tp1, tp2 := maxTp[1], maxTp[0];
      }
      var mcs := drawn;
      if mcs > tp1 % 10 + 1 {
        mcs := tp1 % 10 + tp1 % 2 + 1;
      }
      var cell := Cell(drawnGroup, mcs);
      if cell == maxTp[0] || cell == maxProb {
        return NoProbe;
      }
      var second :=
        && air[cell] >= air[tp2]
        && ((tp1 / 10 != CCK && drawnGroup != CCK) || air[cell] >= air[maxProb])
        && tp1 % 10 > mcs + 1
        && cells[Cell(group, drawn)].prob > Frac(70, 100);
      sampleTries := sampleTries - 1;
      return Probe(cell, if second then 1 else 0);
    }

    /** `minstrel_get_sample_rate`. */
    method GetSampleRate(columns: seq<seq<nat>>) returns (probe: Probe)
      requires Shape(State()) && IsSampleTable(columns)
      modifies this`sampleWait, this`sampleTries, this`sampleGroup, this`sampleIdx, this`sampleCol
      ensures Sampled(State(), probe) == SampleRate(old(State()), columns)
    {
      hide NextSample, IsSampleTable, Chosen;
      ghost var st := State();
      if sampleWait > 0 {
        sampleWait := sampleWait - 1;
        return NoProbe;
      }
      if sampleTries == 0 {
        return NoProbe;
      }
      var group := sampleGroup;
      var idx := Peek(columns);
      NextSampleFrame(st);
      SetNextSampleIdx();
      if idx !in supported[group] {
        return NoProbe;
      }
      var tp1 := if air[maxTp[0]] > air[maxTp[1]] then maxTp[1] else maxTp[0];
      var drawnGroup, drawn := group, idx;
      if idx > tp1 % 10 && cells[tp1].prob < HALF {
        drawnGroup, drawn := CheckSampleIdx(columns, tp1 % 10);
      }
      assert Draw(State(), drawnGroup, drawn) == Decide(st, columns);
      probe := ChooseProbe(group, drawnGroup, drawn, st);
    }

    // ----- Completions

    /** `minstrel_downgrade_rate` on entry `j` of the list. */
    method DowngradeRate(j: nat)
      requires Inv(State()) && j < 2
      modifies this`maxTp
      ensures maxTp == old(maxTp)[j := Downgraded(old(State()), old(maxTp)[j], j)]
    {
      var orig := maxTp[j] / 10;
      var group := orig;
      while group > 0
        invariant 0 <= group <= orig && maxTp == old(maxTp)
        invariant forall h :: group <= h < orig ==> supported[h] == {} || Streams(h) > Streams(orig)
      {
        group := group - 1;
        if supported[group] != {} && Streams(group) <= Streams(orig) {
          maxTp := maxTp[j := groupTp[group][j]];
          return;
        }
      }
      assert maxTp[j := maxTp[j]] == maxTp;
    }

    /** The crediting loop of `minstrel_ht_tx_status`. */
    method CreditReport(ar: seq<Entry>, len: nat, acked: nat)
      requires Creditable(supported, ar) && |cells| == CELLS
      modifies this`cells
      ensures cells == CreditFrom(supported, old(cells), ar, len, acked, 0)
    {
      var i := 0;
      while i < 3
        invariant 0 <= i <= 3 && |cells| == CELLS
        invariant CreditFrom(supported, cells, ar, len, acked, i)
               == CreditFrom(supported, old(cells), ar, len, acked, 0)
      {
        var last := !TxValid(ar[i + 1]);
        var k := CellOf(supported, ar[i].idx, ar[i].flags);
        assert k == EntryCell(supported, ar, i);
        cells := cells[k := Credit(cells[k], ar[i].count * len, if last then acked else 0)];
        if last {
          return;
        }
        i := i + 1;
      }
    }

    /** A list entry whose rate is failing is downgraded. */
    method DowngradeIfFailing(j: nat) returns (failing: bool)
      requires Inv(State()) && j < 2
      modifies this`maxTp
      ensures State() == DowngradeBest(old(State()), j)
      ensures failing == Failing(old(State()).cells[old(maxTp)[j]])
    {
      failing := Failing(cells[maxTp[j]]);
      if failing {
        DowngradeRate(j);
      }
    }

    /** When the probe budget has run dry: a wait of ten requests, then two more probes. */
    method RefillBudget()
      modifies this`sampleWait, this`sampleTries, this`sampleCount
      ensures var refill := old(sampleWait == 0 && sampleTries == 0 && sampleCount > 0);
              && sampleWait == (if refill then 10 else old(sampleWait))
              && sampleTries == (if refill then 2 else old(sampleTries))
              && sampleCount == (if refill then old(sampleCount) - 1 else old(sampleCount))
    {
      if sampleWait == 0 && sampleTries == 0 && sampleCount > 0 {
        sampleWait, sampleTries, sampleCount := 10, 2, sampleCount - 1;
      }
    }

    /** The first half of `minstrel_ht_tx_status`: count the frames, refill the probe budget
        and credit the entries. */
    method CountReport(ar: seq<Entry>, len: nat, acked: nat)
      requires Shape(State()) && Creditable(supported, ar)
      modifies this`ampduPackets, this`ampduLen, this`sampleWait, this`sampleTries, this`sampleCount, this`cells
      ensures State() == Counted(old(State()), ar, len, acked)
    {
      hide Creditable, CreditFrom, CellOf, ValidMasks;
      ampduPackets, ampduLen := ampduPackets + 1, ampduLen + len;
      RefillBudget();
      CreditReport(ar, len, acked);
    }

    /** `minstrel_ht_tx_status`; `elapsed` tells that the update interval has passed. */
    method TxStatus(ar: seq<Entry>, len: nat, acked: nat, elapsed: bool)
      requires Inv(State()) && ReportOk(State(), ar, len, acked)
      modifies this
      ensures State() == HtStatus.TxStatus(old(State()), ar, len, acked, elapsed)
    {
      hide Counted, HtStatus.TxStatus;
      ghost var st: Sound := State();
      CountReport(ar, len, acked);
      FinishStatus(st, ar, len, acked, elapsed);
    }

    /** The second half: downgrade failing rates, then update what has to be. */
    method FinishStatus(ghost st: Sound, ghost ar: seq<Entry>, ghost len: nat, ghost acked: nat, elapsed: bool)
      requires ReportOk(st, ar, len, acked) && State() == Counted(st, ar, len, acked)
      modifies this
      ensures State() == HtStatus.TxStatus(st, ar, len, acked, elapsed)
    {
      hide Inv, ReportOk, Counted, HtUpdate.UpdateStats, HtRates.UpdateRates, Failing;
      ghost var s1 := State();
      CountedKeepsInv(st, ar, len, acked);
      var first := DowngradeIfFailing(0);
      DowngradeKeepsInv(s1, 0);
      ghost var s2 := State();
      var second := DowngradeIfFailing(1);
      DowngradeKeepsInv(s2, 1);
      assert State() == Digested(st, ar, len, acked);
      assert (first || second) == NeedsUpdate(st, ar, len, acked);
      UpdateKeepsInv(State());
      if elapsed {
        UpdateStats();
      }
      if first || second || elapsed {
        UpdateRates();
      }
    }

    // ----- Clearing and seeding

    /** `minstrel_clear_unfitable_rate_stats`. */
    method ClearUnfitableRateStats(maxRate: nat)
      requires Shape(State())
      modifies this`cells
      ensures State() == ClearUnfitable(old(State()), maxRate)
    {
      hide ClearedCell;
      ClearGroups(maxRate);
      assert cells == ClearUnfitable(old(State()), maxRate).cells;
    }

    /** Its loop over groups and rates. */
    method ClearGroups(maxRate: nat)
      requires |cells| == CELLS && |supported| == GROUPS
      modifies this`cells
      ensures |cells| == CELLS
      ensures forall k :: 0 <= k < CELLS ==> cells[k] == ClearedCell(supported, old(cells), maxRate, k)
    {
      hide Clear, ClearedCell;
      var g := 0;
      while g < GROUPS
        invariant 0 <= g <= GROUPS && |cells| == CELLS
        invariant forall k :: 0 <= k < g * 10 ==> cells[k] == ClearedCell(supported, old(cells), maxRate, k)
        invariant forall k :: g * 10 <= k < CELLS ==> cells[k] == old(cells)[k]
      {
        var i := if maxRate + 2 < 10 then maxRate + 2 else 10;
        forall k: nat | g * 10 <= k < g * 10 + i
          ensures ClearedCell(supported, old(cells), maxRate, k) == old(cells)[k]
        {
          ClearedCellAt(supported, old(cells), maxRate, g, k - g * 10);
        }
        while i < 10
          invariant 0 <= i <= 10 && |cells| == CELLS && (i < 10 ==> maxRate + 2 <= i)
          invariant forall k :: 0 <= k < g * 10 + i ==> cells[k] == ClearedCell(supported, old(cells), maxRate, k)
          invariant forall k :: g * 10 + i <= k < CELLS ==> cells[k] == old(cells)[k]
        {
          ClearedCellAt(supported, old(cells), maxRate, g, i);
          if i in supported[g] {
            cells := cells[g * 10 + i := Clear(cells[g * 10 + i])];
          }
          i := i + 1;
        }
        g := g + 1;
      }
    }

    /** The highest rate that a group of bandwidth `bw` supports, or -1. */
    method FindTopRate(bw: nat) returns (top: int)
      requires |supported| == GROUPS
      ensures top == TopRate(supported, bw, 9)
    {
      top := -1;
      var g := 0;
      while g < GROUPS
        invariant 0 <= g <= GROUPS && -1 <= top <= 9
        invariant top >= 0 ==> exists h :: 0 <= h < g && HasRate(supported, bw, h, top)
        invariant forall j, h :: top < j <= 9 && 0 <= h < g ==> !HasRate(supported, bw, h, j)
      {
        if GroupBw(g) == bw {
          var i := 9;
          while i > top && i !in supported[g]
            invariant top <= i <= 9
            invariant forall j :: i < j <= 9 ==> !HasRate(supported, bw, g, j)
          {
            i := i - 1;
          }
          if i > top {
            assert HasRate(supported, bw, g, i);
          }
          top := i;
        }
        g := g + 1;
      }
    }

    /** The first half of `minstrel_init_start_stats`: clamp the rate and write the seeds. */
    method SeedStart(maxRate: nat, bw: nat)
      requires Shape(State())
      modifies this`cells
      ensures State() == Seeded(old(State()), maxRate, bw)
    {
      hide SeededCell;
      var top := FindTopRate(bw);
      var rate := if 0 <= top < maxRate then top else maxRate;
      assert rate == SeedRate(supported, maxRate, bw);
      SeedGroups(rate, bw);
      assert cells == Seeded(old(State()), maxRate, bw).cells;
    }

    /** `minstrel_init_start_stats`. */
    method InitStartStats(maxRate: nat, bw: nat)
      requires Inv(State())
      modifies this
      ensures State() == InitStart(old(State()), maxRate, bw)
    {
      hide HtUpdate.UpdateStats, Seeded;
      ghost var st: Sound := State();
      SeededKeepsInv(st, maxRate, bw);
      SeedStart(maxRate, bw);
      UpdateStats();
    }

    method SeedGroups(rate: nat, bw: nat)
      requires |cells| == CELLS && |supported| == GROUPS && ValidMasks(supported)
      modifies this`cells
      ensures |cells| == CELLS
      ensures forall k :: 0 <= k < CELLS ==> cells[k] == SeededCell(supported, old(cells), bw, rate, k)
    {
      hide GroupBw;
      var g := 0;
      while g < GROUPS
        invariant 0 <= g <= GROUPS && |cells| == CELLS
        invariant forall k :: 0 <= k < g * 10 ==> cells[k] == SeededCell(supported, old(cells), bw, rate, k)
        invariant forall k :: g * 10 <= k < CELLS ==> cells[k] == old(cells)[k]
      {
        if GroupBw(g) == bw && rate in supported[g] {
          cells := cells[Cell(g, rate) := Seed(cells[Cell(g, rate)], 20, 18)];
          cells := cells[Cell(g, 2) := Seed(cells[Cell(g, 2)], 1, 1)];
        }
        g := g + 1;
      }
    }

    // ----- The driver's calls

    /** `rate_control_fill_sta_table` on the first three of the four rates. */
    method FillStaTable(rates: array<Entry>)
      requires rates.Length == 4 && |table| == 4
      modifies rates
      ensures rates[..] == Driver.FillFrom(old(rates[..]), table, 0)
    {
      ghost var before := rates[..];
      var i := 0;
      var more := true;
      while i < 3 && more
        invariant 0 <= i <= 3
        invariant more ==> Driver.FillFrom(rates[..], table, i) == Driver.FillFrom(before, table, 0)
        invariant !more ==> rates[..][3 := NO_ENTRY] == Driver.FillFrom(before, table, 0)
        decreases 3 - i, more
      {
        ghost var now := rates[..];
        if rates[i].idx >= 0 && rates[i].count > 0 {
          assert now[i := now[i]] == now;
        } else {
          rates[i] := Entry(table[i].idx, table[i].flags, 2);
        }
        assert rates[..] == now[i := rates[i]];
        if rates[i].idx < 0 || rates[i].count == 0 {
          more := false;
        } else {
          i := i + 1;
        }
      }
      ghost var filled := rates[..];
      rates[3] := NO_ENTRY;
      assert rates[..] == filled[3 := NO_ENTRY];
    }

    /** `check_is_rate_fitable`. */
    method CheckIsRateFitable(l: Link, control: seq<Entry>) returns (fit: bool)
      requires Shape(State()) && |control| == 4
      modifies this`cells
      ensures fit == Driver.Fitable(l, control)
      ensures State() == Driver.Checked(old(State()), l, control)
    {
      hide ClearUnfitable;
      var last, i := -1, 0;
      while i < 4
        invariant 0 <= i <= 4 && last == Driver.LastSet(control, i)
      {
        if control[i].idx >= 0 && control[i].count > 0 {
          last := i;
        }
        i := i + 1;
      }
      if last == -1 {
        return false;
      }
      var bw := FlagsBw(control[last].flags);
      if bw < FitableBw(l) {
        return false;
      }
      var permitted := FitableMcs(l, bw);
      if permitted < control[last].idx {
        ClearUnfitableRateStats(permitted);
        return false;
      }
      return true;
    }

    /** The body of `minstrel_find_rate` after sampling, without a fixed rate. */
    method HandOut(l: Link, probe: Probe) returns (chain: seq<Entry>, probed: bool)
      requires Shape(State()) && (probe.Probe? ==> probe.cell < CELLS && probe.slot < 2)
      modifies this`cells
      ensures Driver.Found(State(), chain, probed) == Driver.HandOut(Sampled(old(State()), probe), l)
    {
      hide Driver.Checked, Driver.Fitable, Driver.FillFrom;
      var control := Driver.BLANK;
      if probe.Probe? {
        control := control[probe.slot := Entry(RateIdx(probe.cell), GroupFlags(probe.cell / 10), 1)];
      }
      probed := probe.Probe?;
      ghost var placed := control;
      if !l.ap {
        var fit := CheckIsRateFitable(l, control);
        if !fit {
          control, probed := Driver.BLANK, false;
        }
      }
      var rates := new Entry[4](i requires 0 <= i < 4 => control[i]);
      assert rates[..] == control;
      FillStaTable(rates);
      chain := Floored(l, probed, rates[..]);
      chain := [chain[0].(count := 2), chain[1].(count := 2), chain[2].(count := l.tailTries), chain[3]];
    }

    /** The access point's floor on the first rate. */
    method Floored(l: Link, probed: bool, rates: seq<Entry>) returns (chain: seq<Entry>)
      requires |rates| == 4
      ensures chain == Driver.Floored(l, probed, rates)
    {
      chain := rates;
      if !probed && l.ap && rates[0].idx >= 0 && Driver.HasMcsCode(l, rates[0].idx) {
        var floor := FitableMcs(l, FlagsBw(rates[0].flags));
        if floor > rates[0].idx {
          chain := rates[0 := rates[0].(idx := floor)];
        }
      }
    }

    /** `minstrel_find_rate`. */
    method FindRate(columns: seq<seq<nat>>, l: Link) returns (chain: seq<Entry>, probed: bool)
      requires Inv(State()) && IsSampleTable(columns)
      modifies this`cells, this`sampleWait, this`sampleTries, this`sampleGroup, this`sampleIdx, this`sampleCol
      ensures Driver.Found(State(), chain, probed) == Driver.FindRate(old(State()), columns, l)
    {
      hide SampleRate, Driver.HandOut, IsSampleTable;
      ghost var st: Sound := State();
      SampleRateFrame(st, columns);
      ProbeBound(st, columns);
      var probe := GetSampleRate(columns);
      chain, probed := HandOut(l, probe);
    }

    /** `minstrel_tx_complete`. */
    method TxComplete(rc: seq<Entry>, tries: seq<nat>, ack: bool, ampdu: nat, elapsed: bool)
      requires Inv(State()) && Driver.ChainOk(rc) && Driver.TriesOk(rc, tries, ack)
      requires Driver.Frames(ampdu) <= AGGREGATE_LIMIT && ampduLen + Driver.Frames(ampdu) < INTERVAL_LIMIT
      modifies this
      ensures State() == Driver.TxComplete(old(State()), rc, tries, ack, ampdu, elapsed)
    {
      hide HtStatus.TxStatus, ReportOk;
      ghost var st: Sound := State();
      var ar: seq<Entry> := [];
      for i := 0 to 4
        invariant |ar| == i && forall j :: 0 <= j < i ==> ar[j] == Driver.Reported(rc, tries)[j]
        invariant State() == st
      {
        ar := ar + [if tries[i] != 0 then Entry(rc[i].idx, rc[i].flags, tries[i]) else NO_ENTRY];
      }
      assert ar == Driver.Reported(rc, tries);
      Driver.CompletionIsReport(st, rc, tries, ack, ampdu);
      var len := if ampdu > 1 then ampdu else 1;
      TxStatus(ar, len, if ack then len else 0, elapsed);
    }
  }
}
