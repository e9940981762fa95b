/** Probing (driver/vmac/rc80211_minstrel_ht.c): the walk through the random columns of the
    sample table, its termination, and the choice of a probe rate. */
module HtSample {
  import opened FixedPoint
  import opened RateGroups
  import opened HtState
  import opened HtRates
  import opened SampleTable

  // ----- `minstrel_set_next_sample_idx`

  /** The group `e` places after `g`, cyclically. */
  function Ring(g: nat, e: nat): (h: nat)
    ensures h < 11
  {
    (g + e) % 11
  }

  lemma RingStep(g: nat, e: nat)
    ensures Ring(g, 1) == (g + 1) % 11
    ensures Ring(g, e + 1) == (Ring(g, e) + 1) % 11
  {
  }

  /** How many groups ahead of `g`, cyclically and from `d` on, the next supported one is. */
  function Ahead(sup: Masks, g: nat, d: nat): (r: nat)
    requires ValidMasks(sup) && g < GROUPS && 1 <= d <= GROUPS
    requires forall e :: 1 <= e < d ==> sup[Ring(g, e)] == {}
    ensures d <= r <= GROUPS && sup[Ring(g, r)] != {}
    ensures forall e :: 1 <= e < r ==> sup[Ring(g, e)] == {}
    decreases GROUPS - d
  {
    if sup[Ring(g, d)] != {} then d
    else
      SomeGroupAhead(sup, g, d);
      Ahead(sup, g, d + 1)
  }

  /** If no group up to `d` ahead is supported, `d` has not yet come full circle. */
  lemma SomeGroupAhead(sup: Masks, g: nat, d: nat)
    requires ValidMasks(sup) && g < GROUPS && 1 <= d <= GROUPS
    requires forall e :: 1 <= e <= d ==> sup[Ring(g, e)] == {}
    ensures d < GROUPS
  {
    var h :| 0 <= h < GROUPS && sup[h] != {};
    var e := if h > g then h - g else h + GROUPS - g;
    assert Ring(g, e) == h;
  }

  lemma AheadUnique(sup: Masks, g: nat, e: nat)
    requires ValidMasks(sup) && g < GROUPS && 1 <= e <= GROUPS && sup[Ring(g, e)] != {}
    requires forall d :: 1 <= d < e ==> sup[Ring(g, d)] == {}
    ensures e == Ahead(sup, g, 1)
  {
    var r := Ahead(sup, g, 1);
    assert sup[Ring(g, r)] != {};
  }

  /** The next supported group after `g`, cyclically; `g` itself if it is the only one. */
  function NextGroup(sup: Masks, g: nat): (r: nat)
    requires ValidMasks(sup) && g < GROUPS
    ensures r < GROUPS && sup[r] != {}
  {
    Ring(g, Ahead(sup, g, 1))
  }

  /** A read position: row and column of the sample table. */
  datatype Pos = Pos(row: nat, col: nat)

  function Advance(p: Pos): Pos
    requires p.row < GROUP_RATES && p.col < COLUMNS
  {
    if p.row + 1 < GROUP_RATES then Pos(p.row + 1, p.col) else Pos(0, (p.col + 1) % 10)
  }

  function PosOf(st: Ht, g: nat): Pos
    requires |st.sampleIdx| == |st.sampleCol| == GROUPS && g < GROUPS
  {
    Pos(st.sampleIdx[g], st.sampleCol[g])
  }

  function NextSample(st: Ht): Ht
    requires Shape(st)
  {
    var g := NextGroup(st.supported, st.sampleGroup);
    var p := Advance(PosOf(st, g));
    st.(sampleGroup := g, sampleIdx := st.sampleIdx[g := p.row], sampleCol := st.sampleCol[g := p.col])
  }

  lemma NextSampleKeepsShape(st: Ht)
    requires Shape(st)
    ensures Shape(NextSample(st)) && (Inv(st) ==> Inv(NextSample(st)))
  {
  }

  lemma NextSampleFrame(st: Ht)
    requires Shape(st)
    ensures var s' := NextSample(st);
            Shape(s') && s' == st.(sampleGroup := s'.sampleGroup, sampleIdx := s'.sampleIdx, sampleCol := s'.sampleCol)
  {
  }

  // ----- `minstrel_check_sample_idx`

  /** What the current position of the current group names. */
  function Current(st: Ht, columns: seq<seq<nat>>): (i: nat)
    requires Shape(st) && IsSampleTable(columns)
    ensures i < GROUP_RATES
  {
    var p := PosOf(st, st.sampleGroup);
    columns[p.col][p.row]
  }

  /** Reads left until a position names rate 0; every column has one. */
  ghost function ToZero(columns: seq<seq<nat>>, p: Pos): nat
    requires IsSampleTable(columns) && p.row < GROUP_RATES && p.col < COLUMNS
  {
    var z := Find(columns[p.col], 0);
    if z >= p.row then z - p.row else GROUP_RATES - p.row + Find(columns[(p.col + 1) % 10], 0)
  }

  lemma ToZeroStep(columns: seq<seq<nat>>, p: Pos)
    requires IsSampleTable(columns) && p.row < GROUP_RATES && p.col < COLUMNS
    ensures columns[p.col][p.row] != 0 ==> ToZero(columns, Advance(p)) == ToZero(columns, p) - 1
    ensures ToZero(columns, p) <= 18
  {
  }

  /** Where group `g` is read next: a group moves on when the walk reaches it again. */
  function NextRead(st: Ht, g: nat): Pos
    requires Shape(st) && g < GROUPS
  {
    if g == st.sampleGroup then PosOf(st, g) else Advance(PosOf(st, g))
  }

  /** The reads all supported groups below `n` have left until each names rate 0. */
  ghost function Potential(st: Ht, columns: seq<seq<nat>>, n: nat): nat
    requires Shape(st) && IsSampleTable(columns) && n <= GROUPS
  {
    if n == 0 then 0
    else Potential(st, columns, n - 1) + if st.supported[n - 1] == {} then 0 else ToZero(columns, NextRead(st, n - 1))
  }

  lemma NextReadAfter(st: Ht, g: nat)
    requires Shape(st) && g < GROUPS
    ensures Shape(NextSample(st))
    ensures NextRead(NextSample(st), g) ==
            if g == st.sampleGroup then Advance(PosOf(st, g)) else NextRead(st, g)
  {
  }

  /** Each read that does not name rate 0 uses up exactly one unit of the potential. */
  lemma {:induction false} PotentialDrops(st: Ht, columns: seq<seq<nat>>, n: nat)
    requires Shape(st) && IsSampleTable(columns) && n <= GROUPS
    requires st.supported[st.sampleGroup] != {} && Current(st, columns) != 0
    ensures Shape(NextSample(st))
    ensures Potential(st, columns, n) ==
            Potential(NextSample(st), columns, n) + if st.sampleGroup < n then 1 else 0
  {
    if n > 0 {
      PotentialDrops(st, columns, n - 1);
      NextReadAfter(st, n - 1);
      ToZeroStep(columns, PosOf(st, st.sampleGroup));
    }
  }

  lemma {:induction false} PotentialBound(st: Ht, columns: seq<seq<nat>>, n: nat)
    requires Shape(st) && IsSampleTable(columns) && n <= GROUPS
    ensures Potential(st, columns, n) <= 18 * n
  {
    if n > 0 {
      PotentialBound(st, columns, n - 1);
      ToZeroStep(columns, NextRead(st, n - 1));
    }
  }

  /** The outcome of a draw: the state after it, the group and the rate it named. */
  datatype Draw = Draw(st: Ht, group: nat, idx: nat)

  /** The draw stops the walk: it names an unsupported rate, or one not above `top`. */
  predicate Stops(sup: Masks, group: nat, idx: nat, top: nat)
    requires |sup| == GROUPS && group < GROUPS
  {
    idx !in sup[group] || idx <= top
  }

  lemma WalkProgress(st: Ht, columns: seq<seq<nat>>, top: nat)
    requires Shape(st) && IsSampleTable(columns)
    requires !Stops(st.supported, st.sampleGroup, Current(st, columns), top)
    ensures Shape(NextSample(st))
    ensures Potential(NextSample(st), columns, GROUPS) == Potential(st, columns, GROUPS) - 1
  {
    PotentialDrops(st, columns, GROUPS);
  }

  /** Draw until a draw stops the walk. */
  ghost function Walk(st: Ht, columns: seq<seq<nat>>, top: nat): (d: Draw)
    requires Shape(st) && IsSampleTable(columns)
    ensures Shape(d.st) && d.group < GROUPS && d.idx < GROUP_RATES
    ensures Stops(st.supported, d.group, d.idx, top)
    ensures d.st == st.(sampleGroup := d.st.sampleGroup, sampleIdx := d.st.sampleIdx, sampleCol := d.st.sampleCol)
    decreases Potential(st, columns, GROUPS)
  {
    NextSampleKeepsShape(st);
    if Stops(st.supported, st.sampleGroup, Current(st, columns), top) then
      Draw(NextSample(st), st.sampleGroup, Current(st, columns))
    else
      WalkProgress(st, columns, top);
      Walk(NextSample(st), columns, top)
  }

  /** The number of draws of the walk. */
  ghost function Draws(st: Ht, columns: seq<seq<nat>>, top: nat): nat
    requires Shape(st) && IsSampleTable(columns)
    decreases Potential(st, columns, GROUPS)
  {
    if Stops(st.supported, st.sampleGroup, Current(st, columns), top) then 1
    else
      WalkProgress(st, columns, top);
      1 + Draws(NextSample(st), columns, top)
  }

  /** The unbounded loop ends after at most 199 draws. */
  lemma {:induction false} WalkIsShort(st: Ht, columns: seq<seq<nat>>, top: nat)
    requires Shape(st) && IsSampleTable(columns)
    ensures Draws(st, columns, top) <= Potential(st, columns, GROUPS) + 1 <= 199
    decreases Potential(st, columns, GROUPS)
  {
    PotentialBound(st, columns, GROUPS);
    if !Stops(st.supported, st.sampleGroup, Current(st, columns), top) {
      WalkProgress(st, columns, top);
      WalkIsShort(NextSample(st), columns, top);
    }
  }

  /** The sampling state `n` draws on. */
  ghost function Later(st: Ht, n: nat): (r: Ht)
    requires Shape(st)
    ensures Shape(r) && r.supported == st.supported
  {
    if n == 0 then st
    else
      NextSampleFrame(Later(st, n - 1));
      NextSample(Later(st, n - 1))
  }

  lemma {:induction false} LaterStep(st: Ht, n: nat)
    requires Shape(st)
    ensures Shape(NextSample(st)) && Later(st, n + 1) == Later(NextSample(st), n)
  {
    hide NextSample;
    NextSampleFrame(st);
    if n == 0 {
      assert Later(st, 1) == NextSample(Later(st, 0));
    } else {
      LaterStep(st, n - 1);
    }
  }

  /** Draw `n` of the walk names a supported rate above `top`. */
  ghost predicate Passed(st: Ht, columns: seq<seq<nat>>, top: nat, n: nat)
    requires Shape(st) && IsSampleTable(columns)
  {
    var u := Later(st, n);
    Current(u, columns) > top && Current(u, columns) in st.supported[u.sampleGroup]
  }

  /** The walk ends at the first draw that names an unsupported rate or one not above `top`. */
  lemma {:induction false} WalkIsFirst(st: Ht, columns: seq<seq<nat>>, top: nat) returns (n: nat)
    requires Shape(st) && IsSampleTable(columns)
    ensures !Passed(st, columns, top, n) && forall j :: 0 <= j < n ==> Passed(st, columns, top, j)
    ensures var u := Later(st, n);
            Walk(st, columns, top) == Draw(NextSample(u), u.sampleGroup, Current(u, columns))
    decreases Potential(st, columns, GROUPS)
  {
    hide NextSample, Current, AllBelow, IsPermutation, Potential;
    n := 0;
    if !Stops(st.supported, st.sampleGroup, Current(st, columns), top) {
      WalkProgress(st, columns, top);
      NextSampleFrame(st);
      var m := WalkIsFirst(NextSample(st), columns, top);
      n := m + 1;
      LaterStep(st, m);
      forall j | 0 <= j < n
        ensures Passed(st, columns, top, j)
      {
        if j > 0 {
          LaterStep(st, j - 1);
          assert Passed(NextSample(st), columns, top, j - 1);
        }
      }
    }
  }

  // ----- `minstrel_get_sample_rate`

  /** The probe: its cell, and whether it goes first (slot 0) or second (slot 1). */
  datatype Probe = NoProbe | Probe(cell: nat, slot: nat)

  datatype Sampled = Sampled(st: Ht, probe: Probe)

  /** The faster of the two best rates. */
  function FasterBest(st: Ht): (k: nat)
    requires Shape(st)
    ensures k < CELLS
  {
    if st.air[st.maxTp[0]] > st.air[st.maxTp[1]] then st.maxTp[1] else st.maxTp[0]
  }

  function SlowerBest(st: Ht): (k: nat)
    requires Shape(st)
    ensures k < CELLS
  {
    if st.air[st.maxTp[0]] > st.air[st.maxTp[1]] then st.maxTp[0] else st.maxTp[1]
  }

  /** A draw more than one above the faster best rate `tp1` is pulled down to one or two above. */
  function ProbeIdx(tp1: nat, idx: nat): (i: nat)
    requires idx < GROUP_RATES
    ensures i < GROUP_RATES && i <= tp1 % 10 + 2
  {
    var t := tp1 % 10;
    if idx - t > 1 then t + tp1 % 2 + 1 else idx
  }

  /** A probe that is safely slower than the best rates is sent as the second try. `group` is
      the group sampling started in; its statistics are consulted even if the walk moved on. */
  predicate GoesSecond(st: Ht, group: nat, d: Draw, cell: nat)
    requires Shape(st) && group < GROUPS && d.group < GROUPS && d.idx < GROUP_RATES && cell < CELLS
  {
    var tp1 := FasterBest(st);
    && st.air[cell] >= st.air[SlowerBest(st)]
    && ((tp1 / 10 != CCK && d.group != CCK) || st.air[cell] >= st.air[st.maxProb])
    && tp1 % 10 - cell % 10 > 1
    && st.cells[Cell(group, d.idx)].prob > Frac(70, 100)
  }

  /** The draw that decides: after a draw above a weak best rate, the walk's. */
  ghost function Decide(st: Ht, columns: seq<seq<nat>>): (d: Draw)
    requires Shape(st) && IsSampleTable(columns)
    ensures Shape(d.st) && d.group < GROUPS && d.idx < GROUP_RATES
    ensures d.st == st.(sampleGroup := d.st.sampleGroup, sampleIdx := d.st.sampleIdx, sampleCol := d.st.sampleCol)
  {
    NextSampleKeepsShape(st);
    var tp1 := FasterBest(st);
    var idx := Current(st, columns);
    if idx > tp1 % 10 && st.cells[tp1].prob < HALF then
      Walk(NextSample(st), columns, tp1 % 10)
    else Draw(NextSample(st), st.sampleGroup, idx)
  }

  /** The probe that the deciding draw `d` makes, unless it is the primary or the fallback. */
  function Chosen(st: Ht, d: Draw): Sampled
    requires Shape(st) && st.sampleTries > 0 && d.group < GROUPS && d.idx < GROUP_RATES
  {
    var cell := Cell(d.group, ProbeIdx(FasterBest(st), d.idx));
    if cell == st.maxTp[0] || cell == st.maxProb then Sampled(d.st, NoProbe)
    else
      Sampled(d.st.(sampleTries := st.sampleTries - 1),
              Probe(cell, if GoesSecond(st, st.sampleGroup, d, cell) then 1 else 0))
  }

  ghost function SampleRate(st: Ht, columns: seq<seq<nat>>): (r: Sampled)
    requires Shape(st) && IsSampleTable(columns)
  {
    if st.sampleWait > 0 then Sampled(st.(sampleWait := st.sampleWait - 1), NoProbe)
    else if st.sampleTries == 0 then Sampled(st, NoProbe)
    else if Current(st, columns) !in st.supported[st.sampleGroup] then Sampled(NextSample(st), NoProbe)
    else Chosen(st, Decide(st, columns))
  }

  /** Probes that may still be sent before the next statistics update. */
  function ProbeBudget(st: Ht): nat {
    st.sampleTries + 2 * st.sampleCount
  }

  /** Sampling touches only the sampling state. */
  lemma SampleRateFrame(st: Ht, columns: seq<seq<nat>>)
    requires Shape(st) && IsSampleTable(columns)
    ensures var s' := SampleRate(st, columns).st;
            && Shape(s') && (Inv(st) ==> Inv(s'))
            && s' == st.(sampleWait := s'.sampleWait, sampleTries := s'.sampleTries,
                         sampleGroup := s'.sampleGroup, sampleIdx := s'.sampleIdx, sampleCol := s'.sampleCol)
  {
    NextSampleKeepsShape(st);
  }

  /** A probe costs exactly one unit of the budget, nothing else does, and while the wait
      runs nothing is probed. */
  lemma SampleRateBudget(st: Ht, columns: seq<seq<nat>>)
    requires Shape(st) && IsSampleTable(columns)
    ensures var r := SampleRate(st, columns);
            && ProbeBudget(r.st) == ProbeBudget(st) - (if r.probe.Probe? then 1 else 0)
            && r.st.sampleWait == (if st.sampleWait > 0 then st.sampleWait - 1 else 0)
            && (st.sampleWait > 0 ==> r.probe.NoProbe?)
  {
    NextSampleKeepsShape(st);
  }

  /** A probe is at most two rate numbers above the faster of the two best rates, and is
      neither the primary nor the fallback. */
  lemma ProbeBound(st: Ht, columns: seq<seq<nat>>)
    requires Shape(st) && IsSampleTable(columns)
    ensures var p := SampleRate(st, columns).probe;
            p.Probe? ==>
              && p.cell < CELLS && p.slot < 2
              && p.cell % 10 <= FasterBest(st) % 10 + 2
              && p.cell != st.maxTp[0] && p.cell != st.maxProb
  {
    if SampleRate(st, columns).probe.Probe? {
      var d := Decide(st, columns);
      var i := ProbeIdx(FasterBest(st), d.idx);
      assert Cell(d.group, i) % 10 == i;
    }
  }

  /** The rate that is faster on air, and its number. */
  function FastRate(st: Ht): nat
    requires Shape(st)
  {
    if st.air[st.maxTp[1]] < st.air[st.maxTp[0]] then st.maxTp[1] else st.maxTp[0]
  }

  /** A drawn rate `i` that is more than one above `t` gives way to the next odd number above `t`. */
  function Eased(t: nat, i: nat): nat {
    if i <= t + 1 then i else if t % 2 == 0 then t + 1 else t + 2
  }

  /** What a request samples. It skips its turn during the wait; it draws nothing without a probe
      to spend; it drops a draw that the group does not support. Otherwise it probes the drawn
      rate, or the one at which the walk ends if the draw is above a best rate below 50 %; unless
      that is the primary rate or the fallback. `n` counts the draws of the walk. */
  lemma ProbeExactly(st: Ht, columns: seq<seq<nat>>) returns (n: nat)
    requires Shape(st) && IsSampleTable(columns)
    ensures var r, t, i := SampleRate(st, columns), FastRate(st) % 10, Current(st, columns);
            var walks := i > t && st.cells[FastRate(st)].prob < 2048;
            var u := Later(NextSampleOf(st), n);
            var g, j := if walks then u.sampleGroup else st.sampleGroup, if walks then Current(u, columns) else i;
            var cell := 10 * g + Eased(t, j);
            if st.sampleWait > 0 then r == Sampled(st.(sampleWait := st.sampleWait - 1), NoProbe)
            else if st.sampleTries == 0 then r == Sampled(st, NoProbe)
            else if i !in st.supported[st.sampleGroup] then r == Sampled(NextSample(st), NoProbe)
            else
              && (walks ==> !Passed(NextSampleOf(st), columns, t, n)
                            && forall m :: 0 <= m < n ==> Passed(NextSampleOf(st), columns, t, m))
              && (if cell == st.maxTp[0] || cell == st.maxProb then r.probe.NoProbe?
                  else r.probe.Probe? && r.probe.cell == cell)
              && r.st == (if walks then NextSample(u) else NextSample(st)).(
                           sampleTries := st.sampleTries - if r.probe.Probe? then 1 else 0)
  {
    hide NextSample, Current, GoesSecond;
    n := 0;
    NextSampleFrame(st);
    if st.sampleWait == 0 && st.sampleTries > 0 && Current(st, columns) in st.supported[st.sampleGroup] {
      var t := FastRate(st) % 10;
      assert HALF == 2048 && FastRate(st) == FasterBest(st);
      n := WalkIsFirst(NextSample(st), columns, t);
      NextSampleFrame(Later(NextSample(st), n));
      EasedIs(FastRate(st), Decide(st, columns).idx);
    }
  }

  ghost function NextSampleOf(st: Ht): (r: Ht)
    requires Shape(st)
    ensures Shape(r)
  {
    NextSampleFrame(st);
    NextSample(st)
  }

  lemma EasedIs(tp1: nat, i: nat)
    requires i < GROUP_RATES
    ensures ProbeIdx(tp1, i) == Eased(tp1 % 10, i)
  {
    assert tp1 % 2 == tp1 % 10 % 2;
  }

  /** A probe is sent second exactly if it is no faster on air than either of the best rates; nor
      than the fallback, if CCK is involved; its number is two or more below that of the faster
      best rate; and the cell of that number in the group where sampling started is above 70 %. */
  lemma SecondExactly(st: Ht, columns: seq<seq<nat>>)
    requires Shape(st) && IsSampleTable(columns) && SampleRate(st, columns).probe.Probe?
    ensures var p, a, b := SampleRate(st, columns).probe, st.maxTp[0], st.maxTp[1];
            && p.cell < CELLS && p.slot in {0, 1}
            && (p.slot == 1 <==>
                  && st.air[a] <= st.air[p.cell] && st.air[b] <= st.air[p.cell]
                  && (FastRate(st) / 10 == 4 || p.cell / 10 == 4 ==> st.air[st.maxProb] <= st.air[p.cell])
                  && p.cell % 10 + 2 <= FastRate(st) % 10
                  && st.cells[10 * st.sampleGroup + p.cell % 10].prob > 2867)
  {
    hide NextSample, Current, Walk, ValidMasks, IsPermutation;
    assert Frac(70, 100) == 2867 && FastRate(st) == FasterBest(st);
    var d := Decide(st, columns);
    EasedIs(FastRate(st), d.idx);
  }
}
