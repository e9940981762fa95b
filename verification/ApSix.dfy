/** HT peers that support rates 5 and 6: a walk from a weak rate 5 probes rate 7, unless CCK
    catches it. */
module ApSix {
  import opened FixedPoint
  import opened RateGroups
  import opened Throughput
  import opened HtState
  import opened HtRates
  import opened HtSample
  import opened HtStatus
  import opened HtCap
  import opened SampleTable
  import opened Driver
  import opened Runs
  import opened PeerLow
  import opened PeerCap
  import opened ApTables
  import opened ApSteps
  import opened ApSampling
  import opened ApStart
  import opened ApMoves
  import opened ApFive

  /** The draws: 8, which HT does not have, then 5, 6 and 9. */
  const FALL: seq<nat> := [8, 5, 6, 9, 0, 1, 2, 3, 4, 7]

  // ----- The seeds

  /** Whatever was seeded is slow. */
  ghost predicate SlowSeeds(est: Table) {
    && |est| == CELLS && est[5] == 0 == est[6]
    && forall k :: 0 <= k < CELLS && est[k] > 0 ==>
         k % 10 in {0, 2} && est[k] <= 1024 && Duration(k) >= 4266725 && TpOf(k, est[k]) <= 5
  }

  lemma TpAtMost(k: nat, p: nat, q: nat)
    requires k < CELLS && p <= 3686 && Duration(k) > 0 && p * 1000000 <= q * Duration(k)
    ensures TpOf(k, p) <= 100 * q / 4096
  {
    hide Duration;
    assert TENTH == 409 && NINE_TENTHS == 3686;
    if p >= 409 {
      var n := Nsecs(108, SCALE, k / 10 == CCK, Duration(k));
      assert q * Duration(k) <= q * n by {
        assert q * n == q * Duration(k) + q * (n - Duration(k));
      }
      QuotientAtMost(p * 1000000, n, q);
    }
  }

  lemma SlowAir(g: nat, i: nat)
    requires g <= CCK && i in {0, 2} && (g == CCK ==> i < 4)
    ensures Duration(Cell(g, i)) >= 4266725
  {
    hide Duration;
    if g == CCK {
      CckAir();
    } else {
      DurationIs(g, i);
      LongSymbols(GroupFlags(g).sgi, BitsPerSymbol(GroupBw(g), i));
    }
  }

  lemma LongSymbols(sgi: bool, bps: nat)
    requires 0 < bps <= 162
    ensures McsDuration(sgi, bps) >= 4266725
  {
    var n := 3072000 + bps - 1;
    QuotientAtLeast(n, bps, 18963);
  }

  lemma SeedsAreSlow(c: Caps)
    requires ValidCaps(c) && HtUsable(c) && !c.vht && c.bandwidth <= BW_80
    ensures SeedRate(MasksOf(c), 0, c.bandwidth) == 0
    ensures IsTable(MasksOf(c), SeedTable(MasksOf(c), c.bandwidth, 0))
    ensures SlowSeeds(SeedTable(MasksOf(c), c.bandwidth, 0))
  {
    hide Duration, TpOf, ValidMasks;
    HtMasks(c);
    var sup, est := MasksOf(c), SeedTable(MasksOf(c), c.bandwidth, 0);
    SeedTableOk(sup, c.bandwidth, 0);
    forall k: nat | k < CELLS && est[k] > 0
      ensures k % 10 in {0, 2} && est[k] <= 1024 && Duration(k) >= 4266725 && TpOf(k, est[k]) <= 5
    {
      assert k == Cell(k / 10, k % 10);
      SeedPlace(c, k);
      SlowAir(k / 10, k % 10);
      TpAtMost(k, est[k], 240);
    }
  }

  lemma SeedPlace(c: Caps, k: nat)
    requires ValidCaps(c) && HtUsable(c) && !c.vht && k < CELLS && Supports(MasksOf(c), k)
    ensures k / 10 <= CCK && (k / 10 == CCK ==> k % 10 < 4)
  {
    HtMasks(c);
  }

  // ----- The estimates on the way

  /** The seeds, and estimates of rates 5 and 6 of group 0. */
  function With(est: Table, five: nat, six: nat): (r: Table)
    requires |est| == CELLS
    ensures |r| == CELLS
  {
    est[5 := five][6 := six]
  }

  lemma WithIsTable(sup: Masks, est: Table, five: nat, six: nat)
    requires IsTable(sup, est) && 5 in sup[0] && 6 in sup[0] && five <= SCALE && six <= SCALE
    ensures IsTable(sup, With(est, five, six))
  {
    assert Supports(sup, 5) && Supports(sup, 6);
  }

  lemma FiveSixTp()
    ensures TpOf(6, 4096) == 26 && TpOf(6, 1728) == 12 && TpOf(5, 1365) == 8
  {
    hide Duration;
    GroupZeroAir();
    TpIs(6, 4096, 3282250, 1087);
    TpIs(6, 1728, 3282250, 509);
    TpIs(5, 1365, 3692500, 359);
  }

  /** While rate 6 is reliable, it is the best rate. */
  lemma SixLeads(sup: Masks, est: Table, five: nat)
    requires IsTable(sup, est) && SlowSeeds(est) && 5 in sup[0] && 6 in sup[0] && five in {0, 1365}
    ensures IsTable(sup, With(est, five, 4096)) && FastBest(sup, With(est, five, 4096)) == 6
  {
    hide Duration, TpOf;
    WithIsTable(sup, est, five, 4096);
    FiveSixTp();
    GroupZeroAir();
    BestIs(sup, With(est, five, 4096), 6);
  }

  /** Once it is weak, the correction leaves rate 0 first and rate 5 second. */
  lemma FiveSecond(sup: Masks, est: Table)
    requires IsTable(sup, est) && SlowSeeds(est) && 5 in sup[0] && 6 in sup[0]
    ensures var t := With(est, 1365, 1728);
            IsTable(sup, t) && FastBest(sup, t) == 5 && t[5] == 1365
  {
    hide Duration, TpOf, TopList, EstKeys;
    WithIsTable(sup, est, 1365, 1728);
    var t := With(est, 1365, 1728);
    FiveSixTp();
    GroupZeroAir();
    TwoAre(sup, t, 6, 5);
    SteadyFalls(t, 0, 6);
  }

  // ----- The walk

  /** Group 0 is followed by an HT group. */
  ghost predicate Uncaught(sup: Masks) {
    ValidMasks(sup) && 5 in sup[0] && 6 in sup[0] && NextGroup(sup, 0) < CCK
  }

  lemma PeerUncaught(c: Caps)
    requires ValidCaps(c) && HtUsable(c) && !c.vht && 5 in c.htRates && 6 in c.htRates && !CckCatches(c)
    ensures Uncaught(MasksOf(c))
  {
    hide NextGroup;
    HtMasks(c);
    var sup := MasksOf(c);
    if c.sgi20 {
      NextGroupOrder(sup, 0, 1);
    } else if c.bandwidth >= BW_40 {
      NextGroupOrder(sup, 0, 2);
    } else {
      assert sup[CCK] == {} && sup[NextGroup(sup, 0)] != {};
    }
  }

  lemma NextDraw(st: Ht, columns: seq<seq<nat>>, sup: Masks, r: nat)
    requires Reached(st, r, 0, 2) && st.supported == sup && Uncaught(sup) && IsSampleTable(columns)
    requires columns[0] == FALL
    ensures var s1 := NextSample(st);
            && Shape(s1) && s1.supported == sup && s1.sampleGroup == NextGroup(sup, 0)
            && Current(s1, columns) == 9 && 9 !in sup[s1.sampleGroup]
  {
    hide NextSample, NextGroup, Round, AllBelow, Current;
    Retarget(st, r, 0, 2, 0, 3);
    var r' := Proceed(st, r, 0, 3);
    NextSampleGroup(st);
    NextSampleFrame(st);
    DrawIs(NextSample(st), columns, r', 0, 3);
  }

  /** The draw of 6 is above the weak rate 5 and starts the walk; the next draw, 9, is supported
      by no HT group and ends it: two above 5, rate 7 is probed. */
  lemma WalkProbes(st: Ht, columns: seq<seq<nat>>, sup: Masks, r: nat)
    requires Reached(st, r, 0, 2) && st.supported == sup && Uncaught(sup) && IsSampleTable(columns)
    requires columns[0] == FALL
    requires FasterBest(st) == 5 && st.cells[5].prob < HALF && ListsLow(st)
    ensures var p := SampleRate(st, columns).probe;
            p.Probe? && p.cell < CELLS && RateIdx(p.cell) > CAP
  {
    hide NextSample, NextGroup, Round, Current, FasterBest;
    DrawAtGoal(st, columns, r, 0, 2);
    NextDraw(st, columns, sup, r);
    var s1 := NextSample(st);
    assert Stops(s1.supported, s1.sampleGroup, Current(s1, columns), 5);
    var d := Decide(st, columns);
    assert d.group == NextGroup(sup, 0) && d.idx == 9 && ProbeIdx(5, 9) == 7;
    assert Low(st.maxTp[0]) && Low(st.maxProb) && !Low(Cell(d.group, 7));
    assert Chosen(st, d).probe.Probe?;
  }

  // ----- The run

  /** Rate 6 fades, and the walk follows. */
  lemma SixFades(s: Sys, columns: seq<seq<nat>>, env: Env, sup: Masks, est: Table, r: nat, c0: Chain, n: nat)
    requires IsTable(sup, est) && SlowSeeds(est) && Uncaught(sup) && IsSampleTable(columns) && columns[0] == FALL
    requires EnvOk(env)
    requires OnTheWay(s, sup, With(est, 1365, 4096), r, 1, 0, 2) && Rank(s.ht, r) == Goal(0, 2) && n == 3
    requires c0 in s.handed && ChainLow(c0) && Names(c0[0], 6)
    ensures CanExceed(s, columns, env)
  {
    hide CanExceed, Held, Underway, FastBest, Names, SlowSeeds, NextGroup, Tracked;
    var t := With(est, 1365, 4096);
    FadesTo(n);
    var s1 := Fade(s, columns, env, sup, t, r, 1, 0, 2, c0, 6, n);
    assert t[6 := 1728] == With(est, 1365, 1728);
    FiveSecond(sup, est);
    var s2 := Await(s1, columns, env, sup, With(est, 1365, 1728), r, 1, 0, 2);
    SixWalks(s2, columns, env, sup, With(est, 1365, 1728), r);
  }

  lemma FadesTo(n: nat)
    requires n == 3
    ensures Tracked(4096, 0, n) == 1728
  {
    assert Tracked(4096, 0, 1) == 3072 && Tracked(4096, 0, 2) == 2304;
  }

  lemma SixWalks(s: Sys, columns: seq<seq<nat>>, env: Env, sup: Masks, t: Table, r: nat)
    requires Held(s, sup, t) && Reached(s.ht, r, 0, 2) && EnvOk(env)
    requires Uncaught(sup) && IsSampleTable(columns) && columns[0] == FALL
    requires |t| == CELLS && FastBest(sup, t) == 5 && t[5] == 1365
    ensures CanExceed(s, columns, env)
  {
    hide CanExceed, Listed, Tally, Inv, Round, FastBest, SampleRate, FindRate, ApLink, CellsQuiet, NextGroup, Step;
    HeldBest(s, sup, t);
    LinkPermits(env, 6, BW_20);
    WalkProbes(s.ht, columns, sup, r);
    var s', chain := HeldRequest(s, columns, env, sup, t, ApLink(env, 6));
  }

  /** From rate 6, rate 5 is probed. */
  lemma SixToFive(s: Sys, columns: seq<seq<nat>>, env: Env, sup: Masks, est: Table, r: nat, c0: Chain)
    requires IsTable(sup, est) && SlowSeeds(est) && Uncaught(sup) && IsSampleTable(columns) && columns[0] == FALL
    requires EnvOk(env)
    requires OnTheWay(s, sup, With(est, 0, 4096), r, 1, 0, 1)
    requires c0 in s.handed && ChainLow(c0) && Names(c0[0], 6)
    ensures CanExceed(s, columns, env)
  {
    hide CanExceed, Held, Round, FastBest, Names, SlowSeeds, NextGroup, Shape, NextSample;
    var t := With(est, 0, 4096);
    SixLeads(sup, est, 0);
    SixLeads(sup, est, 1365);
    var s1, r1 := Seek(s, columns, env, sup, t, r, 1, 0, 1);
    assert ProbeIdx(6, 5) == 5 && Cell(0, 5) == 5;
    var s2, c1 := ProbeAt(s1, columns, env, sup, t, r1, 0, 1, 5);
    if ChainLow(c1) {
      HeldBest(s1, sup, t);
      var r2 := Onward(s1, s2, sup, t, r1, 0, 1, 0, 2);
      WeakFive(s2, columns, env, sup, est, r2, c0, c1);
    }
  }

  lemma WeakFive(s: Sys, columns: seq<seq<nat>>, env: Env, sup: Masks, est: Table, r: nat, c0: Chain, c1: Chain)
    requires IsTable(sup, est) && SlowSeeds(est) && Uncaught(sup) && IsSampleTable(columns) && columns[0] == FALL
    requires EnvOk(env)
    requires OnTheWay(s, sup, With(est, 0, 4096), r, 1, 0, 2) && FastBest(sup, With(est, 1365, 4096)) == 6
    requires c0 in s.handed && ChainLow(c0) && Names(c0[0], 6)
    requires c1 in s.handed && ChainLow(c1) && Names(c1[0], 5)
    ensures CanExceed(s, columns, env)
  {
    hide CanExceed, Held, Underway, FastBest, Names, SlowSeeds, NextGroup;
    var t := With(est, 0, 4096);
    assert Frac(1, 3) == 1365 && Supports(sup, 5);
    HeldReady(s, sup, t);
    var s1 := Train(s, columns, env, sup, t, r, 1, 0, 2, c1, 3, 1, 5, 1365);
    assert t[5 := 1365] == With(est, 1365, 4096);
    var s2, r2 := Seek(s1, columns, env, sup, With(est, 1365, 4096), r, 1, 0, 2);
    SixFades(s2, columns, env, sup, est, r2, c0, 3);
  }

  /** Rates 5 and 6, and no CCK to catch the walk. */
  lemma SixFalls(c: Caps, offset: int, table: seq<Entry>, columns: seq<seq<nat>>)
    requires PeerOk(c, offset, table) && IsSampleTable(columns) && columns[0] == FALL
    requires !c.vht && 5 in c.htRates && 6 in c.htRates && !CckCatches(c)
    ensures var l, env := ApLink(EnvOf(c, offset), 0), EnvOf(c, offset);
            StartOk(c, l, table) && CanExceed(Start(c, l, table), columns, env)
  {
    hide CanExceed, Start, Stands, Listed, Round, Shape, SeedTable, SeedRate, ApLink, SysReady, StartRate, NextGroup,
      SlowSeeds, Step, Allowed;
    var env, sup := EnvOf(c, offset), MasksOf(c);
    HtMasks(c);
    PeerUncaught(c);
    LinkStarts(c, offset, table, 0);
    var l := ApLink(env, 0);
    StartStands(c, l, table);
    SeedsAreSlow(c);
    var est := SeedTable(sup, c.bandwidth, 0);
    var s1, c0, r := FirstRequest(Start(c, l, table), columns, env, sup, est, 6, 0, 1);
    SixStarts(s1, columns, env, sup, est, r, c0);
  }

  lemma SixStarts(s: Sys, columns: seq<seq<nat>>, env: Env, sup: Masks, est: Table, r: nat, c0: Chain)
    requires IsTable(sup, est) && SlowSeeds(est) && Uncaught(sup) && IsSampleTable(columns) && columns[0] == FALL
    requires EnvOk(env)
    requires SysReady(s) && Stands(s.ht, sup, est, None()) && Underway(s.ht, r, 0, 1) && RowAt(s.ht, r) == 1
    requires c0 in s.handed && ChainLow(c0) && Names(c0[0], 6)
    ensures CanExceed(s, columns, env)
  {
    hide CanExceed, Stands, Underway, Names, NextGroup, SysReady;
    assert Frac(1, 1) == 4096 && Supports(sup, 6) && est[5] == 0 == est[6];
    var s' := Train(s, columns, env, sup, est, r, 1, 0, 1, c0, 1, 1, 6, 4096);
    assert est[6 := 4096] == With(est, 0, 4096);
    SixToFive(s', columns, env, sup, est, r, c0);
  }
}
