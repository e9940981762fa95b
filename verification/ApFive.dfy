/** HT peers that support rate 7 beside rate 5, without 6: how an access point gets there. */
module ApFive {
  import opened FixedPoint
  import opened RateGroups
  import opened HtState
  import opened HtSample
  import opened HtStatus
  import opened SampleTable
  import opened Signal
  import opened Driver
  import opened Runs
  import opened PeerLow
  import opened ApTables
  import opened ApSteps
  import opened ApSampling
  import opened ApStart
  import opened ApMoves

  /** The environment of a peer. */
  function EnvOf(c: Caps, offset: int): Env {
    Env(offset, c.bandwidth, c.vht)
  }

  ghost predicate PeerOk(c: Caps, offset: int, table: seq<Entry>) {
    ValidCaps(c) && HtUsable(c) && c.bandwidth <= BW_80 && offset in {6, 10} && |table| == 4
  }

  lemma LinkStarts(c: Caps, offset: int, table: seq<Entry>, m: nat)
    requires PeerOk(c, offset, table) && IsGate(m) && (m in {0, 4, 6} || c.bandwidth == BW_20)
    ensures StartOk(c, ApLink(EnvOf(c, offset), m), table) && EnvOk(EnvOf(c, offset))
    ensures StartRate(c, ApLink(EnvOf(c, offset), m)) == SeedRate(MasksOf(c), m, c.bandwidth)
    ensures FitableBw(ApLink(EnvOf(c, offset), m)) == c.bandwidth
  {
    hide ApLink, FitableMcs, FitableBw, ValidCaps, HtUsable;
    LinkPermits(EnvOf(c, offset), m, c.bandwidth);
  }

  /** If no group of the link's bandwidth supports the seeded rate, nothing is seeded. */
  lemma NoSeeds(sup: Masks, bw: nat, m: nat)
    requires |sup| == GROUPS && forall g :: 0 <= g < GROUPS ==> !HasRate(sup, bw, g, m)
    ensures SeedTable(sup, bw, m) == None()
  {
  }

  /** A run from start-up that begins without estimates: one good report of rate `x` of group
      0, which the floor has put first. */
  lemma BlankTrain(c: Caps, offset: int, table: seq<Entry>, columns: seq<seq<nat>>, x: nat, g: nat, row: nat)
    returns (s: Sys, r: nat, chain: Chain)
    requires PeerOk(c, offset, table) && IsSampleTable(columns) && IsGate(x) && x > 0 && x in MasksOf(c)[0]
    requires columns[0][0] !in MasksOf(c)[0] && g < GROUPS && MasksOf(c)[g] != {} && 1 <= row <= 7 && Goal(g, row) > 0
    requires SeedTable(MasksOf(c), c.bandwidth, SeedRate(MasksOf(c), 6, c.bandwidth)) == None()
    ensures var l, env := ApLink(EnvOf(c, offset), 6), EnvOf(c, offset);
            && StartOk(c, l, table) && EnvOk(env)
            && OnTheWay(s, MasksOf(c), None()[x := 4096], r, 1, g, row)
            && chain in s.handed && ChainLow(chain) && Names(chain[0], x)
            && (CanExceed(s, columns, env) ==> CanExceed(Start(c, l, table), columns, env))
  {
    hide CanExceed, Start, Stands, Underway, ApLink, SysReady, SeedTable, SeedRate, StartRate, NextGroup, Held, Names,
      StartsWith, PeerOk, StartOk, Step, Allowed;
    var env, sup := EnvOf(c, offset), MasksOf(c);
    LinkStarts(c, offset, table, 6);
    var l := ApLink(env, 6);
    StartStands(c, l, table);
    var s0 := Start(c, l, table);
    var s1;
    s1, chain, r := FirstRequest(s0, columns, env, sup, None(), x, g, row);
    assert Frac(1, 1) == 4096;
    s := Train(s1, columns, env, sup, None(), r, 1, g, row, chain, 1, 1, x, 4096);
  }

  /** Then that rate is the best one. */
  lemma BlankBest(sup: Masks, x: nat)
    requires |sup| == GROUPS && x in {1, 2, 3, 4, 6} && x in sup[0]
    ensures IsTable(sup, None()[x := 4096]) && FastBest(sup, None()[x := 4096]) == x
  {
    hide Duration, TpOf;
    BlankTp(x);
    BestIs(sup, None()[x := 4096], x);
  }

  lemma BlankTp(x: nat)
    requires x in {1, 2, 3, 4, 6}
    ensures TpOf(x, 4096) > 0 && Duration(x) <= Duration(0)
  {
    hide Duration, TpOf;
    GroupZeroAir();
    var q := if x == 1 then 247 else if x == 2 then 370 else if x == 3 then 491 else if x == 4 then 732 else 1087;
    TpIs(x, 4096, Duration(x), q);
  }

  lemma BlankPeer(c: Caps)
    requires ValidCaps(c) && HtUsable(c) && !c.vht && c.bandwidth <= BW_80 && 7 in c.htRates
    requires 6 !in c.htRates || c.bandwidth == BW_80
    ensures SeedTable(MasksOf(c), c.bandwidth, SeedRate(MasksOf(c), 6, c.bandwidth)) == None()
  {
    hide ValidMasks, SeedTable;
    HtMasks(c);
    var sup, bw := MasksOf(c), c.bandwidth;
    if bw < BW_80 {
      assert HasRate(sup, bw, if bw == BW_20 then 0 else 2, 7);
    }
    var top := TopRate(sup, bw, 9);
    assert bw < BW_80 ==> top >= 7;
    forall g | 0 <= g < GROUPS
      ensures !HasRate(sup, bw, g, 6)
    {
      SixNowhere(c, g);
    }
    assert SeedRate(sup, 6, bw) == 6;
    NoSeeds(sup, bw, 6);
  }

  lemma SixNowhere(c: Caps, g: nat)
    requires ValidCaps(c) && HtUsable(c) && !c.vht && g < GROUPS && (6 !in c.htRates || c.bandwidth == BW_80)
    ensures !HasRate(MasksOf(c), c.bandwidth, g, 6)
  {
    HtMasks(c);
  }

  /** The draws: 8 and 9, which HT does not have, then 7. */
  const CLIMB: seq<nat> := [8, 9, 7, 0, 1, 2, 3, 4, 5, 6]

  /** The draws: 8 and 9, then 5 and 7. */
  const STEP: seq<nat> := [8, 9, 5, 7, 0, 1, 2, 3, 4, 6]

  /** At 80 MHz an HT peer starts without estimates; rates 6 and 7. */
  lemma WideSixSeven(c: Caps, offset: int, table: seq<Entry>, columns: seq<seq<nat>>)
    requires PeerOk(c, offset, table) && IsSampleTable(columns) && columns[0] == CLIMB
    requires !c.vht && c.bandwidth == BW_80 && 6 in c.htRates && 7 in c.htRates
    ensures var l, env := ApLink(EnvOf(c, offset), 6), EnvOf(c, offset);
            StartOk(c, l, table) && CanExceed(Start(c, l, table), columns, env)
  {
    hide CanExceed, Start, Held, Round, Shape, SeedTable, SeedRate, ApLink, FastBest, ValidMasks;
    HtMasks(c);
    BlankPeer(c);
    var s, r, chain := BlankTrain(c, offset, table, columns, 6, 0, 2);
    BlankBest(MasksOf(c), 6);
    ToSeven(s, columns, EnvOf(c, offset), MasksOf(c), None()[6 := 4096], r, 1, 0, 2);
  }

  lemma SlowLow(x: nat)
    requires x in {3, 4}
    ensures SlowBesideFive(None()[x := 4096])
  {
    hide Duration, TpOf;
    GroupZeroAir();
    TpIs(x, 4096, Duration(x), if x == 3 then 491 else 732);
  }

  /** Rates 5 and 7 with rate 3 or 4. */
  lemma FiveFromBelow(c: Caps, offset: int, table: seq<Entry>, columns: seq<seq<nat>>, x: nat)
    requires PeerOk(c, offset, table) && IsSampleTable(columns) && columns[0] == STEP
    requires !c.vht && 5 in c.htRates && 7 in c.htRates && 6 !in c.htRates && x in {3, 4} && x in c.htRates
    ensures var l, env := ApLink(EnvOf(c, offset), 6), EnvOf(c, offset);
            StartOk(c, l, table) && CanExceed(Start(c, l, table), columns, env)
  {
    hide CanExceed, Start, Held, Round, Shape, SeedTable, SeedRate, ApLink, FastBest, SlowBesideFive;
    HtMasks(c);
    BlankPeer(c);
    var s, r, chain := BlankTrain(c, offset, table, columns, x, 0, 2);
    BlankBest(MasksOf(c), x);
    SlowLow(x);
    ToFive(s, columns, EnvOf(c, offset), MasksOf(c), None()[x := 4096], r, 1, 2);
  }

  // ----- Rates 5 and 7 with rate 3 of CCK, at 20 MHz

  /** The CCK seeds: rate 3, and rate 2 if it is there. */
  ghost predicate CckSeeds(est: Table, p: nat) {
    && |est| == CELLS && est[43] == p && est[42] <= 1024
    && forall k :: 0 <= k < CELLS && k != 43 && k != 42 ==> est[k] == 0
  }

  lemma SeedsCck(c: Caps)
    requires ValidCaps(c) && HtUsable(c) && !c.vht && c.bandwidth == BW_20 && c.band2g && 3 in c.cckRates
    requires 7 in c.htRates && 3 !in c.htRates
    ensures SeedRate(MasksOf(c), 3, BW_20) == 3
    ensures IsTable(MasksOf(c), SeedTable(MasksOf(c), BW_20, 3)) && CckSeeds(SeedTable(MasksOf(c), BW_20, 3), 921)
  {
    hide ValidMasks;
    HtMasks(c);
    var sup := MasksOf(c);
    assert HasRate(sup, BW_20, 0, 7);
    assert TopRate(sup, BW_20, 9) >= 7;
    SeedTableOk(sup, BW_20, 3);
    forall k: nat | k < CELLS
      ensures SeedEstimate(sup, BW_20, 3, k) == if k == 43 then 921 else if k == 42 && 2 in sup[CCK] then 1024 else 0
    {
      var g := k / 10;
      assert 3 in sup[g] ==> g == CCK;
    }
  }

  lemma CckTp()
    ensures TpOf(43, 921) == 1 && TpOf(43, 2309) == 3 && TpOf(43, 4096) == 4
  {
    hide Duration;
    CckAir();
    TpIs(43, 921, 18117000, 50);
    TpIs(43, 2309, 18117000, 127);
    TpIs(43, 4096, 18117000, 203);
  }

  lemma SlowCckTp(p: nat)
    requires p <= 1024
    ensures TpOf(42, p) == 0
  {
    hide Duration;
    CckAir();
    if p >= 409 {
      TpIs(42, p, 35574000, p * 1000000 / 35574000);
    } else {
      TpZero(42, p);
    }
  }

  lemma CckFirst(sup: Masks, est: Table)
    requires IsTable(sup, est) && CckSeeds(est, 921)
    ensures CorrectedList(sup, est)[0] == 40
  {
    hide TpOf, TopList;
    CckTp();
    SlowCckTp(est[42]);
    FirstIs(sup, est, 43);
    SteadyFalls(est, CCK, 3);
  }

  lemma CckBest(sup: Masks, est: Table)
    requires IsTable(sup, est) && CckSeeds(est, 2309)
    ensures FastBest(sup, est) == 43 && SlowBesideFive(est)
  {
    hide TpOf, Duration;
    CckTp();
    CckAir();
    GroupZeroAir();
    SlowCckTp(est[42]);
    BestIs(sup, est, 43);
  }

  lemma FiveFromCck(c: Caps, offset: int, table: seq<Entry>, columns: seq<seq<nat>>)
    requires PeerOk(c, offset, table) && IsSampleTable(columns) && columns[0] == STEP
    requires !c.vht && 5 in c.htRates && 7 in c.htRates && 3 !in c.htRates
    requires c.bandwidth == BW_20 && c.band2g && 3 in c.cckRates
    ensures var l, env := ApLink(EnvOf(c, offset), 3), EnvOf(c, offset);
            StartOk(c, l, table) && CanExceed(Start(c, l, table), columns, env)
  {
    hide CanExceed, Start, Stands, Listed, Round, Shape, SeedTable, SeedRate, ApLink, SysReady, StartRate, NextGroup,
      CckSeeds, Step, Allowed;
    var env, sup := EnvOf(c, offset), MasksOf(c);
    HtMasks(c);
    LinkStarts(c, offset, table, 3);
    var l := ApLink(env, 3);
    StartStands(c, l, table);
    SeedsCck(c);
    var est := SeedTable(sup, BW_20, 3);
    var s1, c0, r := FirstRequest(Start(c, l, table), columns, env, sup, est, 6, 0, 2);
    var s2 := Settle(s1, columns, env, sup, est, r, 1, 0, 2, c0);
    CckFirst(sup, est);
    assert columns[0][1] == 9;
    var s3, c1, r3 := FloorRequest(s2, columns, env, sup, est, r, 1, 0, 2, 3, 43);
    CckClimb(s3, columns, env, sup, est, r3, c1);
  }

  lemma CckClimb(s: Sys, columns: seq<seq<nat>>, env: Env, sup: Masks, est: Table, r: nat, chain: Chain)
    requires OnTheWay(s, sup, est, r, 1, 0, 2) && IsSampleTable(columns) && columns[0] == STEP && EnvOk(env)
    requires IsTable(sup, est) && CckSeeds(est, 921) && 5 in sup[0] && 7 in sup[0] && 3 in sup[CCK]
    requires chain in s.handed && ChainLow(chain) && Names(chain[0], 43)
    ensures CanExceed(s, columns, env)
  {
    hide CanExceed, Held, Round, Shape, FastBest, SlowBesideFive;
    var s' := TrainUp(s, columns, env, sup, est, r, 1, 0, 2, chain, 43);
    var est' := est[43 := 2309];
    assert CckSeeds(est', 2309) && IsTable(sup, est');
    CckBest(sup, est');
    ToFive(s', columns, env, sup, est', r, 1, 2);
  }
}
