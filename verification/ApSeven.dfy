/** Peers that start with rate 6 and support rate 7: VHT peers, and HT peers on up to 40 MHz. */
module ApSeven {
  import opened FixedPoint
  import opened RateGroups
  import opened Throughput
  import opened HtState
  import opened HtSample
  import opened HtStatus
  import opened SampleTable
  import opened Driver
  import opened Runs
  import opened ApTables
  import opened ApSteps
  import opened ApSampling
  import opened ApStart
  import opened ApMoves
  import opened ApFive

  // ----- The seeds

  /** Only rates 6 and 2 of the groups of bandwidth `bw` have an estimate, that of the seeds. */
  ghost predicate SixSeeds(est: Table, bw: nat) {
    && |est| == CELLS
    && forall k :: 0 <= k < CELLS && est[k] > 0 ==>
         && k / 10 != CCK && GroupBw(k / 10) == bw
         && ((k % 10 == 6 && est[k] == 921) || (k % 10 == 2 && est[k] == 1024))
  }

  /** Air times of rates 6 and 2, and throughput of the seeds. */
  function SixAir(bw: nat, sgi: bool): nat {
    if bw == BW_20 then if sgi then 2954075 else 3282250
    else if bw == BW_40 then if sgi then 1422275 else 1580250
    else if sgi then 656600 else 729500
  }

  function TwoAir(bw: nat, sgi: bool): nat {
    if bw == BW_20 then if sgi then 8861675 else 9846250
    else if bw == BW_40 then if sgi then 4266725 else 4740750
    else if sgi then 1969475 else 2188250
  }

  function SixTp(bw: nat, sgi: bool): nat {
    if bw == BW_20 then if sgi then 7 else 6
    else if bw == BW_40 then if sgi then 14 else 13
    else if sgi then 29 else 26
  }

  lemma AirNumbers(bw: nat, sgi: bool)
    requires bw <= BW_80
    ensures McsDuration(sgi, BitsPerSymbol(bw, 6)) == SixAir(bw, sgi)
    ensures McsDuration(sgi, BitsPerSymbol(bw, 2)) == TwoAir(bw, sgi)
  {
    hide McsDuration;
    NarrowNumbers();
    WideNumbers();
  }

  lemma NarrowNumbers()
    ensures McsDuration(false, 234) == 3282250 && McsDuration(true, 234) == 2954075
    ensures McsDuration(false, 78) == 9846250 && McsDuration(true, 78) == 8861675
  {
  }

  lemma WideNumbers()
    ensures McsDuration(false, 486) == 1580250 && McsDuration(true, 486) == 1422275
    ensures McsDuration(false, 162) == 4740750 && McsDuration(true, 162) == 4266725
    ensures McsDuration(false, 1053) == 729500 && McsDuration(true, 1053) == 656600
    ensures McsDuration(false, 351) == 2188250 && McsDuration(true, 351) == 1969475
  {
  }

  lemma SixNumbers(g: nat)
    requires g < GROUPS && g != CCK
    ensures var bw, sgi, k := GroupBw(g), GroupFlags(g).sgi, Cell(g, 6);
            && Duration(k) == SixAir(bw, sgi) && TpOf(k, 921) == SixTp(bw, sgi) && TpOf(k, 1714) > SixTp(bw, sgi)
            && TpOf(k, 2309) >= TpOf(k, 1714)
  {
    hide Duration, GroupFlags, McsDuration, GroupBw;
    var bw, sgi, k := GroupBw(g), GroupFlags(g).sgi, Cell(g, 6);
    GroupBwOk(g);
    DurationIs(g, 6);
    AirNumbers(bw, sgi);
    var q := if bw == BW_20 then if sgi then 300 else 271 else if bw == BW_40 then if sgi then 601 else 545
             else if sgi then 1204 else 1099;
    TpIs(k, 921, SixAir(bw, sgi), q);
    var p := if bw == BW_20 then if sgi then 559 else 505 else if bw == BW_40 then if sgi then 1120 else 1015
             else if sgi then 2241 else 2046;
    TpIs(k, 1714, SixAir(bw, sgi), p);
    TpMonotone(108, SCALE, false, SixAir(bw, sgi), 1714, 2309);
  }

  lemma TwoNumbers(g: nat)
    requires g < GROUPS && g != CCK
    ensures var bw, sgi, k := GroupBw(g), GroupFlags(g).sgi, Cell(g, 2);
            && Duration(k) == TwoAir(bw, sgi) && TpOf(k, 1024) <= 12
            && (bw < BW_80 ==> TpOf(k, 1024) <= 5) && (bw == BW_20 ==> TpOf(k, 1024) <= 2)
  {
    hide Duration, GroupFlags, McsDuration, GroupBw;
    var bw, sgi, k := GroupBw(g), GroupFlags(g).sgi, Cell(g, 2);
    GroupBwOk(g);
    DurationIs(g, 2);
    AirNumbers(bw, sgi);
    var q := if bw == BW_20 then if sgi then 114 else 102 else if bw == BW_40 then if sgi then 234 else 211
             else if sgi then 492 else 445;
    TpIs(k, 1024, TwoAir(bw, sgi), q);
  }

  /** A seed of rate 6 is faster than every seed of rate 2 and than rate 0. */
  lemma SixBeatsTwo(g: nat, h: nat)
    requires g < GROUPS && g != CCK && h < GROUPS && h != CCK && GroupBw(g) == GroupBw(h)
    ensures TpOf(Cell(h, 2), 1024) < TpOf(Cell(g, 6), 921) && Duration(Cell(g, 6)) <= Duration(Cell(h, 2))
    ensures Duration(Cell(g, 6)) <= Duration(0)
  {
    hide Duration, TpOf;
    GroupBwOk(g);
    SixNumbers(g);
    TwoNumbers(h);
    GroupZeroAir();
  }

  /** The head of the list is a rate 6 that no other seed beats in air time. */
  lemma SixFirst(sup: Masks, est: Table, bw: nat, b: nat)
    requires IsTable(sup, est) && SixSeeds(est, bw) && b < CELLS && b % 10 == 6 && est[b] > 0
    ensures var u := TopList(sup, est)[0];
            && u < CELLS && u % 10 == 6 && est[u] == 921
            && forall k :: 0 <= k < CELLS && est[k] > 0 ==> Duration(u) <= Duration(k)
  {
    hide Duration, TpOf, TopList, GroupBw, GroupFlags, SixSeeds;
    var u := TopList(sup, est)[0];
    TopListElements(sup, est, 0);
    TopListHead(sup, est, b);
    HeadIsSix(sup, est, bw, b, u);
    forall k: nat | k < CELLS && est[k] > 0
      ensures Duration(u) <= Duration(k)
    {
      TopListHead(sup, est, k);
      NotSlower(sup, est, bw, u, k);
    }
  }

  lemma HeadIsSix(sup: Masks, est: Table, bw: nat, b: nat, u: nat)
    requires IsTable(sup, est) && SixSeeds(est, bw) && b < CELLS && b % 10 == 6 && est[b] > 0
    requires u < CELLS && (u == 0 || est[u] > 0) && TpOf(b, est[b]) <= TpOf(u, est[u])
    ensures u % 10 == 6 && est[u] == 921
  {
    hide Duration, TpOf, GroupBw, GroupFlags;
    SixNumbers(b / 10);
    GroupBwOk(b / 10);
    assert b == Cell(b / 10, 6);
    if est[u] == 0 {
      UnratedTp(u);
    } else if u % 10 == 2 {
      assert u == Cell(u / 10, 2);
      SixBeatsTwo(b / 10, u / 10);
    }
  }

  lemma NotSlower(sup: Masks, est: Table, bw: nat, u: nat, k: nat)
    requires IsTable(sup, est) && SixSeeds(est, bw) && u < CELLS && u % 10 == 6 && est[u] == 921
    requires k < CELLS && est[k] > 0 && TpOf(k, est[k]) <= TpOf(u, est[u])
    ensures Duration(u) <= Duration(k)
  {
    hide Duration, TpOf, GroupBw, GroupFlags;
    assert u == Cell(u / 10, 6);
    if k % 10 == 2 {
      assert k == Cell(k / 10, 2);
      SixBeatsTwo(u / 10, k / 10);
    } else {
      assert k == Cell(k / 10, 6);
      SixNumbers(u / 10);
      SixNumbers(k / 10);
    }
  }

  /** Once trained, it is the best rate. */
  lemma SixIsBest(sup: Masks, est: Table, bw: nat)
    requires IsTable(sup, est) && SixSeeds(est, bw)
    requires var u := TopList(sup, est)[0];
             && u < CELLS && u % 10 == 6 && est[u] == 921
             && forall k :: 0 <= k < CELLS && est[k] > 0 ==> Duration(u) <= Duration(k)
    ensures var u := TopList(sup, est)[0];
            IsTable(sup, est[u := 2309]) && FastBest(sup, est[u := 2309]) == u
  {
    hide Duration, TpOf, TopList, GroupBw, GroupFlags;
    var u := TopList(sup, est)[0];
    assert u == Cell(u / 10, 6);
    SixNumbers(u / 10);
    SixBeatsTwo(u / 10, u / 10);
    forall k: nat | k < CELLS && est[k] > 0 && k != u
      ensures TpOf(k, est[k]) < TpOf(u, 2309)
    {
      TopListHead(sup, est, k);
    }
    BestIs(sup, est[u := 2309], u);
  }

  // ----- The peers

  /** The plain group of the link's bandwidth, and the plain 20 MHz group. */
  function WideGroup(c: Caps): nat {
    if c.vht then VHT_0 + 2 * c.bandwidth else 2 * c.bandwidth
  }

  function BaseGroup(c: Caps): nat {
    if c.vht then VHT_0 else 0
  }

  ghost predicate SeedsSix(c: Caps) {
    && ValidCaps(c) && HtUsable(c) && c.bandwidth <= BW_80
    && (c.vht || (6 in c.htRates && 7 in c.htRates && c.bandwidth <= BW_40))
  }

  lemma SixMasks(c: Caps)
    requires SeedsSix(c)
    ensures var sup := MasksOf(c);
            && ValidMasks(sup) && WideGroup(c) < GROUPS && WideGroup(c) != CCK && GroupBw(WideGroup(c)) == c.bandwidth
            && 6 in sup[WideGroup(c)] && 7 in sup[WideGroup(c)] && 7 in sup[BaseGroup(c)]
            && (c.vht ==> 9 !in sup[VHT_0]) && (!c.vht ==> forall g :: CCK < g < GROUPS ==> sup[g] == {})
  {
    MasksAreValid(c, MasksOf(c));
    assert ValidMasks(MasksOf(c));
    hide ValidMasks;
  }

  lemma NineSkipped(c: Caps)
    requires SeedsSix(c)
    ensures ValidMasks(MasksOf(c)) && 9 !in MasksOf(c)[NextGroup(MasksOf(c), 0)] && 8 !in MasksOf(c)[0]
  {
    hide NextGroup;
    SixMasks(c);
    var sup := MasksOf(c);
    NextGroupOrder(sup, 0, BaseGroup(c));
  }

  lemma SixSeeded(c: Caps)
    requires SeedsSix(c)
    ensures var sup, bw, est := MasksOf(c), c.bandwidth, SeedTable(MasksOf(c), c.bandwidth, 6);
            && SeedRate(sup, 6, bw) == 6 && IsTable(sup, est) && SixSeeds(est, bw)
            && Cell(WideGroup(c), 6) < CELLS && est[Cell(WideGroup(c), 6)] > 0
  {
    hide GroupBw, Mask;
    SixMasks(c);
    var sup, bw := MasksOf(c), c.bandwidth;
    assert HasRate(sup, bw, WideGroup(c), 7);
    assert TopRate(sup, bw, 9) >= 7;
    SeedTableOk(sup, bw, 6);
    assert 6 !in sup[CCK];
  }

  /** Rates 6 and 7, starting from the seed of rate 6. */
  lemma SixSeven(c: Caps, offset: int, table: seq<Entry>, columns: seq<seq<nat>>)
    requires PeerOk(c, offset, table) && SeedsSix(c) && IsSampleTable(columns) && columns[0] == CLIMB
    ensures var l, env := ApLink(EnvOf(c, offset), 6), EnvOf(c, offset);
            StartOk(c, l, table) && CanExceed(Start(c, l, table), columns, env)
  {
    hide CanExceed, Start, Stands, Listed, Round, Shape, SeedTable, SeedRate, ApLink, SysReady, StartRate, NextGroup,
      SixSeeds, SeedsSix, WideGroup, Step, Allowed;
    var env, sup, g := EnvOf(c, offset), MasksOf(c), BaseGroup(c);
    SixMasks(c);
    NineSkipped(c);
    LinkStarts(c, offset, table, 6);
    var l := ApLink(env, 6);
    StartStands(c, l, table);
    SixSeeded(c);
    var est := SeedTable(sup, c.bandwidth, 6);
    var s1, c0, r := FirstRequest(Start(c, l, table), columns, env, sup, est, 6, g, 2);
    var s2 := Settle(s1, columns, env, sup, est, r, 1, g, 2, c0);
    SixFirst(sup, est, c.bandwidth, Cell(WideGroup(c), 6));
    SixClimbs(s2, columns, env, sup, est, c.bandwidth, r, g);
  }

  lemma SixClimbs(s: Sys, columns: seq<seq<nat>>, env: Env, sup: Masks, est: Table, bw: nat, r: nat, g: nat)
    requires OnTheWay(s, sup, est, r, 1, g, 2) && IsSampleTable(columns) && columns[0] == CLIMB && EnvOk(env)
    requires IsTable(sup, est) && SixSeeds(est, bw) && g in {0, 5} && 7 in sup[g] && ValidMasks(sup)
    requires s.ht.sampleWait == 0 && s.ht.sampleTries > 0 && RowAt(s.ht, r) == 1
    requires s.ht.sampleGroup == NextGroup(sup, 0) && 9 !in sup[NextGroup(sup, 0)]
    requires var u := TopList(sup, est)[0];
             && u < CELLS && u % 10 == 6 && est[u] == 921
             && forall k :: 0 <= k < CELLS && est[k] > 0 ==> Duration(u) <= Duration(k)
    ensures CanExceed(s, columns, env)
  {
    hide CanExceed, Held, Round, Shape, FastBest, TopList, Duration, NextGroup, ValidMasks, GroupBw, Names, Step,
      Allowed;
    var u := TopList(sup, est)[0];
    CorrectedIdx(est, u);
    DrawRank(s.ht, r, g);
    var s1, c1, r1 := FloorRequest(s, columns, env, sup, est, r, 1, g, 2, 6, u);
    assert Supports(sup, u);
    var s2 := TrainUp(s1, columns, env, sup, est, r1, 1, g, 2, c1, u);
    SixIsBest(sup, est, bw);
    ToSeven(s2, columns, env, sup, est[u := 2309], r1, 1, g, 2);
  }

  lemma CorrectedIdx(est: Table, u: nat)
    requires |est| == CELLS && u < CELLS && u % 10 == 6 && u / 10 != CCK
    ensures RateIdx(Corrected(est, u)) <= 6 && RateIdx(u) == 6 && u == Cell(Corrected(est, u) / 10, 6)
  {
  }

  lemma DrawRank(st: Ht, r: nat, g: nat)
    requires Underway(st, r, g, 2) && RowAt(st, r) == 1 && g in {0, 5}
    ensures Rank(st, r) < Goal(g, 2)
  {
    hide Round;
    assert st.sampleGroup < 11;
  }
}
