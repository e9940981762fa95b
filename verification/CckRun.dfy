/** A run in which the floor of an access point raises a CCK rate to a number that no CCK rate
    has. */
module CckRun {
  import opened FixedPoint
  import opened RateGroups
  import opened HtState
  import opened HtSample
  import opened HtStatus
  import opened HtCap
  import opened SampleTable
  import opened Signal
  import opened Driver
  import opened Runs
  import opened PeerLow
  import opened ApTables
  import opened ApSteps
  import opened ApSampling
  import opened ApStart
  import opened ApMoves
  import opened ApFive
  import opened ApCap

  /** Some run from here on hands out a chain with a raised entry. */
  ghost predicate CanRaise(s: Sys, columns: seq<seq<nat>>)
    requires SysReady(s) && IsSampleTable(columns)
  {
    exists es :: ValidRun(s, columns, es) && !Unraised(Run(s, columns, es))
  }

  lemma RaiseBefore(s: Sys, columns: seq<seq<nat>>, e: Event)
    requires SysReady(s) && IsSampleTable(columns) && Allowed(s, e) && CanRaise(Step(s, columns, e), columns)
    ensures CanRaise(s, columns)
  {
    hide Step, SysReady, Unraised, Allowed;
    var s' := Step(s, columns, e);
    var es :| ValidRun(s', columns, es) && !Unraised(Run(s', columns, es));
    var all := [e] + es;
    assert all[1..] == es && all[0] == e;
    assert ValidRun(s, columns, all) && Run(s, columns, all) == Run(s', columns, es);
  }

  lemma RaisedNow(s: Sys, columns: seq<seq<nat>>)
    requires SysReady(s) && IsSampleTable(columns) && !Unraised(s)
    ensures CanRaise(s, columns)
  {
    hide SysReady, Unraised;
    var es: seq<Event> := [];
    assert ValidRun(s, columns, es) && Run(s, columns, es) == s;
  }

  // ----- The peer and its estimates

  /** A peer of the 2.4 GHz band on 20 MHz with the four CCK rates. */
  function Peer(): Caps {
    DriverCaps(true, BW_20, false, false, false, false, {0, 1, 2, 3})
  }

  /** The seeds, with other estimates for rates 2 and 3 of group 0. */
  function Est(two: nat, three: nat): (est: Table)
    ensures |est| == CELLS
    ensures forall k :: 0 <= k < CELLS ==>
              est[k] == if k == 2 then two else if k == 3 then three else if k == 42 then 1024
                        else if k == 43 then 921 else 0
  {
    None()[42 := 1024][43 := 921][2 := two][3 := three]
  }

  lemma PeerMasks()
    ensures ValidCaps(Peer()) && HtUsable(Peer())
    ensures var sup := MasksOf(Peer());
            && ValidMasks(sup) && sup[0] == {0, 1, 2, 3, 4, 5, 6, 7} && sup[CCK] == {0, 1, 2, 3}
            && forall g :: 0 < g < GROUPS && g != CCK ==> sup[g] == {}
  {
    hide ValidMasks;
    assert 0 in Mask(Peer(), 0);
    HtMasks(Peer());
  }

  lemma PeerSeeds()
    ensures SeedTable(MasksOf(Peer()), BW_20, SeedRate(MasksOf(Peer()), 3, BW_20)) == Est(1024, 921)
  {
    hide ValidMasks, MasksOf, TopRate;
    PeerMasks();
    var sup := MasksOf(Peer());
    assert HasRate(sup, BW_20, 0, 7);
    assert TopRate(sup, BW_20, 9) >= 7;
    forall k: nat | k < CELLS
      ensures SeedEstimate(sup, BW_20, 3, k) == Est(1024, 921)[k]
    {
      assert k == Cell(k / 10, k % 10) && GroupBw(0) == GroupBw(CCK) == BW_20;
    }
  }

  lemma EstIsTable(two: nat, three: nat)
    requires two <= SCALE && three <= SCALE
    ensures IsTable(MasksOf(Peer()), Est(two, three))
  {
    PeerMasks();
    assert SCALE == 4096;
    assert forall i :: i in {2, 3, 42, 43} ==> Supports(MasksOf(Peer()), i);
  }

  lemma Throughputs(k: nat, p: nat)
    requires (k, p) in {(2, 1024), (2, 324), (3, 390), (42, 1024), (43, 921)}
    ensures TpOf(k, p) == if k == 2 && p == 1024 then 2 else if k == 43 then 1 else 0
  {
    hide Duration, TpOf;
    if k == 2 && p == 1024 {
      GroupZeroAir();
      TpIs(2, 1024, 9846250, 102);
    } else if k <= 3 {
      TpZero(k, p);
    } else {
      CckTp();
      SlowCckTp(1024);
    }
  }

  /** First a rate of group 0 leads, which the correction turns into rate 0. */
  lemma McsLeads(sup: Masks, est: Table)
    requires IsTable(sup, est) && est == Est(1024, 390)
    ensures CorrectedList(sup, est)[0] == 0
  {
    hide TpOf, TopList, Est;
    forall k: nat | k < CELLS && est[k] > 0
      ensures TpOf(k, est[k]) == if k == 2 then 2 else if k == 43 then 1 else 0
    {
      Throughputs(k, est[k]);
    }
    assert est[2] > 0;
    FirstIs(sup, est, 2);
    SteadyFalls(est, 0, 2);
  }

  /** Once both have faded, CCK leads. */
  lemma CckLeads(sup: Masks, est: Table)
    requires IsTable(sup, est) && est == Est(324, 390)
    ensures CorrectedList(sup, est)[0] == 40
  {
    hide TpOf, TopList, Est;
    forall k: nat | k < CELLS && est[k] > 0
      ensures TpOf(k, est[k]) == if k == 43 then 1 else 0
    {
      Throughputs(k, est[k]);
    }
    assert est[43] > 0;
    FirstIs(sup, est, 43);
    SteadyFalls(est, CCK, 3);
  }

  /** Sampling alternates between the two groups. */
  lemma Groups()
    ensures ValidMasks(MasksOf(Peer())) && MasksOf(Peer())[0] != {}
    ensures NextGroup(MasksOf(Peer()), 0) == CCK && NextGroup(MasksOf(Peer()), CCK) == 0
    ensures 8 !in MasksOf(Peer())[0] && 9 !in MasksOf(Peer())[0] && 9 !in MasksOf(Peer())[CCK]
  {
    hide NextGroup, MasksOf, ValidMasks;
    PeerMasks();
    NextGroupOrder(MasksOf(Peer()), 0, CCK);
    NextGroupOrder(MasksOf(Peer()), CCK, 0);
  }

  // ----- The run

  /** How the run stands: on the estimates `Est(two, three)`, about to draw in group `g`. */
  ghost predicate Stage(s: Sys, r: nat, two: nat, three: nat, g: nat) {
    && OnTheWay(s, MasksOf(Peer()), Est(two, three), r, 1, 0, 2) && RowAt(s.ht, r) == 1
    && s.ht.sampleWait == 0 && s.ht.sampleTries > 0 && s.ht.sampleGroup == g
  }

  ghost predicate Has(s: Sys, c: Chain, x: nat) {
    c in s.handed && ChainLow(c) && Names(c[0], x)
  }

  lemma Steps()
    ensures Next(921, 1, 0) == 691 && Next(691, 1, 0) == 519 && Next(519, 1, 0) == 390
    ensures Next(1024, 1, 0) == 768 && Next(768, 1, 0) == 576 && Next(576, 1, 0) == 432 && Next(432, 1, 0) == 324
  {
    assert Frac(0, 1) == 0;
  }

  /** A failure of rate `x` of group 0, whose estimate becomes `v`. */
  lemma StageFade(s: Sys, columns: seq<seq<nat>>, env: Env, r: nat, two: nat, three: nat, g: nat,
                  c: Chain, x: nat, v: nat) returns (s': Sys)
    requires Stage(s, r, two, three, g) && Has(s, c, x) && IsSampleTable(columns) && EnvOk(env) && two > 0 && three > 0
    requires (x == 2 && v == Next(two, 1, 0)) || (x == 3 && v == Next(three, 1, 0))
    ensures x == 2 ==> Stage(s', r, v, three, g)
    ensures x == 3 ==> Stage(s', r, two, v, g)
    ensures s'.handed == s.handed && SysReady(s) && SysReady(s') && (CanRaise(s', columns) ==> CanRaise(s, columns))
  {
    hide Stands, Underway, Listed, Names, MasksOf, SysReady, CanRaise, Step, Allowed, Next, CanExceed, TriesAt;
    var est := Est(two, three);
    PeerMasks();
    assert x == 2 ==> est[x := v] == Est(v, three);
    assert x == 3 ==> est[x := v] == Est(two, v);
    s' := TrainStep(s, columns, env, MasksOf(Peer()), est, r, 1, 0, 2, c, 1, 0, x, v);
    if CanRaise(s', columns) {
      RaiseBefore(s, columns, Done(c, TriesAt(0, 1), false, 0, true));
    }
  }

  /** CCK leads: the next request that permits MCS 6 raises its rate 0. */
  lemma LastStep(s: Sys, columns: seq<seq<nat>>, env: Env, r: nat)
    requires Stage(s, r, 324, 390, 0) && IsSampleTable(columns) && columns[0] == CLIMB && EnvOk(env)
    ensures SysReady(s) && CanRaise(s, columns)
  {
    hide Stands, Names, MasksOf, SysReady, CanRaise, Step, Allowed, CanExceed, ApLink, Round, Shape, CorrectedList,
      FindRate, Est, Unraised, NextGroup, ValidMasks, Held, IsTable, IsPermutation;
    EstIsTable(324, 390);
    CckLeads(MasksOf(Peer()), Est(324, 390));
    Groups();
    HeldReady(s, MasksOf(Peer()), Est(324, 390));
    assert columns[0][1] == 9;
    var s', c := RaisingRequest(s, columns, env, MasksOf(Peer()), Est(324, 390), r);
    RaisedNow(s', columns);
    RaiseBefore(s, columns, Find(ApLink(env, 6)));
  }

  lemma RaisingRequest(s: Sys, columns: seq<seq<nat>>, env: Env, sup: Masks, est: Table, r: nat)
    returns (s': Sys, c: Chain)
    requires OnTheWay(s, sup, est, r, 1, 0, 2) && IsSampleTable(columns) && EnvOk(env) && RowAt(s.ht, r) == 1
    requires s.ht.sampleWait == 0 && s.ht.sampleTries > 0 && s.ht.sampleGroup == 0
    requires |sup| == GROUPS && |est| == CELLS && CorrectedList(sup, est)[0] == 40 && columns[0][1] !in sup[0]
    ensures SysReady(s) && SysReady(s') && !Unraised(s')
    ensures Allowed(s, Find(ApLink(env, 6))) && s' == Step(s, columns, Find(ApLink(env, 6)))
  {
    hide Tally, Capped, Inv, CanExceed, ApLink, FindRate, NextSample, CorrectedList, GroupList, Current, Step, Round;
    HeldBest(s, sup, est);
    LinkPermits(env, 6, BW_20);
    Misses(s.ht, columns, r, 0, 2);
    FloorRaises(s.ht, columns, ApLink(env, 6));
    s', c := HeldRequest(s, columns, env, sup, est, ApLink(env, 6));
    assert c in s'.handed && Raised(c[0]);
  }

  lemma FromFloor(s: Sys, columns: seq<seq<nat>>, env: Env, r: nat, c: Chain)
    requires Stage(s, r, 1024, 390, 0) && Has(s, c, 2)
    requires IsSampleTable(columns) && columns[0] == CLIMB && EnvOk(env)
    ensures SysReady(s) && CanRaise(s, columns)
  {
    hide Stage, CanRaise, Next, SysReady, Names, ChainLow;
    Steps();
    var s1 := StageFade(s, columns, env, r, 1024, 390, 0, c, 2, 768);
    var s2 := StageFade(s1, columns, env, r, 768, 390, 0, c, 2, 576);
    var s3 := StageFade(s2, columns, env, r, 576, 390, 0, c, 2, 432);
    var s4 := StageFade(s3, columns, env, r, 432, 390, 0, c, 2, 324);
    LastStep(s4, columns, env, r);
  }

  /** The request whose floor makes rate 2 of rate 0. */
  lemma FromFaded(s: Sys, columns: seq<seq<nat>>, env: Env, r: nat)
    requires Stage(s, r, 1024, 390, CCK) && IsSampleTable(columns) && columns[0] == CLIMB && EnvOk(env)
    ensures SysReady(s) && CanRaise(s, columns)
  {
    hide Held, Names, MasksOf, SysReady, CanRaise, Step, Allowed, CanExceed, ApLink, Round, Shape, CorrectedList, Est,
      ChainLow, NextGroup;
    EstIsTable(1024, 390);
    McsLeads(MasksOf(Peer()), Est(1024, 390));
    Groups();
    HeldReady(s, MasksOf(Peer()), Est(1024, 390));
    var s', c, r' := FloorRequest(s, columns, env, MasksOf(Peer()), Est(1024, 390), r, 1, 0, 2, 2, 2);
    FromFloor(s', columns, env, r', c);
    RaiseBefore(s, columns, Find(ApLink(env, 2)));
  }

  lemma FromFirst(s: Sys, columns: seq<seq<nat>>, env: Env, r: nat, c: Chain)
    requires Stage(s, r, 1024, 691, CCK) && Has(s, c, 3)
    requires IsSampleTable(columns) && columns[0] == CLIMB && EnvOk(env)
    ensures SysReady(s) && CanRaise(s, columns)
  {
    hide Stage, CanRaise, Next, SysReady, Names, ChainLow;
    Steps();
    var s1 := StageFade(s, columns, env, r, 1024, 691, CCK, c, 3, 519);
    var s2 := StageFade(s1, columns, env, r, 1024, 519, CCK, c, 3, 390);
    FromFaded(s2, columns, env, r);
  }

  /** The first request, and its failure. */
  lemma FromStart(s: Sys, columns: seq<seq<nat>>, env: Env)
    requires SysReady(s) && IsSampleTable(columns) && columns[0] == CLIMB && EnvOk(env)
    requires StartsWith(s.ht, MasksOf(Peer()), Est(1024, 921))
    ensures CanRaise(s, columns)
  {
    hide Stands, StartsWith, Names, MasksOf, CanRaise, Step, Allowed, Next, CanExceed, TriesAt, ApLink,
      Round, Shape, Listed, SysReady, ChainLow, NextGroup;
    Groups();
    Steps();
    assert Supports(MasksOf(Peer()), 3) by {
      PeerMasks();
    }
    var s1, c, r := FirstRequest(s, columns, env, MasksOf(Peer()), Est(1024, 921), 3, 0, 2);
    assert Est(1024, 921)[3 := 691] == Est(1024, 691);
    var s2 := TrainStep(s1, columns, env, MasksOf(Peer()), Est(1024, 921), r, 1, 0, 2, c, 1, 0, 3, 691);
    FromFirst(s2, columns, env, r, c);
    RaiseBefore(s1, columns, Done(c, TriesAt(0, 1), false, 0, true));
    RaiseBefore(s, columns, Find(ApLink(env, 3)));
  }

  lemma FromSeeds(offset: int, table: seq<Entry>) returns (l: Link, columns: seq<seq<nat>>)
    requires offset in {6, 10} && |table| == 4
    ensures l.rssiOffset == offset && StartOk(Peer(), l, table) && IsSampleTable(columns)
    ensures CanRaise(Start(Peer(), l, table), columns)
  {
    hide Start, StartOk, CanRaise, StartsWith, MasksOf, SeedTable, SeedRate, ApLink, StartRate, SysReady, FitableBw,
      IsSampleTable, Est;
    PeerMasks();
    PeerSeeds();
    var env := EnvOf(Peer(), offset);
    LinkStarts(Peer(), offset, table, 3);
    LinkPermits(env, 3, BW_20);
    l := ApLink(env, 3);
    columns := ClimbTable();
    StartStands(Peer(), l, table);
    FromStart(Start(Peer(), l, table), columns, env);
  }

  /** On either platform some run of an access point from start-up hands out such a chain, which
      encodes no rates. */
  lemma CckIsRaised(offset: int, table: seq<Entry>)
    returns (l: Link, columns: seq<seq<nat>>, es: seq<Event>, c: Chain)
    requires offset in {6, 10} && |table| == 4
    ensures l.rssiOffset == offset && StartOk(Peer(), l, table) && IsSampleTable(columns)
    ensures ValidRun(Start(Peer(), l, table), columns, es) && c in Run(Start(Peer(), l, table), columns, es).handed
    ensures |c| == 4 && Raised(c[0]) && !IsNamed(c)
  {
    hide Start, StartOk, SysReady, IsSampleTable, Raised, IsNamed;
    l, columns := FromSeeds(offset, table);
    var s := Start(Peer(), l, table);
    es :| ValidRun(s, columns, es) && !Unraised(Run(s, columns, es));
    c :| c in Run(s, columns, es).handed && |c| == 4 && Raised(c[0]);
    NamedChainIsNotRaised(c);
  }
}
