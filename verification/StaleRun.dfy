/** A run after which the fallback is not the most reliable rate: it has fallen below a rate that
    the sweep had passed before. */
module StaleRun {
  import opened FixedPoint
  import opened RateGroups
  import opened TopRates
  import opened HtState
  import opened HtUpdate
  import opened HtRates
  import opened HtSample
  import opened HtStatus
  import opened HtFallback
  import opened HtCap
  import opened SampleTable
  import opened Signal
  import opened Driver
  import opened Runs
  import opened PeerLow
  import opened ApTables
  import opened ApSteps
  import opened ApSampling
  import opened ApStart
  import opened ApMoves
  import opened ApFive
  import opened ApSeven
  import opened ApCap

  // ----- Runs that end so

  /** Some rate up to 75 % that is offered as a fallback has a higher estimate than the fallback. */
  ghost predicate Stale(st: Ht) {
    && |st.supported| == GROUPS && |st.cells| == CELLS && |st.maxTp| == MAX_THR_RATES && st.maxProb < CELLS
    && exists k :: 0 <= k < CELLS && Offered(st, STATION, k) && st.cells[st.maxProb].prob < st.cells[k].prob <= RELIABLE
  }

  /** The last event is a completion with an update. */
  predicate EndsWithUpdate(es: seq<Event>) {
    |es| > 0 && es[|es| - 1].Done? && es[|es| - 1].elapsed
  }

  /** Some run from here on ends with such an update. */
  ghost predicate CanGoStale(s: Sys, columns: seq<seq<nat>>)
    requires SysReady(s) && IsSampleTable(columns)
  {
    exists es :: EndsWithUpdate(es) && ValidRun(s, columns, es) && Stale(Run(s, columns, es).ht)
  }

  lemma StaleBefore(s: Sys, columns: seq<seq<nat>>, e: Event)
    requires SysReady(s) && IsSampleTable(columns) && Allowed(s, e) && CanGoStale(Step(s, columns, e), columns)
    ensures CanGoStale(s, columns)
  {
    hide Step, SysReady, Stale, Allowed;
    var s' := Step(s, columns, e);
    var es :| EndsWithUpdate(es) && ValidRun(s', columns, es) && Stale(Run(s', columns, es).ht);
    var all := [e] + es;
    assert all[1..] == es && all[0] == e && EndsWithUpdate(all);
    assert ValidRun(s, columns, all) && Run(s, columns, all) == Run(s', columns, es);
  }

  lemma StaleNow(s: Sys, columns: seq<seq<nat>>, e: Event)
    requires SysReady(s) && IsSampleTable(columns) && Allowed(s, e) && e.Done? && e.elapsed
    requires Stale(Step(s, columns, e).ht)
    ensures CanGoStale(s, columns)
  {
    hide SysReady, Stale, Step, Allowed;
    var none: seq<Event> := [];
    assert ValidRun(Step(s, columns, e), columns, none);
    var es := [e];
    assert es[1..] == none && ValidRun(s, columns, es) && Run(s, columns, es) == Step(s, columns, e);
  }

  // ----- The fallback of an update

  lemma PreparedKeys(u: Sound, est: Table, tried: Table, good: Table)
    requires Prepared(u, est, tried, good)
    ensures IsTable(u.supported, NextTable(u.supported, est, tried, good))
    ensures NewKeys(u) == EstKeys(NextTable(u.supported, est, tried, good))
  {
    hide Inv, FoldedUpTo, NextTable, FirstsGood, Tally, NewKeys, EstKeys;
    InvCells(u);
    FoldTally(u.cells, u.supported, est, tried, good);
    UpdateKeys(u, NextTable(u.supported, est, tried, good), None(), None());
  }

  /** The correction keeps a fallback whose number is below that of a reliable primary rate. */
  lemma CorrectionKeeps(s: Sound, p: nat)
    requires |s.maxTp| == MAX_THR_RATES && |s.cells| == CELLS && p < CELLS && s.maxTp[0] == p && s.cells[p].prob >= HALF
    requires s.maxProb % 10 < p % 10
    ensures UpdateRates(s).maxProb == s.maxProb
  {
    hide Inv, UpdateRates, Measurable;
    UpdateRatesSpec(s);
    InvMeasurable(s);
    assert ModifiedPrimary(s.cells, p) == p;
  }

  /** The estimates before and after an update. */
  ghost predicate Updating(u: Sound, est: Table, est': Table) {
    && |est| == |est'| == |u.cells| == CELLS && |u.supported| == GROUPS
    && |u.maxTp| == MAX_THR_RATES && u.maxProb < CELLS
    && NewKeys(u) == EstKeys(est') && forall k :: 0 <= k < CELLS ==> u.cells[k].prob == est[k]
  }

  /** A rate whose estimate rises above all others becomes the fallback. */
  lemma RisenFallback(u: Sound, est: Table, est': Table, b: nat)
    requires Updating(u, est, est') && b < CELLS && Offered(u, STATION, b) && est'[b] <= RELIABLE
    requires forall j :: 0 <= j < CELLS && j != b ==> est'[j] < est'[b] && est[j] < est'[b]
    ensures UpdateStats(u).maxProb == b
  {
    hide Inv, NewKeys, UpdateStats, Offered, Holds, AllFail, TpOf;
    FallbackSpoiledExactly(u, STATION, b);
    UpdateKeepsInv(u);
    InvShape(UpdateStats(u));
  }

  /** A fallback that falls, but not below any rate behind it, is kept. */
  lemma FallenFallback(u: Sound, est: Table, est': Table, k: nat)
    requires Updating(u, est, est') && Offered(u, STATION, u.maxProb) && k < u.maxProb && est'[u.maxProb] < est'[k]
    requires forall j :: 0 <= j < CELLS ==> est'[j] <= est[u.maxProb] && est'[j] <= RELIABLE
    requires forall j :: u.maxProb < j < CELLS ==> est'[j] < est'[u.maxProb]
    ensures UpdateStats(u).maxProb == u.maxProb
  {
    hide Inv, NewKeys, TpOf, NewMaxTp, GroupListsAt, FallbacksAt;
    assert Before(u, STATION).prob == est[u.maxProb] by {
      NowIs(u, 0, u.maxProb);
    }
    FallbackLeads(u, STATION, k, CELLS);
  }

  /** Rate `b`, of an MCS group, ends up with the highest estimate. */
  ghost predicate Rises(sup: Masks, est: Table, est': Table, b: nat) {
    && |sup| == GROUPS && |est| == |est'| == CELLS && b < CELLS && Supports(sup, b) && b / 10 != CCK
    && est'[b] <= RELIABLE
    && forall j :: 0 <= j < CELLS && j != b ==> est'[j] < est'[b] && est[j] < est'[b]
  }

  /** Rate `b` had the highest estimate and falls below rate `k`. */
  ghost predicate Falls(sup: Masks, est: Table, est': Table, b: nat, k: nat) {
    && |sup| == GROUPS && |est| == |est'| == CELLS && k < b < CELLS && Supports(sup, b) && b / 10 != CCK
    && est'[b] < est'[k]
    && (forall j :: 0 <= j < CELLS ==> est'[j] <= est[b] && est'[j] <= RELIABLE)
    && forall j :: b < j < CELLS ==> est'[j] < est'[b]
  }

  lemma UpdatedFallbackIs(u: Sound, est: Table, tried: Table, good: Table, b: nat, k: nat)
    requires Prepared(u, est, tried, good) && IsTable(u.supported, NextTable(u.supported, est, tried, good))
    requires var est' := NextTable(u.supported, est, tried, good);
             Rises(u.supported, est, est', b) || (u.maxProb == b && Falls(u.supported, est, est', b, k))
    ensures UpdateStats(u).maxProb == b
  {
    hide Inv, NewKeys, UpdateStats, FirstsGood, NextTable, InitialMeter;
    InvShape(u);
    PreparedKeys(u, est, tried, good);
    var est' := NextTable(u.supported, est, tried, good);
    if Rises(u.supported, est, est', b) {
      RisenFallback(u, est, est', b);
    } else {
      FallenFallback(u, est, est', k);
    }
  }

  lemma RebuiltFallback(u: Sound, est: Table, tried: Table, good: Table, b: nat, k: nat, p: nat)
    requires Prepared(u, est, tried, good) && IsTable(u.supported, NextTable(u.supported, est, tried, good))
    requires var est' := NextTable(u.supported, est, tried, good);
             && (Rises(u.supported, est, est', b) || (u.maxProb == b && Falls(u.supported, est, est', b, k)))
             && p < CELLS && TopList(u.supported, est')[0] == p && est'[p] >= HALF && b % 10 < p % 10
    ensures Inv(UpdateStats(u)) && UpdateRates(UpdateStats(u)).maxProb == b
  {
    hide Inv, UpdateStats, UpdateRates, FirstsGood, NextTable, InitialMeter, Rises, Falls, TopList, GroupList;
    UpdatedFallbackIs(u, est, tried, good, b, k);
    UpdateIs(u, est, tried, good);
    CorrectionKeeps(UpdateStats(u), p);
  }

  /** What a completion is updated from. */
  lemma CompletedFrom(st: Ht, sup: Masks, est: Table, chain: Chain, n: nat, a: nat, x: nat) returns (u: Ht)
    requires Stands(st, sup, est, None()) && ReportsOn(sup, chain, 0, n, a, x) && FirstGood(sup, est, None(), x, n, a)
    requires |st.cells| == CELLS && |st.maxTp| == MAX_THR_RATES && AllBelow(st.maxTp, CELLS) && Calm(st, x, n)
    ensures Inv(u) && Prepared(u, est, None()[x := n], None()[x := a]) && u.supported == sup && u.maxProb == st.maxProb
    ensures TriesOk(chain, TriesAt(0, n), a == 1) && Inv(UpdateStats(u))
    ensures Completed(st, chain, 0, n, a, true) == UpdateRates(UpdateStats(u))
  {
    hide Inv, Capped, UpdateStats, UpdateRates, Digested, Reported, ReportOk, TriesAt, FirstsGood,
      Tally, Calm, TriesOk, Names, Completed, InitialMeter;
    TriesAtOk(sup, chain, 0, n, a, x);
    CompletedIs(st, chain, 0, n, a, true);
    DigestedPrepared(st, sup, est, None(), chain, 0, n, a, x);
    DigestedIs(st, sup, chain, 0, n, a, x);
    u := Digested(st, Reported(chain, TriesAt(0, n)), 1, a);
    UpdateKeepsInv(u);
  }

  /** The fallback after such a completion. */
  lemma CompletedFallback(st: Ht, sup: Masks, est: Table, chain: Chain, n: nat, a: nat, x: nat, b: nat, k: nat, p: nat)
    requires Stands(st, sup, est, None()) && ReportsOn(sup, chain, 0, n, a, x) && FirstGood(sup, est, None(), x, n, a)
    requires |st.cells| == CELLS && |st.maxTp| == MAX_THR_RATES && AllBelow(st.maxTp, CELLS) && Calm(st, x, n)
    requires IsTable(sup, After(sup, est, None(), x, n, a))
    requires var est' := After(sup, est, None(), x, n, a);
             && (Rises(sup, est, est', b) || (st.maxProb == b && Falls(sup, est, est', b, k)))
             && p < CELLS && TopList(sup, est')[0] == p && est'[p] >= HALF && b % 10 < p % 10
    ensures TriesOk(chain, TriesAt(0, n), a == 1)
    ensures Completed(st, chain, 0, n, a, true).maxProb == b
  {
    hide Inv, UpdateStats, UpdateRates, TriesAt, NextTable, FirstsGood, Stands, Names, ChainOk, ChainLow, Prepared,
      IsTable, Calm, TriesOk, Completed, Rises, Falls, TopList;
    var u := CompletedFrom(st, sup, est, chain, n, a, x);
    assert None()[x := None()[x] + n] == None()[x := n];
    RebuiltFallback(u, est, None()[x := n], None()[x := a], b, k, p);
  }

  /** As a step of the run: `a` of `n` tries of `x` succeeded, and its estimate becomes `v`. */
  lemma TrainedFallback(s: Sys, columns: seq<seq<nat>>, sup: Masks, est: Table, chain: Chain, n: nat, a: nat,
                        x: nat, v: nat, b: nat, k: nat, p: nat)
    requires SysReady(s) && IsSampleTable(columns) && Stands(s.ht, sup, est, None())
    requires chain in s.handed && ChainLow(chain) && x < CELLS && |sup| == GROUPS && Supports(sup, x)
    requires Names(chain[0], x)
    requires a <= 1 && a <= n <= 29 && |est| == CELLS && (est[x] == 0 ==> a == 1) && v == Next(est[x], n, a) && n > 0
    requires var est' := est[x := v];
             && (Rises(sup, est, est', b) || (s.ht.maxProb == b && Falls(sup, est, est', b, k)))
             && p < CELLS && TopList(sup, est')[0] == p && est'[p] >= HALF && b % 10 < p % 10
    requires Allowed(s, Done(chain, TriesAt(0, n), a == 1, 0, true))
    ensures Step(s, columns, Done(chain, TriesAt(0, n), a == 1, 0, true)).ht.maxProb == b
  {
    hide Tally, Capped, Inv, Next, After, FirstGood, Calm, Names, Rises, Falls, TopList, TxComplete, TriesOk;
    TallyTable(s.ht.cells, sup, est, None(), None());
    AfterIs(sup, est, x, n, a);
    StandsCalm(s.ht, sup, est, x, n);
    AfterIsTable(sup, est, x, n, a);
    CompletedFallback(s.ht, sup, est, chain, n, a, x, b, k, p);
  }

  lemma AfterIsTable(sup: Masks, est: Table, x: nat, n: nat, a: nat)
    requires |est| == CELLS && x < CELLS && FirstGood(sup, est, None(), x, n, a)
    ensures IsTable(sup, After(sup, est, None(), x, n, a))
  {
    NextIsTable(sup, est, None()[x := None()[x] + n], None()[x := a]);
  }

  // ----- The peer and its estimates

  /** An HT peer on 20 MHz with the short guard interval, on the 5 GHz band. */
  function Peer(): Caps {
    DriverCaps(false, BW_20, true, false, false, false, {})
  }

  /** The seeds, with estimates for rate 6 of group 0 and rate 3 of group 1. */
  function Est(six: nat, three: nat): (est: Table)
    ensures |est| == CELLS
    ensures forall k :: 0 <= k < CELLS ==>
              est[k] == if k == 6 then six else if k == 13 then three else if k == 16 then 921
                        else if k == 2 || k == 12 then 1024 else 0
  {
    None()[2 := 1024][12 := 1024][16 := 921][6 := six][13 := three]
  }

  lemma PeerMasks()
    ensures ValidCaps(Peer()) && HtUsable(Peer())
    ensures var sup := MasksOf(Peer());
            && ValidMasks(sup) && sup[0] == sup[1] == {0, 1, 2, 3, 4, 5, 6, 7}
            && forall g :: 2 <= g < GROUPS ==> sup[g] == {}
  {
    hide ValidMasks;
    assert 0 in Mask(Peer(), 0);
    HtMasks(Peer());
  }

  lemma PeerSeeds()
    ensures SeedTable(MasksOf(Peer()), BW_20, SeedRate(MasksOf(Peer()), 6, BW_20)) == Est(921, 0)
  {
    hide ValidMasks, MasksOf, TopRate;
    PeerMasks();
    var sup := MasksOf(Peer());
    assert HasRate(sup, BW_20, 0, 7);
    assert TopRate(sup, BW_20, 9) >= 7;
    forall k: nat | k < CELLS
      ensures SeedEstimate(sup, BW_20, 6, k) == Est(921, 0)[k]
    {
      assert k == Cell(k / 10, k % 10) && GroupBw(0) == GroupBw(1) == BW_20;
    }
  }

  lemma EstIsTable(six: nat, three: nat)
    requires six <= SCALE && three <= SCALE
    ensures IsTable(MasksOf(Peer()), Est(six, three))
  {
    PeerMasks();
    assert SCALE == 4096;
    assert forall i :: i in {2, 6, 12, 13, 16} ==> Supports(MasksOf(Peer()), i);
  }

  lemma Throughputs()
    ensures TpOf(6, 691) == 4 && TpOf(6, 2180) == 15 && TpOf(13, 2560) == 9 && TpOf(13, 1920) == 6
    ensures TpOf(16, 921) == 7 && TpOf(2, 1024) <= 2 && TpOf(12, 1024) <= 2
  {
    hide Duration, TpOf;
    GroupZeroAir();
    TpIs(6, 691, 3282250, 203);
    TpIs(6, 2180, 3282250, 643);
    ThreeAir();
    TpIs(13, 2560, 6646325, 379);
    TpIs(13, 1920, 6646325, 284);
    SixNumbers(1);
    TwoNumbers(0);
    TwoNumbers(1);
  }

  lemma ThreeAir()
    ensures Duration(13) == 6646325
  {
    DurationIs(1, 3);
    assert McsDuration(true, 104) == 6646325;
  }

  /** First the short guard interval leads, later rate 6 of group 0. */
  lemma Leaders()
    ensures var sup := MasksOf(Peer());
            && CorrectedList(sup, Est(691, 0))[0] == 10
            && TopList(sup, Est(2180, 2560))[0] == 6 && TopList(sup, Est(2180, 1920))[0] == 6
  {
    hide TpOf, TopList, MasksOf;
    Throughputs();
    EstIsTable(691, 0);
    EstIsTable(2180, 2560);
    EstIsTable(2180, 1920);
    PeerMasks();
    var sup := MasksOf(Peer());
    FirstIs(sup, Est(691, 0), 16);
    SteadyFalls(Est(691, 0), 1, 6);
    FirstIs(sup, Est(2180, 2560), 6);
    FirstIs(sup, Est(2180, 1920), 6);
  }

  // ----- The run

  /** How the run stands: on the estimates `Est(six, three)`, with the two chains it uses. */
  ghost predicate Stage(s: Sys, r: nat, six: nat, three: nat, c0: Chain, c1: Chain) {
    && OnTheWay(s, MasksOf(Peer()), Est(six, three), r, 1, 1, 7)
    && c0 in s.handed && ChainLow(c0) && Names(c0[0], 6) && c1 in s.handed && ChainLow(c1) && Names(c1[0], 13)
  }

  lemma Steps()
    ensures Next(921, 1, 0) == 691 && Next(691, 1, 1) == 1542 && Next(1542, 1, 1) == 2180
    ensures Next(0, 2, 1) == 2048 && Next(2048, 1, 1) == 2560 && Next(2560, 1, 0) == 1920
  {
    assert Frac(0, 1) == 0 && Frac(1, 1) == 4096 && Frac(1, 2) == 2048;
  }

  lemma Turns()
    ensures Est(2180, 2048)[13 := 2560] == Est(2180, 2560) && Est(2180, 2560)[13 := 1920] == Est(2180, 1920)
    ensures Rises(MasksOf(Peer()), Est(2180, 2048), Est(2180, 2560), 13)
    ensures Falls(MasksOf(Peer()), Est(2180, 2560), Est(2180, 1920), 13, 6)
    ensures Supports(MasksOf(Peer()), 13) && Supports(MasksOf(Peer()), 6)
  {
    hide MasksOf, Est;
    PeerMasks();
  }

  /** One of the completions of the run: `a` of `n` tries of `x` succeeded. */
  lemma StageStep(s: Sys, columns: seq<seq<nat>>, env: Env, r: nat, c0: Chain, c1: Chain, six: nat, three: nat,
                  c: Chain, n: nat, a: nat, x: nat, v: nat) returns (s': Sys)
    requires Stage(s, r, six, three, c0, c1) && IsSampleTable(columns) && EnvOk(env)
    requires (c == c0 && x == 6 && v == Next(six, n, a)) || (c == c1 && x == 13 && v == Next(three, n, a))
    requires a <= 1 <= n <= 2 && (six == 0 || three == 0 ==> a == 1)
    ensures x == 6 ==> Stage(s', r, v, three, c0, c1)
    ensures x == 13 ==> Stage(s', r, six, v, c0, c1)
    ensures var e := Done(c, TriesAt(0, n), a == 1, 0, true);
            SysReady(s) && Allowed(s, e) && s' == Step(s, columns, e)
    ensures SysReady(s') && (CanGoStale(s', columns) ==> CanGoStale(s, columns))
  {
    hide Stands, Underway, Listed, Names, MasksOf, SysReady, CanGoStale, Step, Allowed, Next, CanExceed, TriesAt;
    var sup, est := MasksOf(Peer()), Est(six, three);
    PeerMasks();
    assert x == 6 ==> est[x := v] == Est(v, three);
    assert x == 13 ==> est[x := v] == Est(six, v);
    s' := TrainStep(s, columns, env, sup, est, r, 1, 1, 7, c, n, a, x, v);
    if CanGoStale(s', columns) {
      StaleBefore(s, columns, Done(c, TriesAt(0, n), a == 1, 0, true));
    }
  }

  /** The two completions after which rate 3 of group 1 is the fallback: it has risen to the
      highest estimate, or was the fallback and falls. */
  lemma StageFallback(s: Sys, columns: seq<seq<nat>>, r: nat, c0: Chain, c1: Chain, three: nat, a: nat)
    requires Stage(s, r, 2180, three, c0, c1) && IsSampleTable(columns)
    requires (three == 2048 && a == 1) || (three == 2560 && a == 0 && s.ht.maxProb == 13)
    requires SysReady(s) && Allowed(s, Done(c1, TriesAt(0, 1), a == 1, 0, true))
    ensures Step(s, columns, Done(c1, TriesAt(0, 1), a == 1, 0, true)).ht.maxProb == 13
  {
    hide Stands, Underway, Listed, Names, MasksOf, TopList, SysReady, Step, Allowed, Next, TriesAt, Rises, Falls,
      ChainLow;
    Steps();
    Turns();
    Leaders();
    var v := if a == 1 then 2560 else 1920;
    TrainedFallback(s, columns, MasksOf(Peer()), Est(2180, three), c1, 1, a, 13, v, 13, 6, 6);
  }

  /** The last completion: the fallback fails, falls below rate 6 of group 0 and is kept. */
  lemma LastStep(s: Sys, columns: seq<seq<nat>>, env: Env, r: nat, c0: Chain, c1: Chain)
    requires Stage(s, r, 2180, 2560, c0, c1) && s.ht.maxProb == 13 && IsSampleTable(columns) && EnvOk(env)
    ensures SysReady(s) && CanGoStale(s, columns)
  {
    hide Stage, CanGoStale, Step, Allowed, Next, TriesAt, SysReady, Stale;
    Steps();
    var s' := StageStep(s, columns, env, r, c0, c1, 2180, 2560, c1, 1, 0, 13, 1920);
    StageFallback(s, columns, r, c0, c1, 2560, 0);
    IsStale(s', r, c0, c1);
    StaleNow(s, columns, Done(c1, TriesAt(0, 1), false, 0, true));
  }

  lemma IsStale(s: Sys, r: nat, c0: Chain, c1: Chain)
    requires Stage(s, r, 2180, 1920, c0, c1) && s.ht.maxProb == 13
    ensures Stale(s.ht)
  {
    hide Inv, Capped, Listed, ChainLow, MasksOf, Underway;
    InvShape(s.ht);
    PeerMasks();
    assert Offered(s.ht, STATION, 6) && s.ht.cells[6].prob == 2180 && s.ht.cells[13].prob == 1920;
  }

  /** The completions before. */
  lemma FromFloor(s: Sys, columns: seq<seq<nat>>, env: Env, r: nat, c0: Chain, c1: Chain)
    requires Stage(s, r, 691, 0, c0, c1) && IsSampleTable(columns) && EnvOk(env)
    ensures SysReady(s) && CanGoStale(s, columns)
  {
    hide Stage, CanGoStale, Step, Allowed, Next, TriesAt, SysReady;
    Steps();
    var s1 := StageStep(s, columns, env, r, c0, c1, 691, 0, c0, 1, 1, 6, 1542);
    var s2 := StageStep(s1, columns, env, r, c0, c1, 1542, 0, c0, 1, 1, 6, 2180);
    var s3 := StageStep(s2, columns, env, r, c0, c1, 2180, 0, c1, 2, 1, 13, 2048);
    var s4 := StageStep(s3, columns, env, r, c0, c1, 2180, 2048, c1, 1, 1, 13, 2560);
    StageFallback(s3, columns, r, c0, c1, 2048, 1);
    LastStep(s4, columns, env, r, c0, c1);
  }

  lemma NineUnsupported(g: nat)
    requires g < GROUPS
    ensures |MasksOf(Peer())| == GROUPS && 9 !in MasksOf(Peer())[g]
  {
    hide MasksOf, ValidMasks;
    PeerMasks();
  }

  /** The request whose floor makes rate 3 of rate 0 of group 1. */
  lemma FloorThree(s: Sys, columns: seq<seq<nat>>, env: Env, sup: Masks, est: Table, r: nat)
    returns (s': Sys, c1: Chain, r': nat)
    requires OnTheWay(s, sup, est, r, 1, 1, 7) && RowAt(s.ht, r) == 1
    requires IsSampleTable(columns) && EnvOk(env) && s.ht.sampleWait == 0 && s.ht.sampleTries > 0
    requires |sup| == GROUPS && |est| == CELLS && CorrectedList(sup, est)[0] == 10
    requires s.ht.sampleGroup < GROUPS && columns[0][1] !in sup[s.ht.sampleGroup]
    ensures OnTheWay(s', sup, est, r', 1, 1, 7) && s.handed <= s'.handed
    ensures c1 in s'.handed && ChainLow(c1) && Names(c1[0], 13)
    ensures SysReady(s) && (CanGoStale(s', columns) ==> CanGoStale(s, columns))
  {
    hide Held, Stands, Names, CanGoStale, Step, Allowed, CanExceed, CorrectedList, ApLink, Round, Shape, SysReady,
      ChainLow;
    HeldReady(s, sup, est);
    s', c1, r' := FloorRequest(s, columns, env, sup, est, r, 1, 1, 7, 3, 13);
    HeldReady(s', sup, est);
    if CanGoStale(s', columns) {
      StaleBefore(s, columns, Find(ApLink(env, 3)));
    }
  }

  lemma FromFailure(s: Sys, columns: seq<seq<nat>>, env: Env, r: nat, c0: Chain)
    requires OnTheWay(s, MasksOf(Peer()), Est(691, 0), r, 1, 1, 7) && RowAt(s.ht, r) == 1
    requires IsSampleTable(columns) && columns[0][1] == 9 && EnvOk(env) && s.ht.sampleWait == 0 && s.ht.sampleTries > 0
    requires c0 in s.handed && ChainLow(c0) && Names(c0[0], 6) && s.ht.sampleGroup < GROUPS
    ensures SysReady(s) && CanGoStale(s, columns)
  {
    hide OnTheWay, Names, MasksOf, CanGoStale, CorrectedList, SysReady, ChainLow, IsPermutation, EnvOk;
    NineUnsupported(s.ht.sampleGroup);
    Leaders();
    var s', c1, r' := FloorThree(s, columns, env, MasksOf(Peer()), Est(691, 0), r);
    FromFloor(s', columns, env, r', c0, c1);
  }

  /** The first request, and its failure. */
  lemma FromStart(s: Sys, columns: seq<seq<nat>>, env: Env)
    requires SysReady(s) && IsSampleTable(columns) && columns[0] == CLIMB && EnvOk(env)
    requires StartsWith(s.ht, MasksOf(Peer()), Est(921, 0))
    ensures CanGoStale(s, columns)
  {
    hide Stands, StartsWith, Names, MasksOf, CanGoStale, Step, Allowed, Next, CanExceed, TriesAt, ApLink,
      Round, Shape, Listed, SysReady, ChainLow, NextGroup;
    PeerMasks();
    Steps();
    var s1, c0, r := FirstRequest(s, columns, env, MasksOf(Peer()), Est(921, 0), 6, 1, 7);
    assert Est(921, 0)[6 := 691] == Est(691, 0);
    var s2 := TrainStep(s1, columns, env, MasksOf(Peer()), Est(921, 0), r, 1, 1, 7, c0, 1, 0, 6, 691);
    FromFailure(s2, columns, env, r, c0);
    StaleBefore(s1, columns, Done(c0, TriesAt(0, 1), false, 0, true));
    StaleBefore(s, columns, Find(ApLink(env, 6)));
  }

  /** On either platform some run of an access point from start-up ends with an update after
      which the fallback is not the most reliable rate. */
  lemma FallbackGoesStale(offset: int, table: seq<Entry>) returns (l: Link, columns: seq<seq<nat>>, es: seq<Event>)
    requires offset in {6, 10} && |table| == 4
    ensures l.rssiOffset == offset && StartOk(Peer(), l, table) && IsSampleTable(columns)
    ensures EndsWithUpdate(es) && ValidRun(Start(Peer(), l, table), columns, es)
    ensures Stale(Run(Start(Peer(), l, table), columns, es).ht)
  {
    hide Start, StartOk, Stale, StartsWith, MasksOf, SeedTable, SeedRate, ApLink, StartRate, SysReady, FitableBw,
      IsSampleTable;
    l, columns := FromSeeds(offset, table);
    var s := Start(Peer(), l, table);
    es :| EndsWithUpdate(es) && ValidRun(s, columns, es) && Stale(Run(s, columns, es).ht);
  }

  lemma FromSeeds(offset: int, table: seq<Entry>) returns (l: Link, columns: seq<seq<nat>>)
    requires offset in {6, 10} && |table| == 4
    ensures l.rssiOffset == offset && StartOk(Peer(), l, table) && IsSampleTable(columns)
    ensures CanGoStale(Start(Peer(), l, table), columns)
  {
    hide Start, StartOk, CanGoStale, StartsWith, MasksOf, SeedTable, SeedRate, ApLink, StartRate, SysReady, FitableBw,
      IsSampleTable, Est;
    PeerMasks();
    PeerSeeds();
    var env := EnvOf(Peer(), offset);
    LinkStarts(Peer(), offset, table, 6);
    LinkPermits(env, 6, BW_20);
    l := ApLink(env, 6);
    columns := ClimbTable();
    StartStands(Peer(), l, table);
    FromStart(Start(Peer(), l, table), columns, env);
  }
}
