/** HT peers on 40 MHz or more that support rates 5 and 7, none of 3, 4 and 6, rate 1 or 2, and
    rate 3 of CCK: how an access point gets from CCK to rate 7. */
module ApWide {
  import opened FixedPoint
  import opened RateGroups
  import opened RateStats
  import opened TopRates
  import opened HtState
  import opened HtUpdate
  import opened HtRates
  import opened HtSample
  import opened HtStatus
  import opened HtCap
  import opened SampleTable
  import opened Driver
  import opened Runs
  import opened PeerLow
  import opened ApTables
  import opened ApSteps
  import opened ApSampling
  import opened ApStart
  import opened ApMoves
  import opened ApFive

  /** The supported rates: all that matters of them. */
  ghost predicate WideCck(sup: Masks, x: nat) {
    && ValidMasks(sup) && x in {1, 2} && x in sup[0] && x in sup[2] && 5 in sup[0] && 7 in sup[0] && 5 in sup[2]
    && 3 in sup[CCK] && 3 !in sup[0] && (sup[1] == {} || (x in sup[1] && 5 in sup[1]))
  }

  /** The draws: 8, then 3, which only CCK has, then `x`, 5 and 7. */
  predicate WideDraws(columns: seq<seq<nat>>, x: nat)
  {
    |columns| == 10 && |columns[0]| == 10 && columns[0][..5] == [8, 3, x, 5, 7]
  }

  // ----- The estimates on the way

  /** Estimates of `x` in group 0, of `x` in group 2, and of CCK's rate 3; no others. */
  function Three(a: nat, b: nat, c: nat, x: nat): (est: Table)
    requires x < 10
    ensures |est| == CELLS
    ensures forall k :: 0 <= k < CELLS ==>
              est[k] == if k == x then a else if k == 20 + x then b else if k == 43 then c else 0
  {
    None()[x := a][20 + x := b][43 := c]
  }

  lemma ThreeIsTable(sup: Masks, a: nat, b: nat, c: nat, x: nat)
    requires WideCck(sup, x) && a <= SCALE && b <= SCALE && c <= SCALE
    ensures IsTable(sup, Three(a, b, c, x))
  {
    assert Supports(sup, x) && Supports(sup, 20 + x) && Supports(sup, 43);
  }

  lemma WideAir()
    ensures Duration(21) == 7111250 && Duration(22) == 4740750
    ensures Duration(15) == 3323300 && Duration(25) == 1778000
  {
    hide McsDuration, Duration;
    DurationIs(2, 1);
    DurationIs(2, 2);
    DurationIs(1, 5);
    DurationIs(2, 5);
    WideSymbols();
  }

  lemma WideSymbols()
    ensures McsDuration(false, 108) == 7111250 && McsDuration(false, 162) == 4740750
    ensures McsDuration(true, 208) == 3323300 && McsDuration(false, 432) == 1778000
  {
  }

  /** As long as `x` is reliable, it is the best rate. */
  lemma StillX(sup: Masks, x: nat)
    requires WideCck(sup, x)
    ensures IsTable(sup, Three(4096, 0, 4096, x)) && FastBest(sup, Three(4096, 0, 4096, x)) == x
  {
    hide TpOf, Duration;
    ThreeIsTable(sup, 4096, 0, 4096, x);
    GroupZeroAir();
    CckAir();
    CckTp();
    TpIs(x, 4096, Duration(x), if x == 1 then 247 else 370);
    BestIs(sup, Three(4096, 0, 4096, x), x);
  }

  /** With `x` faded in group 0 and weak in group 2, CCK's rate comes first and `x` of group 2
      second. */
  lemma CckLeads(sup: Masks, x: nat)
    requires WideCck(sup, x)
    ensures var est := Three(3, 141, 4096, x);
            && IsTable(sup, est) && CorrectedList(sup, est)[0] == 43 && CorrectedList(sup, est)[1] == 20 + x
            && FastBest(sup, est) == 20 + x
            && GroupList(sup, est, 0)[1] == 0 && (sup[1] != {} ==> GroupList(sup, est, 1)[1] == 0)
  {
    hide TpOf, Duration, TopList, EstKeys, GroupList;
    ThreeIsTable(sup, 3, 141, 4096, x);
    var est := Three(3, 141, 4096, x);
    GroupZeroAir();
    CckAir();
    WideAir();
    CckTp();
    TpZero(x, 3);
    TpZero(20 + x, 141);
    assert forall k :: 0 <= k < CELLS && est[k] > 0 ==> k == x || k == 20 + x || k == 43;
    CckThenMcs(sup, est, 43, 20 + x);
    ReliableStays(est, 43);
    LowList(sup, x, 0);
    LowList(sup, x, 1);
  }

  lemma LowList(sup: Masks, x: nat, g: nat)
    requires WideCck(sup, x) && g < 2
    ensures GroupList(sup, Three(3, 141, 4096, x), g)[1] == 0
  {
    hide TpOf, Visited;
    var est, n := Three(3, 141, 4096, x), (g + 1) * 10;
    var keys, xs := EstKeys(est), Visited(sup, AllRates, n);
    ThreeIsTable(sup, 3, 141, 4096, x);
    VisitedComplete(sup, AllRates, n, x);
    VisitedDistinct(sup, AllRates, n);
    forall e: nat | e < CELLS && (e == 0 || e in xs) && e != x
      ensures keys[e] == Key(0, 0) && Below(keys[e], keys[x])
    {
      UnratedKey(est, e);
      UnratedKey(est, x);
    }
    OnceAmong(keys, xs, x);
    TopAlone(keys, xs, x);
  }

  /** Rate 5 of group `g`, once trained, is the best rate. */
  lemma FiveLeads(sup: Masks, x: nat, g: nat)
    requires WideCck(sup, x) && g in {1, 2} && 5 in sup[g]
    ensures var est := Three(3, 106, 4096, x)[Cell(g, 5) := 4096];
            IsTable(sup, est) && FastBest(sup, est) == Cell(g, 5)
  {
    hide TpOf, Duration;
    ThreeIsTable(sup, 3, 106, 4096, x);
    var b := Cell(g, 5);
    var est := Three(3, 106, 4096, x)[b := 4096];
    GroupZeroAir();
    CckAir();
    WideAir();
    CckTp();
    TpZero(x, 3);
    TpZero(20 + x, 106);
    TpIs(b, 4096, Duration(b), if g == 1 then 1074 else 1954);
    assert forall k :: 0 <= k < CELLS && est[k] > 0 ==> k == x || k == 20 + x || k == 43 || k == b;
    BestIs(sup, est, b);
  }

  // ----- The downgrade

  /** The second-best rate `x2` fails: 31 tries in vain between two updates. */
  lemma CountedFailing(st: Sound, sup: Masks, chain: Chain, x2: nat)
    requires st.supported == sup && ReportsOn(sup, chain, 0, 31, 0, x2) && |st.cells| == CELLS
    requires |st.maxTp| == MAX_THR_RATES && AllBelow(st.maxTp, CELLS) && st.maxTp[1] == x2 != st.maxTp[0]
    requires st.cells[st.maxTp[0]].attempts <= 1 && st.cells[x2].attempts == 0 == st.cells[x2].success
    requires ReportOk(st, Reported(chain, TriesAt(0, 31)), 1, 0)
    requires x2 / 10 == 2 && sup[0] != {} && |st.groupTp| == GROUPS
    requires |st.groupTp[0]| == |st.groupTp[1]| == MAX_THR_RATES
    requires st.groupTp[0][1] == 0 && (sup[1] != {} ==> st.groupTp[1][1] == 0)
    ensures var u := Digested(st, Reported(chain, TriesAt(0, 31)), 1, 0);
            && u == st.(ampduPackets := st.ampduPackets + 1, ampduLen := st.ampduLen + 1,
                        cells := st.cells[x2 := Credit(st.cells[x2], 31, 0)], maxTp := st.maxTp[1 := 0],
                        sampleWait := u.sampleWait, sampleTries := u.sampleTries, sampleCount := u.sampleCount)
            && (u.sampleWait, u.sampleTries) == Refilled(st)
            && (st.sampleTries > 0 ==> u.sampleCount == st.sampleCount)
    ensures NeedsUpdate(st, Reported(chain, TriesAt(0, 31)), 1, 0)
  {
    hide CreditFrom, CellOf, Reported, TriesAt, Names, TxValid, Inv;
    InvShape(st);
    CountedCells(sup, st.cells, chain, 0, 31, 0, x2);
    CountedKeepsInv(st, Reported(chain, TriesAt(0, 31)), 1, 0);
    var s1 := Counted(st, Reported(chain, TriesAt(0, 31)), 1, 0);
    assert Frac(0, 31) == 0 && Frac(20, 100) == 819;
    assert !Failing(s1.cells[s1.maxTp[0]]) && Failing(s1.cells[x2]);
    assert DowngradeBest(s1, 0) == s1;
    var lower := LowerGroup(sup, 2, 2);
    assert lower < 2;
  }

  /** The state after the failure of `x` in group 2: only the CCK rate is left of the two best. */
  ghost predicate Kicked(st: Ht, sup: Masks, x: nat) {
    && x < 10 && Stands(st, sup, Three(3, 141, 4096, x), None()[20 + x := 31])
    && |st.maxTp| == MAX_THR_RATES && AllBelow(st.maxTp, CELLS) && st.maxTp[0] == 43 && st.maxTp[1] == 0
  }

  lemma KickState(st: Ht, sup: Masks, chain: Chain, x: nat)
    requires WideCck(sup, x) && Stands(st, sup, Three(3, 141, 4096, x), None())
    requires Listed(st, sup, Three(3, 141, 4096, x))
    requires ReportsOn(sup, chain, 0, 31, 0, 20 + x) && st.sampleTries > 0
    ensures TriesOk(chain, TriesAt(0, 31), false)
    ensures var s' := Completed(st, chain, 0, 31, 0, false);
            && Kicked(s', sup, x) && SamePosition(st, s')
            && s'.sampleWait == st.sampleWait && s'.sampleTries == st.sampleTries
  {
    hide Inv, Capped, Tally, Digested, Reported, ReportOk, TriesAt, Names, UpdateRates, GroupList, CorrectedList,
      TriesOk, FastBest, Completed, ListsOk, AirOk;
    var est := Three(3, 141, 4096, x);
    InvShape(st);
    CckLeads(sup, x);
    TriesAtOk(sup, chain, 0, 31, 0, 20 + x);
    CompletedIs(st, chain, 0, 31, 0, false);
    KickReady(st, sup, est, x);
    CountedFailing(st, sup, chain, 20 + x);
    TriedMore(st.cells, sup, est, None(), 20 + x, 31, 0);
    KickRates(st, sup, Digested(st, Reported(chain, TriesAt(0, 31)), 1, 0), x);
  }

  lemma KickReady(st: Ht, sup: Masks, est: Table, x: nat)
    requires WideCck(sup, x) && Stands(st, sup, est, None()) && Supports(sup, 20 + x)
    ensures |st.cells| == CELLS && (forall k :: 0 <= k < CELLS ==> st.cells[k].attempts <= 1)
    ensures st.cells[20 + x].attempts == 0 == st.cells[20 + x].success
    ensures sup[0] != {} && |st.groupTp| == GROUPS && |st.groupTp[0]| == |st.groupTp[1]| == MAX_THR_RATES
  {
    hide Inv, Capped;
    InvShape(st);
  }

  lemma KickRates(st: Ht, sup: Masks, u: Sound, x: nat)
    requires WideCck(sup, x) && u.supported == sup
    requires Tally(u.cells, sup, Three(3, 141, 4096, x), None()[20 + x := 31], None()[20 + x := 0])
    requires FallbackRatedOf(u, Three(3, 141, 4096, x)) && |u.maxTp| == MAX_THR_RATES && AllBelow(u.maxTp, CELLS)
    requires u.maxTp[0] == 43 && u.maxTp[1] == 0
    ensures var s' := UpdateRates(u);
            && Inv(s') && s' == u.(maxTp := s'.maxTp, maxProb := s'.maxProb, cells := s'.cells, table := s'.table)
            && Tally(s'.cells, sup, Three(3, 141, 4096, x), None()[20 + x := 31], None())
            && FallbackRatedOf(s', Three(3, 141, 4096, x)) && s'.maxTp == u.maxTp
  {
    hide Inv, UpdateRates, Corrected, Names, SameEstimate;
    var est := Three(3, 141, 4096, x);
    RatesEncode(u, est);
    ReliableStays(est, 43);
    assert None()[20 + x := 0] == None();
    SameEstimates(UpdateRates(u).cells, u.cells, sup, est, None()[20 + x := 31], None());
  }

  /** The failure as a step of the run. */
  lemma Kick(s: Sys, columns: seq<seq<nat>>, env: Env, sup: Masks, chain: Chain, x: nat) returns (s': Sys)
    requires WideCck(sup, x) && Held(s, sup, Three(3, 141, 4096, x)) && IsSampleTable(columns) && s.ht.sampleTries > 0
    requires chain in s.handed && ReportsOn(sup, chain, 0, 31, 0, 20 + x)
    ensures SysReady(s') && Kicked(s'.ht, sup, x) && SamePosition(s.ht, s'.ht) && s'.handed == s.handed
    ensures s'.ht.sampleWait == s.ht.sampleWait && s'.ht.sampleTries == s.ht.sampleTries
    ensures CanExceed(s', columns, env) ==> CanExceed(s, columns, env)
  {
    hide CanExceed, Capped, TxComplete, Inv, Tally, Listed, TriesAt, TriesOk, Names, Kicked, ReportsOn;
    KickState(s.ht, sup, chain, x);
    TriesAtLength(0, 31);
    var e := Done(chain, TriesAt(0, 31), false, 0, false);
    s' := Step(s, columns, e);
    assert s'.ht == Completed(s.ht, chain, 0, 31, 0, false);
    if CanExceed(s', columns, env) {
      CanExceedBefore(s, columns, env, e);
    }
  }

  lemma TriesAtLength(j: nat, n: nat)
    ensures |TriesAt(j, n)| == 4
  {
  }

  /** There the draw of 5 probes rate 5. */
  lemma KickedSamples(st: Ht, columns: seq<seq<nat>>, sup: Masks, x: nat, r: nat, g: nat)
    requires Kicked(st, sup, x) && WideCck(sup, x) && IsSampleTable(columns) && WideDraws(columns, x)
    requires Reached(st, r, g, 3) && g in {1, 2} && 5 in sup[g]
    ensures Shape(NextSample(st)) && SamePosition(NextSample(st), SampleRate(st, columns).st)
    ensures SampleRate(st, columns).probe == Probe(Cell(g, 5), 0)
  {
    hide NextSample, Round, Current, AllBelow, NextGroup, Inv, Capped, Duration, CellsOk, AirOk;
    DrawAtGoal(st, columns, r, g, 3);
    CckAir();
    GroupZeroAir();
    assert st.air[43] == 18117000 && st.air[0] == 29538500;
    assert FasterBest(st) == 43 && st.cells[43].prob == 4096;
    assert columns[0][3] == columns[0][..5][3] == 5;
    PlainDraw(st, columns);
    assert ProbeIdx(43, 5) == 5;
  }

  lemma KickedProbe(s: Sys, columns: seq<seq<nat>>, env: Env, sup: Masks, x: nat, r: nat, g: nat)
    returns (s': Sys, chain: Chain)
    requires SysReady(s) && Kicked(s.ht, sup, x) && WideCck(sup, x) && IsSampleTable(columns) && WideDraws(columns, x)
    requires EnvOk(env) && Reached(s.ht, r, g, 3) && g in {1, 2} && 5 in sup[g]
    ensures SysReady(s') && Kicked(s'.ht, sup, x) && Shape(NextSample(s.ht)) && SamePosition(NextSample(s.ht), s'.ht)
    ensures chain in s'.handed && ChainOk(chain) && Names(chain[0], Cell(g, 5))
    ensures CanExceed(s', columns, env) ==> CanExceed(s, columns, env)
    ensures ChainLow(chain) || CanExceed(s, columns, env)
  {
    hide CanExceed, Capped, Inv, Tally, NextSample, ApLink, FindRate, Round, SampleRate, Three, RateIdx, GroupFlags,
      Step;
    LinkPermits(env, 6, BW_20);
    KickedSamples(s.ht, columns, sup, x, r, g);
    ProbeLeads(s.ht, columns, ApLink(env, 6));
    SampleSamples(s.ht, columns);
    s', chain := Request(s, columns, env, ApLink(env, 6));
    SamplingKeeps(s.ht, s'.ht, sup, Three(3, 141, 4096, x), None()[20 + x := 31]);
  }

  lemma KickedAfter(sup: Masks, x: nat, b: nat)
    requires WideCck(sup, x) && b in {15, 25} && Supports(sup, b)
    ensures var est, due := Three(3, 141, 4096, x), None()[20 + x := 31];
            && FirstGood(sup, est, due, b, 1, 1)
            && After(sup, est, due, b, 1, 1) == Three(3, 106, 4096, x)[b := 4096]
  {
    hide Next, Three, NextTable;
    var est, due := Three(3, 141, 4096, x), None()[20 + x := 31];
    assert IsTable(sup, est) && x in {1, 2} by {
      KickedTable(sup, x);
    }
    KickedFirst(sup, x, b);
    var after, want := After(sup, est, due, b, 1, 1), Three(3, 106, 4096, x)[b := 4096];
    forall k: nat | k < CELLS
      ensures after[k] == want[k]
    {
      KickedCell(sup, x, b, k);
    }
  }

  lemma KickedTable(sup: Masks, x: nat)
    requires WideCck(sup, x)
    ensures IsTable(sup, Three(3, 141, 4096, x)) && x in {1, 2}
  {
    ThreeIsTable(sup, 3, 141, 4096, x);
  }

  lemma KickedFirst(sup: Masks, x: nat, b: nat)
    requires x in {1, 2} && b in {15, 25} && IsTable(sup, Three(3, 141, 4096, x))
    ensures FirstGood(sup, Three(3, 141, 4096, x), None()[20 + x := 31], b, 1, 1)
  {
    hide Three;
  }

  lemma KickedCell(sup: Masks, x: nat, b: nat, k: nat)
    requires WideCck(sup, x) && b in {15, 25} && Supports(sup, b) && k < CELLS
    ensures var est, due := Three(3, 141, 4096, x), None()[20 + x := 31];
            After(sup, est, due, b, 1, 1)[k] == Three(3, 106, 4096, x)[b := 4096][k]
  {
    hide Three, Frac;
    assert Frac(1, 1) == 4096 && Frac(0, 31) == 0 by {
      Fractions();
    }
    assert Ewma(141, 0) == 106;
    assert Supports(sup, x) && Supports(sup, 20 + x) && Supports(sup, 43);
  }

  lemma Fractions()
    ensures Frac(1, 1) == 4096 && Frac(0, 31) == 0
  {
  }

  // ----- The run

  /** The first HT group after group 0. */
  function FirstAfter(sup: Masks): (g: nat)
    requires |sup| == GROUPS
    ensures g in {1, 2}
  {
    if sup[1] != {} then 1 else 2
  }

  /** Third part: `x` of group 2 is kicked out of the list, and CCK's rate leads on to 5. */
  lemma ThirdPart(s: Sys, columns: seq<seq<nat>>, env: Env, sup: Masks, x: nat, r: nat, c2: Chain)
    requires WideCck(sup, x) && IsSampleTable(columns) && WideDraws(columns, x) && EnvOk(env)
    requires OnTheWay(s, sup, Three(3, 141, 4096, x), r, 2, FirstAfter(sup), 3)
    requires c2 in s.handed && ChainLow(c2) && Names(c2[0], 20 + x)
    ensures CanExceed(s, columns, env)
  {
    hide CanExceed, Held, Round, Three, FastBest, Names, Shape, CorrectedList, GroupList, IsTable, ChainLow, Kicked;
    var est, g := Three(3, 141, 4096, x), FirstAfter(sup);
    CckLeads(sup, x);
    assert columns[0][2] == columns[0][..5][2] == x;
    HeldBest(s, sup, est);
    var s1, r1 := Seek(s, columns, env, sup, est, r, 2, g, 3);
    HeldBest(s1, sup, est);
    HandedOk(s1, sup, est, c2);
    var s2 := Kick(s1, columns, env, sup, c2, x);
    KickedUnderway(s1.ht, s2.ht, sup, x, r1, g);
    var s3, c3 := KickedProbe(s2, columns, env, sup, x, r1, g);
    if ChainLow(c3) {
      FourthPart(s2, s3, columns, env, sup, x, r1, g, c3);
    }
  }

  lemma HandedOk(s: Sys, sup: Masks, est: Table, c: Chain)
    requires Held(s, sup, est) && c in s.handed
    ensures ChainOk(c)
  {
  }

  lemma KickedUnderway(st: Ht, s': Ht, sup: Masks, x: nat, r: nat, g: nat)
    requires Reached(st, r, g, 3) && Kicked(s', sup, x) && st.supported == sup && SamePosition(st, s')
    requires s'.sampleWait == st.sampleWait && s'.sampleTries == st.sampleTries
    ensures Reached(s', r, g, 3) && Shape(s') && s'.supported == sup
  {
    hide Inv, Capped, Tally, Round, Three;
    InvShape(s');
    Moved(st, s', r, g, 3);
  }

  /** Fourth part: rate 5 succeeds, and the draw of 7 follows. */
  lemma FourthPart(s0: Sys, s: Sys, columns: seq<seq<nat>>, env: Env, sup: Masks, x: nat, r: nat, g: nat, c3: Chain)
    requires WideCck(sup, x) && IsSampleTable(columns) && WideDraws(columns, x) && EnvOk(env) && g in {1, 2}
    requires 5 in sup[g]
    requires Reached(s0.ht, r, g, 3) && Shape(NextSample(s0.ht)) && SamePosition(NextSample(s0.ht), s.ht)
    requires SysReady(s) && Kicked(s.ht, sup, x) && s0.ht.supported == sup
    requires c3 in s.handed && ChainLow(c3) && Names(c3[0], Cell(g, 5))
    ensures CanExceed(s, columns, env)
  {
    hide CanExceed, Round, Three, FastBest, Names, Capped, Inv, Tally, After, FirstGood, NextSample, Listed, Step,
      Allowed;
    var est, due, b := Three(3, 141, 4096, x), None()[20 + x := 31], Cell(g, 5);
    KickedAfter(sup, x, b);
    KickedCalm(s.ht, sup, x, b);
    var s' := Complete(s, columns, env, sup, est, due, c3, 0, 1, 1, b);
    FiveLeads(sup, x, g);
    var r' := Onward(s0, s', sup, Three(3, 106, 4096, x)[b := 4096], r, g, 3, 0, 4);
    assert columns[0][4] == columns[0][..5][4] == 7;
    ToSeven(s', columns, env, sup, Three(3, 106, 4096, x)[b := 4096], r', 3, 0, 4);
  }

  lemma KickedCalm(st: Ht, sup: Masks, x: nat, b: nat)
    requires Kicked(st, sup, x) && WideCck(sup, x) && b in {15, 25}
    ensures |st.cells| == CELLS && Calm(st, b, 1)
  {
    hide Inv, Capped, ChainOk;
    assert st.cells[43].attempts == 0 && st.cells[0].attempts <= 1;
  }

  /** Second part: `x` of group 2 is probed and does badly, `x` of group 0 fades. */
  lemma SecondPart(s: Sys, columns: seq<seq<nat>>, env: Env, sup: Masks, x: nat, r: nat, c0: Chain)
    requires WideCck(sup, x) && IsSampleTable(columns) && WideDraws(columns, x) && EnvOk(env)
    requires OnTheWay(s, sup, Three(4096, 0, 4096, x), r, 1, 2, 2)
    requires c0 in s.handed && ChainLow(c0) && Names(c0[0], x)
    ensures CanExceed(s, columns, env)
  {
    hide CanExceed, Held, Round, Three, FastBest, Names, Shape, NextSample;
    var est, g := Three(4096, 0, 4096, x), FirstAfter(sup);
    StillX(sup, x);
    assert columns[0][2] == columns[0][..5][2] == x && ProbeIdx(x, x) == x && Cell(2, x) == 20 + x;
    var s1, r1 := Seek(s, columns, env, sup, est, r, 1, 2, 2);
    var s2, c2 := ProbeAt(s1, columns, env, sup, est, r1, 2, 2, 20 + x);
    if ChainLow(c2) {
      HeldBest(s1, sup, est);
      var r2 := Onward(s1, s2, sup, est, r1, 2, 2, g, 3);
      Weaken(s2, columns, env, sup, x, r2, c0, c2, 27);
    }
  }

  lemma Weaken(s: Sys, columns: seq<seq<nat>>, env: Env, sup: Masks, x: nat, r: nat, c0: Chain, c2: Chain, n: nat)
    requires WideCck(sup, x) && IsSampleTable(columns) && WideDraws(columns, x) && EnvOk(env) && n >= 27
    requires OnTheWay(s, sup, Three(4096, 0, 4096, x), r, 2, FirstAfter(sup), 3)
    requires c0 in s.handed && ChainLow(c0) && Names(c0[0], x)
    requires c2 in s.handed && ChainLow(c2) && Names(c2[0], 20 + x)
    ensures CanExceed(s, columns, env)
  {
    hide CanExceed, Held, Three, Names, Underway, WideDraws, FirstAfter, ChainLow, Next, Stands, SysReady,
      IsSampleTable, Tracked;
    var est, g := Three(4096, 0, 4096, x), FirstAfter(sup);
    assert Supports(sup, 20 + x) && Supports(sup, x);
    FirstBad();
    HeldReady(s, sup, est);
    var s1 := Train(s, columns, env, sup, est, r, 2, g, 3, c2, 29, 1, 20 + x, 141);
    var s2 := Fade(s1, columns, env, sup, est[20 + x := 141], r, 2, g, 3, c0, x, n);
    Faded(n);
    assert est[20 + x := 141][x := 3] == Three(3, 141, 4096, x);
    ThirdPart(s2, columns, env, sup, x, r, c2);
  }

  lemma FirstBad()
    ensures Next(0, 29, 1) == 141
  {
    assert Frac(1, 29) == 141;
  }

  lemma Faded(n: nat)
    requires n >= 27
    ensures Tracked(4096, 0, n) == 3
  {
    hide Tracked, Remaining;
    TrackedRemaining(4096, 0, n);
    assert Abs(0 - 4096) == 4096 && n == n - 27 + 27;
    RemainingFrom4096(n - 27);
  }

  /** First part: CCK's rate 3 is probed from `x`, and succeeds. */
  lemma FirstPart(s: Sys, columns: seq<seq<nat>>, env: Env, sup: Masks, x: nat, r: nat, c0: Chain)
    requires WideCck(sup, x) && IsSampleTable(columns) && WideDraws(columns, x) && EnvOk(env)
    requires OnTheWay(s, sup, None()[x := 4096], r, 1, CCK, 1)
    requires c0 in s.handed && ChainLow(c0) && Names(c0[0], x)
    ensures CanExceed(s, columns, env)
  {
    hide CanExceed, Held, Round, FastBest, Names, Shape, NextSample;
    var est := None()[x := 4096];
    BlankBest(sup, x);
    assert columns[0][1] == columns[0][..5][1] == 3 && ProbeIdx(x, 3) == 3 && Cell(CCK, 3) == 43;
    var s1, r1 := Seek(s, columns, env, sup, est, r, 1, CCK, 1);
    var s2, c1 := ProbeAt(s1, columns, env, sup, est, r1, CCK, 1, 43);
    if ChainLow(c1) {
      HeldBest(s1, sup, est);
      var r2 := Onward(s1, s2, sup, est, r1, CCK, 1, 2, 2);
      assert Frac(1, 1) == 4096 && Supports(sup, 43);
      HeldReady(s2, sup, est);
      var s3 := Train(s2, columns, env, sup, est, r2, 1, 2, 2, c1, 1, 1, 43, 4096);
      assert est[43 := 4096] == Three(4096, 0, 4096, x);
      SecondPart(s3, columns, env, sup, x, r2, c0);
    }
  }

  lemma FiveFromWideCck(c: Caps, offset: int, table: seq<Entry>, columns: seq<seq<nat>>, x: nat)
    requires PeerOk(c, offset, table) && IsSampleTable(columns) && WideDraws(columns, x)
    requires !c.vht && 5 in c.htRates && 7 in c.htRates && 6 !in c.htRates && 3 !in c.htRates
    requires x in {1, 2} && x in c.htRates && c.bandwidth >= BW_40 && c.band2g && 3 in c.cckRates
    ensures var l, env := ApLink(EnvOf(c, offset), 6), EnvOf(c, offset);
            StartOk(c, l, table) && CanExceed(Start(c, l, table), columns, env)
  {
    hide CanExceed, Start, Held, Round, Shape, SeedTable, SeedRate, ApLink;
    HtMasks(c);
    BlankPeer(c);
    assert columns[0][0] == columns[0][..5][0] == 8;
    var s, r, chain := BlankTrain(c, offset, table, columns, x, CCK, 1);
    FirstPart(s, columns, EnvOf(c, offset), MasksOf(c), x, r, chain);
  }
}
