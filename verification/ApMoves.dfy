/** The moves that the runs beyond the cap are made of: probing a wanted rate, training a rate,
    and the two ways up from there. */
module ApMoves {
  import opened FixedPoint
  import opened RateGroups
  import opened Throughput
  import opened HtState
  import opened HtRates
  import opened HtSample
  import opened HtCap
  import opened SampleTable
  import opened Signal
  import opened Driver
  import opened Runs
  import opened ApTables
  import opened ApSteps
  import opened ApSampling
  import opened ApStart

  // ----- Probing a rate

  lemma {:induction false} SteadySpec(est: Table, g: nat, i: nat)
    requires |est| == CELLS && g < GROUPS && i < GROUP_RATES
    ensures Steady(est, g, i) == 0 || est[Cell(g, Steady(est, g, i))] >= HALF
    ensures est[Cell(g, i)] >= HALF ==> Steady(est, g, i) == i
  {
    if i > 0 {
      SteadySpec(est, g, i - 1);
    }
  }

  lemma ReliableStays(est: Table, k: nat)
    requires |est| == CELLS && k < CELLS && est[k] >= HALF
    ensures Corrected(est, k) == k
  {
    SteadySpec(est, k / 10, k % 10);
  }

  /** Neither the primary rate nor the fallback is a rate without an estimate, above rate 0. */
  lemma UnratedIsNeither(st: Ht, sup: Masks, est: Table, k: nat)
    requires IsTable(sup, est) && Listed(st, sup, est) && FallbackRatedOf(st, est) && k < CELLS && est[k] == 0
    requires k % 10 > 0
    ensures |st.maxTp| == 4 && k != st.maxTp[0] && k != st.maxProb
  {
    hide TopList, GroupList, Corrected, Names, IsTable;
    CorrectedRated(est, TopList(sup, est)[0]);
  }

  lemma CorrectedRated(est: Table, u: nat)
    requires |est| == CELLS && u < CELLS
    ensures Corrected(est, u) % 10 == 0 || est[Corrected(est, u)] >= HALF > 0
  {
    SteadySpec(est, u / 10, u % 10);
  }

  /** Group `g` reads a supported draw that starts no walk. */
  predicate Offer(sup: Masks, est: Table, g: nat, v: nat)
    requires |sup| == GROUPS && |est| == CELLS && g < GROUPS
  {
    v < GROUP_RATES && v in sup[g] && Plain(sup, est, v)
  }

  lemma DrawAtGoal(st: Ht, columns: seq<seq<nat>>, r: nat, g: nat, row: nat)
    requires Reached(st, r, g, row) && IsSampleTable(columns)
    ensures st.sampleGroup == g && Current(st, columns) == columns[0][row]
  {
    hide Round, ValidMasks, AllBelow, Current;
    DrawIs(st, columns, r, g, row);
  }

  /** What is sampled there. */
  lemma Samples(st: Ht, columns: seq<seq<nat>>, sup: Masks, est: Table, r: nat, g: nat, row: nat, cell: nat)
    requires Reached(st, r, g, row) && IsSampleTable(columns) && st.supported == sup && IsTable(sup, est)
    requires Listed(st, sup, est) && FallbackRatedOf(st, est)
    requires FasterBest(st) == FastBest(sup, est) && st.cells[FasterBest(st)].prob == est[FastBest(sup, est)]
    requires Offer(sup, est, g, columns[0][row]) && cell == Cell(g, ProbeIdx(FastBest(sup, est), columns[0][row]))
    requires cell < CELLS && est[cell] == 0 && cell % 10 > 0 && cell % 10 + 1 >= FastBest(sup, est) % 10
    ensures Shape(NextSample(st)) && SamePosition(NextSample(st), SampleRate(st, columns).st)
    ensures SampleRate(st, columns).probe == Probe(cell, 0)
  {
    hide NextSample, FastBest, FasterBest, Listed, Round, Current, IsTable, ValidMasks, AllBelow, NextGroup;
    DrawAtGoal(st, columns, r, g, row);
    PlainDraw(st, columns);
    UnratedIsNeither(st, sup, est, cell);
  }

  /** A request that probes `cell` in group `g`. */
  lemma ProbeAt(s: Sys, columns: seq<seq<nat>>, env: Env, sup: Masks, est: Table, r: nat, g: nat, row: nat, cell: nat)
    returns (s': Sys, chain: Chain)
    requires Held(s, sup, est) && Reached(s.ht, r, g, row) && IsSampleTable(columns) && EnvOk(env)
    requires |sup| == GROUPS && |est| == CELLS && Offer(sup, est, g, columns[0][row])
    requires cell == Cell(g, ProbeIdx(FastBest(sup, est), columns[0][row])) && cell < CELLS
    requires est[cell] == 0 && cell % 10 > 0 && cell % 10 + 1 >= FastBest(sup, est) % 10
    ensures Held(s', sup, est) && Shape(NextSample(s.ht)) && SamePosition(NextSample(s.ht), s'.ht) && Shape(s'.ht)
    ensures s'.ht.supported == s.ht.supported && chain in s'.handed && s.handed <= s'.handed
    ensures ChainOk(chain) && Names(chain[0], cell)
    ensures CanExceed(s', columns, env) ==> CanExceed(s, columns, env)
    ensures ChainLow(chain) || CanExceed(s, columns, env)
    ensures RateIdx(cell) > CAP ==> CanExceed(s, columns, env)
  {
    hide CanExceed, Listed, Round, ApLink, ChainLow, NextSample, Tally, Capped, Inv, FastBest, SampleRate, FindRate,
      RateIdx, Step;
    LinkPermits(env, 6, BW_20);
    HeldBest(s, sup, est);
    TallyTable(s.ht.cells, sup, est, None(), None());
    Samples(s.ht, columns, sup, est, r, g, row, cell);
    ProbeLeads(s.ht, columns, ApLink(env, 6));
    s', chain := HeldRequest(s, columns, env, sup, est, ApLink(env, 6));
    HeldBest(s', sup, est);
  }

  /** The way to another goal. */
  lemma Retarget(st: Ht, r: nat, g: nat, row: nat, g': nat, row': nat)
    requires Underway(st, r, g, row) && g' < GROUPS && st.supported[g'] != {} && 1 <= row' <= 7
    requires Rank(st, r) <= Goal(g', row')
    ensures Underway(st, r, g', row')
  {
  }

  /** From a goal on toward another one. */
  lemma Onward(s: Sys, s': Sys, sup: Masks, est: Table, r: nat, g: nat, row: nat, g': nat, row': nat) returns (r': nat)
    requires Reached(s.ht, r, g, row) && Held(s', sup, est)
    requires Shape(NextSample(s.ht)) && SamePosition(NextSample(s.ht), s'.ht) && s'.ht.supported == s.ht.supported
    requires g' < GROUPS && s.ht.supported[g'] != {} && 1 <= row' <= 7 && Goal(g, row) < Goal(g', row')
    ensures OnTheWay(s', sup, est, r', row, g', row')
  {
    hide NextSample, Round, Stands, Listed, ValidMasks, AllBelow, SysReady;
    HeldBest(s', sup, est);
    Retarget(s.ht, r, g, row, g', row');
    r' := MovedOn(s.ht, s'.ht, r, g', row');
  }

  // ----- From rate 5 or 6 to rate 7

  /** With a reliable best rate of 5 or 6, the draw of 7 exceeds the cap. */
  lemma ToSeven(s: Sys, columns: seq<seq<nat>>, env: Env, sup: Masks, est: Table, r: nat, lo: nat, g: nat, row: nat)
    requires OnTheWay(s, sup, est, r, lo, g, row) && IsSampleTable(columns) && EnvOk(env)
    requires |sup| == GROUPS && |est| == CELLS && g != CCK && columns[0][row] == 7 && 7 in sup[g]
    requires FastBest(sup, est) % 10 in {5, 6} && est[FastBest(sup, est)] >= HALF
    ensures CanExceed(s, columns, env)
  {
    hide CanExceed, Held, FastBest, Round, Shape;
    SevenUnrated(s, sup, est, g);
    var tp1 := FastBest(sup, est);
    assert tp1 % 10 % 2 == tp1 % 2;
    var s1, r1 := Seek(s, columns, env, sup, est, r, lo, g, row);
    var cell := Cell(g, 7);
    assert ProbeIdx(tp1, 7) == 7 && RateIdx(cell) == 7;
    var s2, chain := ProbeAt(s1, columns, env, sup, est, r1, g, row, cell);
  }

  lemma SevenUnrated(s: Sys, sup: Masks, est: Table, g: nat)
    requires Held(s, sup, est) && g < GROUPS && g != CCK
    ensures |est| == CELLS && est[Cell(g, 7)] == 0
  {
    hide Inv, Listed, ChainLow, ListsLow;
    assert Quiet(Cell(g, 7), s.ht.cells[Cell(g, 7)]);
  }

  // ----- Training a rate

  lemma AfterIs(sup: Masks, est: Table, x: nat, n: nat, a: nat)
    requires IsTable(sup, est) && x < CELLS && Supports(sup, x) && a <= n <= 100 && (est[x] == 0 && n > 0 ==> a > 0)
    ensures Next(est[x], n, a) >= 0 && FirstGood(sup, est, None(), x, n, a)
    ensures After(sup, est, None(), x, n, a) == est[x := Next(est[x], n, a)]
  {
    NextBounds(est[x], n, a);
  }

  /** A completion with an update: `a` of `n` tries of `x` succeeded, and its estimate becomes
      `v`. */
  lemma TrainStep(s: Sys, columns: seq<seq<nat>>, env: Env, sup: Masks, est: Table, r: nat, lo: nat, g: nat, row: nat,
                  chain: Chain, n: nat, a: nat, x: nat, v: nat) returns (s': Sys)
    requires SysReady(s) && IsSampleTable(columns) && Stands(s.ht, sup, est, None())
    requires Underway(s.ht, r, g, row) && lo <= RowAt(s.ht, r)
    requires chain in s.handed && ChainLow(chain) && x < CELLS && |sup| == GROUPS && Supports(sup, x)
    requires Names(chain[0], x)
    requires a <= 1 && a <= n <= 29 && |est| == CELLS && (est[x] == 0 ==> a == 1) && v == Next(est[x], n, a) && n > 0
    ensures OnTheWay(s', sup, est[x := v], r, lo, g, row) && s'.handed == s.handed && SamePosition(s.ht, s'.ht)
    ensures (s'.ht.sampleWait, s'.ht.sampleTries) == Refilled(s.ht)
    ensures var e := Done(chain, TriesAt(0, n), a == 1, 0, true); Allowed(s, e) && s' == Step(s, columns, e)
    ensures CanExceed(s', columns, env) ==> CanExceed(s, columns, env)
  {
    hide CanExceed, Listed, Round, Tally, Capped, Inv, Next, After, FirstGood, Calm, Names, Step, Allowed;
    TallyTable(s.ht.cells, sup, est, None(), None());
    AfterIs(sup, est, x, n, a);
    StandsCalm(s.ht, sup, est, x, n);
    s' := Complete(s, columns, env, sup, est, None(), chain, 0, n, a, x);
    InvShape(s'.ht);
    Moved(s.ht, s'.ht, r, g, row);
  }

  lemma Train(s: Sys, columns: seq<seq<nat>>, env: Env, sup: Masks, est: Table, r: nat, lo: nat, g: nat, row: nat,
              chain: Chain, n: nat, a: nat, x: nat, v: nat) returns (s': Sys)
    requires SysReady(s) && IsSampleTable(columns) && Stands(s.ht, sup, est, None())
    requires Underway(s.ht, r, g, row) && lo <= RowAt(s.ht, r)
    requires chain in s.handed && ChainLow(chain) && x < CELLS && |sup| == GROUPS && Supports(sup, x)
    requires Names(chain[0], x)
    requires a <= 1 && a <= n <= 29 && |est| == CELLS && (est[x] == 0 ==> a == 1) && v == Next(est[x], n, a) && n > 0
    ensures OnTheWay(s', sup, est[x := v], r, lo, g, row) && s'.handed == s.handed && Rank(s'.ht, r) == Rank(s.ht, r)
    ensures CanExceed(s', columns, env) ==> CanExceed(s, columns, env)
  {
    hide CanExceed, Held, Stands, Underway, Next, Names, Step, Allowed, SysReady, IsSampleTable;
    s' := TrainStep(s, columns, env, sup, est, r, lo, g, row, chain, n, a, x, v);
  }

  // ----- Which rate is the best one

  /** Rate `u` is reliable, throughput is highest there, and no other rated one takes less air. */
  ghost predicate IsBest(sup: Masks, est: Table, u: nat) {
    && |sup| == GROUPS && |est| == CELLS && u < CELLS && Supports(sup, u) && est[u] >= HALF && TpOf(u, est[u]) > 0
    && Duration(u) <= Duration(0)
    && forall k :: 0 <= k < CELLS && k != u && est[k] > 0 ==>
         TpOf(k, est[k]) < TpOf(u, est[u]) && Duration(u) <= Duration(k)
  }

  lemma BestIs(sup: Masks, est: Table, u: nat)
    requires IsTable(sup, est) && IsBest(sup, est, u)
    ensures FastBest(sup, est) == u
  {
    hide TpOf, TopList, Duration, Corrected;
    FirstIs(sup, est, u);
    ReliableStays(est, u);
    TopListElements(sup, est, 1);
  }

  /** The air time of rate `i` of an MCS group. */
  function McsAir(g: nat, i: nat): nat
    requires g < GROUPS && g != CCK && i < 8
  {
    McsDuration(GroupFlags(g).sgi, BitsPerSymbol(GroupBw(g), i))
  }

  lemma DurationIs(g: nat, i: nat)
    requires g < GROUPS && g != CCK && i < 8
    ensures Cell(g, i) < CELLS && Duration(Cell(g, i)) == McsAir(g, i)
  {
  }

  /** The throughput of a rate with air time `air`. */
  lemma TpIs(k: nat, p: nat, air: nat, q: nat)
    requires k < CELLS && Duration(k) == air > 0 && p >= 409
    requires var n := if k / 10 == CCK then air else 108000 + air;
             var sat := if p > 3686 then 3686 else p;
             q * n <= sat * 1000000 < (q + 1) * n
    ensures TpOf(k, p) == 100 * q / 4096
  {
    hide Duration;
    assert TENTH == 409 && NINE_TENTHS == 3686;
    var n := Nsecs(108, SCALE, k / 10 == CCK, air);
    assert n == if k / 10 == CCK then air else 108000 + air;
    ExactQuotient(Saturated(p) * 1000000, n, q);
  }

  lemma TpZero(k: nat, p: nat)
    requires k < CELLS && p < 409
    ensures TpOf(k, p) == 0
  {
    assert TENTH == 409;
  }

  lemma GroupZeroAir()
    ensures Duration(0) == 29538500 && Duration(1) == 14769250 && Duration(2) == 9846250 && Duration(3) == 7384750
    ensures Duration(4) == 4923250 && Duration(5) == 3692500 && Duration(6) == 3282250
  {
    hide McsDuration, Duration;
    PlainAirs();
    forall i | 0 <= i < 7
      ensures Duration(i) == McsDuration(false, [26, 52, 78, 104, 156, 208, 234][i])
    {
      DurationIs(0, i);
    }
  }

  lemma PlainAirs()
    ensures McsDuration(false, 26) == 29538500 && McsDuration(false, 52) == 14769250
    ensures McsDuration(false, 78) == 9846250 && McsDuration(false, 104) == 7384750
    ensures McsDuration(false, 156) == 4923250 && McsDuration(false, 208) == 3692500
    ensures McsDuration(false, 234) == 3282250
  {
  }

  lemma CckAir()
    ensures Duration(40) == 192948000 && Duration(41) == 96676000 && Duration(42) == 35574000
    ensures Duration(43) == 18117000
  {
    hide CckAckDuration;
    CckNumbers();
  }

  lemma CckNumbers()
    ensures CckAckDuration(10, false) == 192948000 && CckAckDuration(20, false) == 96676000
    ensures CckAckDuration(55, false) == 35574000 && CckAckDuration(110, false) == 18117000
  {
    hide CckDuration;
    CckFrames();
    CckAcks();
  }

  lemma CckFrames()
    ensures CckDuration(10, false, 24000) == 192234000 && CckDuration(20, false, 24000) == 96218000
    ensures CckDuration(55, false, 24000) == 35116000 && CckDuration(110, false, 24000) == 17659000
  {
  }

  lemma CckAcks()
    ensures CckDuration(10, false, 60) == 714000 && CckDuration(20, false, 60) == 458000
  {
  }

  // ----- From rate 3 or 4 to rate 5

  /** Next to rate 5 of group 0 every rated rate is slow. */
  ghost predicate SlowBesideFive(est: Table) {
    |est| == CELLS && forall k :: 0 <= k < CELLS && est[k] > 0 ==> TpOf(k, est[k]) < 23 && Duration(k) >= 3692500
  }

  lemma FiveIsBest(sup: Masks, est: Table)
    requires IsTable(sup, est) && SlowBesideFive(est) && 5 in sup[0]
    ensures IsTable(sup, est[5 := 4096]) && FastBest(sup, est[5 := 4096]) == 5
  {
    hide TpOf, Duration;
    GroupZeroAir();
    TpIs(5, 4096, 3692500, 969);
    BestIs(sup, est[5 := 4096], 5);
  }

  /** With a reliable best rate of 3 or 4, a draw of 5 probes rate 5; once it has succeeded, the
      draw of 7 exceeds the cap. */
  lemma ToFive(s: Sys, columns: seq<seq<nat>>, env: Env, sup: Masks, est: Table, r: nat, lo: nat, row: nat)
    requires OnTheWay(s, sup, est, r, lo, 0, row) && IsSampleTable(columns) && EnvOk(env) && row <= 6
    requires IsTable(sup, est) && columns[0][row] == 5 && columns[0][row + 1] == 7 && 5 in sup[0] && 7 in sup[0]
    requires FastBest(sup, est) % 10 in {3, 4} && est[FastBest(sup, est)] >= HALF
    requires SlowBesideFive(est) && est[5] == 0
    ensures CanExceed(s, columns, env)
  {
    hide CanExceed, Held, FastBest, Round, SlowBesideFive, Shape;
    var tp1 := FastBest(sup, est);
    assert tp1 % 10 % 2 == tp1 % 2;
    assert ProbeIdx(tp1, 5) == 5 && Cell(0, 5) == 5;
    var s1, r1 := Seek(s, columns, env, sup, est, r, lo, 0, row);
    var s2, chain := ProbeAt(s1, columns, env, sup, est, r1, 0, row, 5);
    if ChainLow(chain) {
      var r2 := Onward(s1, s2, sup, est, r1, 0, row, 0, row + 1);
      FiveIsBest(sup, est);
      TrainFive(s2, columns, env, sup, est, r2, row, chain);
    }
  }

  lemma TrainFive(s: Sys, columns: seq<seq<nat>>, env: Env, sup: Masks, est: Table, r: nat, row: nat, chain: Chain)
    requires OnTheWay(s, sup, est, r, row, 0, row + 1) && IsSampleTable(columns) && EnvOk(env)
    requires |sup| == GROUPS && |est| == CELLS && est[5] == 0 && 5 in sup[0] && 7 in sup[0] && columns[0][row + 1] == 7
    requires chain in s.handed && ChainLow(chain) && Names(chain[0], 5) && FastBest(sup, est[5 := 4096]) == 5
    ensures CanExceed(s, columns, env)
  {
    hide CanExceed, FastBest, Round, Stands, Listed, Shape, SysReady;
    assert Frac(1, 1) == 4096;
    var s' := Train(s, columns, env, sup, est, r, row, 0, row + 1, chain, 1, 1, 5, 4096);
    ToSeven(s', columns, env, sup, est[5 := 4096], r, row, 0, row + 1);
  }

  // ----- The first requests

  lemma UnsampledRound(st: Ht)
    requires Shape(st) && Unsampled(st)
    ensures Round(st, 0)
  {
    assert forall h :: 0 <= h < GROUPS ==> PosOf(st, h) == Pos(0, 0);
  }

  /** The first request draws what group 0 does not support; the floor makes rate `x` of group 0
      of the rate 0 that the table still holds. */
  lemma FirstRequest(s: Sys, columns: seq<seq<nat>>, env: Env, sup: Masks, est: Table, x: nat, g: nat, row: nat)
    returns (s': Sys, chain: Chain, r: nat)
    requires SysReady(s) && IsSampleTable(columns) && EnvOk(env) && StartsWith(s.ht, sup, est) && IsGate(x)
    requires |sup| == GROUPS && columns[0][0] !in sup[0] && g < GROUPS && sup[g] != {} && 1 <= row <= 7
    requires Goal(g, row) > 0
    ensures SysReady(s') && Stands(s'.ht, sup, est, None()) && Underway(s'.ht, r, g, row) && RowAt(s'.ht, r) == 1
    ensures s'.ht.sampleWait == 0 && s'.ht.sampleTries == 4 && s'.ht.supported == sup
    ensures s'.ht.sampleGroup == NextGroup(sup, 0)
    ensures chain in s'.handed && ChainOk(chain) && Names(chain[0], x)
    ensures Allowed(s, Find(ApLink(env, x))) && s' == Step(s, columns, Find(ApLink(env, x)))
    ensures CanExceed(s', columns, env) ==> CanExceed(s, columns, env)
    ensures ChainLow(chain)
  {
    hide CanExceed, Stands, NextSample, ApLink, FindRate, Round, NextGroup, Unsampled, Shape, TopList, Step;
    StartShape(s.ht, sup, est);
    FirstDraw(s.ht, columns);
    LinkPermits(env, x, BW_20);
    FirstChain(s.ht, columns, env, sup, est, x);
    s', chain := Request(s, columns, env, ApLink(env, x));
    r := FirstMove(s.ht, s'.ht, sup, est, g, row);
  }

  lemma StartShape(st: Ht, sup: Masks, est: Table)
    requires StartsWith(st, sup, est)
    ensures Shape(st) && Round(st, 0) && Ready(st) && ChainLow(st.table) && st.supported == sup && Unsampled(st)
  {
    hide Capped, Inv, Tally, TopList;
    InvShape(st);
    UnsampledRound(st);
  }

  lemma FirstChain(st: Ht, columns: seq<seq<nat>>, env: Env, sup: Masks, est: Table, x: nat)
    requires StartsWith(st, sup, est) && IsSampleTable(columns) && EnvOk(env) && IsGate(x)
    requires SampleRate(st, columns).probe.NoProbe?
    ensures LinkOk(ApLink(env, x)) && |FindRate(st, columns, ApLink(env, x)).chain| == 4
    ensures Names(FindRate(st, columns, ApLink(env, x)).chain[0], x)
  {
    hide Capped, Inv, Tally, TopList, ApLink, FindRate, SampleRate, Unsampled;
    LinkPermits(env, x, BW_20);
    FloorRaises(st, columns, ApLink(env, x));
  }

  /** Sampling moves on to the second row. */
  lemma FirstMove(st: Ht, s': Ht, sup: Masks, est: Table, g: nat, row: nat) returns (r: nat)
    requires StartsWith(st, sup, est) && Shape(st) && s' == NextSample(st)
    requires |sup| == GROUPS && g < GROUPS && sup[g] != {} && 1 <= row <= 7 && Goal(g, row) > 0
    ensures Stands(s', sup, est, None()) && Underway(s', r, g, row) && RowAt(s', r) == 1
    ensures s'.sampleWait == 0 && s'.sampleTries == 4 && s'.supported == sup && s'.sampleGroup == NextGroup(sup, 0)
  {
    hide Capped, Inv, Tally, TopList, NextSample, Round, NextGroup, Shape;
    StartShape(st, sup, est);
    NextSampleKeepsShape(st);
    NextSampleFrame(st);
    SamplingKeeps(st, s', sup, est, None());
    Retarget0(st, g, row);
    r := MovedOn(st, s', 0, g, row);
    NextSampleGroup(st);
  }

  lemma FirstDraw(st: Ht, columns: seq<seq<nat>>)
    requires Shape(st) && Unsampled(st) && IsSampleTable(columns) && columns[0][0] !in st.supported[0]
    ensures SampleRate(st, columns) == Sampled(NextSample(st), NoProbe)
  {
    hide NextSample;
    assert Current(st, columns) == columns[0][0];
  }

  lemma Retarget0(st: Ht, g: nat, row: nat)
    requires Shape(st) && Round(st, 0) && st.sampleGroup == 0 && g < GROUPS && st.supported[g] != {} && 1 <= row <= 7
    requires Goal(g, row) > 0
    ensures Underway(st, 0, g, row) && Rank(st, 0) < Goal(g, row)
  {
  }

  lemma NextSampleGroup(st: Ht)
    requires Shape(st)
    ensures NextSample(st).sampleGroup == NextGroup(st.supported, st.sampleGroup)
    ensures st.supported[NextSample(st).sampleGroup] != {}
  {
  }

  // ----- Training what the seeds put first

  /** A completion that tells nothing, to have the table rebuilt. */
  lemma Settle(s: Sys, columns: seq<seq<nat>>, env: Env, sup: Masks, est: Table, r: nat, lo: nat, g: nat, row: nat,
               chain: Chain) returns (s': Sys)
    requires SysReady(s) && IsSampleTable(columns) && Stands(s.ht, sup, est, None())
    requires Underway(s.ht, r, g, row) && lo <= RowAt(s.ht, r) && chain in s.handed && ChainLow(chain)
    ensures OnTheWay(s', sup, est, r, lo, g, row) && s'.handed == s.handed && SamePosition(s.ht, s'.ht)
    ensures (s'.ht.sampleWait, s'.ht.sampleTries) == Refilled(s.ht)
    ensures var e := Done(chain, TriesAt(0, 0), false, 0, true); Allowed(s, e) && s' == Step(s, columns, e)
    ensures CanExceed(s', columns, env) ==> CanExceed(s, columns, env)
  {
    hide CanExceed, Listed, Round, Tally, Capped, Inv, After, FirstGood, Calm, Step, Allowed;
    TallyTable(s.ht.cells, sup, est, None(), None());
    var x := SomeCell(sup);
    AfterNothing(sup, est, x);
    StandsCalm(s.ht, sup, est, x, 0);
    s' := Complete(s, columns, env, sup, est, None(), chain, 0, 0, 0, x);
    InvShape(s'.ht);
    Moved(s.ht, s'.ht, r, g, row);
  }

  /** A request whose draw is not supported: the floor makes rate `m` of what the table puts
      first. */
  lemma FloorRequest(s: Sys, columns: seq<seq<nat>>, env: Env, sup: Masks, est: Table, r: nat, lo: nat, g: nat,
                     row: nat, m: nat, b: nat) returns (s': Sys, chain: Chain, r': nat)
    requires OnTheWay(s, sup, est, r, lo, g, row) && Rank(s.ht, r) < Goal(g, row) && IsSampleTable(columns)
    requires EnvOk(env)
    requires s.ht.sampleWait == 0 && s.ht.sampleTries > 0 && s.ht.sampleGroup < GROUPS && |sup| == GROUPS
    requires columns[0][RowAt(s.ht, r)] !in sup[s.ht.sampleGroup] && IsGate(m) && |est| == CELLS
    requires var q := CorrectedList(sup, est)[0];
             && RateIdx(q) <= m && b == Cell(q / 10, m) && b < CELLS && RateIdx(b) == m
             && (GroupBw(q / 10) == BW_20 || m in {0, 4, 6})
    ensures OnTheWay(s', sup, est, r', lo, g, row) && s.handed <= s'.handed
    ensures s'.ht.sampleWait == 0 && s'.ht.sampleTries == s.ht.sampleTries
    ensures s'.ht.sampleGroup == NextGroup(sup, s.ht.sampleGroup)
    ensures r' == if s'.ht.sampleGroup > s.ht.sampleGroup then r else r + 1
    ensures Allowed(s, Find(ApLink(env, m))) && s' == Step(s, columns, Find(ApLink(env, m)))
    ensures chain in s'.handed && ChainLow(chain) && Names(chain[0], b) && Names(chain[1], CorrectedList(sup, est)[1])
    ensures CanExceed(s', columns, env) ==> CanExceed(s, columns, env)
  {
    hide CanExceed, Round, Tally, Capped, Inv, ApLink, FindRate, NextSample, CorrectedList, RateIdx, GroupList,
      Current, Step;
    HeldBest(s, sup, est);
    var q := CorrectedList(sup, est)[0];
    GroupBwOk(q / 10);
    LinkPermits(env, m, GroupBw(q / 10));
    Misses(s.ht, columns, r, g, row);
    FloorRaises(s.ht, columns, ApLink(env, m));
    s', chain := HeldRequest(s, columns, env, sup, est, ApLink(env, m));
    LowAgain(s, columns, env, ApLink(env, m));
    HeldBest(s', sup, est);
    NextSampleGroup(s.ht);
    NextSampleFrame(s.ht);
    r' := MovedOn(s.ht, s'.ht, r, g, row);
  }

  lemma GroupBwOk(g: nat)
    requires g < GROUPS
    ensures GroupBw(g) <= BW_80
  {
  }

  lemma Misses(st: Ht, columns: seq<seq<nat>>, r: nat, g: nat, row: nat)
    requires Underway(st, r, g, row) && IsSampleTable(columns) && st.sampleWait == 0 && st.sampleTries > 0
    requires RowAt(st, r) < 10 && columns[0][RowAt(st, r)] !in st.supported[st.sampleGroup]
    ensures SampleRate(st, columns) == Sampled(NextSample(st), NoProbe) && Shape(NextSample(st))
  {
    hide NextSample, Round, AllBelow, Current;
    DrawIs(st, columns, r, g, row);
    NextSampleKeepsShape(st);
  }

  lemma LowAgain(s: Sys, columns: seq<seq<nat>>, env: Env, l: Link)
    requires SysReady(s) && IsSampleTable(columns) && LinkOk(l) && LinkIn(l, env) && ChainLow(s.ht.table)
    requires Shape(s.ht) && SampleRate(s.ht, columns).probe.NoProbe?
    ensures ChainLow(FindRate(s.ht, columns, l).chain)
  {
    hide SampleRate, FindRate, CanExceed, Inv;
    var s', chain := Request(s, columns, env, l);
  }

  /** Two good completions of a seeded rate make it reliable. */
  lemma TrainUp(s: Sys, columns: seq<seq<nat>>, env: Env, sup: Masks, est: Table, r: nat, lo: nat, g: nat, row: nat,
                chain: Chain, b: nat) returns (s': Sys)
    requires OnTheWay(s, sup, est, r, lo, g, row) && IsSampleTable(columns) && chain in s.handed && ChainLow(chain)
    requires |sup| == GROUPS && |est| == CELLS && b < CELLS && Supports(sup, b) && Names(chain[0], b) && est[b] == 921
    ensures OnTheWay(s', sup, est[b := 2309], r, lo, g, row)
    ensures CanExceed(s', columns, env) ==> CanExceed(s, columns, env)
  {
    hide CanExceed, Round, Stands, Listed, Names, Shape;
    assert Frac(1, 1) == 4096 && Next(921, 1, 1) == 1714 && Next(1714, 1, 1) == 2309;
    var s1 := Train(s, columns, env, sup, est, r, lo, g, row, chain, 1, 1, b, 1714);
    s' := Train(s1, columns, env, sup, est[b := 1714], r, lo, g, row, chain, 1, 1, b, 2309);
    assert est[b := 1714][b := 2309] == est[b := 2309];
  }

  /** Failures fade an estimate. */
  lemma {:induction false} Fade(s: Sys, columns: seq<seq<nat>>, env: Env, sup: Masks, est: Table, r: nat, lo: nat,
                                g: nat, row: nat, chain: Chain, x: nat, n: nat) returns (s': Sys)
    requires OnTheWay(s, sup, est, r, lo, g, row) && IsSampleTable(columns) && chain in s.handed && ChainLow(chain)
    requires |sup| == GROUPS && |est| == CELLS && x < CELLS && Supports(sup, x) && Names(chain[0], x) && est[x] > 0
    ensures Tracked(est[x], 0, n) > 0
    ensures OnTheWay(s', sup, est[x := Tracked(est[x], 0, n)], r, lo, g, row) && s'.handed == s.handed
    ensures Rank(s'.ht, r) == Rank(s.ht, r)
    ensures CanExceed(s', columns, env) ==> CanExceed(s, columns, env)
  {
    hide CanExceed, Round, Stands, Listed, Names, Shape, Held;
    if n == 0 {
      s' := s;
      assert est[x := est[x]] == est;
    } else {
      var s1 := Fade(s, columns, env, sup, est, r, lo, g, row, chain, x, n - 1);
      var e := Tracked(est[x], 0, n - 1);
      FadeStep(e);
      HeldReady(s1, sup, est[x := e]);
      s' := Train(s1, columns, env, sup, est[x := e], r, lo, g, row, chain, 1, 0, x, Ewma(e, 0));
      assert est[x := e][x := Ewma(e, 0)] == est[x := Ewma(e, 0)];
    }
  }

  lemma FadeStep(e: int)
    requires e > 0
    ensures Ewma(e, 0) > 0 && Next(e, 1, 0) == Ewma(e, 0)
  {
    assert Frac(0, 1) == 0;
    EwmaStep(e, 0);
  }

  lemma HeldReady(s: Sys, sup: Masks, est: Table)
    requires Held(s, sup, est)
    ensures SysReady(s) && Stands(s.ht, sup, est, None())
  {
  }

  /** At the goal, requests and a refill go on until a probe may be sent. */
  lemma {:induction false} Await(s: Sys, columns: seq<seq<nat>>, env: Env, sup: Masks, est: Table, r: nat, lo: nat,
                                 g: nat, row: nat) returns (s': Sys)
    requires OnTheWay(s, sup, est, r, lo, g, row) && Rank(s.ht, r) == Goal(g, row) && IsSampleTable(columns)
    requires EnvOk(env)
    ensures OnTheWay(s', sup, est, r, lo, g, row) && s.handed <= s'.handed && Reached(s'.ht, r, g, row)
    ensures CanExceed(s', columns, env) ==> CanExceed(s, columns, env)
    decreases if s.ht.sampleTries == 0 then 1 else 0, s.ht.sampleWait
  {
    hide CanExceed, Held, Round, Shape;
    s' := s;
    if s.ht.sampleWait > 0 {
      s' := SeekWait(s, columns, env, sup, est, r, lo, g, row);
      s' := Await(s', columns, env, sup, est, r, lo, g, row);
    } else if s.ht.sampleTries == 0 {
      s' := SeekRefill(s, columns, env, sup, est, r, lo, g, row);
      s' := Await(s', columns, env, sup, est, r, lo, g, row);
    }
  }
}
