/** Runs of an access point: its links, what one request does to the sampling state, and how
    requests are repeated until a wanted draw comes up. */
module ApSampling {
  import opened RateGroups
  import opened TopRates
  import opened HtState
  import opened HtRates
  import opened HtSample
  import opened HtCap
  import opened SampleTable
  import opened Signal
  import opened Driver
  import opened Runs
  import opened ApTables
  import opened ApSteps

  // ----- Links

  /** What does not change while a peer is associated: the platform's offset, the channel width
      and whether the peer has VHT. */
  datatype Env = Env(offset: int, chbw: nat, vht: bool)

  predicate EnvOk(env: Env) {
    env.offset in {6, 10} && env.chbw <= BW_80
  }

  predicate LinkIn(l: Link, env: Env) {
    l.ap && l.rssiOffset == env.offset && l.chbw == env.chbw && l.vht == env.vht
  }

  /** A signal for which the gate permits rate `m`: at -60 dBm rate 6, with a stale reading
      rate 4, at -73 dBm a lower rate according to the signal-to-noise ratio. */
  function ApLink(env: Env, m: nat): Link {
    var rssi := if m == 6 then 196 else if m == 4 then 100 else 183;
    var snr := if m >= 4 then 28 else if m == 3 then 11 else if m == 2 then 8 else if m == 1 then 5 else -100;
    Link(true, rssi, 0, snr, env.chbw, 0, 0, env.offset, env.vht, 3)
  }

  predicate IsGate(m: nat) {
    m in {0, 1, 2, 3, 4, 6}
  }

  lemma LinkPermits(env: Env, m: nat, bw: nat)
    requires EnvOk(env) && IsGate(m) && bw <= BW_80
    ensures LinkOk(ApLink(env, m)) && LinkIn(ApLink(env, m), env) && FitableBw(ApLink(env, m)) == env.chbw
    ensures FitableMcs(ApLink(env, m), BW_20) == m
    ensures m in {0, 4, 6} ==> FitableMcs(ApLink(env, m), bw) == m
  {
    if m <= 3 {
      var snr := ApLink(env, m).snr;
      var t, p := SnrThresholds(BW_20), RssiThresholds(BW_20);
      assert Grade(t, 0, snr, 6) == m;
      assert Grade(t, 0, snr, 3) == m;
      assert Grade(t, 0, snr, 0) == m;
      assert Grade(p, env.offset, -73, 5) >= 3;
      assert Grade(p, env.offset, -73, 2) >= 3;
      assert Grade(p, env.offset, -73, 0) >= 3;
    }
    if m == 0 {
      NoneReached(SnrThresholds(bw), 0, -100, 0);
    }
  }

  // ----- Runs that exceed the cap

  ghost predicate ApRun(es: seq<Event>, env: Env) {
    forall i :: 0 <= i < |es| && es[i].Find? ==> LinkIn(es[i].link, env)
  }

  /** Some chain handed out names a rate above the cap. */
  ghost predicate Above(s: Sys) {
    exists c: Chain, i :: c in s.handed && 0 <= i < 3 && i < |c| && c[i].idx > CAP
  }

  /** Some run of the access point from here on hands out such a chain. */
  ghost predicate CanExceed(s: Sys, columns: seq<seq<nat>>, env: Env)
    requires SysReady(s) && IsSampleTable(columns)
  {
    exists es :: ApRun(es, env) && ValidRun(s, columns, es) && Above(Run(s, columns, es))
  }

  lemma CanExceedBefore(s: Sys, columns: seq<seq<nat>>, env: Env, e: Event)
    requires SysReady(s) && IsSampleTable(columns) && Allowed(s, e) && (e.Find? ==> LinkIn(e.link, env))
    requires CanExceed(Step(s, columns, e), columns, env)
    ensures CanExceed(s, columns, env)
  {
    hide Step, SysReady, Above, Allowed;
    var s' := Step(s, columns, e);
    var es :| ApRun(es, env) && ValidRun(s', columns, es) && Above(Run(s', columns, es));
    var all := [e] + es;
    assert all[1..] == es && all[0] == e;
    assert ApRun(all, env);
    assert ValidRun(s, columns, all) && Run(s, columns, all) == Run(s', columns, es);
  }

  lemma AboveCanExceed(s: Sys, columns: seq<seq<nat>>, env: Env)
    requires SysReady(s) && IsSampleTable(columns) && Above(s)
    ensures CanExceed(s, columns, env)
  {
    hide SysReady;
    var es: seq<Event> := [];
    assert ApRun(es, env) && ValidRun(s, columns, es) && Run(s, columns, es) == s;
  }

  // ----- One request

  /** One request of the access point: sampling, and the chain that is handed out. Either the
      chain exceeds the cap, or the run goes on. */
  lemma Request(s: Sys, columns: seq<seq<nat>>, env: Env, l: Link) returns (s': Sys, chain: Chain)
    requires SysReady(s) && IsSampleTable(columns) && LinkOk(l) && LinkIn(l, env) && ChainLow(s.ht.table)
    ensures SysReady(s') && s'.ht == SampleRate(s.ht, columns).st && s'.handed == s.handed + {chain} && ChainOk(chain)
    ensures Allowed(s, Find(l)) && s' == Step(s, columns, Find(l))
    ensures chain == FindRate(s.ht, columns, l).chain
    ensures CanExceed(s', columns, env) ==> CanExceed(s, columns, env)
    ensures ChainLow(chain) || CanExceed(s, columns, env)
    ensures var p := SampleRate(s.ht, columns).probe;
            && (p.NoProbe? ==> ChainLow(chain))
            && (p.Probe? && p.cell < CELLS && RateIdx(p.cell) > CAP ==> CanExceed(s, columns, env))
  {
    hide SampleRate, FindRate, CanExceed, Inv;
    InvShape(s.ht);
    FindRateKeepsReady(s.ht, columns, l);
    ApCapExactly(s.ht, columns, l);
    chain := FindRate(s.ht, columns, l).chain;
    s' := Step(s, columns, Find(l));
    assert s'.ht == SampleRate(s.ht, columns).st by {
      FindState(s.ht, columns, l);
    }
    if CanExceed(s', columns, env) {
      CanExceedBefore(s, columns, env, Find(l));
    }
    if !ChainLow(chain) {
      assert chain in s'.handed;
      AboveCanExceed(s', columns, env);
      CanExceedBefore(s, columns, env, Find(l));
    }
  }

  lemma FindState(st: Ht, columns: seq<seq<nat>>, l: Link)
    requires Ready(st) && IsSampleTable(columns) && l.ap
    ensures FindRate(st, columns, l).st == SampleRate(st, columns).st
  {
    hide SampleRate, FillFrom;
    SampleRateFrame(st, columns);
    ProbeBound(st, columns);
  }

  /** A request that samples nothing raises the first rate to what the link permits. */
  lemma FloorRaises(st: Ht, columns: seq<seq<nat>>, l: Link)
    requires Ready(st) && IsSampleTable(columns) && LinkOk(l) && l.ap && SampleRate(st, columns).probe.NoProbe?
    requires 0 <= st.table[0].idx <= FitableMcs(l, FlagsBw(st.table[0].flags))
    ensures var c := FindRate(st, columns, l).chain;
            && |c| == 4 && c[0].idx == FitableMcs(l, FlagsBw(st.table[0].flags)) && c[0].flags == st.table[0].flags
            && c[1].idx == st.table[1].idx && c[1].flags == st.table[1].flags
  {
    hide SampleRate, FitableMcs, Checked;
    SampleRateFrame(st, columns);
    FillSpec(BLANK, st.table, 0);
    GateCap(l, FlagsBw(st.table[0].flags));
  }

  /** A request that probes hands out the sampled rate. */
  lemma ProbeLeads(st: Ht, columns: seq<seq<nat>>, l: Link)
    requires Ready(st) && IsSampleTable(columns) && LinkOk(l) && l.ap && SampleRate(st, columns).probe.Probe?
    ensures var p, c := SampleRate(st, columns).probe, FindRate(st, columns, l).chain;
            p.slot < 2 && |c| == 4 && Names(c[p.slot], p.cell) && !c[p.slot].flags.rts
  {
    hide SampleRate, FitableMcs, Checked;
    SampleRateFrame(st, columns);
    ProbeBound(st, columns);
    var p := SampleRate(st, columns).probe;
    FillSpec(Placed(p), st.table, 0);
    PlainFlags(p.cell / 10);
  }

  // ----- Where sampling stands

  /** Every supported group is read at row `r` of the first column, those that sampling has
      passed since group 0 one row further. */
  ghost predicate Round(st: Ht, r: nat)
    requires Shape(st)
  {
    forall g :: 0 <= g < GROUPS && st.supported[g] != {} ==>
      PosOf(st, g) == Pos(if 1 <= g <= st.sampleGroup then r + 1 else r, 0)
  }

  /** Sampling goes through the supported groups in order and skips none. */
  lemma NextGroupOrder(sup: Masks, s: nat, g: nat)
    requires ValidMasks(sup) && s < GROUPS && g < GROUPS && sup[g] != {}
    ensures var n := NextGroup(sup, s);
            if s < g then s < n <= g else n > s || n <= g
  {
    hide ValidMasks;
    var e := if s < g then g - s else g + 11 - s;
    assert Ring(s, e) == g;
    assert Ahead(sup, s, 1) <= e;
  }

  lemma NextRound(st: Ht, r: nat, g: nat)
    requires Shape(st) && Round(st, r) && r <= 7 && g < GROUPS && st.supported[g] != {}
    ensures var s' := NextSample(st);
            && Shape(s') && s'.supported == st.supported && st.supported[s'.sampleGroup] != {}
            && (if st.sampleGroup < g then st.sampleGroup < s'.sampleGroup <= g
                else s'.sampleGroup > st.sampleGroup || s'.sampleGroup <= g)
            && Round(s', if s'.sampleGroup > st.sampleGroup then r else r + 1)
  {
    hide NextGroup;
    NextSampleKeepsShape(st);
    NextGroupOrder(st.supported, st.sampleGroup, g);
    var n := NextGroup(st.supported, st.sampleGroup);
    forall h | 0 <= h < GROUPS && st.supported[h] != {}
      ensures if st.sampleGroup < h then st.sampleGroup < n <= h else n > st.sampleGroup || n <= h
    {
      NextGroupOrder(st.supported, st.sampleGroup, h);
    }
  }

  /** How far sampling has come, and where group `g` reads row `row`. */
  function Rank(st: Ht, r: nat): nat {
    11 * r + st.sampleGroup
  }

  function Goal(g: nat, row: nat): int {
    if g == 0 then 11 * row else 11 * (row - 1) + g
  }

  /** Sampling has not passed that point. */
  ghost predicate Underway(st: Ht, r: nat, g: nat, row: nat) {
    && Shape(st) && Round(st, r) && g < GROUPS && 1 <= row <= 7 && st.supported[g] != {}
    && Rank(st, r) <= Goal(g, row)
  }

  lemma Proceed(st: Ht, r: nat, g: nat, row: nat) returns (r': nat)
    requires Underway(st, r, g, row) && Rank(st, r) < Goal(g, row)
    ensures Shape(NextSample(st)) && Underway(NextSample(st), r', g, row) && Rank(NextSample(st), r') > Rank(st, r)
    ensures r' == if NextSample(st).sampleGroup > st.sampleGroup then r else r + 1
  {
    hide NextSample, Round, ValidMasks, AllBelow;
    NextRound(st, r, g);
    r' := if NextSample(st).sampleGroup > st.sampleGroup then r else r + 1;
  }

  /** The row that is read next. */
  function RowAt(st: Ht, r: nat): nat {
    if st.sampleGroup >= 1 then r + 1 else r
  }

  lemma DrawIs(st: Ht, columns: seq<seq<nat>>, r: nat, g: nat, row: nat)
    requires Underway(st, r, g, row) && IsSampleTable(columns)
    ensures RowAt(st, r) <= row
    ensures st.supported[st.sampleGroup] != {} ==> Current(st, columns) == columns[0][RowAt(st, r)]
    ensures Rank(st, r) == Goal(g, row) ==> st.sampleGroup == g && RowAt(st, r) == row
  {
    hide AllBelow, IsPermutation;
    if st.supported[st.sampleGroup] != {} {
      assert PosOf(st, st.sampleGroup) == Pos(RowAt(st, r), 0);
    }
  }

  // ----- Requests while the estimates stand

  /** The state rests on `est` with its lists, and some chain below the cap was handed out. */
  ghost predicate Held(s: Sys, sup: Masks, est: Table) {
    && SysReady(s) && Stands(s.ht, sup, est, None()) && Listed(s.ht, sup, est)
    && exists c :: c in s.handed && ChainLow(c)
  }

  /** Only the sampling state differs. */
  predicate SampledOnly(st: Ht, s': Ht) {
    s' == st.(sampleWait := s'.sampleWait, sampleTries := s'.sampleTries,
              sampleGroup := s'.sampleGroup, sampleIdx := s'.sampleIdx, sampleCol := s'.sampleCol)
  }

  lemma SamplingKeeps(st: Ht, s': Ht, sup: Masks, est: Table, due: Table)
    requires Stands(st, sup, est, due) && SampledOnly(st, s') && Inv(s')
    ensures Stands(s', sup, est, due) && (Listed(st, sup, est) ==> Listed(s', sup, est))
  {
    hide Inv, Tally, ValidMasks, CellsQuiet, AllLow, TopList, Corrected, GroupList;
  }

  lemma SampleSamples(st: Ht, columns: seq<seq<nat>>)
    requires Ready(st) && IsSampleTable(columns)
    ensures var s' := SampleRate(st, columns).st;
            SampledOnly(st, s') && Inv(s')
  {
    hide SampleRate;
    SampleRateFrame(st, columns);
  }

  /** A request in such a state. */
  lemma HeldRequest(s: Sys, columns: seq<seq<nat>>, env: Env, sup: Masks, est: Table, l: Link)
    returns (s': Sys, chain: Chain)
    requires Held(s, sup, est) && IsSampleTable(columns) && LinkOk(l) && LinkIn(l, env)
    ensures Held(s', sup, est) && s'.ht == SampleRate(s.ht, columns).st && SampledOnly(s.ht, s'.ht)
    ensures s'.handed == s.handed + {chain} && ChainOk(chain) && chain == FindRate(s.ht, columns, l).chain
    ensures Allowed(s, Find(l)) && s' == Step(s, columns, Find(l))
    ensures CanExceed(s', columns, env) ==> CanExceed(s, columns, env)
    ensures ChainLow(chain) || CanExceed(s, columns, env)
    ensures var p := SampleRate(s.ht, columns).probe;
            && (p.NoProbe? ==> ChainLow(chain))
            && (p.Probe? && p.cell < CELLS && RateIdx(p.cell) > CAP ==> CanExceed(s, columns, env))
  {
    hide SampleRate, FindRate, CanExceed, Inv, Capped, Tally, Listed, Step;
    SampleSamples(s.ht, columns);
    s', chain := Request(s, columns, env, l);
    SamplingKeeps(s.ht, s'.ht, sup, est, None());
    var c :| c in s.handed && ChainLow(c);
    assert c in s'.handed;
  }

  lemma {:induction false} SomeCell(sup: Masks) returns (x: nat)
    requires ValidMasks(sup)
    ensures x < CELLS && Supports(sup, x)
  {
    var g :| 0 <= g < GROUPS && sup[g] != {};
    var i :| i in sup[g];
    x := Cell(g, i);
  }

  lemma AfterNothing(sup: Masks, est: Table, x: nat)
    requires IsTable(sup, est) && x < CELLS
    ensures After(sup, est, None(), x, 0, 0) == est
    ensures FirstGood(sup, est, None(), x, 0, 0)
  {
  }

  lemma StandsCalm(st: Ht, sup: Masks, est: Table, x: nat, n: nat)
    requires Stands(st, sup, est, None()) && n <= 29
    ensures |st.cells| == CELLS && |st.maxTp| == MAX_THR_RATES && AllBelow(st.maxTp, CELLS) && Calm(st, x, n)
  {
    hide Capped, Inv, ChainOk;
    InvShape(st);
    assert forall k: nat :: k < CELLS ==> st.cells[k].attempts <= 1;
  }

  /** A completion with an update, as a step of the run. */
  lemma Complete(s: Sys, columns: seq<seq<nat>>, env: Env, sup: Masks, est: Table, due: Table,
                 chain: Chain, j: nat, n: nat, a: nat, x: nat) returns (s': Sys)
    requires SysReady(s) && IsSampleTable(columns) && Stands(s.ht, sup, est, due) && chain in s.handed
    requires ReportsOn(sup, chain, j, n, a, x) && FirstGood(sup, est, due, x, n, a)
    requires |s.ht.cells| == CELLS && |s.ht.maxTp| == 4 && AllBelow(s.ht.maxTp, CELLS) && Calm(s.ht, x, n)
    ensures IsTable(sup, After(sup, est, due, x, n, a)) && Held(s', sup, After(sup, est, due, x, n, a))
    ensures s'.handed == s.handed && SamePosition(s.ht, s'.ht)
    ensures (s'.ht.sampleWait, s'.ht.sampleTries) == Refilled(s.ht)
    ensures var e := Done(chain, TriesAt(j, n), a == 1, 0, true); Allowed(s, e) && s' == Step(s, columns, e)
    ensures CanExceed(s', columns, env) ==> CanExceed(s, columns, env)
  {
    hide CanExceed, Capped, TxComplete, Inv, Tally, Listed, TriesAt, TriesOk, After, FirstGood, Names, Calm, IsTable;
    DoneUpdates(s.ht, sup, est, due, chain, j, n, a, x);
    var e := Done(chain, TriesAt(j, n), a == 1, 0, true);
    s' := Step(s, columns, e);
    assert s'.ht == Completed(s.ht, chain, j, n, a, true);
    if CanExceed(s', columns, env) {
      CanExceedBefore(s, columns, env, e);
    }
  }

  /** A completion that tells nothing only refills the probe budget. */
  lemma Refill(s: Sys, columns: seq<seq<nat>>, env: Env, sup: Masks, est: Table) returns (s': Sys)
    requires Held(s, sup, est) && IsSampleTable(columns)
    ensures Held(s', sup, est) && s'.handed == s.handed && SamePosition(s.ht, s'.ht)
    ensures (s'.ht.sampleWait, s'.ht.sampleTries) == Refilled(s.ht)
    ensures CanExceed(s', columns, env) ==> CanExceed(s, columns, env)
  {
    hide CanExceed, Capped, Inv, Tally, Listed, After, FirstGood, Calm, Step, Allowed;
    var c :| c in s.handed && ChainLow(c);
    assert IsTable(sup, est) by {
      TallyTable(s.ht.cells, sup, est, None(), None());
    }
    var x := SomeCell(sup);
    AfterNothing(sup, est, x);
    StandsCalm(s.ht, sup, est, x, 0);
    s' := Complete(s, columns, env, sup, est, None(), c, 0, 0, 0, x);
  }

  lemma TallyTable(cells: seq<RateStats.Stats>, sup: Masks, est: Table, tried: Table, good: Table)
    requires Tally(cells, sup, est, tried, good)
    ensures IsTable(sup, est)
  {
  }

  // ----- Waiting for a draw

  /** The faster of the two best rates, as the estimates have it. */
  function FastBest(sup: Masks, est: Table): (k: nat)
    requires |sup| == GROUPS && |est| == CELLS
    ensures k < CELLS
  {
    var t := CorrectedList(sup, est);
    if Duration(t[0]) > Duration(t[1]) then t[1] else t[0]
  }

  lemma HeldBest(s: Sys, sup: Masks, est: Table)
    requires Held(s, sup, est)
    ensures |sup| == GROUPS && |est| == CELLS
    ensures Shape(s.ht) && s.ht.supported == sup && FasterBest(s.ht) == FastBest(sup, est)
    ensures s.ht.cells[FasterBest(s.ht)].prob == est[FastBest(sup, est)]
  {
    hide Capped, Inv, Corrected, TopList, Duration, ChainOk, CorrectedList;
    InvShape(s.ht);
  }

  /** A draw of `v` starts no walk: the best rate is reliable, or the draw is not above it. */
  predicate Plain(sup: Masks, est: Table, v: nat)
    requires |sup| == GROUPS && |est| == CELLS
  {
    est[FastBest(sup, est)] >= HALF || v <= FastBest(sup, est) % 10
  }

  /** From row `lo` until group `g` reads row `row` no draw starts a walk. */
  predicate Straight(sup: Masks, est: Table, col: seq<nat>, lo: nat, g: nat, row: nat)
    requires |sup| == GROUPS && |est| == CELLS && row < |col|
  {
    && (forall i :: lo <= i < row ==> Plain(sup, est, col[i]))
    && (Plain(sup, est, col[row]) || (g >= 1 && forall h :: 1 <= h < g && h < GROUPS ==> sup[h] == {}))
  }

  /** A draw without a walk only moves on by one. */
  lemma PlainDraw(st: Ht, columns: seq<seq<nat>>)
    requires Shape(st) && IsSampleTable(columns) && st.sampleWait == 0 && st.sampleTries > 0
    requires Current(st, columns) in st.supported[st.sampleGroup]
    requires Current(st, columns) <= FasterBest(st) % 10 || st.cells[FasterBest(st)].prob >= HALF
    ensures Shape(NextSample(st))
    ensures SampleRate(st, columns) == Chosen(st, Draw(NextSample(st), st.sampleGroup, Current(st, columns)))
    ensures SamePosition(NextSample(st), SampleRate(st, columns).st)
  {
    hide NextSample;
    NextSampleKeepsShape(st);
  }

  /** Group `g` is about to read row `row`. */
  ghost predicate Reached(st: Ht, r: nat, g: nat, row: nat) {
    Underway(st, r, g, row) && Rank(st, r) == Goal(g, row) && st.sampleWait == 0 && st.sampleTries > 0
  }

  lemma Moved(st: Ht, s': Ht, r: nat, g: nat, row: nat)
    requires Underway(st, r, g, row) && SamePosition(st, s') && s'.supported == st.supported && Shape(s')
    ensures Underway(s', r, g, row) && Rank(s', r) == Rank(st, r)
  {
    forall h | 0 <= h < GROUPS && s'.supported[h] != {}
      ensures PosOf(s', h) == Pos(if 1 <= h <= s'.sampleGroup then r + 1 else r, 0)
    {
      assert PosOf(s', h) == PosOf(st, h);
    }
  }

  /** The estimates stand, and sampling is between row `lo` and the goal. */
  ghost predicate OnTheWay(s: Sys, sup: Masks, est: Table, r: nat, lo: nat, g: nat, row: nat) {
    Held(s, sup, est) && Underway(s.ht, r, g, row) && lo <= RowAt(s.ht, r)
  }

  /** A request while the wait runs. */
  lemma SeekWait(s: Sys, columns: seq<seq<nat>>, env: Env, sup: Masks, est: Table, r: nat, lo: nat, g: nat, row: nat)
    returns (s': Sys)
    requires OnTheWay(s, sup, est, r, lo, g, row) && IsSampleTable(columns) && EnvOk(env) && s.ht.sampleWait > 0
    ensures OnTheWay(s', sup, est, r, lo, g, row) && s.handed <= s'.handed && Rank(s'.ht, r) == Rank(s.ht, r)
    ensures CanExceed(s', columns, env) ==> CanExceed(s, columns, env)
    ensures s'.ht.sampleTries == s.ht.sampleTries && s'.ht.sampleWait == s.ht.sampleWait - 1
  {
    hide CanExceed, Stands, Listed, Round, ApLink, ChainLow, SysReady, Shape, Step;
    LinkPermits(env, 6, BW_20);
    HeldBest(s, sup, est);
    var chain;
    s', chain := HeldRequest(s, columns, env, sup, est, ApLink(env, 6));
    HeldBest(s', sup, est);
    Moved(s.ht, s'.ht, r, g, row);
  }

  /** A completion when the probe budget has run dry. */
  lemma SeekRefill(s: Sys, columns: seq<seq<nat>>, env: Env, sup: Masks, est: Table, r: nat, lo: nat, g: nat, row: nat)
    returns (s': Sys)
    requires OnTheWay(s, sup, est, r, lo, g, row) && IsSampleTable(columns)
    requires s.ht.sampleWait == 0 && s.ht.sampleTries == 0
    ensures OnTheWay(s', sup, est, r, lo, g, row) && s.handed <= s'.handed && Rank(s'.ht, r) == Rank(s.ht, r)
    ensures CanExceed(s', columns, env) ==> CanExceed(s, columns, env)
    ensures s'.ht.sampleTries > 0
  {
    hide CanExceed, Listed, Round, ChainLow, SysReady, Shape, Tally, Capped, Ready;
    HeldBest(s, sup, est);
    s' := Refill(s, columns, env, sup, est);
    HeldBest(s', sup, est);
    Moved(s.ht, s'.ht, r, g, row);
  }

  /** A request that reads a draw. */
  lemma SeekRead(s: Sys, columns: seq<seq<nat>>, env: Env, sup: Masks, est: Table, r: nat, lo: nat, g: nat, row: nat)
    returns (s': Sys, r': nat)
    requires OnTheWay(s, sup, est, r, lo, g, row) && IsSampleTable(columns) && EnvOk(env)
    requires Straight(sup, est, columns[0], lo, g, row) && s.ht.sampleWait == 0 && s.ht.sampleTries > 0
    requires Rank(s.ht, r) < Goal(g, row)
    ensures OnTheWay(s', sup, est, r', lo, g, row) && s.handed <= s'.handed && Rank(s'.ht, r') > Rank(s.ht, r)
    ensures CanExceed(s', columns, env) ==> CanExceed(s, columns, env)
  {
    hide CanExceed, Stands, Listed, Round, ApLink, ChainLow, SysReady, Straight, NextSample, ValidMasks, AllBelow,
      Current, Step;
    LinkPermits(env, 6, BW_20);
    HeldBest(s, sup, est);
    var chain;
    s', chain := HeldRequest(s, columns, env, sup, est, ApLink(env, 6));
    HeldBest(s', sup, est);
    ReadsOn(s.ht, columns, sup, est, r, lo, g, row);
    r' := MovedOn(s.ht, s'.ht, r, g, row);
  }

  lemma MovedOn(st: Ht, s': Ht, r: nat, g: nat, row: nat) returns (r': nat)
    requires Underway(st, r, g, row) && Rank(st, r) < Goal(g, row)
    requires Shape(NextSample(st)) && SamePosition(NextSample(st), s') && s'.supported == st.supported && Shape(s')
    ensures Underway(s', r', g, row) && Rank(s', r') > Rank(st, r) && RowAt(s', r') >= RowAt(st, r)
    ensures r' == if s'.sampleGroup > st.sampleGroup then r else r + 1
  {
    hide NextSample, Round, ValidMasks, AllBelow;
    NextSampleFrame(st);
    r' := Proceed(st, r, g, row);
    Moved(NextSample(st), s', r', g, row);
  }

  /** A request that reads a draw on the way moves on by one. */
  lemma ReadsOn(st: Ht, columns: seq<seq<nat>>, sup: Masks, est: Table, r: nat, lo: nat, g: nat, row: nat)
    requires Underway(st, r, g, row) && IsSampleTable(columns) && st.supported == sup && |est| == CELLS
    requires st.sampleWait == 0 && st.sampleTries > 0 && Rank(st, r) < Goal(g, row) && lo <= RowAt(st, r)
    requires FasterBest(st) == FastBest(sup, est) && st.cells[FasterBest(st)].prob == est[FastBest(sup, est)]
    requires Straight(sup, est, columns[0], lo, g, row)
    ensures Shape(NextSample(st)) && SamePosition(NextSample(st), SampleRate(st, columns).st)
  {
    hide NextSample, Round, FastBest, FasterBest, Current, AllBelow;
    DrawIs(st, columns, r, g, row);
    NextSampleKeepsShape(st);
    if Current(st, columns) in sup[st.sampleGroup] {
      assert Plain(sup, est, columns[0][RowAt(st, r)]);
      PlainDraw(st, columns);
    }
  }

  /** Requests and refills go on until group `g` reads row `row`; if the cap is exceeded on the
      way, so much the better. */
  lemma {:induction false} Seek(s: Sys, columns: seq<seq<nat>>, env: Env, sup: Masks, est: Table, r: nat, lo: nat,
                                g: nat, row: nat) returns (s': Sys, r': nat)
    requires OnTheWay(s, sup, est, r, lo, g, row) && IsSampleTable(columns) && EnvOk(env)
    requires Straight(sup, est, columns[0], lo, g, row)
    ensures OnTheWay(s', sup, est, r', lo, g, row) && s.handed <= s'.handed && Reached(s'.ht, r', g, row)
    ensures CanExceed(s', columns, env) ==> CanExceed(s, columns, env)
    decreases Goal(g, row) - Rank(s.ht, r), if s.ht.sampleTries == 0 then 1 else 0, s.ht.sampleWait
  {
    hide CanExceed, Held, Straight, Round, Shape;
    s', r' := s, r;
    if s.ht.sampleWait > 0 {
      s' := SeekWait(s, columns, env, sup, est, r, lo, g, row);
      s', r' := Seek(s', columns, env, sup, est, r, lo, g, row);
    } else if s.ht.sampleTries == 0 {
      s' := SeekRefill(s, columns, env, sup, est, r, lo, g, row);
      s', r' := Seek(s', columns, env, sup, est, r, lo, g, row);
    } else if Rank(s.ht, r) < Goal(g, row) {
      s', r' := SeekRead(s, columns, env, sup, est, r, lo, g, row);
      s', r' := Seek(s', columns, env, sup, est, r', lo, g, row);
    }
  }
}
