/** Whole runs of the closed loop: a station is started, then chains are handed out and
    completions of handed-out chains come back, in any order and any number. */
module Runs {
  import opened FixedPoint
  import opened RateGroups
  import opened RateStats
  import opened HtState
  import opened HtUpdate
  import opened HtRates
  import opened HtSample
  import opened HtStatus
  import opened HtCap
  import opened SampleTable
  import opened Signal
  import opened Driver

  datatype Event =
    | Find(link: Link)
    | Done(chain: Chain, tries: seq<nat>, ack: bool, ampdu: nat, elapsed: bool)

  /** The station, and every chain handed out so far. */
  datatype Sys = Sys(ht: Ht, handed: set<Chain>)

  ghost predicate SysReady(s: Sys) {
    Ready(s.ht) && forall c :: c in s.handed ==> ChainOk(c)
  }

  /** A completion reports a chain that was handed out; an acknowledged frame was tried; and
      aggregates have at most 2^14 frames, of which fewer than 2^20 complete between updates. */
  ghost predicate Allowed(s: Sys, e: Event) {
    match e
    case Find(l) => LinkOk(l)
    case Done(c, tries, ack, ampdu, _) =>
      && c in s.handed && TriesOk(c, tries, ack)
      && Frames(ampdu) <= AGGREGATE_LIMIT && s.ht.ampduLen + Frames(ampdu) < INTERVAL_LIMIT
  }

  ghost function Step(s: Sys, columns: seq<seq<nat>>, e: Event): (s': Sys)
    requires SysReady(s) && IsSampleTable(columns) && Allowed(s, e)
    ensures SysReady(s')
  {
    match e
    case Find(l) =>
      FindRateKeepsReady(s.ht, columns, l);
      var f := FindRate(s.ht, columns, l);
      Sys(f.st, s.handed + {f.chain})
    case Done(c, tries, ack, ampdu, elapsed) =>
      TxCompleteKeepsReady(s.ht, c, tries, ack, ampdu, elapsed);
      Sys(TxComplete(s.ht, c, tries, ack, ampdu, elapsed), s.handed)
  }

  ghost predicate ValidRun(s: Sys, columns: seq<seq<nat>>, es: seq<Event>)
    requires SysReady(s) && IsSampleTable(columns)
    decreases |es|
  {
    es == [] || (Allowed(s, es[0]) && ValidRun(Step(s, columns, es[0]), columns, es[1..]))
  }

  ghost function Run(s: Sys, columns: seq<seq<nat>>, es: seq<Event>): (s': Sys)
    requires SysReady(s) && IsSampleTable(columns) && ValidRun(s, columns, es)
    ensures SysReady(s')
    decreases |es|
  {
    if es == [] then s else Run(Step(s, columns, es[0]), columns, es[1..])
  }

  ghost predicate StartOk(c: Caps, l: Link, table: seq<Entry>) {
    ValidCaps(c) && HtUsable(c) && LinkOk(l) && l.chbw == c.bandwidth && |table| == 4
  }

  /** `aml_minstrel_init` for a peer with HT or VHT capabilities, whose bandwidth is the channel
      width of the link. */
  ghost function Start(c: Caps, l: Link, table: seq<Entry>): (s: Sys)
    requires StartOk(c, l, table)
    ensures SysReady(s)
  {
    var st := UpdateCaps(c, table);
    FreshInv(c, table);
    UpdateKeepsInv(Fresh(c, table));
    UpdateRatesTable(UpdateStats(Fresh(c, table)));
    Sys(InitStart(st, FitableMcs(l, FitableBw(l)), FitableBw(l)), {})
  }

  // ----- Safety in either mode

  /** In every reachable state: no throughput estimate divides by zero, the average aggregate
      is at least one frame, every estimate and variance is within bounds, successes never
      exceed attempts, and only supported rates have an estimate. */
  lemma EveryRunIsSound(c: Caps, l: Link, table: seq<Entry>, columns: seq<seq<nat>>, es: seq<Event>, k: nat)
    requires StartOk(c, l, table) && IsSampleTable(columns)
    requires ValidRun(Start(c, l, table), columns, es) && k < CELLS
    ensures var st := Run(Start(c, l, table), columns, es).ht;
            && Measurable(MeterOf(st), st.cells) && st.avgAmpdu >= SCALE
            && st.cells[k].prob <= SCALE && st.cells[k].probVar <= 3072
            && st.cells[k].success <= st.cells[k].attempts && st.cells[k].succHist <= st.cells[k].attHist
            && (st.cells[k].prob > 0 ==> Supports(st.supported, k))
  {
    InvMeasurable(Run(Start(c, l, table), columns, es).ht);
  }

  /** In every reachable state a failing rate is downgraded at most ten times in a row. */
  lemma EveryDowngradeEnds(c: Caps, l: Link, table: seq<Entry>, columns: seq<seq<nat>>, es: seq<Event>, k: nat, j: nat)
    requires StartOk(c, l, table) && IsSampleTable(columns)
    requires ValidRun(Start(c, l, table), columns, es) && k < CELLS && j < 4
    ensures Downgrades(Run(Start(c, l, table), columns, es).ht, k, j) <= 10
  {
    DowngradesBounded(Run(Start(c, l, table), columns, es).ht, k, j);
  }

  // ----- The cap of station mode

  ghost predicate SysCapped(s: Sys) {
    && Capped(s.ht)
    && (forall i :: 0 <= i < 3 && i < |s.ht.table| ==> s.ht.table[i].idx <= CAP)
    && forall c: Chain, i :: c in s.handed && 0 <= i < 3 && i < |c| ==> c[i].idx <= CAP
  }

  ghost predicate StationMode(es: seq<Event>) {
    forall i :: 0 <= i < |es| && es[i].Find? ==> !es[i].link.ap
  }

  lemma StepKeepsCap(s: Sys, columns: seq<seq<nat>>, e: Event)
    requires SysReady(s) && IsSampleTable(columns) && Allowed(s, e) && SysCapped(s)
    requires e.Find? ==> !e.link.ap
    ensures SysCapped(Step(s, columns, e))
  {
    match e
    case Find(l) =>
      FindRateKeepsReady(s.ht, columns, l);
      FindRateKeepsCap(s.ht, columns, l);
    case Done(c, tries, ack, ampdu, elapsed) =>
      CompletionIsReport(s.ht, c, tries, ack, ampdu);
      TxStatusKeepsCap(s.ht, Reported(c, tries), Frames(ampdu), if ack then Frames(ampdu) else 0, elapsed);
  }

  lemma {:induction false} RunKeepsCap(s: Sys, columns: seq<seq<nat>>, es: seq<Event>)
    requires SysReady(s) && IsSampleTable(columns) && ValidRun(s, columns, es) && SysCapped(s) && StationMode(es)
    ensures SysCapped(Run(s, columns, es))
    decreases |es|
  {
    hide Step, Ready, SysCapped;
    if es != [] {
      StepKeepsCap(s, columns, es[0]);
      RunKeepsCap(Step(s, columns, es[0]), columns, es[1..]);
    }
  }

  lemma StartIsCapped(c: Caps, l: Link, table: seq<Entry>)
    requires StartOk(c, l, table)
    ensures SysCapped(Start(c, l, table))
  {
    UpdateCapsIsCapped(c, table);
    var bw := FitableBw(l);
    GateMonotoneAndCapped(Power(l), Power(l), l.snr, l.snr, l.rssiOffset, bw);
    InitStartKeepsCap(UpdateCaps(c, table), FitableMcs(l, bw), bw);
  }

  /** Station-mode safety over whole runs: whatever the peer, the signals, the random columns
      and the completions of handed-out chains, no rate above MCS 6 ever has a success
      estimate, is named by a list, or is handed out. */
  lemma StationNeverExceedsMcs6(c: Caps, l: Link, table: seq<Entry>, columns: seq<seq<nat>>, es: seq<Event>)
    requires StartOk(c, l, table) && IsSampleTable(columns)
    requires ValidRun(Start(c, l, table), columns, es) && StationMode(es)
    ensures var s := Run(Start(c, l, table), columns, es);
            && (forall k :: 0 <= k < CELLS && s.ht.cells[k].prob > 0 ==> k % 10 <= 6)
            && (forall j :: 0 <= j < 4 ==> s.ht.maxTp[j] % 10 <= 6)
            && s.ht.maxProb % 10 <= 6 && (forall g :: 0 <= g < GROUPS ==> s.ht.groupProb[g] % 10 <= 6)
            && (forall g, j :: 0 <= g < GROUPS && 0 <= j < 4 ==> s.ht.groupTp[g][j] % 10 <= 6)
            && (forall chain: Chain, i :: chain in s.handed && 0 <= i < 3 ==> chain[i].idx <= 6)
  {
    hide Start, Run, ValidRun;
    StartIsCapped(c, l, table);
    RunKeepsCap(Start(c, l, table), columns, es);
    var s := Run(Start(c, l, table), columns, es);
    forall k | 0 <= k < CELLS && s.ht.cells[k].prob > 0
      ensures k % 10 <= 6
    {
      EstimateIsLow(s.ht.cells, s.ht.supported, k);
    }
    forall j | 0 <= j < 4
      ensures s.ht.maxTp[j] % 10 <= 6
    {
      assert Low(s.ht.maxTp[j]);
    }
    forall g | 0 <= g < GROUPS
      ensures s.ht.groupProb[g] % 10 <= 6
    {
      assert Low(s.ht.groupProb[g]);
    }
    forall g, j | 0 <= g < GROUPS && 0 <= j < 4
      ensures s.ht.groupTp[g][j] % 10 <= 6
    {
      assert AllLow(s.ht.groupTp[g]) && Low(s.ht.groupTp[g][j]);
    }
  }

  // ----- Credit

  /** The table encodes rates, and so does every chain handed out whose first entry is not a
      raised one. */
  ghost predicate SysNamed(s: Sys) {
    IsNamed(s.ht.table) && forall c :: c in s.handed ==> |c| == 4 && (IsNamed(c) <==> !Raised(c[0]))
  }

  ghost predicate Unraised(s: Sys) {
    forall c: Chain :: c in s.handed && |c| == 4 ==> !Raised(c[0])
  }

  lemma StepKeepsNamed(s: Sys, columns: seq<seq<nat>>, e: Event)
    requires SysReady(s) && IsSampleTable(columns) && Allowed(s, e) && SysNamed(s)
    ensures SysNamed(Step(s, columns, e))
    ensures (e.Find? ==> !e.link.ap) && Unraised(s) ==> Unraised(Step(s, columns, e))
  {
    hide Inv, FindRate, TxStatus, IsNamed, Raised;
    match e
    case Find(l) =>
      FindRateKeepsReady(s.ht, columns, l);
      HandedChainNamedExactly(s.ht, columns, l);
    case Done(c, tries, ack, ampdu, elapsed) =>
      CompletionIsReport(s.ht, c, tries, ack, ampdu);
      TxStatusNamed(s.ht, Reported(c, tries), Frames(ampdu), if ack then Frames(ampdu) else 0, elapsed);
  }

  lemma {:induction false} RunKeepsNamed(s: Sys, columns: seq<seq<nat>>, es: seq<Event>)
    requires SysReady(s) && IsSampleTable(columns) && ValidRun(s, columns, es) && SysNamed(s)
    ensures SysNamed(Run(s, columns, es))
    ensures StationMode(es) && Unraised(s) ==> Unraised(Run(s, columns, es))
    decreases |es|
  {
    hide Step, Ready, SysNamed, Unraised;
    if es != [] {
      StepKeepsNamed(s, columns, es[0]);
      RunKeepsNamed(Step(s, columns, es[0]), columns, es[1..]);
    }
  }

  lemma InitStartTable(st: Sound, maxRate: nat, bw: nat)
    ensures InitStart(st, maxRate, bw).table == st.table
  {
  }

  lemma StartIsNamed(c: Caps, l: Link, table: seq<Entry>)
    requires StartOk(c, l, table)
    ensures SysNamed(Start(c, l, table)) && Unraised(Start(c, l, table))
  {
    hide Inv, UpdateRates, UpdateStats, InitStart, ChainNames, Fresh, FitableMcs, FitableBw;
    FreshInv(c, table);
    UpdateKeepsInv(Fresh(c, table));
    TableNamesRates(UpdateStats(Fresh(c, table)));
    InitStartTable(UpdateCaps(c, table), FitableMcs(l, FitableBw(l)), FitableBw(l));
  }

  lemma DoneCredits(s: Sys, e: Event, k: nat) returns (ks: seq<nat>)
    requires SysReady(s) && SysNamed(s) && e.Done? && Allowed(s, e) && k < CELLS
    ensures |e.chain| == 4 && (IsNamed(e.chain) <==> !Raised(e.chain[0]))
    ensures !Raised(e.chain[0]) ==>
              var len := if e.ampdu > 1 then e.ampdu else 1;
              CreditsRates(s.ht.supported, s.ht.cells, e.chain, ks, e.tries, len, if e.ack then len else 0, k)
  {
    hide Inv, ChainNames, Raised;
    InvShape(s.ht);
    ks := [];
    if !Raised(e.chain[0]) {
      ks :| ChainNames(e.chain, ks);
      CompletionCreditsRates(s.ht.supported, s.ht.cells, e.chain, ks, e.tries, Frames(e.ampdu),
                             if e.ack then Frames(e.ampdu) else 0, k);
    }
  }

  /** The counters of cell `k` after completion `e` of state `st`, which credits it as `CreditFrom`
      says: one frame, or as many as the aggregate had, for each try. An update moves them on. */
  ghost predicate Counters(st: Ht, e: Event, k: nat, after: Stats) {
    && e.Done? && |e.chain| == |e.tries| == 4 && |st.cells| == CELLS && k < CELLS
    && Creditable(st.supported, Reported(e.chain, e.tries))
    && var len := if e.ampdu > 1 then e.ampdu else 1;
       var c := CreditFrom(st.supported, st.cells, Reported(e.chain, e.tries), len, if e.ack then len else 0, 0)[k];
       if !e.elapsed || !Supports(st.supported, k) then after.attempts == c.attempts && after.success == c.success
       else
         && after.attempts == 0 == after.success
         && after.attHist == c.attHist + c.attempts && after.succHist == c.succHist + c.success
  }

  lemma DoneCounters(s: Sys, columns: seq<seq<nat>>, e: Event, k: nat)
    requires SysReady(s) && IsSampleTable(columns) && e.Done? && Allowed(s, e) && k < CELLS
    ensures |Step(s, columns, e).ht.cells| == CELLS && Counters(s.ht, e, k, Step(s, columns, e).ht.cells[k])
  {
    hide Inv, ReportOk, CreditFrom, TxStatus, Creditable;
    InvShape(s.ht);
    CompletionIsReport(s.ht, e.chain, e.tries, e.ack, e.ampdu);
    var len := Frames(e.ampdu);
    ReportCounters(s.ht, Reported(e.chain, e.tries), len, if e.ack then len else 0, e.elapsed, k);
    ReportNames(s.ht, Reported(e.chain, e.tries), len, if e.ack then len else 0);
  }

  /** Each completion counts as one aggregate of its frames, one at least; an update folds their
      ratio into the average and starts over. */
  lemma DoneFrames(s: Sys, columns: seq<seq<nat>>, e: Event)
    requires SysReady(s) && IsSampleTable(columns) && e.Done? && Allowed(s, e)
    ensures var st, s' := s.ht, Step(s, columns, e).ht;
            var packets, frames := st.ampduPackets + 1, st.ampduLen + if e.ampdu > 1 then e.ampdu else 1;
            if !e.elapsed then s'.ampduPackets == packets && s'.ampduLen == frames && s'.avgAmpdu == st.avgAmpdu
            else s'.ampduPackets == 0 == s'.ampduLen && s'.avgAmpdu == EwmaWord(st.avgAmpdu, Frac(frames, packets))
  {
    hide Inv, ReportOk, TxStatus, EwmaWord, Frac;
    CompletionIsReport(s.ht, e.chain, e.tries, e.ack, e.ampdu);
    var len := Frames(e.ampdu);
    ReportFrames(s.ht, Reported(e.chain, e.tries), len, if e.ack then len else 0, e.elapsed);
  }

  lemma ReportFrames(st: Sound, ar: Chain, len: nat, acked: nat, elapsed: bool)
    requires ReportOk(st, ar, len, acked)
    ensures var s', packets, frames := TxStatus(st, ar, len, acked, elapsed), st.ampduPackets + 1, st.ampduLen + len;
            if !elapsed then s'.ampduPackets == packets && s'.ampduLen == frames && s'.avgAmpdu == st.avgAmpdu
            else s'.ampduPackets == 0 == s'.ampduLen && s'.avgAmpdu == EwmaWord(st.avgAmpdu, Frac(frames, packets))
  {
    hide Inv, CreditFrom, UpdateRates, Failing, Downgraded, EwmaWord, Frac, ModifyTpRates, FallbacksAt, NewMaxTp;
    var d := Digested(st, ar, len, acked);
    UpdateKeepsInv(d);
    UpdateRatesSpec(if elapsed then UpdateStats(d) else d);
    ModifyFrame(if elapsed then UpdateStats(d) else d);
  }

  lemma ReportNames(st: Ht, ar: Chain, len: nat, acked: nat)
    requires ReportOk(st, ar, len, acked)
    ensures Creditable(st.supported, ar)
  {
  }

  lemma ReportCounters(st: Sound, ar: Chain, len: nat, acked: nat, elapsed: bool, k: nat)
    requires ReportOk(st, ar, len, acked) && k < CELLS && |st.cells| == CELLS
    ensures |st.supported| == GROUPS && Creditable(st.supported, ar)
    ensures |TxStatus(st, ar, len, acked, elapsed).cells| == CELLS
    ensures var c := CreditFrom(st.supported, st.cells, ar, len, acked, 0)[k];
            var r := TxStatus(st, ar, len, acked, elapsed).cells[k];
            if !elapsed || !Supports(st.supported, k) then r.attempts == c.attempts && r.success == c.success
            else
              && r.attempts == 0 == r.success
              && r.attHist == c.attHist + c.attempts && r.succHist == c.succHist + c.success
  {
    hide Inv, CreditFrom, UpdateRates, Failing, Downgraded, Fold, ModifyTpRates;
    InvShape(st);
    var d := Digested(st, ar, len, acked);
    DigestedCells(st, ar, len, acked);
    var s2 := if elapsed then UpdateStats(d) else d;
    UpdateKeepsInv(d);
    UpdatedCell(d, k);
    UpdateRatesSpec(s2);
    InvShape(s2);
    InvShape(UpdateRates(s2));
    assert SameEstimate(UpdateRates(s2).cells[k], s2.cells[k]);
  }

  lemma DigestedCells(st: Sound, ar: Chain, len: nat, acked: nat)
    requires ReportOk(st, ar, len, acked)
    ensures |st.cells| == CELLS && |st.supported| == GROUPS && Creditable(st.supported, ar)
    ensures var d := Digested(st, ar, len, acked);
            d.cells == CreditFrom(st.supported, st.cells, ar, len, acked, 0) && d.supported == st.supported
  {
    hide Inv, CreditFrom, Failing, Downgraded;
    InvShape(st);
  }

  lemma UpdatedCell(d: Sound, k: nat)
    requires k < CELLS && |d.cells| == CELLS && |d.supported| == GROUPS
    ensures |UpdateStats(d).cells| == CELLS
    ensures var c, r := d.cells[k], UpdateStats(d).cells[k];
            if Supports(d.supported, k) then
              && r.attempts == 0 == r.success
              && r.attHist == c.attHist + c.attempts && r.succHist == c.succHist + c.success
            else r == c
  {
    hide FallbacksAt, NewMaxTp, GroupListsAt, Fold;
    FoldConserves(d.cells[k]);
  }

  /** Credit conservation over whole runs in either mode: whatever happened before, a chain is
      made from rates, and its completion credits exactly those, if and only if an access point
      did not raise a CCK rate in it; a station never does. */
  lemma EveryCompletionCreditsItsRates(c: Caps, l: Link, table: seq<Entry>, columns: seq<seq<nat>>, es: seq<Event>,
                                       e: Event, k: nat) returns (ks: seq<nat>)
    requires StartOk(c, l, table) && IsSampleTable(columns)
    requires ValidRun(Start(c, l, table), columns, es) && k < CELLS
    requires e.Done? && Allowed(Run(Start(c, l, table), columns, es), e)
    ensures |e.chain| == 4 && (StationMode(es) ==> !Raised(e.chain[0]))
    ensures IsNamed(e.chain) <==> !Raised(e.chain[0])
    ensures var st, len := Run(Start(c, l, table), columns, es).ht, if e.ampdu > 1 then e.ampdu else 1;
            !Raised(e.chain[0]) ==>
              CreditsRates(st.supported, st.cells, e.chain, ks, e.tries, len, if e.ack then len else 0, k)
    ensures var s := Run(Start(c, l, table), columns, es);
            |Step(s, columns, e).ht.cells| == CELLS && Counters(s.ht, e, k, Step(s, columns, e).ht.cells[k])
  {
    hide Start, Run, SysNamed, CreditsRates, ValidRun, Raised, IsNamed, Step, Counters;
    StartIsNamed(c, l, table);
    RunKeepsNamed(Start(c, l, table), columns, es);
    var s := Run(Start(c, l, table), columns, es);
    ks := DoneCredits(s, e, k);
    DoneCounters(s, columns, e, k);
  }

  // ----- The probe budget

  /** How many requests of the run were answered with a sampled rate, vetoed or not. */
  ghost function Probes(s: Sys, columns: seq<seq<nat>>, es: seq<Event>): nat
    requires SysReady(s) && IsSampleTable(columns) && ValidRun(s, columns, es)
    decreases |es|
  {
    if es == [] then 0
    else
      (if es[0].Find? && SampleRate(s.ht, columns).probe.Probe? then 1 else 0)
      + Probes(Step(s, columns, es[0]), columns, es[1..])
  }

  lemma FindBudget(s: Sys, columns: seq<seq<nat>>, l: Link)
    requires SysReady(s) && IsSampleTable(columns) && LinkOk(l)
    ensures var s', probed := Step(s, columns, Find(l)), SampleRate(s.ht, columns).probe.Probe?;
            && ProbeBudget(s'.ht) == ProbeBudget(s.ht) - (if probed then 1 else 0)
            && s'.ht.sampleWait == (if s.ht.sampleWait > 0 then s.ht.sampleWait - 1 else 0)
            && (s.ht.sampleWait > 0 ==> !probed)
  {
    SampleRateBudget(s.ht, columns);
    SampleRateFrame(s.ht, columns);
  }

  /** The sampling counters agree. */
  predicate SameSampling(a: Ht, b: Ht) {
    a.sampleWait == b.sampleWait && a.sampleTries == b.sampleTries && a.sampleCount == b.sampleCount
  }

  /** The next completion refills the probes that may be sent at once. */
  predicate RunsDry(st: Ht) {
    st.sampleWait == 0 && st.sampleTries == 0 && st.sampleCount > 0
  }

  lemma DigestedSampling(st: Sound, ar: Chain, len: nat, acked: nat)
    requires ReportOk(st, ar, len, acked)
    ensures SameSampling(Digested(st, ar, len, acked), Counted(st, ar, len, acked))
    ensures ProbeBudget(Counted(st, ar, len, acked)) == ProbeBudget(st)
    ensures Counted(st, ar, len, acked).sampleWait == if RunsDry(st) then 10 else st.sampleWait
  {
    CountedKeepsInv(st, ar, len, acked);
    DowngradeKeepsInv(Counted(st, ar, len, acked), 0);
  }

  lemma UpdateRatesSampling(st: Sound)
    ensures SameSampling(UpdateRates(st), st)
  {
    UpdateRatesSpec(st);
  }

  lemma UpdateStatsSampling(st: Sound)
    ensures UpdateStats(st).sampleWait == st.sampleWait && UpdateStats(st).sampleTries == st.sampleTries
  {
  }

  lemma TxStatusSampling(st: Sound, ar: Chain, len: nat, acked: nat, elapsed: bool)
    requires ReportOk(st, ar, len, acked)
    ensures !elapsed ==> ProbeBudget(TxStatus(st, ar, len, acked, elapsed)) == ProbeBudget(st)
    ensures TxStatus(st, ar, len, acked, elapsed).sampleWait == if RunsDry(st) then 10 else st.sampleWait
  {
    hide Inv, ReportOk, Digested, UpdateStats, UpdateRates, Counted;
    var s1 := Digested(st, ar, len, acked);
    var s' := TxStatus(st, ar, len, acked, elapsed);
    if elapsed {
      UpdateStatsSampling(s1);
      UpdateKeepsInv(s1);
      UpdateRatesSampling(UpdateStats(s1));
    } else {
      UpdateRatesSampling(s1);
      assert SameSampling(s', s1);
    }
    assert s'.sampleWait == s1.sampleWait;
    DigestedSampling(st, ar, len, acked);
  }

  lemma DoneBudget(s: Sys, columns: seq<seq<nat>>, e: Event)
    requires SysReady(s) && IsSampleTable(columns) && Allowed(s, e) && e.Done?
    ensures !e.elapsed ==> ProbeBudget(Step(s, columns, e).ht) == ProbeBudget(s.ht)
    ensures Step(s, columns, e).ht.sampleWait == if RunsDry(s.ht) then 10 else s.ht.sampleWait
  {
    CompletionIsReport(s.ht, e.chain, e.tries, e.ack, e.ampdu);
    var len := Frames(e.ampdu);
    TxStatusSampling(s.ht, Reported(e.chain, e.tries), len, if e.ack then len else 0, e.elapsed);
  }

  ghost predicate NoUpdate(es: seq<Event>) {
    forall i :: 0 <= i < |es| && es[i].Done? ==> !es[i].elapsed
  }

  /** Between two statistics updates probes and budget balance exactly, so the budget at the
      start bounds the probes of the interval. */
  lemma {:induction false} ProbesAreBudgeted(s: Sys, columns: seq<seq<nat>>, es: seq<Event>)
    requires SysReady(s) && IsSampleTable(columns) && ValidRun(s, columns, es) && NoUpdate(es)
    ensures Probes(s, columns, es) + ProbeBudget(Run(s, columns, es).ht) == ProbeBudget(s.ht)
    decreases |es|
  {
    if es != [] {
      if es[0].Find? {
        FindBudget(s, columns, es[0].link);
      } else {
        DoneBudget(s, columns, es[0]);
      }
      ProbesAreBudgeted(Step(s, columns, es[0]), columns, es[1..]);
    }
  }

  function Finds(es: seq<Event>): nat {
    if es == [] then 0 else (if es[0].Find? then 1 else 0) + Finds(es[1..])
  }

  /** While a wait runs, that many requests pass unprobed, whatever completes in between. */
  lemma {:induction false} WaitPassesUnprobed(s: Sys, columns: seq<seq<nat>>, es: seq<Event>)
    requires SysReady(s) && IsSampleTable(columns) && ValidRun(s, columns, es)
    requires Finds(es) <= s.ht.sampleWait
    ensures Probes(s, columns, es) == 0
    decreases |es|
  {
    if es != [] {
      if es[0].Find? {
        FindBudget(s, columns, es[0].link);
      } else if s.ht.sampleWait > 0 {
        DoneBudget(s, columns, es[0]);
      }
      WaitPassesUnprobed(Step(s, columns, es[0]), columns, es[1..]);
    }
  }

  /** After each refill ten requests pass unprobed. */
  lemma RefillIsFollowedByTenUnprobed(s: Sys, columns: seq<seq<nat>>, e: Event, es: seq<Event>)
    requires SysReady(s) && IsSampleTable(columns) && e.Done? && RunsDry(s.ht) && Finds(es) <= 10
    requires Allowed(s, e) && ValidRun(Step(s, columns, e), columns, es)
    ensures Probes(Step(s, columns, e), columns, es) == 0
  {
    DoneBudget(s, columns, e);
    WaitPassesUnprobed(Step(s, columns, e), columns, es);
  }
}
