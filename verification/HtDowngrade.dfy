/** What becomes of a best rate that fails between two updates (`minstrel_downgrade_rate` within
    `minstrel_ht_tx_status`), from the report to the rebuilt table, in every run. */
module HtDowngrade {
  import opened FixedPoint
  import opened RateGroups
  import opened RateStats
  import opened TopRates
  import opened HtState
  import opened HtUpdate
  import opened HtRates
  import opened HtSample
  import opened HtStatus
  import opened SampleTable
  import opened Signal
  import opened Driver
  import opened Runs
  import opened ApTables

  // ----- When a rate fails

  /** More than 30 attempts since the update, and a ratio below 819 / 4096. */
  lemma FailingExactly(s: Stats)
    requires s.success < 0x10_0000
    ensures Failing(s) <==> s.attempts > 30 && s.success * 4096 < 819 * s.attempts
  {
    assert Frac(20, 100) == 819;
    if s.attempts > 30 {
      var a, n := s.success * 4096, s.attempts;
      if a < 819 * n {
        if a / n >= 819 {
          QuotientTimes(a, n);
        }
      } else {
        QuotientAtLeast(a, n, 819);
      }
    }
  }

  lemma QuotientTimes(a: nat, n: nat)
    requires n > 0 && a / n >= 819
    ensures a >= 819 * n
  {
    assert a == a / n * n + a % n;
    assert a / n * n == 819 * n + (a / n - 819) * n;
  }

  // ----- What it falls to

  /** Group `h` can take over from group `g`: it is lower and supported. CCK has fewer streams than
      every other group, and falls back to none. */
  predicate Usable(sup: Masks, g: nat, h: nat)
    requires |sup| == GROUPS
  {
    h < g <= GROUPS && g != 4 && sup[h] != {}
  }

  /** `h` is the highest such group. */
  ghost predicate Highest(sup: Masks, g: nat, h: nat)
    requires |sup| == GROUPS
  {
    Usable(sup, g, h) && forall i :: h < i < g ==> !Usable(sup, g, i)
  }

  /** `xs` are the supported rates of the groups up to `h`, in ascending order. */
  ghost predicate RatesUpTo(sup: Masks, h: nat, xs: seq<nat>)
    requires |sup| == GROUPS && h < GROUPS
  {
    && Increasing(xs) && (forall i :: 0 <= i < |xs| ==> xs[i] < CELLS)
    && forall k :: 0 <= k < CELLS ==> (k in xs <==> k / 10 <= h && Supports(sup, k))
  }

  /** The stable descending sort of four placeholders and these rates by the keys of the update
      of `u`. */
  ghost predicate SortedUpTo(u: Sound, h: nat, xs: seq<nat>, sorted: seq<nat>)
    requires h < GROUPS
  {
    InvShape(u);
    && RatesUpTo(u.supported, h, xs) && |sorted| == |xs| + 4
    && InRange(NewKeys(u), [0, 0, 0, 0] + xs) && IsStableSort(NewKeys(u), [0, 0, 0, 0] + xs, sorted)
  }

  /** Rate `k`, in place `j` of the best rates, falls to `r`: to place `j` of that order for the
      highest usable group; or it stays, if there is none. */
  ghost predicate FallsTo(u: Sound, k: nat, j: nat, r: nat)
    requires k < CELLS && j < MAX_THR_RATES
  {
    InvShape(u);
    if forall h :: 0 <= h < k / 10 ==> !Usable(u.supported, k / 10, h) then r == k
    else exists h: nat, xs: seq<nat>, sorted: seq<nat> ::
           h < GROUPS && Highest(u.supported, k / 10, h) && SortedUpTo(u, h, xs, sorted) && r == sorted[j]
  }

  /** The lists are those of the update of `u`. */
  ghost predicate FromUpdate(st: Ht, u: Sound) {
    st.supported == u.supported && st.groupTp == UpdateStats(u).groupTp
  }

  lemma VisitedRates(sup: Masks, h: nat)
    requires |sup| == GROUPS && h < GROUPS
    ensures RatesUpTo(sup, h, Visited(sup, AllRates, (h + 1) * 10))
  {
    var n := (h + 1) * 10;
    VisitedDistinct(sup, AllRates, n);
    forall k: nat | k < CELLS && k / 10 <= h && Supports(sup, k)
      ensures k in Visited(sup, AllRates, n)
    {
      VisitedComplete(sup, AllRates, n, k);
    }
  }

  /** Each group's list is the head of that order. */
  lemma ListIsSorted(u: Sound, h: nat) returns (xs: seq<nat>, sorted: seq<nat>)
    requires h < GROUPS
    ensures SortedUpTo(u, h, xs, sorted) && |sorted| >= 4 && Best(u, AllRates, (h + 1) * 10) == sorted[..4]
  {
    hide Inv, NewKeys, RatesUpTo;
    InvShape(u);
    xs := Visited(u.supported, AllRates, (h + 1) * 10);
    VisitedRates(u.supported, h);
    sorted := SortInto(NewKeys(u), [0, 0, 0, 0], xs);
    SortIntoIsStableSort(NewKeys(u), [0, 0, 0, 0], xs);
    ListsAreStableSorts(u, AllRates, (h + 1) * 10, sorted);
  }

  lemma LowerIsHighest(sup: Masks, g: nat)
    requires |sup| == GROUPS && g < GROUPS
    ensures var h := LowerGroup(sup, g, g);
            if h < g then Highest(sup, g, h) else forall i :: 0 <= i < g ==> !Usable(sup, g, i)
  {
  }

  lemma DowngradedFalls(st: Sound, u: Sound, k: nat, j: nat)
    requires FromUpdate(st, u) && k < CELLS && j < MAX_THR_RATES
    ensures FallsTo(u, k, j, Downgraded(st, k, j))
  {
    hide Inv, NewKeys, SortedUpTo, Usable, Best, FallbacksAt, NewMaxTp, FoldedUpTo;
    InvShape(st);
    InvShape(u);
    var g := k / 10;
    var h := LowerGroup(st.supported, g, g);
    LowerIsHighest(st.supported, g);
    if h < g {
      var xs, sorted := ListIsSorted(u, h);
      assert Usable(u.supported, g, h);
      assert st.groupTp[h] == Best(u, AllRates, (h + 1) * 10);
      assert Downgraded(st, k, j) == sorted[j];
    }
  }

  lemma {:induction false} OnlyHas(keys: seq<Key>, s: seq<nat>, i: nat)
    requires InRange(keys, s) && i < |s|
    ensures Only(keys, s, keys[s[i]]) != []
  {
    if i > 0 {
      OnlyHas(keys, s[1..], i - 1);
    }
  }

  /** Nothing that is sorted outranks the head. */
  lemma SortedHead(keys: seq<Key>, xs: seq<nat>, ys: seq<nat>, k: nat)
    requires InRange(keys, xs) && IsStableSort(keys, xs, ys) && k in xs
    ensures |ys| > 0 && keys[k].tp <= keys[ys[0]].tp
  {
    hide Only;
    var i :| 0 <= i < |xs| && xs[i] == k;
    OnlyHas(keys, xs, i);
    OnlyHead(keys, ys, keys[k]);
    var j :| 0 <= j < |ys| && keys[ys[j]] == keys[k];
    if j > 0 {
      assert !Below(keys[ys[0]], keys[ys[j]]);
    }
  }

  /** A primary rate that falls becomes one whose throughput, by the keys of the last update, is the
      largest of all supported rates of the groups up to the highest usable one. */
  lemma FallsToBest(u: Sound, k: nat, r: nat, i: nat)
    requires k < CELLS && FallsTo(u, k, 0, r) && |u.supported| == GROUPS && i < k / 10 && Usable(u.supported, k / 10, i)
    ensures exists h :: 0 <= h < GROUPS && Highest(u.supported, k / 10, h) && NoneFaster(u, h, r)
  {
    hide Inv, NewKeys;
    InvShape(u);
    var h: nat, xs: seq<nat>, sorted: seq<nat> :|
      h < GROUPS && Highest(u.supported, k / 10, h) && SortedUpTo(u, h, xs, sorted) && r == sorted[0];
    forall q | 0 <= q < CELLS && q / 10 <= h && Supports(u.supported, q)
      ensures NewKeys(u)[q].tp <= NewKeys(u)[r].tp
    {
      var all := [0, 0, 0, 0] + xs;
      var j :| 0 <= j < |xs| && xs[j] == q;
      assert all[j + 4] == q;
      SortedHead(NewKeys(u), all, sorted, q);
    }
    assert NoneFaster(u, h, r);
  }

  ghost predicate NoneFaster(u: Sound, h: nat, r: nat) {
    InvShape(u);
    r < CELLS && forall q :: 0 <= q < CELLS && q / 10 <= h && Supports(u.supported, q) ==>
      NewKeys(u)[q].tp <= NewKeys(u)[r].tp
  }

  // ----- Reports

  /** After the report the rate has failed: more than 30 attempts, below 20 %. */
  predicate HasFailed(s: Stats) {
    s.attempts > 30 && Frac(s.success, s.attempts) < 819
  }

  /** The correction of the primary rate: the highest rate at or below it in its group with a
      success estimate of one half, or rate 0. */
  ghost predicate CorrectedTo(cells: seq<Stats>, k: nat, r: nat)
    requires |cells| == CELLS && k < CELLS
  {
    && r < CELLS && r / 10 == k / 10 && r <= k && (r % 10 == 0 || cells[r].prob >= 2048)
    && forall i :: r < i <= k ==> cells[i].prob < 2048
  }

  /** The best rates after the report, before the table is rebuilt. */
  ghost predicate Fallen(u: Sound, cells: seq<Stats>, maxTp: seq<nat>, a: nat, b: nat)
    requires |cells| == CELLS && |maxTp| == 4 && AllBelow(maxTp, CELLS)
  {
    && a < CELLS && b < CELLS
    && (if HasFailed(cells[maxTp[0]]) then FallsTo(u, maxTp[0], 0, a) else a == maxTp[0])
    && (if HasFailed(cells[maxTp[1]]) then FallsTo(u, maxTp[1], 1, b) else b == maxTp[1])
  }

  lemma BestFalls(s1: Sound, u: Sound, j: nat)
    requires FromUpdate(s1, u) && j < 2 && |s1.maxTp| == 4 && AllBelow(s1.maxTp, CELLS) && |s1.cells| == CELLS
    ensures var s2 := DowngradeBest(s1, j);
            && Inv(s2) && FromUpdate(s2, u) && s2 == s1.(maxTp := s1.maxTp[j := s2.maxTp[j]])
            && |s2.maxTp| == 4 && AllBelow(s2.maxTp, CELLS)
            && if HasFailed(s1.cells[s1.maxTp[j]]) then FallsTo(u, s1.maxTp[j], j, s2.maxTp[j]) else s2 == s1
  {
    hide Inv, FallsTo, Downgraded, UpdateStats;
    assert Frac(20, 100) == 819;
    DowngradeKeepsInv(s1, j);
    DowngradedFalls(s1, u, s1.maxTp[j], j);
  }

  lemma DigestFalls(st: Sound, u: Sound, ar: seq<Entry>, len: nat, acked: nat)
    requires ReportOk(st, ar, len, acked) && FromUpdate(st, u)
    requires |st.cells| == CELLS && |st.supported| == GROUPS && |st.maxTp| == 4 && AllBelow(st.maxTp, CELLS)
    ensures var cells, d := CreditFrom(st.supported, st.cells, ar, len, acked, 0), Digested(st, ar, len, acked);
            && |d.maxTp| == 4 && d.cells == cells && d.maxProb == st.maxProb && d.table == st.table
            && Fallen(u, cells, st.maxTp, d.maxTp[0], d.maxTp[1]) && d.maxTp[2..] == st.maxTp[2..]
            && (NeedsUpdate(st, ar, len, acked) <==> HasFailed(cells[st.maxTp[0]]) || HasFailed(cells[st.maxTp[1]]))
  {
    hide Inv, CreditFrom, FallsTo, DowngradeBest, UpdateStats, Creditable;
    InvShape(st);
    assert Frac(20, 100) == 819;
    CountedKeepsInv(st, ar, len, acked);
    var s1 := Counted(st, ar, len, acked);
    BestFalls(s1, u, 0);
    BestFalls(DowngradeBest(s1, 0), u, 1);
  }

  /** What the state is after the report. */
  ghost predicate Rebuilt(cells: seq<Stats>, a: nat, b: nat, s': Ht)
    requires |cells| == CELLS && a < CELLS
  {
    && |s'.maxTp| == 4 && CorrectedTo(cells, a, s'.maxTp[0]) && s'.maxTp[1] == b
    && ChainNames(s'.table, [s'.maxTp[0], s'.maxTp[1], s'.maxProb])
  }

  /** A report between two updates: a best rate that has failed falls, the first to the first
      place and the second to the second place of the order of its lower groups; then the table
      is rebuilt from the corrected primary rate, the second one and the fallback. If none has
      failed, lists and table stay. */
  lemma ReportDowngrades(st: Sound, u: Sound, ar: seq<Entry>, len: nat, acked: nat) returns (a: nat, b: nat)
    requires ReportOk(st, ar, len, acked) && FromUpdate(st, u)
    requires |st.cells| == CELLS && |st.supported| == GROUPS && |st.maxTp| == 4 && AllBelow(st.maxTp, CELLS)
    ensures var cells, s' := CreditFrom(st.supported, st.cells, ar, len, acked, 0), TxStatus(st, ar, len, acked, false);
            && Fallen(u, cells, st.maxTp, a, b)
            && if HasFailed(cells[st.maxTp[0]]) || HasFailed(cells[st.maxTp[1]]) then Rebuilt(cells, a, b, s')
               else s'.maxTp == st.maxTp && s'.maxProb == st.maxProb && s'.table == st.table
  {
    hide Inv, CreditFrom, UpdateRates, ReportOk, FallsTo, HasFailed, ChainNames, CorrectedTo, UpdateStats, Digested,
      NeedsUpdate;
    DigestFalls(st, u, ar, len, acked);
    var d := Digested(st, ar, len, acked);
    a, b := d.maxTp[0], d.maxTp[1];
    RebuiltNames(d);
    assert d.maxTp == [a, b] + d.maxTp[2..];
  }

  lemma CorrectedIs(cells: seq<Stats>, k: nat)
    requires |cells| == CELLS && k < CELLS
    ensures CorrectedTo(cells, k, ModifiedPrimary(cells, k))
  {
    hide ModifiedPrimary;
    assert HALF == 2048;
    PrimaryCorrected(cells, k);
    var r := ModifiedPrimary(cells, k);
    forall i: nat | r < i <= k
      ensures cells[i].prob < 2048
    {
      InGroup(r, i, k);
      assert cells[Cell(k / 10, i % 10)].prob < 2048;
    }
  }

  lemma InGroup(r: nat, i: nat, k: nat)
    requires r / 10 == k / 10 && r < i <= k
    ensures i == Cell(k / 10, i % 10) && r % 10 < i % 10 <= k % 10
  {
  }

  lemma RebuiltNames(d: Sound)
    ensures |d.cells| == CELLS && |d.maxTp| == 4 && d.maxTp[0] < CELLS
    ensures Rebuilt(d.cells, d.maxTp[0], d.maxTp[1], UpdateRates(d))
  {
    hide Inv, UpdateRates, ChainNames, CorrectedTo, ModifiedFallback, Measurable;
    InvShape(d);
    UpdateRatesSpec(d);
    TableNamesRates(d);
    CorrectedIs(d.cells, d.maxTp[0]);
  }

  // ----- Runs

  /** The group lists are those of some update. */
  ghost predicate Kept(st: Ht) {
    exists u: Sound :: FromUpdate(st, u)
  }

  lemma ReportKeeps(st: Sound, ar: seq<Entry>, len: nat, acked: nat, elapsed: bool)
    requires ReportOk(st, ar, len, acked) && Kept(st)
    ensures Kept(TxStatus(st, ar, len, acked, elapsed))
  {
    hide Inv, ReportOk, UpdateRates, CreditFrom, ModifyTpRates, UpdateStats, Failing, Downgraded;
    var u: Sound :| FromUpdate(st, u);
    var d := Digested(st, ar, len, acked);
    DigestedLists(st, ar, len, acked);
    var s2 := if elapsed then UpdateStats(d) else d;
    UpdateKeepsInv(d);
    UpdateRatesSpec(s2);
    ModifyFrame(s2);
    UpdateSupported(d);
    assert elapsed ==> FromUpdate(s2, d);
    assert FromUpdate(TxStatus(st, ar, len, acked, elapsed), if elapsed then d else u);
  }

  lemma DigestedLists(st: Sound, ar: seq<Entry>, len: nat, acked: nat)
    requires ReportOk(st, ar, len, acked)
    ensures var d := Digested(st, ar, len, acked); d.groupTp == st.groupTp && d.supported == st.supported
  {
    hide Inv, CreditFrom;
  }

  lemma UpdateSupported(d: Sound)
    ensures UpdateStats(d).supported == d.supported
  {
  }

  lemma StepKeeps(s: Sys, columns: seq<seq<nat>>, e: Event)
    requires SysReady(s) && IsSampleTable(columns) && Allowed(s, e) && Kept(s.ht)
    ensures Kept(Step(s, columns, e).ht)
  {
    hide Inv, FindRate, TxStatus, FromUpdate;
    match e
    case Find(l) =>
      FindLists(s.ht, columns, l);
    case Done(c, tries, ack, ampdu, elapsed) =>
      CompletionIsReport(s.ht, c, tries, ack, ampdu);
      ReportKeeps(s.ht, Reported(c, tries), Frames(ampdu), if ack then Frames(ampdu) else 0, elapsed);
  }

  lemma FindLists(st: Ht, columns: seq<seq<nat>>, l: Link)
    requires Ready(st) && IsSampleTable(columns) && LinkOk(l) && Kept(st)
    ensures Kept(FindRate(st, columns, l).st)
  {
    hide SampleRate, FillFrom, Floored, WithTries, Fitable, LastSet, UpdateStats;
    SampleRateFrame(st, columns);
    ProbeBound(st, columns);
    var u: Sound :| FromUpdate(st, u);
    assert FromUpdate(FindRate(st, columns, l).st, u);
  }

  lemma {:induction false} RunKeeps(s: Sys, columns: seq<seq<nat>>, es: seq<Event>)
    requires SysReady(s) && IsSampleTable(columns) && ValidRun(s, columns, es) && Kept(s.ht)
    ensures Kept(Run(s, columns, es).ht)
    decreases |es|
  {
    hide Step, Ready, Kept;
    if es != [] {
      StepKeeps(s, columns, es[0]);
      RunKeeps(Step(s, columns, es[0]), columns, es[1..]);
    }
  }

  lemma StartKept(c: Caps, l: Link, table: seq<Entry>)
    requires StartOk(c, l, table)
    ensures Kept(Start(c, l, table).ht)
  {
    hide Inv, UpdateStats, UpdateCaps, FitableMcs, FitableBw, Seeded;
    var st := UpdateCaps(c, table);
    InvShape(st);
    SeededKeepsInv(st, FitableMcs(l, FitableBw(l)), FitableBw(l));
    var u := Seeded(st, FitableMcs(l, FitableBw(l)), FitableBw(l));
    UpdateSupported(u);
    assert FromUpdate(UpdateStats(u), u);
  }

  /** In every run, every completion between two updates treats its best rates so, with the order
      of the last update before it. */
  lemma EveryReportDowngrades(c: Caps, l: Link, table: seq<Entry>, columns: seq<seq<nat>>, es: seq<Event>, e: Event)
    returns (u: Sound, a: nat, b: nat)
    requires StartOk(c, l, table) && IsSampleTable(columns) && ValidRun(Start(c, l, table), columns, es)
    requires e.Done? && !e.elapsed && Allowed(Run(Start(c, l, table), columns, es), e)
    ensures var s := Run(Start(c, l, table), columns, es);
            FromUpdate(s.ht, u) && CompletionDowngrades(s.ht, u, e, Step(s, columns, e).ht, a, b)
  {
    hide Start, Run, ValidRun, FromUpdate, CompletionDowngrades, Inv, TxStatus;
    StartKept(c, l, table);
    RunKeeps(Start(c, l, table), columns, es);
    var s := Run(Start(c, l, table), columns, es);
    u :| FromUpdate(s.ht, u);
    a, b := DoneDowngrades(s, columns, u, e);
  }

  /** The completion `e` of state `st` leads to `s'` in that way. */
  ghost predicate CompletionDowngrades(st: Ht, u: Sound, e: Event, s': Ht, a: nat, b: nat) {
    && e.Done? && |e.chain| == |e.tries| == 4 && |st.cells| == CELLS && |st.maxTp| == 4 && AllBelow(st.maxTp, CELLS)
    && var ar, len := Reported(e.chain, e.tries), if e.ampdu > 1 then e.ampdu else 1;
       && Creditable(st.supported, ar)
       && var cells := CreditFrom(st.supported, st.cells, ar, len, if e.ack then len else 0, 0);
          && Fallen(u, cells, st.maxTp, a, b)
          && if HasFailed(cells[st.maxTp[0]]) || HasFailed(cells[st.maxTp[1]]) then Rebuilt(cells, a, b, s')
             else s'.maxTp == st.maxTp && s'.maxProb == st.maxProb && s'.table == st.table
  }

  lemma DoneDowngrades(s: Sys, columns: seq<seq<nat>>, u: Sound, e: Event) returns (a: nat, b: nat)
    requires SysReady(s) && IsSampleTable(columns) && e.Done? && !e.elapsed && Allowed(s, e) && FromUpdate(s.ht, u)
    ensures CompletionDowngrades(s.ht, u, e, Step(s, columns, e).ht, a, b)
  {
    hide Inv, TxStatus, FromUpdate, Fallen, Rebuilt, HasFailed, CreditFrom, Creditable;
    InvShape(s.ht);
    CompletionIsReport(s.ht, e.chain, e.tries, e.ack, e.ampdu);
    var len := Frames(e.ampdu);
    a, b := ReportDowngrades(s.ht, u, Reported(e.chain, e.tries), len, if e.ack then len else 0);
  }
}
