/** The numbers of tries in the table: how many transmissions of a rate fit into 6 ms, in every
    table that a station builds. */
module HtCounts {
  import opened FixedPoint
  import opened RateGroups
  import opened HtState
  import opened HtUpdate
  import opened HtRates
  import opened HtStatus
  import opened HtSample
  import opened SampleTable
  import opened Signal
  import opened Driver
  import opened Runs

  // ----- The counts of the table

  /** Three tries of rate `k` with this overhead fit into 6 ms. */
  predicate ThreeFit(st: Ht, k: nat, overhead: nat)
    requires |st.air| == CELLS && k < CELLS
  {
    var data := st.air[k] * (st.avgAmpdu / 4096) % 0x1_0000_0000 / 1000;
    67 + 139 + 283 + 3 * ((if k / 10 == 4 then 0 else overhead) + data) < 6000
  }

  /** A budget that is marked as up to date is that of the present state. */
  ghost predicate Budgeted(st: Sound, k: nat)
    requires k < CELLS
  {
    InvShape(st);
    var s := st.cells[k];
    s.retryUpdated && s.prob >= 409 ==>
      && s.retryCount == (if ThreeFit(st, k, st.overhead) then 3 else 2)
      && s.retryRts == if ThreeFit(st, k, st.overheadRts) then 3 else 2
  }

  ghost predicate AllBudgeted(st: Sound) {
    forall k :: 0 <= k < CELLS ==> Budgeted(st, k)
  }

  /** The count of the entry for rate `k`: below 20 % two, else what fits, without protection
      in the first place and with it later. */
  ghost predicate CountIs(st: Sound, k: nat, offset: nat, count: nat) {
    InvShape(st);
    var overhead := if offset == 0 then st.overhead else st.overheadRts;
    k < CELLS && count == if st.cells[k].prob >= 819 && ThreeFit(st, k, overhead) then 3 else 2
  }

  lemma SetRateCount(st: Sound, offset: nat, k: nat)
    requires offset < 3 && k < CELLS && AllBudgeted(st)
    ensures Inv(SetRate(st, offset, k)) && AllBudgeted(SetRate(st, offset, k))
    ensures |SetRate(st, offset, k).table| == 4 && CountIs(st, k, offset, SetRate(st, offset, k).table[offset].count)
  {
    hide Inv, Retransmit, ThreeFit;
    InvShape(st);
    SetRateKeepsInv(st, offset, k);
    var s' := SetRate(st, offset, k);
    assert Frac(20, 100) == 819 && Frac(1, 10) == 409;
    RetransmitIs(st, k);
    forall j | 0 <= j < CELLS
      ensures Budgeted(s', j)
    {
      assert Budgeted(st, j);
      SameFit(st, s', j);
    }
    assert Budgeted(st, k);
  }

  lemma RetransmitIs(st: Sound, k: nat)
    requires k < CELLS && |st.cells| == CELLS && |st.air| == CELLS
    ensures var s := Retransmit(st, k);
            && s.prob == st.cells[k].prob
            && (s.prob >= 409 ==>
                  && s.retryCount == (if ThreeFit(st, k, st.overhead) then 3 else 2)
                  && s.retryRts == if ThreeFit(st, k, st.overheadRts) then 3 else 2)
  {
    hide Inv;
    assert Frac(1, 10) == 409;
    if st.cells[k].prob >= 409 {
      RetriesExactly(st, k);
    }
  }

  lemma SameFit(st: Ht, s': Ht, k: nat)
    requires |st.air| == CELLS && k < CELLS && s'.air == st.air && s'.avgAmpdu == st.avgAmpdu
    ensures forall o: nat :: ThreeFit(s', k, o) <==> ThreeFit(st, k, o)
  {
  }

  /** What counts depend on is the same. */
  predicate SameBasis(st: Ht, s': Ht) {
    && s'.air == st.air && s'.avgAmpdu == st.avgAmpdu && s'.overhead == st.overhead && s'.overheadRts == st.overheadRts
    && |st.cells| == |s'.cells| == CELLS && forall k :: 0 <= k < CELLS ==> s'.cells[k].prob == st.cells[k].prob
  }

  lemma SameCount(st: Sound, s': Sound, k: nat, offset: nat, count: nat)
    requires SameBasis(st, s') && CountIs(s', k, offset, count)
    ensures CountIs(st, k, offset, count)
  {
    hide Inv, ThreeFit;
    InvShape(st);
    SameFit(st, s', k);
  }

  lemma SetRateBasis(st: Sound, offset: nat, k: nat)
    requires offset < 3 && k < CELLS
    ensures SameBasis(st, SetRate(st, offset, k))
  {
    hide Inv;
    InvShape(st);
  }

  /** The counts of a rebuilt table, and that budgets stay those of the present state. */
  lemma TableCounts(st: Sound)
    requires AllBudgeted(st)
    ensures var m, s' := ModifyTpRates(st), UpdateRates(st);
            && Inv(s') && AllBudgeted(s') && |m.maxTp| == |s'.table| == 4
            && CountIs(st, m.maxTp[0], 0, s'.table[0].count) && CountIs(st, m.maxTp[1], 1, s'.table[1].count)
            && CountIs(st, m.maxProb, 2, s'.table[2].count)
  {
    hide Inv, ModifyTpRates, SetRate, CountIs, Budgeted;
    UpdateRatesSpec(st);
    ModifyKeepsInv(st);
    ModifyFrame(st);
    ModifyShape(st);
    var s0 := ModifyTpRates(st);
    assert AllBudgeted(s0) && SameBasis(st, s0) by {
      ModifiedBudgets(st);
    }
    SetRateFrame(s0, 0, s0.maxTp[0]);
    SetRateCount(s0, 0, s0.maxTp[0]);
    SetRateBasis(s0, 0, s0.maxTp[0]);
    var s1 := SetRate(s0, 0, s0.maxTp[0]);
    SetRateFrame(s1, 1, s0.maxTp[1]);
    SetRateCount(s1, 1, s0.maxTp[1]);
    SetRateBasis(s1, 1, s0.maxTp[1]);
    var s2 := SetRate(s1, 1, s0.maxTp[1]);
    SetRateFrame(s2, 2, s0.maxProb);
    SetRateCount(s2, 2, s0.maxProb);
    var s3 := SetRate(s2, 2, s0.maxProb);
    SameCount(st, s0, s0.maxTp[0], 0, s1.table[0].count);
    SameCount(st, s1, s0.maxTp[1], 1, s2.table[1].count);
    SameCount(st, s2, s0.maxProb, 2, s3.table[2].count);
    EndedBudgets(s3, UpdateRates(st));
  }

  lemma ModifiedBudgets(st: Sound)
    requires AllBudgeted(st)
    ensures var s0 := ModifyTpRates(st);
            Inv(s0) && AllBudgeted(s0) && SameBasis(st, s0)
  {
    hide Inv, ModifyTpRates;
    InvShape(st);
    ModifyKeepsInv(st);
    ModifyFrame(st);
    SameBudgets(st, ModifyTpRates(st));
  }

  lemma EndedBudgets(st: Sound, s': Sound)
    requires AllBudgeted(st) && s' == st.(table := s'.table)
    ensures AllBudgeted(s')
  {
    SameBudgets(st, s');
  }

  lemma SameBudgets(st: Sound, s': Sound)
    requires AllBudgeted(st) && SameBasis(st, s')
    requires forall k :: 0 <= k < CELLS ==>
               && s'.cells[k].retryUpdated == st.cells[k].retryUpdated
               && s'.cells[k].retryCount == st.cells[k].retryCount && s'.cells[k].retryRts == st.cells[k].retryRts
    ensures AllBudgeted(s')
  {
    hide Inv, ThreeFit;
    InvShape(st);
    forall k | 0 <= k < CELLS
      ensures Budgeted(s', k)
    {
      assert Budgeted(st, k);
      SameFit(st, s', k);
    }
  }

  // ----- Reports

  lemma UpdatedBudgets(st: Sound)
    ensures Inv(UpdateStats(st)) && AllBudgeted(UpdateStats(st))
  {
    hide Inv, FallbacksAt, NewMaxTp, GroupListsAt, ThreeFit;
    InvCellsOf(st);
    UpdateKeepsInv(st);
    InvCellsOf(UpdateStats(st));
    forall k: nat | k < CELLS
      ensures Budgeted(UpdateStats(st), k)
    {
      assert UpdateStats(st).cells[k] == FoldedCell(st.supported, st.cells, k);
    }
  }

  lemma InvCellsOf(st: Sound)
    ensures CellsOk(st.cells, st.supported)
  {
  }

  /** Only counters of the cells and the lists differ. */
  ghost predicate SameBudgetsIn(st: Ht, s': Ht) {
    && SameBasis(st, s')
    && forall k :: 0 <= k < CELLS ==>
         && s'.cells[k].retryUpdated == st.cells[k].retryUpdated
         && s'.cells[k].retryCount == st.cells[k].retryCount && s'.cells[k].retryRts == st.cells[k].retryRts
  }

  lemma CountedBasis(st: Sound, ar: seq<Entry>, len: nat, acked: nat)
    requires ReportOk(st, ar, len, acked)
    ensures |st.cells| == CELLS && Shape(st) && SameBudgetsIn(st, Counted(st, ar, len, acked))
  {
    hide Inv, CreditFrom, TxValid, CellOf;
    InvShape(st);
    forall k: nat | k < CELLS
      ensures var a, b := Counted(st, ar, len, acked).cells[k], st.cells[k];
              && a.prob == b.prob && a.retryUpdated == b.retryUpdated
              && a.retryCount == b.retryCount && a.retryRts == b.retryRts
    {
      CreditConserved(st.supported, st.cells, ar, len, acked, 0, k);
    }
  }

  lemma DigestedBudgets(st: Sound, ar: seq<Entry>, len: nat, acked: nat)
    requires ReportOk(st, ar, len, acked) && AllBudgeted(st)
    ensures AllBudgeted(Digested(st, ar, len, acked))
  {
    hide Inv, ReportOk, CreditFrom, Failing, Downgraded, Counted, Budgeted;
    CountedBasis(st, ar, len, acked);
    CountedKeepsInv(st, ar, len, acked);
    SameBudgets(st, Digested(st, ar, len, acked));
  }

  /** The counts of the table are those of the rates it was made from. */
  ghost predicate TableCounted(st: Sound) {
    InvShape(st);
    && CountIs(st, st.maxTp[0], 0, st.table[0].count) && CountIs(st, st.maxTp[1], 1, st.table[1].count)
    && CountIs(st, st.maxProb, 2, st.table[2].count)
  }

  lemma RebuiltCounted(st: Sound)
    requires AllBudgeted(st)
    ensures Inv(UpdateRates(st)) && AllBudgeted(UpdateRates(st)) && TableCounted(UpdateRates(st))
  {
    hide Inv, UpdateRates, ModifyTpRates, CountIs, AllBudgeted;
    TableCounts(st);
    UpdateRatesSpec(st);
    InvShape(st);
    var s' := UpdateRates(st);
    InvShape(s');
    RebuiltBasis(st);
    SameCount(s', st, s'.maxTp[0], 0, s'.table[0].count);
    SameCount(s', st, s'.maxTp[1], 1, s'.table[1].count);
    SameCount(s', st, s'.maxProb, 2, s'.table[2].count);
  }

  lemma RebuiltBasis(st: Sound)
    ensures Inv(UpdateRates(st)) && SameBasis(UpdateRates(st), st)
  {
    hide Inv, UpdateRates, ModifyTpRates;
    UpdateRatesSpec(st);
    ModifyFrame(st);
    InvShape(st);
    InvShape(UpdateRates(st));
    forall k | 0 <= k < CELLS
      ensures UpdateRates(st).cells[k].prob == st.cells[k].prob
    {
      assert SameEstimate(UpdateRates(st).cells[k], st.cells[k]);
    }
  }

  /** Without a failing rate counting changes neither lists nor table. */
  lemma CalmCounted(st: Sound, ar: seq<Entry>, len: nat, acked: nat)
    requires ReportOk(st, ar, len, acked) && !NeedsUpdate(st, ar, len, acked) && TableCounted(st)
    ensures TableCounted(Digested(st, ar, len, acked))
  {
    hide Inv, ReportOk, CreditFrom, Failing, Downgraded, CountIs, Counted;
    InvShape(st);
    CountedBasis(st, ar, len, acked);
    CountedKeepsInv(st, ar, len, acked);
    CalmDigest(st, ar, len, acked);
    var s' := Digested(st, ar, len, acked);
    SameCount(s', st, s'.maxTp[0], 0, s'.table[0].count);
    SameCount(s', st, s'.maxTp[1], 1, s'.table[1].count);
    SameCount(s', st, s'.maxProb, 2, s'.table[2].count);
  }

  lemma CalmDigest(st: Sound, ar: seq<Entry>, len: nat, acked: nat)
    requires ReportOk(st, ar, len, acked) && !NeedsUpdate(st, ar, len, acked)
    ensures var s' := Digested(st, ar, len, acked);
            && s' == Counted(st, ar, len, acked)
            && s'.maxTp == st.maxTp && s'.maxProb == st.maxProb && s'.table == st.table
  {
    hide Inv, CreditFrom, Failing, Downgraded, Creditable;
    CountedKeepsInv(st, ar, len, acked);
  }

  /** A report keeps budgets and counts; whenever the table is rebuilt, its counts are right. */
  lemma ReportCounts(st: Sound, ar: seq<Entry>, len: nat, acked: nat, elapsed: bool)
    requires ReportOk(st, ar, len, acked) && AllBudgeted(st)
    ensures AllBudgeted(TxStatus(st, ar, len, acked, elapsed))
    ensures elapsed || NeedsUpdate(st, ar, len, acked) || TableCounted(st) ==>
              TableCounted(TxStatus(st, ar, len, acked, elapsed))
  {
    hide Inv, ReportOk, UpdateRates, UpdateStats, Digested, NeedsUpdate, AllBudgeted, TableCounted;
    DigestedBudgets(st, ar, len, acked);
    var s1 := Digested(st, ar, len, acked);
    UpdatedBudgets(s1);
    RebuiltCounted(if elapsed then UpdateStats(s1) else s1);
    if !NeedsUpdate(st, ar, len, acked) && TableCounted(st) {
      CalmCounted(st, ar, len, acked);
    }
  }

  // ----- Runs

  lemma FindCounts(st: Ht, columns: seq<seq<nat>>, l: Link)
    requires Ready(st) && IsSampleTable(columns) && LinkOk(l) && AllBudgeted(st)
    ensures Ready(FindRate(st, columns, l).st) && AllBudgeted(FindRate(st, columns, l).st)
    ensures TableCounted(st) ==> TableCounted(FindRate(st, columns, l).st)
  {
    hide Inv, SampleRate, FindRate, CountIs, AllBudgeted;
    InvShape(st);
    FindRateKeepsReady(st, columns, l);
    var s' := FindRate(st, columns, l).st;
    InvShape(s');
    FindBasis(st, columns, l);
    SameBudgets(st, s');
    if TableCounted(st) {
      SameCount(s', st, s'.maxTp[0], 0, s'.table[0].count);
      SameCount(s', st, s'.maxTp[1], 1, s'.table[1].count);
      SameCount(s', st, s'.maxProb, 2, s'.table[2].count);
    }
  }

  lemma FindBasis(st: Ht, columns: seq<seq<nat>>, l: Link)
    requires Ready(st) && IsSampleTable(columns)
    ensures var s' := FindRate(st, columns, l).st;
            && SameBudgetsIn(st, s') && SameBudgetsIn(s', st)
            && s'.maxTp == st.maxTp && s'.maxProb == st.maxProb && s'.table == st.table
  {
    hide SampleRate, FillFrom, Floored, WithTries, Fitable, LastSet;
    SampleRateFrame(st, columns);
    ProbeBound(st, columns);
  }

  ghost predicate SomeUpdate(es: seq<Event>) {
    exists i :: 0 <= i < |es| && es[i].Done? && es[i].elapsed
  }

  lemma StepCounts(s: Sys, columns: seq<seq<nat>>, e: Event)
    requires SysReady(s) && IsSampleTable(columns) && Allowed(s, e) && AllBudgeted(s.ht)
    ensures var s' := Step(s, columns, e);
            AllBudgeted(s'.ht) && (TableCounted(s.ht) || (e.Done? && e.elapsed) ==> TableCounted(s'.ht))
  {
    hide Inv, FindRate, TxStatus, AllBudgeted, TableCounted;
    match e
    case Find(l) =>
      FindCounts(s.ht, columns, l);
    case Done(c, tries, ack, ampdu, elapsed) =>
      CompletionIsReport(s.ht, c, tries, ack, ampdu);
      ReportCounts(s.ht, Reported(c, tries), Frames(ampdu), if ack then Frames(ampdu) else 0, elapsed);
  }

  lemma {:induction false} RunCounts(s: Sys, columns: seq<seq<nat>>, es: seq<Event>)
    requires SysReady(s) && IsSampleTable(columns) && ValidRun(s, columns, es) && AllBudgeted(s.ht)
    ensures AllBudgeted(Run(s, columns, es).ht)
    ensures TableCounted(s.ht) || SomeUpdate(es) ==> TableCounted(Run(s, columns, es).ht)
    decreases |es|
  {
    hide Step, Ready, AllBudgeted, TableCounted;
    if es != [] {
      StepCounts(s, columns, es[0]);
      RunCounts(Step(s, columns, es[0]), columns, es[1..]);
      if SomeUpdate(es) && !(es[0].Done? && es[0].elapsed) {
        var i :| 0 <= i < |es| && es[i].Done? && es[i].elapsed;
        assert es[1..][i - 1] == es[i];
      }
    }
  }

  lemma StartBudgeted(c: Caps, l: Link, table: seq<Entry>)
    requires StartOk(c, l, table)
    ensures AllBudgeted(Start(c, l, table).ht)
  {
    hide Inv, UpdateStats, AllBudgeted, UpdateCaps, FitableMcs, FitableBw, Seeded;
    var st := UpdateCaps(c, table);
    InvShape(st);
    SeededKeepsInv(st, FitableMcs(l, FitableBw(l)), FitableBw(l));
    UpdatedBudgets(Seeded(st, FitableMcs(l, FitableBw(l)), FitableBw(l)));
  }

  /** In every run, from the first update on, the table grants each of its rates two tries, and a
      third one exactly if its estimate is 20 % or more and three tries of it fit into 6 ms. */
  lemma EveryTableIsCounted(c: Caps, l: Link, table: seq<Entry>, columns: seq<seq<nat>>, es: seq<Event>)
    requires StartOk(c, l, table) && IsSampleTable(columns)
    requires ValidRun(Start(c, l, table), columns, es) && SomeUpdate(es)
    ensures TableCounted(Run(Start(c, l, table), columns, es).ht)
  {
    hide Start, Run, ValidRun, AllBudgeted, TableCounted;
    StartBudgeted(c, l, table);
    RunCounts(Start(c, l, table), columns, es);
  }
}
