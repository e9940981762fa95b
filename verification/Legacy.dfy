/** The legacy rate controller (driver/vmac/rc80211_minstrel.c): its statistics update, the
    retry chain it derives, and its sampling order. */
module Legacy {
  import opened FixedPoint
  import opened RateStats
  import opened SampleTable

  /** `struct minstrel_rate`, as far as the update reads or writes it. */
  datatype Rate = Rate(rix: int, perfectTxTime: nat, stats: Stats, adjustedRetry: nat, sampleLimit: int, tpAvg: nat)

  /** Frames per 100 ms at success estimate `prob` and `usecs` per frame. */
  function FramesAt(prob: nat, usecs: nat): nat
    requires usecs > 0
  {
    var perTime: nat := prob * 1000 / usecs;
    Trunc(100 * perTime)
  }

  /** `minstrel_get_tp_avg`. */
  function LegacyTp(r: Rate): nat {
    var usecs := if r.perfectTxTime == 0 then 1000000 else r.perfectTxTime;
    if r.stats.prob < Frac(10, 100) then 0
    else FramesAt(if r.stats.prob > Frac(90, 100) then Frac(90, 100) else r.stats.prob, usecs)
  }

  /** What the update does to one rate: fold the interval, adjust the retries of rates that are
      nearly perfect or nearly dead, and estimate the throughput. */
  function Updated(r: Rate): Rate {
    var s := Fold(r.stats);
    var extreme := s.prob > Frac(95, 100) || s.prob < Frac(10, 100);
    var halved := if s.retryCount / 2 > 2 then 2 else s.retryCount / 2;
    var retry := if extreme then halved else s.retryCount;
    var limit := if extreme then 100 else -1;
    var r' := r.(stats := s, adjustedRetry := if retry == 0 then 2 else retry, sampleLimit := limit);
    r'.(tpAvg := LegacyTp(r'))
  }

  function UpdatedUpTo(rates: seq<Rate>, n: nat): (r: seq<Rate>)
    requires n <= |rates|
    ensures |r| == |rates|
    ensures forall i :: 0 <= i < |rates| ==> r[i] == if i < n then Updated(rates[i]) else rates[i]
  {
    seq(|rates|, i requires 0 <= i < |rates| => if i < n then Updated(rates[i]) else rates[i])
  }

  /** The estimate, from its inputs alone: the whole frames per millisecond at a success estimate
      of 90 % at most; a rate without a transmit time counts as one of a second. */
  lemma LegacyTpExactly(r: Rate) returns (q: nat)
    ensures var p, usecs := if r.stats.prob > 3686 then 3686 else r.stats.prob,
                            if r.perfectTxTime == 0 then 1000000 else r.perfectTxTime;
            && q * usecs <= p * 1000 < (q + 1) * usecs
            && LegacyTp(r) == if r.stats.prob < 409 then 0 else 100 * q / 4096
  {
    hide FramesAt;
    assert Frac(10, 100) == 409 && Frac(90, 100) == 3686;
    var p, usecs := if r.stats.prob > 3686 then 3686 else r.stats.prob,
                    if r.perfectTxTime == 0 then 1000000 else r.perfectTxTime;
    q := FramesExactly(p, usecs);
  }

  lemma FramesExactly(p: nat, usecs: nat) returns (q: nat)
    requires usecs > 0
    ensures q * usecs <= p * 1000 < (q + 1) * usecs && FramesAt(p, usecs) == 100 * q / 4096
  {
    q := p * 1000 / usecs;
    WholePart(p * 1000, usecs);
  }

  /** What an update makes of the retries and of the sampling of a rate: one that is nearly perfect
      or nearly dead gets at most two, and only every hundredth sample. */
  lemma UpdatedExactly(r: Rate)
    ensures var r' := Updated(r);
            var extreme, n := r'.stats.prob > 3891 || r'.stats.prob < 409, r.stats.retryCount;
            && r'.stats == Fold(r.stats) && r'.tpAvg == LegacyTp(r') && r'.rix == r.rix
            && r'.perfectTxTime == r.perfectTxTime && r'.sampleLimit == (if extreme then 100 else -1)
            && r'.adjustedRetry == if extreme then if n in {2, 3} then 1 else 2 else if n == 0 then 2 else n
  {
    hide FramesAt, NewProb, NewVar;
    assert Frac(10, 100) == 409 && Frac(95, 100) == 3891;
  }

  /** Does `r` replace `p` as the most reliable rate seen? From 95 % on throughput decides. */
  predicate Replaces(r: Rate, p: Rate) {
    if r.stats.prob >= Frac(95, 100) then LegacyTp(r) >= LegacyTp(p) else r.stats.prob >= p.stats.prob
  }

  /** The rate the update holds to be the most reliable of the first `n`. */
  function ProbRate(rates: seq<Rate>, n: nat): (p: nat)
    requires n <= |rates|
    ensures n > 0 ==> p < n
  {
    if n == 0 then 0
    else
      var p, i := ProbRate(rates, n - 1), n - 1;
      if Replaces(rates[i], rates[p]) then i else p
  }

  /** No rate below 95 % is more reliable than the chosen one. */
  lemma {:induction false} ProbRateDominates(rates: seq<Rate>, n: nat, i: nat)
    requires i < n <= |rates| && rates[i].stats.prob < Frac(95, 100)
    ensures rates[ProbRate(rates, n)].stats.prob >= rates[i].stats.prob
  {
    if i < n - 1 {
      ProbRateDominates(rates, n - 1, i);
    }
  }

  /** A rate of 95 % or more that takes over when its turn comes. */
  predicate TakesOver(rates: seq<Rate>, i: nat)
    requires i <= |rates|
  {
    && i < |rates| && rates[i].stats.prob >= Frac(95, 100)
    && LegacyTp(rates[i]) >= LegacyTp(rates[ProbRate(rates, i)])
  }

  /** The chosen rate reaches 95 % exactly if some rate of 95 % or more is at least as fast as
      the one chosen from the rates before it. */
  lemma {:induction false} ReliableExactly(rates: seq<Rate>, n: nat)
    requires 0 < n <= |rates|
    ensures rates[ProbRate(rates, n)].stats.prob >= Frac(95, 100) <==> exists i :: 0 <= i < n && TakesOver(rates, i)
  {
    var i := n - 1;
    if i > 0 {
      ReliableExactly(rates, i);
    }
    if rates[ProbRate(rates, n)].stats.prob >= Frac(95, 100) && ProbRate(rates, n) == i {
      assert TakesOver(rates, i);
    }
  }

  /** Once one has, no rate of 95 % or more that follows is faster than the chosen one. */
  lemma {:induction false} ReliableIsFastest(rates: seq<Rate>, n: nat, i: nat, j: nat)
    requires i <= j < n <= |rates| && TakesOver(rates, i) && rates[j].stats.prob >= Frac(95, 100)
    ensures LegacyTp(rates[j]) <= LegacyTp(rates[ProbRate(rates, n)])
    ensures rates[ProbRate(rates, n)].stats.prob >= Frac(95, 100)
  {
    ReliableExactly(rates, n);
    if j < n - 1 {
      ReliableIsFastest(rates, n - 1, i, j);
      assert ProbRate(rates, n) in {n - 1, ProbRate(rates, n - 1)};
    } else {
      if i < n - 1 {
        ReliableExactly(rates, n - 1);
      }
    }
  }

  /** `calc_rate_durations` on the 2.4 GHz band: the frame of 1200 bytes with the short preamble;
      bit rates are in units of 100 kbit/s. */
  function PerfectTxTime(bitrate: nat): nat
    requires bitrate > 0
  {
    10 + 72 + 24 + (8 * 1204 * 10 + bitrate - 1) / bitrate
  }

  /** A rate whose first interval counted `attempts` frames. */
  function Sent(bitrate: nat, attempts: nat, success: nat): Rate
    requires bitrate > 0
  {
    Rate(0, PerfectTxTime(bitrate), FRESH.(attempts := attempts, success := success), 2, -1, 0)
  }

  /** A reliable rate can be passed over: after one interval with 60 % at 11 Mbit/s, 97 % at
      6 Mbit/s and 60 % at 9 Mbit/s, the last one is chosen, neither the most reliable nor the
      fastest. */
  lemma ReliablePassedOver() returns (rates: seq<Rate>)
    ensures rates == UpdatedUpTo([Sent(110, 5, 3), Sent(60, 40, 39), Sent(90, 5, 3)], 3)
    ensures |rates| == 3 && ProbRate(rates, 3) == 2
    ensures rates[1].stats.prob >= Frac(95, 100) && rates[2].stats.prob < rates[1].stats.prob
    ensures LegacyTp(rates[2]) < LegacyTp(rates[1]) < LegacyTp(rates[0])
  {
    hide LegacyTp, Updated, Sent;
    rates := UpdatedUpTo([Sent(110, 5, 3), Sent(60, 40, 39), Sent(90, 5, 3)], 3);
    ExampleRates();
    assert ProbRate(rates, 1) == 0;
    assert ProbRate(rates, 2) == 0;
  }

  lemma ExampleRates()
    ensures var a, b, c := Updated(Sent(110, 5, 3)), Updated(Sent(60, 40, 39)), Updated(Sent(90, 5, 3));
            && a.stats.prob == 2457 && b.stats.prob == 3993 && c.stats.prob == 2457
            && LegacyTp(a) == 61 && LegacyTp(b) == 52 && LegacyTp(c) == 50
    ensures Frac(95, 100) == 3891
  {
    hide LegacyTp;
    assert PerfectTxTime(110) == 982 && PerfectTxTime(60) == 1712 && PerfectTxTime(90) == 1177;
    assert Frac(3, 5) == 2457 && Frac(39, 40) == 3993;
    var a, b, c := Updated(Sent(110, 5, 3)), Updated(Sent(60, 40, 39)), Updated(Sent(90, 5, 3));
    TpOfRate(a, 2502);
    TpOfRate(b, 2153);
    TpOfRate(c, 2087);
  }

  lemma TpOfRate(r: Rate, q: nat)
    requires r.perfectTxTime > 0 && r.stats.prob >= 409
    requires var p := if r.stats.prob > 3686 then 3686 else r.stats.prob;
             q * r.perfectTxTime <= p * 1000 < (q + 1) * r.perfectTxTime
    ensures LegacyTp(r) == 100 * q / 4096
  {
    assert Frac(10, 100) == 409 && Frac(90, 100) == 3686;
    var p := if r.stats.prob > 3686 then 3686 else r.stats.prob;
    ExactQuotient(p * 1000, r.perfectTxTime, q);
  }

  // ----- The retry chain

  /** The last of the first `n` rates with the largest throughput, or 0 if `n` is 0. */
  function LastBest(rates: seq<Rate>, n: nat): (b: nat)
    requires n <= |rates|
    ensures n > 0 ==> b < n
    ensures n == 0 ==> b == 0
  {
    if n == 0 then 0
    else
      var b := LastBest(rates, n - 1);
      if rates[b].tpAvg <= rates[n - 1].tpAvg then n - 1 else b
  }

  lemma LastBestNext(rates: seq<Rate>, i: nat)
    requires i < |rates|
    ensures LastBest(rates, i + 1) ==
            if rates[LastBest(rates, i)].tpAvg <= rates[i].tpAvg then i else LastBest(rates, i)
  {
  }

  lemma {:induction false} LastBestSpec(rates: seq<Rate>, n: nat, i: nat)
    requires i < n <= |rates|
    ensures rates[i].tpAvg <= rates[LastBest(rates, n)].tpAvg
    ensures i > LastBest(rates, n) ==> rates[i].tpAvg < rates[LastBest(rates, n)].tpAvg
  {
    if i < n - 1 {
      LastBestSpec(rates, n - 1, i);
    } else if n > 1 {
      LastBestSpec(rates, n - 1, 0);
    }
  }

  /** Entry `j` of the chain: the best rate, then each time the best one below the last. */
  function ChainEntry(rates: seq<Rate>, n: nat, j: nat): (b: nat)
    requires n <= |rates|
    ensures n > 0 ==> b < n
    ensures n == 0 ==> b == 0
  {
    if j == 0 then LastBest(rates, n) else LastBest(rates, ChainEntry(rates, n, j - 1))
  }

  lemma ChainEntryIs(rates: seq<Rate>, n: nat, j: nat)
    requires n <= |rates|
    ensures ChainEntry(rates, n, j) == LastBest(rates, if j == 0 then n else ChainEntry(rates, n, j - 1))
  {
  }

  /** The retry chain of the first `n` rates. */
  function Chain(rates: seq<Rate>, n: nat): (c: seq<nat>)
    requires n <= |rates|
    ensures |c| == 4 && forall j :: 0 <= j < 4 ==> c[j] == ChainEntry(rates, n, j)
  {
    [ChainEntry(rates, n, 0), ChainEntry(rates, n, 1), ChainEntry(rates, n, 2), ChainEntry(rates, n, 3)]
  }

  /** The chain is ordered: its head is the last rate of largest throughput, every later entry
      is the last best among the rates below its predecessor, rate numbers strictly fall until
      they reach 0, and throughput never rises along it. */
  lemma ChainOrdered(rates: seq<Rate>, n: nat, j: nat, i: nat)
    requires 0 < n <= |rates|
    ensures i < n ==> rates[i].tpAvg <= rates[ChainEntry(rates, n, 0)].tpAvg
    ensures ChainEntry(rates, n, 0) < i < n ==> rates[i].tpAvg < rates[ChainEntry(rates, n, 0)].tpAvg
    ensures i < ChainEntry(rates, n, j) ==> rates[i].tpAvg <= rates[ChainEntry(rates, n, j + 1)].tpAvg
    ensures ChainEntry(rates, n, j + 1) < i < ChainEntry(rates, n, j) ==>
              rates[i].tpAvg < rates[ChainEntry(rates, n, j + 1)].tpAvg
    ensures || ChainEntry(rates, n, j + 1) < ChainEntry(rates, n, j)
            || ChainEntry(rates, n, j + 1) == ChainEntry(rates, n, j) == 0
    ensures rates[ChainEntry(rates, n, j + 1)].tpAvg <= rates[ChainEntry(rates, n, j)].tpAvg
  {
    if i < n {
      LastBestSpec(rates, n, i);
    }
    var bound := ChainEntry(rates, n, j);
    if i < bound {
      LastBestSpec(rates, bound, i);
    }
    if bound > 0 {
      ChainFalls(rates, n, j);
    }
  }

  lemma ChainFalls(rates: seq<Rate>, n: nat, j: nat)
    requires 0 < n <= |rates| && ChainEntry(rates, n, j) > 0
    ensures rates[ChainEntry(rates, n, j + 1)].tpAvg <= rates[ChainEntry(rates, n, j)].tpAvg
  {
    var outer := if j == 0 then n else ChainEntry(rates, n, j - 1);
    assert ChainEntry(rates, n, j) == LastBest(rates, outer);
    LastBestSpec(rates, outer, ChainEntry(rates, n, j + 1));
  }

  // ----- Sampling order

  /** A position in the sample table. */
  datatype Cursor = Cursor(row: nat, column: nat)

  function Move(c: Cursor, n: nat): Cursor {
    if c.row + 1 < n then Cursor(c.row + 1, c.column)
    else Cursor(0, if c.column + 1 >= COLUMNS then 0 else c.column + 1)
  }

  /** The position after `m` samples. */
  function Moved(c: Cursor, n: nat, m: nat): Cursor {
    if m == 0 then c else Move(Moved(c, n, m - 1), n)
  }

  lemma {:induction false} MovedInColumn(c: Cursor, n: nat, m: nat)
    requires c.row == 0 && m <= n && n > 0
    ensures m < n ==> Moved(c, n, m) == Cursor(m, c.column)
    ensures m == n ==> Moved(c, n, m) == Cursor(0, if c.column + 1 >= COLUMNS then 0 else c.column + 1)
  {
    if m > 0 {
      MovedInColumn(c, n, m - 1);
    }
  }

  /** What is sampled at a position. */
  function SampleAt(t: seq<nat>, c: Cursor): nat
    requires c.row * 10 + c.column < |t|
  {
    t[c.row * 10 + c.column]
  }

  /** `drawn` is what a sampler starting at `c` draws. */
  ghost predicate Draws(t: seq<nat>, c: Cursor, n: nat, drawn: seq<nat>) {
    forall m :: 0 <= m < |drawn| ==>
      var at := Moved(c, n, m);
      at.row * 10 + at.column < |t| && drawn[m] == SampleAt(t, at)
  }

  /** Starting at the top of a column, `n` samples in a row name every rate exactly once, and
      end at the top of the next column. */
  lemma SamplesCoverAllRates(t: seq<nat>, c: Cursor, n: nat, drawn: seq<nat>)
    requires n > 0 && |t| == 10 * n && c.row == 0 && c.column < COLUMNS
    requires IsPermutation(Column(t, c.column, 10, n), n)
    requires |drawn| == n && Draws(t, c, n, drawn)
    ensures IsPermutation(drawn, n)
    ensures Moved(c, n, n).row == 0 && Moved(c, n, n).column < COLUMNS
  {
    forall m | 0 <= m < n
      ensures drawn[m] == Column(t, c.column, 10, n)[m]
    {
      MovedInColumn(c, n, m);
    }
    assert drawn == Column(t, c.column, 10, n);
    MovedInColumn(c, n, n);
  }

  // ----- The rate table

  /** An entry of the table: the band index of a rate, and how often to try it. */
  datatype Entry = Entry(rix: int, count: nat)

  /** `minstrel_update_rates` with four rates per frame: the head of the chain, ending with the
      lowest rate of the band. */
  function Table(rates: seq<Rate>, n: nat, lowest: int, maxRetry: nat): (t: seq<Entry>)
    requires n <= |rates| && 0 < |rates|
    ensures |t| == 4
  {
    var e := (j: nat) => var k := ChainEntry(rates, n, j); Entry(rates[k].rix, rates[k].adjustedRetry);
    [e(0), e(1), e(2), Entry(lowest, maxRetry)]
  }

  /** After an update the table holds the first three entries of the chain and then the lowest rate;
      none of the three is faster than the one before it, and each is tried at least once. */
  lemma TableOrdered(rates: seq<Rate>, n: nat, lowest: int, maxRetry: nat, j: nat)
    requires 0 < n <= |rates| && j < 2
    ensures var r, t := UpdatedUpTo(rates, n), Table(UpdatedUpTo(rates, n), n, lowest, maxRetry);
            var a, b := ChainEntry(r, n, j), ChainEntry(r, n, j + 1);
            && b <= a < n && (a == b ==> a == 0) && r[b].tpAvg <= r[a].tpAvg
            && t[j] == Entry(r[a].rix, r[a].adjustedRetry) && t[j + 1] == Entry(r[b].rix, r[b].adjustedRetry)
            && t[j].count >= 1 && t[3] == Entry(lowest, maxRetry)
  {
    hide LastBest, Fold, LegacyTp;
    var r := UpdatedUpTo(rates, n);
    ChainOrdered(r, n, j, 0);
    var a, b := ChainEntry(r, n, j), ChainEntry(r, n, j + 1);
    assert r[a].adjustedRetry >= 1;
    var t := Table(r, n, lowest, maxRetry);
    assert t[j] == Entry(r[a].rix, r[a].adjustedRetry) && t[j + 1] == Entry(r[b].rix, r[b].adjustedRetry);
  }

  /** The station of a peer without HT or VHT. */
  class LegacyStation {
    var rates: seq<Rate>
    var nRates: nat
    var maxTp: seq<nat>
    var maxProb: nat
    var cursor: Cursor
    var table: seq<Entry>
    const lowestRix: int
    const maxRetry: nat
    const sampleTable: array<nat>

    constructor (r: seq<Rate>, n: nat, lowest: int, retries: nat, samples: array<nat>)
      requires n <= |r|
      ensures rates == r && nRates == n && maxTp == [0, 0, 0, 0] && maxProb == 0 && cursor == Cursor(0, 0)
      ensures table == [] && lowestRix == lowest && maxRetry == retries && sampleTable == samples
    {
      rates, nRates, maxTp, maxProb, cursor, table := r, n, [0, 0, 0, 0], 0, Cursor(0, 0), [];
      lowestRix, maxRetry, sampleTable := lowest, retries, samples;
    }

    /** The chain-building loops of `minstrel_update_stats`. */
    method BuildChain() returns (chain: seq<nat>)
      requires nRates <= |rates|
      ensures chain == Chain(rates, nRates)
    {
      hide ChainEntry;
      var list := new nat[4](i => 0);
      var j := 0;
      while j < 4
        invariant 0 <= j <= 4
        invariant forall k :: 0 <= k < j ==> list[k] == ChainEntry(rates, nRates, k)
        invariant forall k :: j <= k < 4 ==> list[k] == 0
      {
        ghost var bound := if j == 0 then nRates else ChainEntry(rates, nRates, j - 1);
        ChainEntryIs(rates, nRates, j);
        var i := 0;
        while i < nRates
          invariant 0 <= i <= nRates
          invariant forall k :: 0 <= k < j ==> list[k] == ChainEntry(rates, nRates, k)
          invariant forall k :: j < k < 4 ==> list[k] == 0
          invariant list[j] == LastBest(rates, if i < bound then i else bound)
        {
          hide LastBest;
          LastBestNext(rates, i);
          if rates[list[j]].tpAvg <= rates[i].tpAvg {
            if j == 0 || list[j - 1] > i {
              list[j] := i;
            }
          }
          i := i + 1;
        }
        j := j + 1;
      }
      chain := list[..];
    }

    /** The first loop of `minstrel_update_stats`: fold every rate, and keep the most reliable. */
    method FoldRates() returns (p: nat)
      requires nRates <= |rates|
      modifies this`rates
      ensures rates == UpdatedUpTo(old(rates), nRates) && p == ProbRate(rates, nRates)
    {
      hide Updated, Replaces;
      p := 0;
      var i := 0;
      ghost var final := UpdatedUpTo(rates, nRates);
      while i < nRates
        invariant 0 <= i <= nRates && rates == UpdatedUpTo(old(rates), i) && p == ProbRate(final, i)
      {
        rates := rates[i := Updated(rates[i])];
        assert rates[i] == final[i] && (i > 0 ==> rates[p] == final[p]);
        if Replaces(rates[i], rates[p]) {
          p := i;
        }
        i := i + 1;
      }
    }

    /** `minstrel_update_stats`. */
    method UpdateStats()
      requires nRates <= |rates| && 0 < |rates|
      modifies this
      ensures nRates == old(nRates) && cursor == old(cursor) && rates == UpdatedUpTo(old(rates), nRates)
      ensures maxTp == Chain(rates, nRates)
      ensures maxProb == ProbRate(rates, nRates)
      ensures table == Table(rates, nRates, lowestRix, maxRetry)
    {
      hide Updated, ProbRate, Chain, Table;
      var p := FoldRates();
      maxTp := BuildChain();
      maxProb := p;
      UpdateRates();
    }

    /** `minstrel_update_rates`. */
    method UpdateRates()
      requires nRates <= |rates| && 0 < |rates| && maxTp == Chain(rates, nRates)
      modifies this`table
      ensures table == Table(rates, nRates, lowestRix, maxRetry)
    {
      table := [EntryFor(maxTp[0]), EntryFor(maxTp[1]), EntryFor(maxTp[2]), Entry(lowestRix, maxRetry)];
    }

    /** `minstrel_set_rate`. */
    function EntryFor(k: nat): (e: Entry)
      requires k < |rates|
      reads this`rates
    {
      Entry(rates[k].rix, rates[k].adjustedRetry)
    }

    /** `minstrel_get_next_sample`. */
    method GetNextSample() returns (ndx: nat)
      requires 0 < nRates && cursor.row < nRates && cursor.column < COLUMNS && sampleTable.Length == 10 * nRates
      modifies this`cursor
      ensures ndx == SampleAt(sampleTable[..], old(cursor))
      ensures cursor == Move(old(cursor), nRates) && cursor.row < nRates && cursor.column < COLUMNS
    {
      ndx := sampleTable[cursor.row * 10 + cursor.column];
      var row, column := cursor.row + 1, cursor.column;
      if row >= nRates {
        row, column := 0, column + 1;
        if column >= COLUMNS {
          column := 0;
        }
      }
      cursor := Cursor(row, column);
    }

    /** One pass over the table: every rate is sampled exactly once. */
    method SampleAll() returns (drawn: seq<nat>)
      requires 0 < nRates && cursor.row == 0 && cursor.column < COLUMNS && sampleTable.Length == 10 * nRates
      requires IsPermutation(Column(sampleTable[..], cursor.column, 10, nRates), nRates)
      modifies this`cursor
      ensures IsPermutation(drawn, nRates) && cursor.row == 0 && cursor.column < COLUMNS
    {
      hide IsPermutation;
      ghost var start := cursor;
      drawn := [];
      while |drawn| < nRates
        invariant |drawn| <= nRates && cursor == Moved(start, nRates, |drawn|)
        invariant cursor.row < nRates && cursor.column < COLUMNS
        invariant Draws(sampleTable[..], start, nRates, drawn)
      {
        hide Move;
        var ndx := GetNextSample();
        drawn := drawn + [ndx];
      }
      SamplesCoverAllRates(sampleTable[..], start, nRates, drawn);
    }
  }
}
