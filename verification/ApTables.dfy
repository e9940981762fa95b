/** The lists of an update as a function of nothing but the estimates: how a station ranks its
    rates as long as it sends single frames. */
module ApTables {
  import opened FixedPoint
  import opened RateGroups
  import opened RateStats
  import opened Throughput
  import opened TopRates
  import opened HtUpdate
  import opened HtRates

  /** The success estimate of every cell. */
  type Table = seq<nat>

  ghost predicate IsTable(sup: Masks, est: Table) {
    && |sup| == GROUPS && |est| == CELLS
    && forall k :: 0 <= k < CELLS ==> est[k] <= SCALE && (est[k] > 0 ==> Supports(sup, k))
  }

  /** The throughput estimate of rate `k` at success estimate `p`. */
  function TpOf(k: nat, p: nat): nat
    requires k < CELLS
  {
    if p < TENTH || Duration(k) == 0 then 0 else TpAvg(108, SCALE, k / 10 == CCK, Duration(k), p)
  }

  function EstKeys(est: Table): (keys: seq<Key>)
    requires |est| == CELLS
    ensures |keys| == CELLS && forall k :: 0 <= k < CELLS ==> keys[k] == Key(TpOf(k, est[k]), est[k])
  {
    seq(CELLS, k requires 0 <= k < CELLS => Key(TpOf(k, est[k]), est[k]))
  }

  function ClassList(sup: Masks, est: Table, w: Which): (r: seq<nat>)
    requires |sup| == GROUPS && |est| == CELLS
    ensures |r| == MAX_THR_RATES && InRange(EstKeys(est), r)
  {
    TopFour(EstKeys(est), Visited(sup, w, CELLS))
  }

  /** The list of the best rates. */
  function TopList(sup: Masks, est: Table): (r: seq<nat>)
    requires |sup| == GROUPS && |est| == CELLS
    ensures |r| == MAX_THR_RATES && InRange(EstKeys(est), r)
  {
    Merge(EstKeys(est), ClassList(sup, est, McsRates), ClassList(sup, est, CckRates))
  }

  function GroupList(sup: Masks, est: Table, g: nat): (r: seq<nat>)
    requires |sup| == GROUPS && |est| == CELLS && g < GROUPS
    ensures |r| == MAX_THR_RATES
  {
    TopFour(EstKeys(est), Visited(sup, AllRates, (g + 1) * 10))
  }

  /** Step down within group `g` from rate `i` to one that succeeds half of the time. */
  function Steady(est: Table, g: nat, i: nat): (r: nat)
    requires |est| == CELLS && g < GROUPS && i < GROUP_RATES
    ensures r <= i
  {
    if est[Cell(g, i)] >= HALF || i == 0 then i else Steady(est, g, i - 1)
  }

  /** The corrected primary rate. */
  function Corrected(est: Table, k: nat): (r: nat)
    requires |est| == CELLS && k < CELLS
    ensures r < CELLS && r / 10 == k / 10 && r <= k
  {
    Cell(k / 10, Steady(est, k / 10, k % 10))
  }

  lemma {:induction false} SteadyIsReliable(cells: seq<Stats>, est: Table, g: nat, i: nat)
    requires |cells| == |est| == CELLS && g < GROUPS && i < GROUP_RATES
    requires forall k :: 0 <= k < CELLS ==> cells[k].prob == est[k]
    ensures Steady(est, g, i) == Reliable(cells, g, i)
  {
    if i > 0 {
      SteadyIsReliable(cells, est, g, i - 1);
    }
  }

  lemma {:induction false} SteadyFalls(est: Table, g: nat, i: nat)
    requires |est| == CELLS && g < GROUPS && i < GROUP_RATES && forall j :: 0 <= j <= i ==> est[Cell(g, j)] < HALF
    ensures Steady(est, g, i) == 0
  {
    if i > 0 {
      SteadyFalls(est, g, i - 1);
    }
  }

  // ----- What is on the list

  lemma ClassElements(sup: Masks, est: Table, w: Which, i: nat)
    requires IsTable(sup, est) && i < MAX_THR_RATES
    ensures var e := ClassList(sup, est, w)[i];
            e < CELLS && (e == 0 || (est[e] > 0 && Supports(sup, e) && Selected(w, e)))
  {
    hide TpOf;
    TopIntoElements(EstKeys(est), [0, 0, 0, 0], Visited(sup, w, CELLS));
    var e := ClassList(sup, est, w)[i];
    if e != 0 {
      UnratedKey(est, e);
    }
  }

  lemma UnratedKey(est: Table, k: nat)
    requires |est| == CELLS && k < CELLS
    ensures EstKeys(est)[k] == Key(0, 0) <==> est[k] == 0
  {
  }

  /** Every listed rate has an estimate, or is the placeholder. */
  lemma TopListElements(sup: Masks, est: Table, i: nat)
    requires IsTable(sup, est) && i < MAX_THR_RATES
    ensures var e := TopList(sup, est)[i];
            e < CELLS && (e == 0 || (est[e] > 0 && Supports(sup, e)))
  {
    hide ClassList, TpOf, TopInto;
    var mcs, cck := ClassList(sup, est, McsRates), ClassList(sup, est, CckRates);
    TopIntoElements(EstKeys(est), mcs, cck);
    var e := TopList(sup, est)[i];
    if e in mcs {
      var j :| 0 <= j < |mcs| && mcs[j] == e;
      ClassElements(sup, est, McsRates, j);
    } else {
      var j :| 0 <= j < |cck| && cck[j] == e;
      ClassElements(sup, est, CckRates, j);
    }
  }

  /** The head attains the largest throughput. */
  lemma TopListHead(sup: Masks, est: Table, k: nat)
    requires IsTable(sup, est) && k < CELLS && Supports(sup, k)
    ensures TpOf(k, est[k]) <= TpOf(TopList(sup, est)[0], est[TopList(sup, est)[0]])
  {
    hide TpOf, Merge, TopFour;
    var w := if Selected(McsRates, k) then McsRates else CckRates;
    VisitedComplete(sup, w, CELLS, k);
    MergedHead(EstKeys(est), Visited(sup, McsRates, CELLS), Visited(sup, CckRates, CELLS), k);
  }

  /** A rate whose throughput is above every other comes first. */
  lemma FirstIs(sup: Masks, est: Table, u: nat)
    requires IsTable(sup, est) && u < CELLS && Supports(sup, u) && TpOf(u, est[u]) > 0
    requires forall k :: 0 <= k < CELLS && k != u && est[k] > 0 ==> TpOf(k, est[k]) < TpOf(u, est[u])
    ensures TopList(sup, est)[0] == u
  {
    hide TpOf, TopList;
    TopListHead(sup, est, u);
    TopListElements(sup, est, 0);
    UnratedTp(TopList(sup, est)[0]);
  }

  lemma UnratedTp(k: nat)
    requires k < CELLS
    ensures TpOf(k, 0) == 0
  {
  }

  ghost predicate Increasing(xs: seq<nat>) {
    forall i, j :: 0 <= i < j < |xs| ==> xs[i] < xs[j]
  }

  lemma {:induction false} VisitedDistinct(sup: Masks, w: Which, n: nat)
    requires |sup| == GROUPS && n <= CELLS
    ensures Increasing(Visited(sup, w, n))
  {
    if n > 0 {
      VisitedDistinct(sup, w, n - 1);
      var ys := Visited(sup, w, n - 1);
      assert forall i :: 0 <= i < |ys| ==> ys[i] < n - 1;
      assert Increasing(ys + [n - 1]);
    }
  }

  /** Among the placeholders and the visited rates, `u` comes once. */
  lemma OnceAmong(keys: seq<Key>, xs: seq<nat>, u: nat)
    requires 0 < |keys| && InRange(keys, xs) && u != 0 && u in xs && keys[0] != keys[u]
    requires Increasing(xs)
    requires forall e :: e in xs && e != u ==> keys[e] != keys[u]
    ensures InRange(keys, [0, 0, 0, 0] + xs) && Only(keys, [0, 0, 0, 0] + xs, keys[u]) == [u]
  {
    var i :| 0 <= i < |xs| && xs[i] == u;
    var all := [0, 0, 0, 0] + xs;
    forall j | 0 <= j < |all| && j != i + 4
      ensures keys[all[j]] != keys[u]
    {
      if j >= 4 {
        assert all[j] == xs[j - 4] && xs[j - 4] != u;
      }
    }
    OnlyOnce(keys, all, i + 4);
  }

  /** Within a class: the best rate, and the next best one. */
  lemma ClassTwo(sup: Masks, est: Table, w: Which, n: nat, u: nat, v: nat)
    requires IsTable(sup, est) && n <= CELLS && 0 < u < n && Supports(sup, u) && Selected(w, u)
    requires v < n && Supports(sup, v) && Selected(w, v) && est[v] > 0 && v != 0
    requires Below(EstKeys(est)[v], EstKeys(est)[u])
    requires forall k :: 0 <= k < n && est[k] > 0 && Selected(w, k) && k != u && k != v ==>
               Below(EstKeys(est)[k], EstKeys(est)[v])
    requires w.CckRates? ==> est[0] == 0
    ensures var r := TopFour(EstKeys(est), Visited(sup, w, n)); r[0] == u && r[1] == v
  {
    hide TpOf, TopFour, EstKeys;
    var keys, xs := EstKeys(est), Visited(sup, w, n);
    VisitedComplete(sup, w, n, u);
    VisitedComplete(sup, w, n, v);
    VisitedDistinct(sup, w, n);
    forall e: nat | e < CELLS && (e == 0 || e in xs) && e != u && e != v
      ensures Below(keys[e], keys[v])
    {
      UnratedKey(est, e);
      UnratedKey(est, v);
      if est[e] == 0 {
        assert Below(Key(0, 0), keys[v]);
      }
    }
    OnceAmong(keys, xs, u);
    TopFourTwo(keys, xs, u, v);
  }

  lemma TopFourTwo(keys: seq<Key>, xs: seq<nat>, u: nat, v: nat)
    requires 0 < |keys| && InRange(keys, xs) && u < |keys| && v < |keys| && v in xs && Below(keys[v], keys[u])
    requires InRange(keys, [0, 0, 0, 0] + xs) && Only(keys, [0, 0, 0, 0] + xs, keys[u]) == [u]
    requires forall e :: e == 0 || e in xs ==> e == u || e == v || Below(keys[e], keys[v])
    ensures TopFour(keys, xs)[0] == u && TopFour(keys, xs)[1] == v
  {
    var s: seq<nat> := [0, 0, 0, 0];
    TopSecond(keys, s, xs, u, v);
  }

  /** Within a class: a rate that outranks all others comes first, and only there. */
  lemma ClassFirst(sup: Masks, est: Table, w: Which, u: nat)
    requires IsTable(sup, est) && 0 < u < CELLS && est[u] > 0 && Selected(w, u)
    requires forall k :: 0 <= k < CELLS && est[k] > 0 && k != u && (Selected(w, k) || k == 0) ==>
               Below(EstKeys(est)[k], EstKeys(est)[u])
    ensures var r := ClassList(sup, est, w);
            && Descending(EstKeys(est), r) && r[0] == u
            && forall i :: 1 <= i < MAX_THR_RATES ==> r[i] != u
  {
    hide TpOf, EstKeys;
    var keys, xs := EstKeys(est), Visited(sup, w, CELLS);
    VisitedComplete(sup, w, CELLS, u);
    VisitedDistinct(sup, w, CELLS);
    UnratedKey(est, u);
    forall e: nat | e < CELLS && (e == 0 || e in xs) && e != u
      ensures Below(keys[e], keys[u])
    {
      UnratedKey(est, e);
    }
    OnceAmong(keys, xs, u);
    var s: seq<nat> := [0, 0, 0, 0];
    TopFirst(keys, s, xs, u);
    TopIntoHead(keys, s, xs);
  }

  /** A list of MCS rates that no CCK rate outdoes is the list of the best rates. */
  lemma McsOnly(sup: Masks, est: Table, u: nat)
    requires IsTable(sup, est) && 0 < u < CELLS && ClassList(sup, est, McsRates)[0] == u
    requires forall k :: 0 <= k < CELLS && est[k] > 0 && k / 10 == CCK ==> TpOf(k, est[k]) <= TpOf(u, est[u])
    ensures TopList(sup, est) == ClassList(sup, est, McsRates)
  {
    hide TpOf, ClassList;
    ClassElements(sup, est, CckRates, 0);
    UnratedTp(0);
    if ClassList(sup, est, CckRates)[0] == 0 && est[0] > 0 {
      McsHeadBeats(sup, est, 0);
    }
  }

  lemma McsHeadBeats(sup: Masks, est: Table, k: nat)
    requires IsTable(sup, est) && k < CELLS && est[k] > 0 && k / 10 != CCK
    ensures TpOf(k, est[k]) <= TpOf(ClassList(sup, est, McsRates)[0], est[ClassList(sup, est, McsRates)[0]])
  {
    hide TpOf;
    VisitedComplete(sup, McsRates, CELLS, k);
    TopIntoHead(EstKeys(est), [0, 0, 0, 0], Visited(sup, McsRates, CELLS));
  }

  /** The two best MCS rates, if no CCK rate outdoes them. */
  lemma TwoAre(sup: Masks, est: Table, u: nat, v: nat)
    requires IsTable(sup, est) && 0 < u < CELLS && 0 < v < CELLS && u / 10 != CCK && v / 10 != CCK
    requires est[u] > 0 && est[v] > 0 && Below(EstKeys(est)[v], EstKeys(est)[u])
    requires forall k :: 0 <= k < CELLS && est[k] > 0 && k / 10 != CCK && k != u && k != v ==>
               Below(EstKeys(est)[k], EstKeys(est)[v])
    requires forall k :: 0 <= k < CELLS && est[k] > 0 && k / 10 == CCK ==> TpOf(k, est[k]) <= TpOf(u, est[u])
    ensures TopList(sup, est)[0] == u && TopList(sup, est)[1] == v
  {
    hide TpOf, EstKeys, Below;
    ClassTwo(sup, est, McsRates, CELLS, u, v);
    McsOnly(sup, est, u);
  }

  /** A CCK rate that outdoes all MCS rates comes first, the best MCS rate behind it. */
  lemma CckThenMcs(sup: Masks, est: Table, u: nat, v: nat)
    requires IsTable(sup, est) && 0 < u < CELLS && 0 < v < CELLS && u / 10 == CCK && v / 10 != CCK
    requires est[u] > 0 && est[v] > 0 && est[0] == 0
    requires forall k :: 0 <= k < CELLS && est[k] > 0 && k != u ==> TpOf(k, est[k]) < TpOf(u, est[u])
    requires forall k :: 0 <= k < CELLS && est[k] > 0 && k != u && k != v ==> Below(EstKeys(est)[k], EstKeys(est)[v])
    ensures TopList(sup, est)[0] == u && TopList(sup, est)[1] == v
  {
    hide TpOf, ClassList, TopInto;
    var keys := EstKeys(est);
    var mcs, cck := ClassList(sup, est, McsRates), ClassList(sup, est, CckRates);
    ClassFirst(sup, est, McsRates, v);
    ClassFirst(sup, est, CckRates, u);
    forall i | 0 <= i < MAX_THR_RATES
      ensures mcs[i] < CELLS && cck[i] < CELLS
      ensures mcs[i] != u && (mcs[i] == v || Below(keys[mcs[i]], keys[v]))
      ensures cck[i] == u || Below(keys[cck[i]], keys[v])
    {
      ClassElements(sup, est, McsRates, i);
      ClassElements(sup, est, CckRates, i);
      UnratedKey(est, 0);
      UnratedKey(est, v);
    }
    MergedTwo(keys, mcs, cck, u, v);
  }

  lemma MergedTwo(keys: seq<Key>, mcs: seq<nat>, cck: seq<nat>, u: nat, v: nat)
    requires InRange(keys, mcs) && InRange(keys, cck) && |mcs| == |cck| == MAX_THR_RATES && Descending(keys, mcs)
    requires u < |keys| && v < |keys| && keys[v].tp < keys[u].tp && mcs[0] == v && cck[0] == u
    requires forall i :: 0 <= i < MAX_THR_RATES ==> mcs[i] != u && (mcs[i] == v || Below(keys[mcs[i]], keys[v]))
    requires forall i :: 1 <= i < MAX_THR_RATES ==> cck[i] != u && Below(keys[cck[i]], keys[v])
    ensures Merge(keys, mcs, cck)[0] == u && Merge(keys, mcs, cck)[1] == v
  {
    hide TopInto;
    var all := mcs + cck;
    forall j | 0 <= j < |all| && j != 4
      ensures keys[all[j]] != keys[u]
    {
      assert all[j] == if j < 4 then mcs[j] else cck[j - 4];
    }
    OnlyOnce(keys, all, 4);
    TopSecond(keys, mcs, cck, u, v);
  }
}
