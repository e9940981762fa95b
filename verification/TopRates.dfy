/** Ranking of rates by (throughput, probability): the bounded insertion that keeps the best
    four, and the stable full sort it stands for. A rate is an index into `keys`. */
module TopRates {

  datatype Key = Key(tp: nat, prob: nat)

  const MAX_THR_RATES: nat := 4

  /** `a` ranks strictly below `b`. */
  predicate Below(a: Key, b: Key) {
    a.tp < b.tp || (a.tp == b.tp && a.prob < b.prob)
  }

  predicate InRange(keys: seq<Key>, s: seq<nat>) {
    forall i :: 0 <= i < |s| ==> s[i] < |keys|
  }

  /** No element is ranked below a later one. */
  predicate Descending(keys: seq<Key>, s: seq<nat>)
    requires InRange(keys, s)
  {
    forall i, j :: 0 <= i < j < |s| ==> !Below(keys[s[i]], keys[s[j]])
  }

  /** The elements whose key is exactly `v`, in order. */
  function Only(keys: seq<Key>, s: seq<nat>, v: Key): seq<nat>
    requires InRange(keys, s)
  {
    if s == [] then []
    else if keys[s[0]] == v then [s[0]] + Only(keys, s[1..], v)
    else Only(keys, s[1..], v)
  }

  /** `ys` is the stable descending sort of `xs`: descending, and elements of equal rank
      appear as often and in the same order as in `xs`. */
  ghost predicate IsStableSort(keys: seq<Key>, xs: seq<nat>, ys: seq<nat>)
    requires InRange(keys, xs)
  {
    && InRange(keys, ys)
    && Descending(keys, ys)
    && forall v :: Only(keys, ys, v) == Only(keys, xs, v)
  }

  /** Where `x` goes, looking from position `j` toward the front. */
  function Slot(keys: seq<Key>, s: seq<nat>, x: nat, j: nat): (p: nat)
    requires InRange(keys, s) && x < |keys| && j <= |s|
    ensures p <= j
  {
    if j == 0 || !Below(keys[s[j - 1]], keys[x]) then j else Slot(keys, s, x, j - 1)
  }

  function InsertSorted(keys: seq<Key>, s: seq<nat>, x: nat): (r: seq<nat>)
    requires InRange(keys, s) && x < |keys|
    ensures InRange(keys, r) && |r| == |s| + 1
  {
    var p := Slot(keys, s, x, |s|);
    s[..p] + [x] + s[p..]
  }

  /** The list of four after offering `x`: one insertion, then the last element falls off. */
  function InsertTop(keys: seq<Key>, s: seq<nat>, x: nat): (r: seq<nat>)
    requires InRange(keys, s) && x < |keys| && |s| == MAX_THR_RATES
    ensures InRange(keys, r) && |r| == MAX_THR_RATES
  {
    InsertSorted(keys, s, x)[..MAX_THR_RATES]
  }

  function SortInto(keys: seq<Key>, s: seq<nat>, xs: seq<nat>): (r: seq<nat>)
    requires InRange(keys, s) && InRange(keys, xs)
    ensures InRange(keys, r) && |r| == |s| + |xs|
  {
    if xs == [] then s
    else InsertSorted(keys, SortInto(keys, s, xs[..|xs| - 1]), xs[|xs| - 1])
  }

  function TopInto(keys: seq<Key>, s: seq<nat>, xs: seq<nat>): (r: seq<nat>)
    requires InRange(keys, s) && InRange(keys, xs) && |s| == MAX_THR_RATES
    ensures InRange(keys, r) && |r| == MAX_THR_RATES
  {
    if xs == [] then s
    else InsertTop(keys, TopInto(keys, s, xs[..|xs| - 1]), xs[|xs| - 1])
  }

  /** The four best of `xs` on top of four copies of the placeholder index 0. */
  function TopFour(keys: seq<Key>, xs: seq<nat>): (r: seq<nat>)
    requires 0 < |keys| && InRange(keys, xs)
    ensures InRange(keys, r) && |r| == MAX_THR_RATES
  {
    TopInto(keys, [0, 0, 0, 0], xs)
  }

  lemma {:induction false} SlotSplits(keys: seq<Key>, s: seq<nat>, x: nat, j: nat)
    requires InRange(keys, s) && x < |keys| && j <= |s| && Descending(keys, s)
    requires forall i :: j <= i < |s| ==> Below(keys[s[i]], keys[x])
    ensures var p := Slot(keys, s, x, j);
            && (forall i :: 0 <= i < p ==> !Below(keys[s[i]], keys[x]))
            && (forall i :: p <= i < |s| ==> Below(keys[s[i]], keys[x]))
  {
    if j > 0 {
      if Below(keys[s[j - 1]], keys[x]) {
        SlotSplits(keys, s, x, j - 1);
      } else {
        forall i | 0 <= i < j ensures !Below(keys[s[i]], keys[x]) {
          assert i < j - 1 ==> !Below(keys[s[i]], keys[s[j - 1]]);
        }
      }
    }
  }

  lemma InsertKeepsDescending(keys: seq<Key>, s: seq<nat>, x: nat)
    requires InRange(keys, s) && x < |keys| && Descending(keys, s)
    ensures Descending(keys, InsertSorted(keys, s, x))
  {
    SlotSplits(keys, s, x, |s|);
  }

  lemma {:induction false} OnlyConcat(keys: seq<Key>, a: seq<nat>, b: seq<nat>, v: Key)
    requires InRange(keys, a) && InRange(keys, b)
    ensures Only(keys, a + b, v) == Only(keys, a, v) + Only(keys, b, v)
  {
    if a == [] {
      assert a + b == b;
    } else {
      assert (a + b)[1..] == a[1..] + b;
      OnlyConcat(keys, a[1..], b, v);
    }
  }

  lemma {:induction false} OnlyNone(keys: seq<Key>, s: seq<nat>, v: Key)
    requires InRange(keys, s)
    requires forall i :: 0 <= i < |s| ==> keys[s[i]] != v
    ensures Only(keys, s, v) == []
  {
    if s != [] {
      OnlyNone(keys, s[1..], v);
    }
  }

  lemma {:induction false} OnlyMiddle(keys: seq<Key>, front: seq<nat>, x: nat, back: seq<nat>, v: Key)
    requires InRange(keys, front) && x < |keys| && InRange(keys, back)
    requires forall i :: 0 <= i < |back| ==> keys[back[i]] != keys[x]
    ensures InRange(keys, front + [x] + back) && InRange(keys, front + back)
    ensures Only(keys, front + [x] + back, v) == Only(keys, front + back, v) + Only(keys, [x], v)
  {
    OnlyOfOne(keys, x, v);
    if front == [] {
      assert (front + [x] + back)[1..] == back && front + back == back;
      if keys[x] == v {
        OnlyNone(keys, back, v);
      }
    } else {
      assert (front + [x] + back)[1..] == front[1..] + [x] + back;
      assert (front + back)[1..] == front[1..] + back;
      OnlyMiddle(keys, front[1..], x, back, v);
    }
  }

  lemma InsertOnly(keys: seq<Key>, s: seq<nat>, x: nat, v: Key)
    requires InRange(keys, s) && x < |keys| && Descending(keys, s)
    ensures Only(keys, InsertSorted(keys, s, x), v) == Only(keys, s, v) + Only(keys, [x], v)
  {
    var p := Slot(keys, s, x, |s|);
    SlotSplits(keys, s, x, |s|);
    OnlyMiddle(keys, s[..p], x, s[p..], v);
    assert s[..p] + s[p..] == s;
  }

  lemma OnlyOfOne(keys: seq<Key>, x: nat, v: Key)
    requires x < |keys|
    ensures Only(keys, [x], v) == if keys[x] == v then [x] else []
  {
    assert Only(keys, [x][1..], v) == [];
  }

  /** The full insertion sort is the stable sort. */
  lemma {:induction false} SortIntoIsStableSort(keys: seq<Key>, s: seq<nat>, xs: seq<nat>)
    requires InRange(keys, s) && InRange(keys, xs) && Descending(keys, s)
    ensures InRange(keys, s + xs) && IsStableSort(keys, s + xs, SortInto(keys, s, xs))
  {
    if xs == [] {
      assert s + xs == s;
    } else {
      var init, x := xs[..|xs| - 1], xs[|xs| - 1];
      SortIntoIsStableSort(keys, s, init);
      InsertKeepsDescending(keys, SortInto(keys, s, init), x);
      forall v ensures Only(keys, SortInto(keys, s, xs), v) == Only(keys, s + xs, v) {
        InsertOnly(keys, SortInto(keys, s, init), x, v);
        OnlyConcat(keys, s + init, [x], v);
        assert (s + init) + [x] == s + xs;
      }
    }
  }

  /** Dropping everything after the fourth place before an insertion changes nothing in the
      first four places. */
  lemma InsertCommutesWithTruncation(keys: seq<Key>, s: seq<nat>, x: nat)
    requires InRange(keys, s) && x < |keys| && Descending(keys, s) && |s| >= MAX_THR_RATES
    ensures InsertTop(keys, s[..MAX_THR_RATES], x) == InsertSorted(keys, s, x)[..MAX_THR_RATES]
  {
    var t := s[..MAX_THR_RATES];
    SlotSplits(keys, s, x, |s|);
    SlotSplits(keys, t, x, |t|);
    var p, q := Slot(keys, s, x, |s|), Slot(keys, t, x, |t|);
    if p < MAX_THR_RATES {
      assert Below(keys[t[p]], keys[x]);
      assert q < MAX_THR_RATES ==> Below(keys[s[q]], keys[x]);
      assert q == p;
      assert (t[..p] + [x] + t[p..])[..MAX_THR_RATES] == (s[..p] + [x] + s[p..])[..MAX_THR_RATES];
    } else {
      assert q == MAX_THR_RATES;
      assert (t + [x])[..MAX_THR_RATES] == t == (s[..p] + [x] + s[p..])[..MAX_THR_RATES];
    }
  }

  lemma {:induction false} TopIntoIsPrefix(keys: seq<Key>, s: seq<nat>, xs: seq<nat>)
    requires InRange(keys, s) && InRange(keys, xs) && Descending(keys, s) && |s| == MAX_THR_RATES
    ensures Descending(keys, SortInto(keys, s, xs))
    ensures TopInto(keys, s, xs) == SortInto(keys, s, xs)[..MAX_THR_RATES]
  {
    if xs != [] {
      var init, x := xs[..|xs| - 1], xs[|xs| - 1];
      TopIntoIsPrefix(keys, s, init);
      InsertCommutesWithTruncation(keys, SortInto(keys, s, init), x);
      InsertKeepsDescending(keys, SortInto(keys, s, init), x);
    }
  }

  lemma {:induction false} OnlyHead(keys: seq<Key>, s: seq<nat>, v: Key)
    requires InRange(keys, s) && Only(keys, s, v) != []
    ensures exists i :: 0 <= i < |s| && keys[s[i]] == v
  {
    if keys[s[0]] != v {
      OnlyHead(keys, s[1..], v);
      var i :| 0 <= i < |s[1..]| && keys[s[1..][i]] == v;
      assert keys[s[i + 1]] == v;
    }
  }

  /** The head of a stable sort ranks at least as high as the head of any other. */
  lemma HeadRank(keys: seq<Key>, ys: seq<nat>, zs: seq<nat>)
    requires InRange(keys, ys) && InRange(keys, zs) && Descending(keys, zs) && ys != []
    requires forall v :: Only(keys, ys, v) == Only(keys, zs, v)
    ensures zs != [] && !Below(keys[zs[0]], keys[ys[0]])
  {
    var v := keys[ys[0]];
    assert Only(keys, ys, v) != [];
    OnlyHead(keys, zs, v);
    var i :| 0 <= i < |zs| && keys[zs[i]] == v;
    assert i > 0 ==> !Below(keys[zs[0]], keys[zs[i]]);
  }

  /** There is only one stable descending sort. */
  lemma {:induction false} StableSortUnique(keys: seq<Key>, ys: seq<nat>, zs: seq<nat>)
    requires InRange(keys, ys) && InRange(keys, zs) && Descending(keys, ys) && Descending(keys, zs)
    requires forall v :: Only(keys, ys, v) == Only(keys, zs, v)
    ensures ys == zs
    decreases |ys|
  {
    if ys == [] {
      if zs != [] {
        HeadRank(keys, zs, ys);
      }
    } else {
      HeadRank(keys, ys, zs);
      HeadRank(keys, zs, ys);
      var w := keys[ys[0]];
      assert keys[zs[0]] == w;
      assert Only(keys, ys, w)[0] == ys[0] && Only(keys, zs, w)[0] == zs[0];
      forall v ensures Only(keys, ys[1..], v) == Only(keys, zs[1..], v) {
        assert Only(keys, ys, v) == Only(keys, zs, v);
        if v == w {
          assert Only(keys, ys, v)[1..] == Only(keys, ys[1..], v);
          assert Only(keys, zs, v)[1..] == Only(keys, zs[1..], v);
        }
      }
      StableSortUnique(keys, ys[1..], zs[1..]);
      assert ys == [ys[0]] + ys[1..] && zs == [zs[0]] + zs[1..];
    }
  }

  /** Bounded insertion refines the full sort: whatever sequence is the stable descending
      sort of four placeholders followed by the offered rates, its first four are the list. */
  lemma TopFourIsStableSort(keys: seq<Key>, xs: seq<nat>, ys: seq<nat>)
    requires 0 < |keys| && InRange(keys, xs) && InRange(keys, [0, 0, 0, 0] + xs)
    requires IsStableSort(keys, [0, 0, 0, 0] + xs, ys)
    ensures |ys| >= MAX_THR_RATES && TopFour(keys, xs) == ys[..MAX_THR_RATES]
  {
    var s: seq<nat> := [0, 0, 0, 0];
    SortIntoIsStableSort(keys, s, xs);
    var zs := SortInto(keys, s, xs);
    forall v ensures Only(keys, ys, v) == Only(keys, zs, v) {
      assert Only(keys, ys, v) == Only(keys, s + xs, v);
    }
    StableSortUnique(keys, ys, zs);
    TopIntoIsPrefix(keys, s, xs);
  }

  /** A rate enters the list only by outranking a listed one, so its own key is not zero. */
  lemma InsertTopElements(keys: seq<Key>, s: seq<nat>, x: nat)
    requires InRange(keys, s) && x < |keys| && |s| == MAX_THR_RATES
    ensures forall i :: 0 <= i < MAX_THR_RATES ==>
              var e := InsertTop(keys, s, x)[i];
              e in s || (e == x && (keys[e].tp > 0 || keys[e].prob > 0))
  {
    var p := Slot(keys, s, x, |s|);
    SlotOutranks(keys, s, x, |s|);
    var r := InsertTop(keys, s, x);
    forall i | 0 <= i < MAX_THR_RATES
      ensures r[i] in s || (r[i] == x && (keys[x].tp > 0 || keys[x].prob > 0))
    {
      assert r[i] == if i < p then s[i] else if i == p then x else s[i - 1];
    }
  }

  /** Every listed rate is an initial one or an offered one whose key is not zero. */
  lemma {:induction false} TopIntoElements(keys: seq<Key>, s: seq<nat>, xs: seq<nat>)
    requires InRange(keys, s) && InRange(keys, xs) && |s| == MAX_THR_RATES
    ensures forall i :: 0 <= i < MAX_THR_RATES ==>
              var e := TopInto(keys, s, xs)[i];
              e in s || (e in xs && (keys[e].tp > 0 || keys[e].prob > 0))
  {
    if xs != [] {
      var init, x := xs[..|xs| - 1], xs[|xs| - 1];
      TopIntoElements(keys, s, init);
      InsertTopElements(keys, TopInto(keys, s, init), x);
    }
  }

  lemma SlotOutranks(keys: seq<Key>, s: seq<nat>, x: nat, j: nat)
    requires InRange(keys, s) && x < |keys| && j <= |s|
    ensures Slot(keys, s, x, j) < j ==> keys[x].tp > 0 || keys[x].prob > 0
  {
  }

  /** Nothing that was listed or offered outranks the head. */
  lemma {:induction false} TopIntoHead(keys: seq<Key>, s: seq<nat>, xs: seq<nat>)
    requires InRange(keys, s) && InRange(keys, xs) && |s| == MAX_THR_RATES && Descending(keys, s)
    ensures var r := TopInto(keys, s, xs);
            && Descending(keys, r)
            && (forall e :: e in s || e in xs ==> !Below(keys[r[0]], keys[e]))
  {
    if xs == [] {
      forall e | e in s ensures !Below(keys[s[0]], keys[e]) {
        var i :| 0 <= i < |s| && s[i] == e;
        assert i > 0 ==> !Below(keys[s[0]], keys[s[i]]);
      }
    } else {
      var init, x := xs[..|xs| - 1], xs[|xs| - 1];
      TopIntoHead(keys, s, init);
      var t := TopInto(keys, s, init);
      SlotSplits(keys, t, x, |t|);
      InsertKeepsDescending(keys, t, x);
      var p := Slot(keys, t, x, |t|);
      var r := TopInto(keys, s, xs);
      assert r[0] == if p == 0 then x else t[0];
      forall e | e in s || e in xs ensures !Below(keys[r[0]], keys[e]) {
        assert e in s || e in init || e == x;
      }
    }
  }

  /** The outcome depends only on the keys of the rates involved. */
  lemma {:induction false} SlotSameKeys(keys: seq<Key>, other: seq<Key>, s: seq<nat>, x: nat, j: nat)
    requires InRange(keys, s) && InRange(other, s) && x < |keys| && x < |other| && j <= |s|
    requires keys[x] == other[x] && forall i :: 0 <= i < |s| ==> keys[s[i]] == other[s[i]]
    ensures Slot(keys, s, x, j) == Slot(other, s, x, j)
  {
    if j > 0 {
      SlotSameKeys(keys, other, s, x, j - 1);
    }
  }

  // ----- The first two places

  lemma {:induction false} OnlyMember(keys: seq<Key>, s: seq<nat>, i: nat)
    requires InRange(keys, s) && i < |s|
    ensures Only(keys, s, keys[s[i]]) != []
  {
    if keys[s[0]] != keys[s[i]] {
      OnlyMember(keys, s[1..], i - 1);
    }
  }

  lemma {:induction false} OnlyTwice(keys: seq<Key>, s: seq<nat>, i: nat, j: nat)
    requires InRange(keys, s) && i < j < |s| && keys[s[i]] == keys[s[j]]
    ensures |Only(keys, s, keys[s[i]])| >= 2
  {
    if i == 0 {
      OnlyMember(keys, s[1..], j - 1);
    } else {
      OnlyTwice(keys, s[1..], i - 1, j - 1);
    }
  }

  /** `u` comes once among `s`, and nothing else ranks the same. */
  lemma {:induction false} OnlyOnce(keys: seq<Key>, s: seq<nat>, i: nat)
    requires InRange(keys, s) && i < |s| && forall j :: 0 <= j < |s| && j != i ==> keys[s[j]] != keys[s[i]]
    ensures Only(keys, s, keys[s[i]]) == [s[i]]
  {
    if i == 0 {
      OnlyNone(keys, s[1..], keys[s[0]]);
    } else {
      OnlyOnce(keys, s[1..], i - 1);
    }
  }

  /** If `u` outranks everything else that was listed or offered, it comes first, and only
      there. */
  lemma TopFirst(keys: seq<Key>, s: seq<nat>, xs: seq<nat>, u: nat)
    requires InRange(keys, s) && InRange(keys, xs) && |s| == MAX_THR_RATES && Descending(keys, s) && u < |keys|
    requires InRange(keys, s + xs) && Only(keys, s + xs, keys[u]) == [u]
    requires forall e :: e in s || e in xs ==> e == u || Below(keys[e], keys[u])
    ensures TopInto(keys, s, xs)[0] == u
    ensures forall i :: 1 <= i < MAX_THR_RATES ==> TopInto(keys, s, xs)[i] != u
  {
    var r, ys := TopInto(keys, s, xs), SortInto(keys, s, xs);
    TopIntoIsPrefix(keys, s, xs);
    SortIntoIsStableSort(keys, s, xs);
    TopIntoElements(keys, s, xs);
    TopIntoHead(keys, s, xs);
    OnlyHead(keys, s + xs, keys[u]);
    var j :| 0 <= j < |s + xs| && keys[(s + xs)[j]] == keys[u];
    assert (s + xs)[j] in s || (s + xs)[j] in xs;
    assert r[0] == u;
    forall i | 1 <= i < MAX_THR_RATES
      ensures r[i] != u
    {
      if r[i] == u {
        OnlyTwice(keys, ys, 0, i);
      }
    }
  }

  /** If moreover `v` outranks everything but `u`, it comes second. */
  lemma TopSecond(keys: seq<Key>, s: seq<nat>, xs: seq<nat>, u: nat, v: nat)
    requires InRange(keys, s) && InRange(keys, xs) && |s| == MAX_THR_RATES && Descending(keys, s)
    requires u < |keys| && v < |keys| && (v in s || v in xs) && Below(keys[v], keys[u])
    requires InRange(keys, s + xs) && Only(keys, s + xs, keys[u]) == [u]
    requires forall e :: e in s || e in xs ==> e == u || e == v || Below(keys[e], keys[v])
    ensures TopInto(keys, s, xs)[0] == u && TopInto(keys, s, xs)[1] == v
  {
    hide TopInto, SortInto, Only, Below;
    assert forall e :: e in s || e in xs ==> e == u || Below(keys[e], keys[u]) by {
      BelowTransitive(keys, s, xs, u, v);
    }
    TopFirst(keys, s, xs, u);
    TopIntoIsPrefix(keys, s, xs);
    SortIntoIsStableSort(keys, s, xs);
    TopIntoElements(keys, s, xs);
    var r := TopInto(keys, s, xs);
    assert r[1] in s || r[1] in xs;
    NotBelowItself(keys[u]);
    SecondPlace(keys, s + xs, SortInto(keys, s, xs), u, v);
  }

  lemma BelowTransitive(keys: seq<Key>, s: seq<nat>, xs: seq<nat>, u: nat, v: nat)
    requires InRange(keys, s) && InRange(keys, xs) && u < |keys| && v < |keys| && Below(keys[v], keys[u])
    requires forall e :: e in s || e in xs ==> e == u || e == v || Below(keys[e], keys[v])
    ensures forall e :: e in s || e in xs ==> e == u || Below(keys[e], keys[u])
  {
  }

  /** Behind the head of a stable sort nothing ranks below `v` before `v` does. */
  lemma SecondPlace(keys: seq<Key>, all: seq<nat>, ys: seq<nat>, u: nat, v: nat)
    requires InRange(keys, all) && IsStableSort(keys, all, ys) && u < |keys| && v in all && v < |keys|
    requires |ys| >= 2 && ys[0] == u && keys[v] != keys[u]
    ensures !Below(keys[ys[1]], keys[v])
  {
    hide Below;
    var j :| 0 <= j < |all| && all[j] == v;
    OnlyMember(keys, all, j);
    OnlyHead(keys, ys, keys[v]);
    var i :| 0 <= i < |ys| && keys[ys[i]] == keys[v];
    if i == 1 {
      NotBelowItself(keys[v]);
    } else {
      assert !Below(keys[ys[1]], keys[ys[i]]);
    }
  }

  lemma NotBelowItself(k: Key)
    ensures !Below(k, k)
  {
  }

  /** If nothing but `u` has a key above zero, the placeholder comes second. */
  lemma TopAlone(keys: seq<Key>, xs: seq<nat>, u: nat)
    requires 0 < |keys| && InRange(keys, xs) && u < |keys| && InRange(keys, [0, 0, 0, 0] + xs)
    requires Only(keys, [0, 0, 0, 0] + xs, keys[u]) == [u] && u != 0
    requires forall e :: e == 0 || e in xs ==> e == u || (keys[e] == Key(0, 0) && Below(keys[e], keys[u]))
    ensures TopFour(keys, xs)[0] == u && TopFour(keys, xs)[1] == 0
  {
    var s: seq<nat> := [0, 0, 0, 0];
    TopFirst(keys, s, xs, u);
    TopIntoElements(keys, s, xs);
  }
}
