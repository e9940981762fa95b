/** Sample tables: ten columns, each a random permutation of the rate indices, built by open
    addressing from random bytes (both versions of `init_sample_table`). Both tables are flat
    buffers: the HT/VHT table stores a column in ten consecutive bytes, the legacy table
    stores entry `row` of column `col` at `row * 10 + col`. */
module SampleTable {

  const COLUMNS: nat := 10
  const EMPTY: nat := 0xff

  /** `s` lists 0..n-1, each exactly once. */
  ghost predicate IsPermutation(s: seq<nat>, n: nat) {
    && |s| == n
    && (forall i :: 0 <= i < n ==> s[i] < n)
    && (forall i, j :: 0 <= i < j < n ==> s[i] != s[j])
    && (forall v :: 0 <= v < n ==> v in s)
  }

  ghost predicate IsSampleTable(columns: seq<seq<nat>>) {
    |columns| == COLUMNS && forall c :: 0 <= c < COLUMNS ==> IsPermutation(columns[c], 10)
  }

  ghost function Find(s: seq<nat>, v: nat): (i: nat)
    requires v in s
    ensures i < |s| && s[i] == v
  {
    var i :| 0 <= i < |s| && s[i] == v;
    i
  }

  // ----- Placing one column

  /** The values 0..i-1 are placed once each, and `free` holds the slots that are still empty;
      so a slot is free until all values are placed. */
  ghost predicate Filled(col: seq<nat>, free: set<nat>, i: nat) {
    && |col| < EMPTY && i + |free| == |col|
    && (forall s :: s in free <==> 0 <= s < |col| && col[s] == EMPTY)
    && (forall s :: 0 <= s < |col| && col[s] != EMPTY ==> col[s] < i)
    && (forall s, t :: 0 <= s < t < |col| && col[s] != EMPTY ==> col[s] != col[t])
    && (forall v :: 0 <= v < i ==> v in col)
  }

  lemma {:induction false} EmptyColumn(col: seq<nat>)
    requires |col| < EMPTY && forall s :: 0 <= s < |col| ==> col[s] == EMPTY
    ensures exists free :: Filled(col, free, 0)
  {
    var free := Slots(|col|);
    assert Filled(col, free, 0);
  }

  lemma {:induction false} Slots(n: nat) returns (all: set<nat>)
    ensures |all| == n && forall s :: s in all <==> 0 <= s < n
  {
    if n == 0 {
      all := {};
    } else {
      var rest := Slots(n - 1);
      all := rest + {n - 1};
    }
  }

  lemma PlaceOne(col: seq<nat>, free: set<nat>, i: nat, s: nat)
    requires Filled(col, free, i) && s < |col| && col[s] == EMPTY
    ensures Filled(col[s := i], free - {s}, i + 1)
  {
    var next := col[s := i];
    forall v | 0 <= v < i + 1
      ensures v in next
    {
      if v < i {
        assert v in col;
        var t :| 0 <= t < |col| && col[t] == v;
        assert next[t] == v;
      } else {
        assert next[s] == v;
      }
    }
  }

  lemma FullColumn(col: seq<nat>, free: set<nat>)
    requires Filled(col, free, |col|)
    ensures IsPermutation(col, |col|)
  {
    assert free == {};
  }

  /** Steps from slot `j` forward to slot `f`, around the end. */
  function Gap(j: nat, f: nat, n: nat): int {
    if j <= f then f - j else n - j + f
  }

  /** The slot that the random bytes want for value `i`. */
  function Wanted(rnd: seq<nat>, i: nat): (s: nat)
    requires i < |rnd|
    ensures s < |rnd|
  {
    (i + rnd[i]) % |rnd|
  }

  /** Every placed value is in the first slot at or after the wanted one, around the end, that no
      smaller value has taken: the slots passed hold smaller values. */
  ghost predicate ByProbing(col: seq<nat>, rnd: seq<nat>) {
    && |col| == |rnd|
    && forall s, r :: 0 <= s < |col| && 0 <= r < |col| && col[s] < |col| ==> Precedes(col, rnd, s, r)
  }

  ghost predicate Precedes(col: seq<nat>, rnd: seq<nat>, s: nat, r: nat)
    requires |col| == |rnd| && s < |col| && r < |col| && col[s] < |col|
  {
    Gap(Wanted(rnd, col[s]), r, |col|) < Gap(Wanted(rnd, col[s]), s, |col|) ==> col[r] < col[s]
  }

  lemma GapDistinct(j: nat, f: nat, g: nat, n: nat)
    requires j < n && f < n && g < n && f != g
    ensures Gap(j, f, n) != Gap(j, g, n)
  {
  }

  /** So the bytes determine the column. */
  lemma {:induction false} ProbingUnique(a: seq<nat>, b: seq<nat>, rnd: seq<nat>, v: nat, s: nat)
    requires IsPermutation(a, |rnd|) && IsPermutation(b, |rnd|) && ByProbing(a, rnd) && ByProbing(b, rnd)
    requires s < |rnd| && v < |rnd| && (a[s] == v || b[s] == v)
    ensures a[s] == b[s]
    decreases v, if a[s] == v then 0 else 1
  {
    hide Gap, Wanted;
    if b[s] == v && a[s] != v {
      ProbingUnique(b, a, rnd, v, s);
    } else if a[s] == v {
      assert v in b;
      var t :| 0 <= t < |b| && b[t] == v;
      if t != s {
        GapDistinct(Wanted(rnd, v), s, t, |rnd|);
        assert Precedes(a, rnd, s, t) && Precedes(b, rnd, t, s);
        if a[t] < v {
          ProbingUnique(a, b, rnd, a[t], t);
        } else {
          ProbingUnique(a, b, rnd, b[s], s);
        }
      }
    }
  }

  /** And every permutation comes from some bytes. */
  lemma EveryPermutation(col: seq<nat>) returns (rnd: seq<nat>)
    requires IsPermutation(col, |col|) && |col| < EMPTY
    ensures |rnd| == |col| && (forall i :: 0 <= i < |rnd| ==> rnd[i] < |col|) && ByProbing(col, rnd)
  {
    var n := |col|;
    rnd := seq(n, i requires 0 <= i < n => if Find(col, i) >= i then Find(col, i) - i else Find(col, i) + n - i);
    forall s, r | 0 <= s < n && 0 <= r < n && col[s] < n
      ensures Precedes(col, rnd, s, r)
    {
      assert Find(col, col[s]) == s;
      WantedIs(col, rnd, s);
    }
  }

  lemma WantedIs(col: seq<nat>, rnd: seq<nat>, s: nat)
    requires s < |col| == |rnd| && col[s] < |col|
    requires rnd[col[s]] == if s >= col[s] then s - col[s] else s + |col| - col[s]
    ensures Wanted(rnd, col[s]) == s
  {
    var x := col[s] + rnd[col[s]];
    Wraps(x, |col|);
  }

  lemma Wraps(x: nat, n: nat)
    requires x < 2 * n
    ensures x % n == if x < n then x else x - n
  {
    assert x / n == if x < n then 0 else 1;
  }

  lemma NextSlot(j: nat, n: nat)
    requires j < n
    ensures (j + 1) % n == if j + 1 < n then j + 1 else 0
  {
    if j + 1 < n {
      assert (j + 1) / n == 0;
    }
  }

  /** Entry `row` of the column that starts at `base`, one entry every `stride` bytes. */
  function At(base: nat, stride: nat, row: nat): nat {
    if stride == 1 then base + row else base + row * 10
  }

  ghost function Column(t: seq<nat>, base: nat, stride: nat, n: nat): (col: seq<nat>)
    requires n > 0 ==> At(base, stride, n - 1) < |t|
    ensures |col| == n && forall row :: 0 <= row < n ==> col[row] == t[At(base, stride, row)]
  {
    seq(n, row requires 0 <= row < n => t[At(base, stride, row)])
  }

  /** While values are left to place, a slot is free. */
  lemma SomeSlotIsFree(col: seq<nat>, free: set<nat>, i: nat) returns (f: nat)
    requires Filled(col, free, i) && i < |col|
    ensures f < |col| && col[f] == EMPTY
  {
    assert |free| > 0;
    f :| f in free;
  }

  /** The linear search for a free slot; it ends because slot `f` is free. */
  method FreeSlot(t: array<nat>, base: nat, stride: nat, n: nat, start: nat, ghost f: nat) returns (j: nat)
    requires 0 < n && At(base, stride, n - 1) < t.Length && start < n
    requires f < n && t[At(base, stride, f)] == EMPTY
    ensures j < n && t[At(base, stride, j)] == EMPTY
    ensures forall r :: 0 <= r < n && Gap(start, r, n) < Gap(start, j, n) ==> t[At(base, stride, r)] != EMPTY
  {
    j := start;
    while t[At(base, stride, j)] != EMPTY
      invariant 0 <= j < n && Gap(start, f, n) >= Gap(start, j, n)
      invariant forall r :: 0 <= r < n && Gap(start, r, n) < Gap(start, j, n) ==> t[At(base, stride, r)] != EMPTY
      decreases Gap(j, f, n)
    {
      NextSlot(j, n);
      j := (j + 1) % n;
    }
  }

  lemma NothingPlaced(col: seq<nat>, rnd: seq<nat>)
    requires |col| == |rnd| < EMPTY && forall s :: 0 <= s < |col| ==> col[s] == EMPTY
    ensures ByProbing(col, rnd)
  {
  }

  lemma PlaceNext(col: seq<nat>, rnd: seq<nat>, free: set<nat>, i: nat, j: nat)
    requires Filled(col, free, i) && ByProbing(col, rnd) && i < |col| && j < |col| && col[j] == EMPTY
    requires forall r :: 0 <= r < |col| && Gap(Wanted(rnd, i), r, |col|) < Gap(Wanted(rnd, i), j, |col|) ==>
               col[r] != EMPTY
    ensures ByProbing(col[j := i], rnd)
  {
    hide Gap, Wanted;
    var next := col[j := i];
    forall s, r | 0 <= s < |col| && 0 <= r < |col| && next[s] < |col|
      ensures Precedes(next, rnd, s, r)
    {
      if s != j {
        assert Precedes(col, rnd, s, r);
      }
    }
  }

  /** Position `x` belongs to no entry of the column. */
  ghost predicate Outside(base: nat, stride: nat, n: nat, x: nat) {
    forall row :: 0 <= row < n ==> x != At(base, stride, row)
  }

  /** The inner loops of `init_sample_table`: each value goes to the first free slot at or
      after a random one, for any random bytes. */
  method PlaceColumn(t: array<nat>, base: nat, stride: nat, n: nat, rnd: seq<nat>)
    requires 0 < n < EMPTY && |rnd| == n && At(base, stride, n - 1) < t.Length
    requires forall row :: 0 <= row < n ==> t[At(base, stride, row)] == EMPTY
    modifies t
    ensures IsPermutation(Column(t[..], base, stride, n), n) && ByProbing(Column(t[..], base, stride, n), rnd)
    ensures forall x :: 0 <= x < t.Length && Outside(base, stride, n, x) ==> t[x] == old(t[x])
  {
    hide Filled, ByProbing, Gap;
    NothingPlaced(Column(t[..], base, stride, n), rnd);
    EmptyColumn(Column(t[..], base, stride, n));
    ghost var free: set<nat> :| Filled(Column(t[..], base, stride, n), free, 0);
    var i := 0;
    while i < n
      invariant 0 <= i <= n && Filled(Column(t[..], base, stride, n), free, i)
      invariant ByProbing(Column(t[..], base, stride, n), rnd)
      invariant forall x :: 0 <= x < t.Length && Outside(base, stride, n, x) ==> t[x] == old(t[x])
    {
      ghost var col := Column(t[..], base, stride, n);
      ghost var f := SomeSlotIsFree(col, free, i);
      var j := FreeSlot(t, base, stride, n, (i + rnd[i]) % n, f);
      PlaceOne(col, free, i, j);
      PlaceNext(col, rnd, free, i, j);
      t[At(base, stride, j)] := i;
      assert Column(t[..], base, stride, n) == col[j := i];
      free := free - {j};
      i := i + 1;
    }
    FullColumn(Column(t[..], base, stride, n), free);
  }

  // ----- The two tables

  /** The columns of the HT/VHT table. */
  ghost function HtColumns(t: seq<nat>): (columns: seq<seq<nat>>)
    requires |t| == 100
    ensures |columns| == COLUMNS && forall c :: 0 <= c < COLUMNS ==> columns[c] == Column(t, c * 10, 1, 10)
  {
    seq(COLUMNS, c requires 0 <= c < COLUMNS => Column(t, c * 10, 1, 10))
  }

  /** `init_sample_table` of the HT/VHT engine. */
  method InitHtTable(t: array<nat>, rnd: seq<seq<nat>>)
    requires t.Length == 100 && |rnd| == COLUMNS && forall c :: 0 <= c < COLUMNS ==> |rnd[c]| == 10
    modifies t
    ensures IsSampleTable(HtColumns(t[..]))
    ensures forall c :: 0 <= c < COLUMNS ==> ByProbing(HtColumns(t[..])[c], rnd[c])
  {
    forall x | 0 <= x < t.Length {
      t[x] := EMPTY;
    }
    var c := 0;
    while c < COLUMNS
      invariant 0 <= c <= COLUMNS
      invariant forall d :: 0 <= d < c ==>
                  IsPermutation(Column(t[..], d * 10, 1, 10), 10) && ByProbing(Column(t[..], d * 10, 1, 10), rnd[d])
      invariant forall x :: c * 10 <= x < 100 ==> t[x] == EMPTY
    {
      ghost var before := t[..];
      PlaceColumn(t, c * 10, 1, 10, rnd[c]);
      forall d | 0 <= d < c
        ensures Column(t[..], d * 10, 1, 10) == Column(before, d * 10, 1, 10)
      {
        assert forall row :: 0 <= row < 10 ==> t[At(d * 10, 1, row)] == before[At(d * 10, 1, row)];
      }
      c := c + 1;
    }
  }

  /** The bytes used in turn. */
  function InTurn(bytes: seq<nat>, n: nat): (r: seq<nat>)
    requires |bytes| == 8
    ensures |r| == n && forall i :: 0 <= i < n ==> r[i] == bytes[i % 8]
  {
    seq(n, (i: nat) => bytes[i % 8])
  }

  /** `init_sample_table` of the legacy engine for `n` rates; its eight random bytes per column
      are used in turn. */
  method InitLegacyTable(t: array<nat>, n: nat, rnd: seq<seq<nat>>)
    requires n < EMPTY && t.Length == 10 * n && |rnd| == COLUMNS && forall c :: 0 <= c < COLUMNS ==> |rnd[c]| == 8
    modifies t
    ensures forall c :: 0 <= c < COLUMNS ==>
              IsPermutation(Column(t[..], c, 10, n), n) && ByProbing(Column(t[..], c, 10, n), InTurn(rnd[c], n))
  {
    forall x | 0 <= x < t.Length {
      t[x] := EMPTY;
    }
    var c := 0;
    while c < COLUMNS
      invariant 0 <= c <= COLUMNS
      invariant forall d :: 0 <= d < c ==>
                  IsPermutation(Column(t[..], d, 10, n), n) && ByProbing(Column(t[..], d, 10, n), InTurn(rnd[d], n))
      invariant forall d, row :: c <= d < COLUMNS && 0 <= row < n ==> t[At(d, 10, row)] == EMPTY
    {
      if n > 0 {
        ghost var before := t[..];
        PlaceColumn(t, c, 10, n, InTurn(rnd[c], n));
        forall d | 0 <= d < COLUMNS && d != c
          ensures Column(t[..], d, 10, n) == Column(before, d, 10, n)
        {
          assert forall row :: 0 <= row < n ==> t[At(d, 10, row)] == before[At(d, 10, row)];
        }
      }
      c := c + 1;
    }
  }
}
