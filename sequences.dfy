/** Sequence-level meaning of the three frame operations the transformers and
    the accumulator rely on: `drop_duplicates(subset, keep='first')`,
    `drop_duplicates(subset, keep='last')` and `sort_values(column)`. */
module Sequences {

  /** The set of natural keys occurring in `s`. */
  function Keys<T, K(==)>(s: seq<T>, key: T -> K): set<K> {
    set i | 0 <= i < |s| :: key(s[i])
  }

  /** No two rows share a natural key. */
  predicate UniqueKeys<T, K(==)>(s: seq<T>, key: T -> K) {
    forall i, j :: 0 <= i < j < |s| ==> key(s[i]) != key(s[j])
  }

  lemma KeysAppend<T, K>(a: seq<T>, b: seq<T>, key: T -> K)
    ensures Keys(a + b, key) == Keys(a, key) + Keys(b, key)
  {
    var ab := a + b;
    forall k | k in Keys(a, key) + Keys(b, key) ensures k in Keys(ab, key) {
      if k in Keys(a, key) {
        var i :| 0 <= i < |a| && key(a[i]) == k;
        assert ab[i] == a[i];
      } else {
        var i :| 0 <= i < |b| && key(b[i]) == k;
        assert ab[|a| + i] == b[i];
      }
    }
  }

  /** Joining two key-unique sequences whose keys do not meet keeps the
      keys unique. */
  lemma UniqueAppend<T, K>(a: seq<T>, b: seq<T>, key: T -> K)
    requires UniqueKeys(a, key) && UniqueKeys(b, key)
    requires forall i, j :: 0 <= i < |a| && 0 <= j < |b| ==> key(a[i]) != key(b[j])
    ensures UniqueKeys(a + b, key)
  {
    var ab := a + b;
    forall i, j | 0 <= i < j < |ab| ensures key(ab[i]) != key(ab[j]) {
      if j < |a| {
        assert ab[i] == a[i] && ab[j] == a[j];
      } else if i < |a| {
        assert ab[i] == a[i] && ab[j] == b[j - |a|];
      } else {
        assert ab[i] == b[i - |a|] && ab[j] == b[j - |a|];
      }
    }
  }

  /** The blocks of `ds`, one per item and in order, joined: the rows a
      nested loop appends item by item. */
  function Flatten<D, T>(ds: seq<D>, block: D -> seq<T>): seq<T> {
    if ds == [] then [] else Flatten(ds[..|ds| - 1], block) + block(ds[|ds| - 1])
  }

  /** One more item appends its block. */
  lemma FlattenSnoc<D, T>(ds: seq<D>, block: D -> seq<T>, k: nat)
    requires k < |ds|
    ensures Flatten(ds[..k + 1], block) == Flatten(ds[..k], block) + block(ds[k])
  {
    assert ds[..k + 1][..k] == ds[..k];
  }

  /** The i-th element of the k-th block follows the blocks before it. */
  lemma {:induction false} FlattenAt<D, T>(ds: seq<D>, block: D -> seq<T>, k: nat, i: nat)
    requires k < |ds| && i < |block(ds[k])|
    ensures |Flatten(ds[..k], block)| + i < |Flatten(ds, block)|
    ensures Flatten(ds, block)[|Flatten(ds[..k], block)| + i] == block(ds[k])[i]
  {
    var front := ds[..|ds| - 1];
    if k < |ds| - 1 {
      assert front[..k] == ds[..k] && front[k] == ds[k];
      FlattenAt(front, block, k, i);
    } else {
      assert ds[..k] == front;
    }
  }

  /** Every element of the join comes from the block of one item. */
  lemma {:induction false} FlattenElement<D, T>(ds: seq<D>, block: D -> seq<T>, k: nat)
    requires k < |Flatten(ds, block)|
    ensures exists m, i :: 0 <= m < |ds| && 0 <= i < |block(ds[m])| && Flatten(ds, block)[k] == block(ds[m])[i]
  {
    var front := ds[..|ds| - 1];
    var head := Flatten(front, block);
    if k < |head| {
      FlattenElement(front, block, k);
      var m, i :| 0 <= m < |front| && 0 <= i < |block(front[m])| && head[k] == block(front[m])[i];
      assert front[m] == ds[m];
    } else {
      var i := k - |head|;
      assert Flatten(ds, block)[k] == block(ds[|ds| - 1])[i];
    }
  }

  /** Blocks whose keys are unique and never meet another block's keys
      join into a key-unique sequence. */
  lemma {:induction false} FlattenUnique<D, T, K>(ds: seq<D>, block: D -> seq<T>, key: T -> K)
    requires forall m :: 0 <= m < |ds| ==> UniqueKeys(block(ds[m]), key)
    requires forall m, n, i, j :: 0 <= m < n < |ds| && 0 <= i < |block(ds[m])| && 0 <= j < |block(ds[n])| ==>
               key(block(ds[m])[i]) != key(block(ds[n])[j])
    ensures UniqueKeys(Flatten(ds, block), key)
  {
    if ds != [] {
      var front := ds[..|ds| - 1];
      var last := ds[|ds| - 1];
      forall m | 0 <= m < |front| ensures UniqueKeys(block(front[m]), key) {
        assert front[m] == ds[m];
      }
      forall m, n, i, j | 0 <= m < n < |front| && 0 <= i < |block(front[m])| && 0 <= j < |block(front[n])|
        ensures key(block(front[m])[i]) != key(block(front[n])[j])
      {
        assert front[m] == ds[m] && front[n] == ds[n];
      }
      FlattenUnique(front, block, key);
      var a := Flatten(front, block);
      var b := block(last);
      forall i, j | 0 <= i < |a| && 0 <= j < |b| ensures key(a[i]) != key(b[j]) {
        FlattenElement(front, block, i);
        var m, x :| 0 <= m < |front| && 0 <= x < |block(front[m])| && a[i] == block(front[m])[x];
        assert front[m] == ds[m];
      }
      UniqueAppend(a, b, key);
    }
  }

  lemma KeysOne<T, K>(x: T, key: T -> K)
    ensures Keys([x], key) == {key(x)}
  {
    assert [x][0] == x;
    assert key([x][0]) in Keys([x], key);
  }

  lemma KeysFront<T, K>(s: seq<T>, key: T -> K)
    requires s != []
    ensures Keys(s, key) == {key(s[0])} + Keys(s[1..], key)
  {
    assert s == [s[0]] + s[1..];
    KeysAppend([s[0]], s[1..], key);
  }

  lemma KeysBack<T, K>(s: seq<T>, key: T -> K)
    requires s != []
    ensures Keys(s, key) == Keys(s[..|s| - 1], key) + {key(s[|s| - 1])}
  {
    assert s == s[..|s| - 1] + [s[|s| - 1]];
    KeysAppend(s[..|s| - 1], [s[|s| - 1]], key);
  }

  /** A sequence without repeated keys has exactly as many keys as rows. */
  lemma {:induction false} UniqueKeysCount<T, K>(s: seq<T>, key: T -> K)
    requires UniqueKeys(s, key)
    ensures |Keys(s, key)| == |s|
  {
    if s != [] {
      KeysFront(s, key);
      UniqueKeysCount(s[1..], key);
      assert key(s[0]) !in Keys(s[1..], key);
    }
  }

  /** There are never more keys than rows. */
  lemma {:induction false} KeysSubsetCount<T, K>(s: seq<T>, key: T -> K)
    ensures |Keys(s, key)| <= |s|
  {
    if s != [] {
      KeysFront(s, key);
      KeysSubsetCount(s[1..], key);
    }
  }

  /** The first row of `s` with key `k`. */
  function FirstFor<T, K(==)>(s: seq<T>, key: T -> K, k: K): (r: T)
    requires k in Keys(s, key)
    ensures r in s && key(r) == k
    decreases |s|
  {
    KeysBack(s, key);
    if k in Keys(s[..|s| - 1], key) then FirstFor(s[..|s| - 1], key, k) else s[|s| - 1]
  }

  /** The last row of `s` with key `k`. */
  function LastFor<T, K(==)>(s: seq<T>, key: T -> K, k: K): (r: T)
    requires k in Keys(s, key)
    ensures r in s && key(r) == k
    decreases |s|
  {
    KeysFront(s, key);
    if k in Keys(s[1..], key) then LastFor(s[1..], key, k) else s[0]
  }

  /** `r` is `s` with some rows left out and the rest in their order. */
  predicate Subsequence<T(==)>(r: seq<T>, s: seq<T>)
    decreases |s|
  {
    if s == [] then r == []
    else (r != [] && r[|r| - 1] == s[|s| - 1] && Subsequence(r[..|r| - 1], s[..|s| - 1]))
         || Subsequence(r, s[..|s| - 1])
  }

  /** `drop_duplicates(subset=key)` with the default `keep='first'`. */
  function DedupFirst<T(==), K(==)>(s: seq<T>, key: T -> K): (r: seq<T>)
    ensures UniqueKeys(r, key)
    ensures Keys(r, key) == Keys(s, key)
    ensures forall i :: 0 <= i < |r| ==> r[i] == FirstFor(s, key, key(r[i]))
    ensures Subsequence(r, s)
    decreases |s|
  {
    if s == [] then []
    else
      var init, x := s[..|s| - 1], s[|s| - 1];
      var p := DedupFirst(init, key);
      KeysBack(s, key);
      if key(x) in Keys(init, key) then p
      else
        KeysAppend(p, [x], key);
        KeysOne(x, key);
        assert (p + [x])[..|p|] == p;
        p + [x]
  }

  /** `df[mask]`: the rows for which `keep` holds, in their order. */
  function Filter<T(==)>(s: seq<T>, keep: T -> bool): (r: seq<T>)
    ensures forall i :: 0 <= i < |r| ==> r[i] in s && keep(r[i])
    ensures forall i :: 0 <= i < |s| && keep(s[i]) ==> s[i] in r
    ensures |r| <= |s|
    ensures Subsequence(r, s)
    decreases |s|
  {
    if s == [] then []
    else
      var init, x := s[..|s| - 1], s[|s| - 1];
      var p := Filter(init, keep);
      assert s == init + [x];
      if keep(x) then
        assert (p + [x])[..|p|] == p;
        p + [x]
      else p
  }

  /** Keep-first as a loop over the rows with the set of keys seen so far. */
  method KeepFirst<T(==), K(==)>(s: seq<T>, key: T -> K) returns (kept: seq<T>)
    ensures kept == DedupFirst(s, key)
  {
    kept := [];
    var seen: set<K> := {};
    for i := 0 to |s|
      invariant kept == DedupFirst(s[..i], key)
      invariant seen == Keys(s[..i], key)
    {
      assert s[..i + 1][..i] == s[..i];
      KeysBack(s[..i + 1], key);
      if key(s[i]) !in seen {
        kept := kept + [s[i]];
        seen := seen + {key(s[i])};
      }
    }
    assert s[..|s|] == s;
  }

  /** `drop_duplicates(subset=key, keep='last')`. */
  function DedupLast<T(==), K(==)>(s: seq<T>, key: T -> K): (r: seq<T>)
    ensures UniqueKeys(r, key)
    ensures Keys(r, key) == Keys(s, key)
    ensures forall i :: 0 <= i < |r| ==> r[i] == LastFor(s, key, key(r[i]))
    ensures multiset(r) <= multiset(s)
    decreases |s|
  {
    if s == [] then []
    else
      var x, rest := s[0], s[1..];
      var p := DedupLast(rest, key);
      KeysFront(s, key);
      assert s == [x] + rest;
      if key(x) in Keys(rest, key) then p
      else
        KeysAppend([x], p, key);
        [x] + p
  }

  /** Every row `drop_duplicates` keeps has a property all input rows have. */
  lemma DedupFirstKeeps<T, K>(s: seq<T>, key: T -> K, keep: T -> bool)
    requires forall i :: 0 <= i < |s| ==> keep(s[i])
    ensures forall i :: 0 <= i < |DedupFirst(s, key)| ==> keep(DedupFirst(s, key)[i])
  {
    var r := DedupFirst(s, key);
    forall i | 0 <= i < |r| ensures keep(r[i]) {
      var j :| 0 <= j < |s| && s[j] == r[i];
    }
  }

  lemma {:induction false} DedupFirstOfUnique<T, K>(s: seq<T>, key: T -> K)
    requires UniqueKeys(s, key)
    ensures DedupFirst(s, key) == s
    decreases |s|
  {
    if s != [] {
      var init := s[..|s| - 1];
      assert UniqueKeys(init, key);
      DedupFirstOfUnique(init, key);
      assert key(s[|s| - 1]) !in Keys(init, key);
      assert init + [s[|s| - 1]] == s;
    }
  }

  /** On a sequence without repeated keys, keep-last removes nothing. */
  lemma {:induction false} DedupLastOfUnique<T, K>(s: seq<T>, key: T -> K)
    requires UniqueKeys(s, key)
    ensures DedupLast(s, key) == s
    decreases |s|
  {
    if s != [] {
      assert UniqueKeys(s[1..], key);
      DedupLastOfUnique(s[1..], key);
      assert key(s[0]) !in Keys(s[1..], key);
      assert [s[0]] + s[1..] == s;
    }
  }

  /** A key that occurs in the later part wins: its last row is the later
      part's last row. */
  lemma {:induction false} LastForLaterWins<T, K>(a: seq<T>, b: seq<T>, key: T -> K, k: K)
    requires k in Keys(b, key)
    ensures k in Keys(a + b, key)
    ensures LastFor(a + b, key, k) == LastFor(b, key, k)
    decreases |a|
  {
    KeysAppend(a, b, key);
    if a != [] {
      assert (a + b)[1..] == a[1..] + b;
      KeysAppend(a[1..], b, key);
      LastForLaterWins(a[1..], b, key, k);
    } else {
      assert a + b == b;
    }
  }

  /** A key that occurs only in the earlier part keeps its earlier row. */
  lemma {:induction false} LastForEarlierKept<T, K>(a: seq<T>, b: seq<T>, key: T -> K, k: K)
    requires k in Keys(a, key) && k !in Keys(b, key)
    ensures k in Keys(a + b, key)
    ensures LastFor(a + b, key, k) == LastFor(a, key, k)
    decreases |a|
  {
    KeysAppend(a, b, key);
    assert (a + b)[1..] == a[1..] + b;
    KeysAppend(a[1..], b, key);
    KeysFront(a, key);
    if k in Keys(a[1..], key) {
      LastForEarlierKept(a[1..], b, key, k);
    }
  }

  // ---------------------------------------------------------------------
  // Sorting by a timestamp column; missing timestamps (NaT) sort last.
  // ---------------------------------------------------------------------

  /** The sort key of a row: a point in time, or NaT. */
  datatype Rank = At(t: int) | Missing

  predicate RankLe(a: Rank, b: Rank) {
    b.Missing? || (a.At? && a.t <= b.t)
  }

  predicate SortedBy<T>(s: seq<T>, rank: T -> Rank) {
    forall i, j :: 0 <= i < j < |s| ==> RankLe(rank(s[i]), rank(s[j]))
  }

  function Insert<T>(x: T, s: seq<T>, rank: T -> Rank): (r: seq<T>)
    requires SortedBy(s, rank)
    ensures SortedBy(r, rank)
    ensures multiset(r) == multiset(s) + multiset{x}
    ensures |r| == |s| + 1
  {
    if s == [] then [x]
    else if RankLe(rank(x), rank(s[0])) then [x] + s
    else
      var t := Insert(x, s[1..], rank);
      InsertBelow(x, s, t, rank);
      [s[0]] + t
  }

  /** Inserting behind the head: the head stays first. */
  lemma InsertBelow<T>(x: T, s: seq<T>, t: seq<T>, rank: T -> Rank)
    requires SortedBy(s, rank) && s != [] && !RankLe(rank(x), rank(s[0]))
    requires SortedBy(t, rank) && multiset(t) == multiset(s[1..]) + multiset{x}
    ensures SortedBy([s[0]] + t, rank)
    ensures multiset([s[0]] + t) == multiset(s) + multiset{x}
  {
    assert s == [s[0]] + s[1..];
    forall j | 0 <= j < |t| ensures RankLe(rank(s[0]), rank(t[j])) {
      assert t[j] in multiset(t);
      if t[j] != x {
        assert t[j] in multiset(s[1..]);
        var m :| 0 <= m < |s[1..]| && s[1..][m] == t[j];
        assert s[m + 1] == t[j];
      }
    }
    var r := [s[0]] + t;
    forall i, j | 0 <= i < j < |r| ensures RankLe(rank(r[i]), rank(r[j])) {
      if i > 0 {
        assert r[i] == t[i - 1];
      }
      assert r[j] == t[j - 1];
    }
  }

  /** `sort_values`: a sorted permutation. The order of rows with equal
      timestamps is not promised, since pandas' default sort is not stable. */
  function SortByRank<T>(s: seq<T>, rank: T -> Rank): (r: seq<T>)
    ensures SortedBy(r, rank)
    ensures multiset(r) == multiset(s)
    ensures |r| == |s|
  {
    if s == [] then []
    else
      assert s == [s[0]] + s[1..];
      Insert(s[0], SortByRank(s[1..], rank), rank)
  }
}
