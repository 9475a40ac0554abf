/** The accumulation branches of `run_transformation` in transform_UPDATED.py:
    a freshly cleaned batch is appended after the stored master, duplicate
    natural keys are dropped keeping the last occurrence, and the result is
    sorted by its timestamp. Without a master the clean batch is the result. */
module Accumulation {
  import opened Tables
  import opened Sequences
  import W = WeatherTransformer
  import C = CollisionsTransformer

  /** `combined` is an outcome of `pd.concat([existing, incoming])`,
      `drop_duplicates(keep='last')` and `sort_values`: sorted by `rank`
      and a rearrangement of the keep-last de-duplication. The order of rows
      with equal timestamps is left open, because `sort_values` is not a
      stable sort by default. */
  predicate IsMerge<T(==), K(==)>(existing: seq<T>, incoming: seq<T>, combined: seq<T>,
                                  key: T -> K, rank: T -> Rank) {
    SortedBy(combined, rank) && multiset(combined) == multiset(DedupLast(existing + incoming, key))
  }

  /** One accumulation branch: with a master, concatenate, de-duplicate
      keeping the last row, sort, and report `len(combined) - len(existing)`;
      without one, the clean batch is kept as it is and nothing is reported. */
  method Accumulate<T(==), K(==)>(existing: Option<seq<T>>, incoming: seq<T>, key: T -> K, rank: T -> Rank)
    returns (combined: seq<T>, newRecords: Option<int>)
    ensures existing.None? ==> combined == incoming && newRecords == None
    ensures existing.Some? ==> IsMerge(existing.value, incoming, combined, key, rank)
    ensures existing.Some? ==> newRecords == Some(|combined| - |existing.value|)
  {
    if existing.None? {
      return incoming, None;
    }
    combined := existing.value + incoming;
    combined := DedupLast(combined, key);
    combined := SortByRank(combined, rank);
    newRecords := Some(|combined| - |existing.value|);
  }

  // ---------------------------------------------------------------------
  // Facts about sequences without repeated keys.
  // ---------------------------------------------------------------------

  /** Rows with distinct keys are distinct rows: each occurs at most once. */
  lemma {:induction false} UniqueKeysOnce<T, K>(s: seq<T>, key: T -> K, x: T)
    requires UniqueKeys(s, key)
    ensures multiset(s)[x] <= 1
  {
    if s != [] {
      assert s == [s[0]] + s[1..];
      assert UniqueKeys(s[1..], key);
      UniqueKeysOnce(s[1..], key, x);
      if x == s[0] {
        assert x !in s[1..] by {
          forall j | 0 <= j < |s[1..]| ensures s[1..][j] != x {
            assert key(s[j + 1]) != key(s[0]);
          }
        }
      }
    }
  }

  /** A row at two positions occurs at least twice. */
  lemma TwoPositions<T>(s: seq<T>, i: int, j: int)
    requires 0 <= i < j < |s| && s[i] == s[j]
    ensures multiset(s)[s[i]] >= 2
  {
    assert s == s[..j] + s[j..];
    assert s[i] == s[..j][i];
    assert s[j] == s[j..][0];
  }

  /** A rearrangement of rows with distinct keys has distinct keys. */
  lemma PermutationKeepsUniqueKeys<T, K>(s: seq<T>, t: seq<T>, key: T -> K)
    requires multiset(s) == multiset(t) && UniqueKeys(t, key)
    ensures UniqueKeys(s, key)
  {
    forall i, j | 0 <= i < j < |s| ensures key(s[i]) != key(s[j]) {
      if s[i] == s[j] {
        TwoPositions(s, i, j);
        UniqueKeysOnce(t, key, s[i]);
      } else {
        assert s[i] in multiset(t) && s[j] in multiset(t);
        var a :| 0 <= a < |t| && t[a] == s[i];
        var b :| 0 <= b < |t| && t[b] == s[j];
        assert a != b;
      }
    }
  }

  /** Two rows of a sequence without repeated keys that share a key are the
      same row. */
  lemma SameKeySameRow<T, K>(s: seq<T>, key: T -> K, x: T, y: T)
    requires UniqueKeys(s, key) && x in s && y in s && key(x) == key(y)
    ensures x == y
  {
    var i :| 0 <= i < |s| && s[i] == x;
    var j :| 0 <= j < |s| && s[j] == y;
    if i < j {
      assert false;
    } else if j < i {
      assert false;
    }
  }

  lemma MultisetKeys<T, K>(s: seq<T>, t: seq<T>, key: T -> K)
    requires multiset(s) == multiset(t)
    ensures Keys(s, key) == Keys(t, key)
  {
    forall k | k in Keys(s, key) ensures k in Keys(t, key) {
      var i :| 0 <= i < |s| && key(s[i]) == k;
      assert s[i] in multiset(t);
      var j :| 0 <= j < |t| && t[j] == s[i];
    }
    forall k | k in Keys(t, key) ensures k in Keys(s, key) {
      var j :| 0 <= j < |t| && key(t[j]) == k;
      assert t[j] in multiset(s);
      var i :| 0 <= i < |s| && s[i] == t[j];
    }
  }

  // ---------------------------------------------------------------------
  // What a merge promises.
  // ---------------------------------------------------------------------

  /** The merged master holds no key twice, holds exactly the keys of the
      stored master and of the batch, one row per key, and each row is the
      last row with that key in existing ++ incoming. */
  lemma MergeKeys<T, K>(existing: seq<T>, incoming: seq<T>, combined: seq<T>, key: T -> K, rank: T -> Rank)
    requires IsMerge(existing, incoming, combined, key, rank)
    ensures UniqueKeys(combined, key)
    ensures Keys(combined, key) == Keys(existing, key) + Keys(incoming, key)
    ensures |combined| == |Keys(existing, key) + Keys(incoming, key)|
    ensures forall i :: 0 <= i < |combined| ==>
              key(combined[i]) in Keys(existing + incoming, key)
              && combined[i] == LastFor(existing + incoming, key, key(combined[i]))
  {
    var all := existing + incoming;
    var d := DedupLast(all, key);
    PermutationKeepsUniqueKeys(combined, d, key);
    MultisetKeys(combined, d, key);
    KeysAppend(existing, incoming, key);
    UniqueKeysCount(combined, key);
    forall i | 0 <= i < |combined|
      ensures key(combined[i]) in Keys(all, key) && combined[i] == LastFor(all, key, key(combined[i]))
    {
      assert combined[i] in multiset(d);
      var j :| 0 <= j < |d| && d[j] == combined[i];
    }
  }

  /** Supersede on collision: a row whose key the batch carries is the
      batch's last row for that key; a row whose key only the master carries
      is the master's last row for that key. */
  lemma MergeSupersedes<T, K>(existing: seq<T>, incoming: seq<T>, combined: seq<T>, key: T -> K, rank: T -> Rank)
    requires IsMerge(existing, incoming, combined, key, rank)
    ensures forall i :: 0 <= i < |combined| && key(combined[i]) in Keys(incoming, key) ==>
              combined[i] == LastFor(incoming, key, key(combined[i]))
    ensures forall i :: 0 <= i < |combined| && key(combined[i]) !in Keys(incoming, key) ==>
              key(combined[i]) in Keys(existing, key)
              && combined[i] == LastFor(existing, key, key(combined[i]))
  {
    MergeKeys(existing, incoming, combined, key, rank);
    forall i | 0 <= i < |combined| && key(combined[i]) in Keys(incoming, key)
      ensures combined[i] == LastFor(incoming, key, key(combined[i]))
    {
      LastForLaterWins(existing, incoming, key, key(combined[i]));
    }
    forall i | 0 <= i < |combined| && key(combined[i]) !in Keys(incoming, key)
      ensures key(combined[i]) in Keys(existing, key)
      ensures combined[i] == LastFor(existing, key, key(combined[i]))
    {
      assert key(combined[i]) in Keys(combined, key);
      LastForEarlierKept(existing, incoming, key, key(combined[i]));
    }
  }

  /** When the stored master has no repeated key, `new_records` is the number
      of batch keys the master did not have, so it is never negative. */
  lemma NewRecordsAreNewKeys<T, K>(existing: seq<T>, incoming: seq<T>, combined: seq<T>, key: T -> K, rank: T -> Rank)
    requires IsMerge(existing, incoming, combined, key, rank)
    requires UniqueKeys(existing, key)
    ensures |combined| - |existing| == |Keys(incoming, key) - Keys(existing, key)|
  {
    MergeKeys(existing, incoming, combined, key, rank);
    UniqueKeysCount(existing, key);
    var ke, ki := Keys(existing, key), Keys(incoming, key);
    assert ke + ki == ke + (ki - ke);
    assert ke * (ki - ke) == {};
  }

  /** Every row of the second merge is a row of the first. */
  lemma RemergeAddsNoRow<T, K>(existing: seq<T>, incoming: seq<T>, once: seq<T>, twice: seq<T>,
                               key: T -> K, rank: T -> Rank, x: T)
    requires IsMerge(existing, incoming, once, key, rank)
    requires IsMerge(once, incoming, twice, key, rank)
    requires x in twice
    ensures x in once
  {
    MergeKeys(existing, incoming, once, key, rank);
    MergeSupersedes(existing, incoming, once, key, rank);
    MergeSupersedes(once, incoming, twice, key, rank);
    var i :| 0 <= i < |twice| && twice[i] == x;
    var k := key(x);
    if k in Keys(incoming, key) {
      var j :| 0 <= j < |once| && key(once[j]) == k;
      assert once[j] == LastFor(incoming, key, k);
    }
  }

  /** Idempotence: merging the same batch into the result of merging it
      yields the same rows (in an order fixed only up to equal timestamps),
      the same keys, and a `new_records` of 0. */
  lemma MergeIdempotent<T, K>(existing: seq<T>, incoming: seq<T>, once: seq<T>, twice: seq<T>,
                              key: T -> K, rank: T -> Rank)
    requires IsMerge(existing, incoming, once, key, rank)
    requires IsMerge(once, incoming, twice, key, rank)
    ensures multiset(twice) == multiset(once)
    ensures Keys(twice, key) == Keys(once, key)
    ensures |twice| - |once| == 0
  {
    MergeKeys(existing, incoming, once, key, rank);
    MergeKeys(once, incoming, twice, key, rank);
    RemergeKeepsRows(existing, incoming, once, twice, key, rank);
    forall x | x in twice ensures x in once {
      RemergeAddsNoRow(existing, incoming, once, twice, key, rank, x);
    }
    SameRowsSameMultiset(once, twice, key);
  }

  /** Every row of the first merge survives the second. */
  lemma RemergeKeepsRows<T, K>(existing: seq<T>, incoming: seq<T>, once: seq<T>, twice: seq<T>,
                               key: T -> K, rank: T -> Rank)
    requires IsMerge(existing, incoming, once, key, rank)
    requires IsMerge(once, incoming, twice, key, rank)
    ensures forall y :: y in once ==> y in twice
  {
    MergeKeys(existing, incoming, once, key, rank);
    MergeKeys(once, incoming, twice, key, rank);
    forall y | y in once ensures y in twice {
      var j :| 0 <= j < |once| && once[j] == y;
      assert key(y) in Keys(twice, key);
      var i :| 0 <= i < |twice| && key(twice[i]) == key(y);
      RemergeAddsNoRow(existing, incoming, once, twice, key, rank, twice[i]);
      SameKeySameRow(once, key, twice[i], y);
    }
  }

  /** Two sequences without repeated keys holding the same rows are
      rearrangements of each other. */
  lemma SameRowsSameMultiset<T, K>(s: seq<T>, t: seq<T>, key: T -> K)
    requires UniqueKeys(s, key) && UniqueKeys(t, key)
    requires forall x :: x in s <==> x in t
    ensures multiset(s) == multiset(t)
  {
    forall x ensures multiset(s)[x] == multiset(t)[x] {
      UniqueKeysOnce(s, key, x);
      UniqueKeysOnce(t, key, x);
      if x in s {
        assert x in multiset(s) && x in multiset(t);
      } else {
        assert x !in multiset(s) && x !in multiset(t);
      }
    }
  }

  /** An empty batch against a master without repeated keys yields the
      master's rows again, and `new_records` is 0. */
  lemma EmptyBatchKeepsRows<T, K>(existing: seq<T>, combined: seq<T>, key: T -> K, rank: T -> Rank)
    requires IsMerge(existing, [], combined, key, rank)
    requires UniqueKeys(existing, key)
    ensures multiset(combined) == multiset(existing)
    ensures |combined| - |existing| == 0
  {
    assert existing + [] == existing;
    DedupLastOfUnique(existing, key);
    assert |multiset(combined)| == |multiset(existing)|;
  }

  /** No two rows share a timestamp. */
  predicate DistinctRanks<T>(s: seq<T>, rank: T -> Rank) {
    forall i, j :: 0 <= i < j < |s| ==> rank(s[i]) != rank(s[j])
  }

  /** Two sorted rearrangements of rows with distinct timestamps start with
      the same row: the one with the earliest timestamp. */
  lemma SameFirst<T>(s: seq<T>, t: seq<T>, rank: T -> Rank)
    requires multiset(s) == multiset(t) && s != []
    requires SortedBy(s, rank) && SortedBy(t, rank) && DistinctRanks(s, rank)
    ensures t != [] && s[0] == t[0]
  {
    assert |t| == |multiset(t)| == |s|;
    assert t[0] in multiset(s);
    var j :| 0 <= j < |s| && s[j] == t[0];
    assert s[0] in multiset(t);
    var k :| 0 <= k < |t| && t[k] == s[0];
    assert RankLe(rank(s[0]), rank(s[j]));
    assert RankLe(rank(t[0]), rank(t[k]));
    assert rank(s[j]) == rank(s[0]);
  }

  /** Two sorted rearrangements of the same rows, with no two rows sharing
      a timestamp. */
  predicate SortedAlike<T(==)>(s: seq<T>, t: seq<T>, rank: T -> Rank) {
    multiset(s) == multiset(t) && SortedBy(s, rank) && SortedBy(t, rank) && DistinctRanks(s, rank)
  }

  /** Sorted rearrangements start with the same row, and their tails are
      sorted rearrangements again. */
  lemma TailsAlike<T>(s: seq<T>, t: seq<T>, rank: T -> Rank)
    requires SortedAlike(s, t, rank) && s != []
    ensures t != [] && s[0] == t[0] && SortedAlike(s[1..], t[1..], rank)
  {
    SameFirst(s, t, rank);
    SortedTail(s, rank);
    SortedTail(t, rank);
  }

  /** The tail of a sorted sequence is sorted, keeps distinct timestamps,
      and holds the other rows. */
  lemma SortedTail<T>(s: seq<T>, rank: T -> Rank)
    requires s != [] && SortedBy(s, rank)
    ensures SortedBy(s[1..], rank)
    ensures DistinctRanks(s, rank) ==> DistinctRanks(s[1..], rank)
    ensures multiset(s[1..]) == multiset(s) - multiset{s[0]}
  {
    assert s == [s[0]] + s[1..];
  }

  /** Sorting is determined when no two rows share a timestamp: two sorted
      rearrangements of the same rows are equal. */
  lemma {:induction false} SortedRearrangementUnique<T>(s: seq<T>, t: seq<T>, rank: T -> Rank)
    requires SortedAlike(s, t, rank)
    ensures s == t
    decreases |s|
  {
    if s == [] {
      assert |t| == |multiset(t)| == 0;
    } else {
      TailsAlike(s, t, rank);
      SortedRearrangementUnique(s[1..], t[1..], rank);
      assert s == [s[0]] + s[1..] && t == [t[0]] + t[1..];
    }
  }

  /** Merging an empty batch into a sorted master without repeated keys or
      repeated timestamps gives back exactly that master. */
  lemma EmptyBatchIsNoOp<T, K>(existing: seq<T>, combined: seq<T>, key: T -> K, rank: T -> Rank)
    requires IsMerge(existing, [], combined, key, rank)
    requires UniqueKeys(existing, key) && SortedBy(existing, rank) && DistinctRanks(existing, rank)
    ensures combined == existing
  {
    EmptyBatchKeepsRows(existing, combined, key, rank);
    SortedRearrangementUnique(existing, combined, rank);
  }

  // ---------------------------------------------------------------------
  // Worked examples, on rows (id, timestamp, value).
  // ---------------------------------------------------------------------

  function Id(r: (string, int, int)): string { r.0 }

  function Stamp(r: (string, int, int)): Rank { At(r.1) }

  /** Keep-last leaves both rows of the batch: their keys differ. */
  lemma BatchDedup()
    ensures DedupLast([("A", 1, 2), ("B", 2, 3)], Id) == [("A", 1, 2), ("B", 2, 3)]
  {
    var b := [("B", 2, 3)];
    var rest := [("A", 1, 2)] + b;
    assert DedupLast(b, Id) == b by {
      assert b[1..] == [];
    }
    KeysOne(b[0], Id);
    assert rest[1..] == b;
    assert Id(rest[0]) !in Keys(b, Id);
  }

  /** Keep-last of the stored row followed by the batch is the batch: the
      stored A is superseded. */
  lemma TwoRunDedup()
    ensures DedupLast([("A", 1, 1)] + [("A", 1, 2), ("B", 2, 3)], Id) == [("A", 1, 2), ("B", 2, 3)]
  {
    var rest := [("A", 1, 2), ("B", 2, 3)];
    BatchDedup();
    var all := [("A", 1, 1)] + rest;
    assert all[1..] == rest;
    assert Id(rest[0]) in Keys(rest, Id);
    assert Id(all[0]) == Id(rest[0]);
  }

  lemma BatchIsSorted()
    ensures DistinctRanks([("A", 1, 2), ("B", 2, 3)], Stamp)
    ensures SortedBy([("A", 1, 2), ("B", 2, 3)], Stamp)
  {
  }

  /** Stored [A@day1 = 1] and new [A@day1 = 2, B@day2 = 3] merge to
      [A = 2, B = 3] in timestamp order, one of them new. */
  lemma TwoRunExample(combined: seq<(string, int, int)>)
    requires IsMerge([("A", 1, 1)], [("A", 1, 2), ("B", 2, 3)], combined, Id, Stamp)
    ensures combined == [("A", 1, 2), ("B", 2, 3)]
    ensures |combined| - 1 == 1
  {
    TwoRunDedup();
    BatchIsSorted();
    SortedRearrangementUnique([("A", 1, 2), ("B", 2, 3)], combined, Stamp);
  }

  /** A stored master that already repeats a key shrinks when merged, so
      `new_records` is negative: [A, A] with an empty batch reports -1. */
  lemma NegativeCountExample(combined: seq<(string, int, int)>)
    requires IsMerge([("A", 1, 1), ("A", 1, 2)], [], combined, Id, Stamp)
    ensures |combined| - 2 == -1
  {
    var all := [("A", 1, 1), ("A", 1, 2)] + [];
    assert all[1..] == [("A", 1, 2)];
    assert Id(all[1]) in Keys(all[1..], Id);
    assert DedupLast([("A", 1, 2)], Id) == [("A", 1, 2)];
    assert DedupLast(all, Id) == [("A", 1, 2)];
    assert |multiset(combined)| == 1;
  }

  // ---------------------------------------------------------------------
  // `run_transformation`.
  // ---------------------------------------------------------------------

  /** `run_transformation`: both raw batches are cleaned, then each is
      accumulated into its master (None when no master file exists). It
      fails exactly when a transformer fails. */
  method RunTransformation(weatherRaw: Frame, collisionsRaw: Frame,
                           weatherMaster: Option<seq<W.WeatherRecord>>,
                           collisionsMaster: Option<seq<C.CollisionRecord>>,
                           p: Platform, boroughs: set<string>)
    returns (r: Result<(seq<W.WeatherRecord>, seq<C.CollisionRecord>)>)
    ensures r.Ok? <==> W.CleanWeather(weatherRaw, p).Ok? && C.CleanCollisions(collisionsRaw, p, boroughs).Ok?
    ensures W.CleanWeather(weatherRaw, p).Fail? ==> r == Fail(W.CleanWeather(weatherRaw, p).error)
    ensures r.Ok? && weatherMaster.None? ==> r.value.0 == W.CleanWeather(weatherRaw, p).value
    ensures r.Ok? && weatherMaster.Some? ==>
              IsMerge(weatherMaster.value, W.CleanWeather(weatherRaw, p).value, r.value.0,
                      W.WeatherKey, W.WeatherRank)
    ensures r.Ok? && collisionsMaster.None? ==>
              r.value.1 == C.CleanCollisions(collisionsRaw, p, boroughs).value
    ensures r.Ok? && collisionsMaster.Some? ==>
              IsMerge(collisionsMaster.value, C.CleanCollisions(collisionsRaw, p, boroughs).value, r.value.1,
                      C.CollisionKey, C.CollisionRank)
  {
    var weatherClean :- W.Transform(weatherRaw, p);
    var collisionsClean :- C.Transform(collisionsRaw, p, boroughs);
    var weatherCombined, _ := Accumulate(weatherMaster, weatherClean, W.WeatherKey, W.WeatherRank);
    var collisionsCombined, _ := Accumulate(collisionsMaster, collisionsClean, C.CollisionKey, C.CollisionRank);
    return Ok((weatherCombined, collisionsCombined));
  }
}
