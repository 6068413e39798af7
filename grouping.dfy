/** The pandas operations the reports and views are built from, as functions over sequences of
    (key, value) pairs:
    - `groupby(key)[value].sum()` and `.mean()`: one entry per distinct key, keys in ascending
      order (pandas sorts group keys by default);
    - `nlargest(n)`: the n largest values, largest first, earlier entries winning ties
      (`keep='first'`).
    Amounts are integers (kopecks); means are exact rationals. */
module Grouping {
  import opened Lists

  /** `less` is a strict total order: the sort order of group keys. */
  ghost predicate StrictTotalOrder<K(!new)>(less: (K, K) -> bool)
  {
    (forall a :: !less(a, a)) &&
    (forall a, b, c :: less(a, b) && less(b, c) ==> less(a, c)) &&
    (forall a, b :: a != b ==> less(a, b) || less(b, a))
  }

  predicate Ascending<K>(ks: seq<K>, less: (K, K) -> bool)
  {
    forall i, j :: 0 <= i < j < |ks| ==> less(ks[i], ks[j])
  }

  predicate Distinct<K(==)>(ks: seq<K>)
  {
    forall i, j :: 0 <= i < j < |ks| ==> ks[i] != ks[j]
  }

  /** `k` is the key of some pair. */
  ghost predicate HasKey<K(!new), V(!new)>(ps: seq<(K, V)>, k: K)
  {
    exists p :: p in ps && p.0 == k
  }

  // ---------------------------------------------------------------- sorted distinct keys

  /** Inserts `k` into an ascending key list unless it is already there. */
  function Insert<K(==)>(ks: seq<K>, k: K, less: (K, K) -> bool): seq<K>
  {
    if ks == [] then [k]
    else if k == ks[0] then ks
    else if less(k, ks[0]) then [k] + ks
    else [ks[0]] + Insert(ks[1..], k, less)
  }

  /** The distinct keys of the pairs, in ascending order. */
  function Keys<K(==), V>(ps: seq<(K, V)>, less: (K, K) -> bool): seq<K>
  {
    if ps == [] then [] else Insert(Keys(ps[..|ps| - 1], less), ps[|ps| - 1].0, less)
  }

  lemma {:induction false} AscendingCons<K(!new)>(a: K, ks: seq<K>, less: (K, K) -> bool)
    requires Ascending(ks, less) && forall x :: x in ks ==> less(a, x)
    ensures Ascending([a] + ks, less)
  {
    forall i, j | 0 <= i < j < |[a] + ks|
      ensures less(([a] + ks)[i], ([a] + ks)[j])
    {
      if i > 0 {
        assert ([a] + ks)[i] == ks[i - 1] && ([a] + ks)[j] == ks[j - 1];
      } else {
        assert ([a] + ks)[j] in ks;
      }
    }
  }

  lemma {:induction false} InsertKeepsOrder<K(!new)>(ks: seq<K>, k: K, less: (K, K) -> bool)
    requires StrictTotalOrder(less) && Ascending(ks, less)
    ensures Ascending(Insert(ks, k, less), less)
    ensures forall x :: x in Insert(ks, k, less) <==> x == k || x in ks
  {
    if ks != [] && k != ks[0] {
      var tail := ks[1..];
      assert Ascending(tail, less) by {
        forall i, j | 0 <= i < j < |tail| ensures less(tail[i], tail[j]) {
          assert tail[i] == ks[i + 1] && tail[j] == ks[j + 1];
        }
      }
      assert forall x :: x in tail ==> less(ks[0], x) by {
        forall x | x in tail ensures less(ks[0], x) {
          var j :| 0 <= j < |tail| && tail[j] == x;
          assert ks[j + 1] == x;
        }
      }
      assert ks == [ks[0]] + tail;
      if less(k, ks[0]) {
        AscendingCons(k, ks, less);
      } else {
        InsertKeepsOrder(tail, k, less);
        assert less(ks[0], k);
        AscendingCons(ks[0], Insert(tail, k, less), less);
      }
    }
  }

  /** The key list is ascending, hence free of repeats, and holds exactly the keys that occur. */
  lemma {:induction false} KeysSortedExact<K(!new), V(!new)>(ps: seq<(K, V)>, less: (K, K) -> bool)
    requires StrictTotalOrder(less)
    ensures Ascending(Keys(ps, less), less) && Distinct(Keys(ps, less))
    ensures forall k :: k in Keys(ps, less) <==> HasKey(ps, k)
  {
    if ps != [] {
      var init, last := ps[..|ps| - 1], ps[|ps| - 1];
      KeysSortedExact(init, less);
      InsertKeepsOrder(Keys(init, less), last.0, less);
      forall k ensures k in Keys(ps, less) <==> HasKey(ps, k) {
        if HasKey(ps, k) && k != last.0 {
          var p :| p in ps && p.0 == k;
          assert p in init;
        }
        if HasKey(init, k) {
          var p :| p in init && p.0 == k;
          assert p in ps;
        }
      }
    }
    AscendingDistinct(Keys(ps, less), less);
  }

  lemma {:induction false} AscendingDistinct<K(!new)>(ks: seq<K>, less: (K, K) -> bool)
    requires StrictTotalOrder(less) && Ascending(ks, less)
    ensures Distinct(ks)
  {
  }

  // ---------------------------------------------------------------- per-key sums and counts

  /** The sum of the values paired with `k`. */
  function SumFor<K(==)>(ps: seq<(K, int)>, k: K): int
  {
    if ps == [] then 0
    else SumFor(ps[..|ps| - 1], k) + (if ps[|ps| - 1].0 == k then ps[|ps| - 1].1 else 0)
  }

  /** The number of pairs with key `k`. */
  function CountFor<K(==), V>(ps: seq<(K, V)>, k: K): nat
  {
    if ps == [] then 0 else CountFor(ps[..|ps| - 1], k) + (if ps[|ps| - 1].0 == k then 1 else 0)
  }

  /** The sum of all values. */
  function Total<K>(ps: seq<(K, int)>): int
  {
    if ps == [] then 0 else Total(ps[..|ps| - 1]) + ps[|ps| - 1].1
  }

  lemma {:induction false} CountPositive<K(!new), V(!new)>(ps: seq<(K, V)>, k: K)
    ensures CountFor(ps, k) > 0 <==> HasKey(ps, k)
  {
    if ps != [] {
      var init := ps[..|ps| - 1];
      CountPositive(init, k);
      if HasKey(ps, k) && ps[|ps| - 1].0 != k {
        var p :| p in ps && p.0 == k;
        assert p in init;
      }
      if HasKey(init, k) {
        var p :| p in init && p.0 == k;
        assert p in ps;
      }
    }
  }

  /** `groupby(key)[value].sum()`: each distinct key with the sum of its values. */
  function GroupSums<K(==)>(ps: seq<(K, int)>, less: (K, K) -> bool): (r: seq<(K, int)>)
    ensures |r| == |Keys(ps, less)|
    ensures forall i :: 0 <= i < |r| ==> r[i] == (Keys(ps, less)[i], SumFor(ps, Keys(ps, less)[i]))
  {
    var ks := Keys(ps, less);
    seq(|ks|, i requires 0 <= i < |ks| => (ks[i], SumFor(ps, ks[i])))
  }

  /** `groupby(key)[value].mean()`: each distinct key with the mean of its values. */
  function GroupMeans<K(==, !new)>(ps: seq<(K, int)>, less: (K, K) -> bool): (r: seq<(K, real)>)
    ensures |r| == |Keys(ps, less)|
    ensures forall i :: 0 <= i < |r| ==> r[i].0 == Keys(ps, less)[i]
  {
    var ks := Keys(ps, less);
    KeysAreKeys(ps, less);
    seq(|ks|, i requires 0 <= i < |ks| =>
      CountPositive(ps, ks[i]);
      (ks[i], SumFor(ps, ks[i]) as real / CountFor(ps, ks[i]) as real))
  }

  /** Every listed key occurs (this direction needs no order on keys). */
  lemma {:induction false} KeysAreKeys<K(!new), V(!new)>(ps: seq<(K, V)>, less: (K, K) -> bool)
    ensures forall k :: k in Keys(ps, less) ==> HasKey(ps, k)
  {
    if ps != [] {
      var init := ps[..|ps| - 1];
      KeysAreKeys(init, less);
      InsertMembers(Keys(init, less), ps[|ps| - 1].0, less);
      forall k | HasKey(init, k) ensures HasKey(ps, k) {
        var p :| p in init && p.0 == k;
        assert p in ps;
      }
    }
  }

  lemma {:induction false} InsertMembers<K(!new)>(ks: seq<K>, k: K, less: (K, K) -> bool)
    ensures forall x :: x in Insert(ks, k, less) <==> x == k || x in ks
  {
    if ks != [] && k != ks[0] && !less(k, ks[0]) {
      InsertMembers(ks[1..], k, less);
      assert ks == [ks[0]] + ks[1..];
    }
  }

  // ---------------------------------------------------------------- group totals

  /** The per-key sums of the keys in `ks`, added up. */
  function TotalOver<K(==)>(ks: seq<K>, ps: seq<(K, int)>): int
  {
    if ks == [] then 0 else TotalOver(ks[..|ks| - 1], ps) + SumFor(ps, ks[|ks| - 1])
  }

  lemma {:induction false} SumForSnoc<K(!new)>(ps: seq<(K, int)>, x: (K, int), k: K)
    ensures SumFor(ps + [x], k) == SumFor(ps, k) + (if x.0 == k then x.1 else 0)
  {
    assert (ps + [x])[..|ps|] == ps;
  }

  lemma {:induction false} TotalOverSnoc<K(!new)>(ks: seq<K>, ps: seq<(K, int)>, x: (K, int))
    requires Distinct(ks)
    ensures TotalOver(ks, ps + [x]) == TotalOver(ks, ps) + (if x.0 in ks then x.1 else 0)
  {
    if ks != [] {
      var init, last := ks[..|ks| - 1], ks[|ks| - 1];
      TotalOverSnoc(init, ps, x);
      SumForSnoc(ps, x, last);
      assert last !in init;
      assert x.0 in ks <==> x.0 in init || x.0 == last;
    }
  }

  /** Over a repeat-free list of keys covering every pair, the per-key sums add up to the total. */
  lemma {:induction false} TotalOverAll<K(!new)>(ks: seq<K>, ps: seq<(K, int)>)
    requires Distinct(ks) && forall p :: p in ps ==> p.0 in ks
    ensures TotalOver(ks, ps) == Total(ps)
  {
    if ps == [] {
      TotalOverNothing(ks);
    } else {
      var init, last := ps[..|ps| - 1], ps[|ps| - 1];
      assert forall p :: p in init ==> p in ps;
      TotalOverAll(ks, init);
      assert ps == init + [last];
      TotalOverSnoc(ks, init, last);
    }
  }

  lemma {:induction false} TotalOverNothing<K(!new)>(ks: seq<K>)
    ensures TotalOver(ks, []) == 0
  {
    if ks != [] {
      TotalOverNothing(ks[..|ks| - 1]);
    }
  }

  lemma {:induction false} TotalOfSums<K(!new)>(ks: seq<K>, ps: seq<(K, int)>)
    ensures Total(seq(|ks|, i requires 0 <= i < |ks| => (ks[i], SumFor(ps, ks[i])))) == TotalOver(ks, ps)
  {
    if ks != [] {
      var init := ks[..|ks| - 1];
      TotalOfSums(init, ps);
      var all := seq(|ks|, i requires 0 <= i < |ks| => (ks[i], SumFor(ps, ks[i])));
      assert all[..|all| - 1] == seq(|init|, i requires 0 <= i < |init| => (init[i], SumFor(ps, init[i])));
    }
  }

  /** What `groupby(...).sum()` promises: ascending distinct keys, exactly the keys that occur,
      each paired with the sum of its values, and the group sums adding up to the overall total. */
  lemma {:induction false} GroupSumsSpec<K(!new)>(ps: seq<(K, int)>, less: (K, K) -> bool)
    requires StrictTotalOrder(less)
    ensures var r := GroupSums(ps, less);
      && (forall i, j :: 0 <= i < j < |r| ==> less(r[i].0, r[j].0))
      && (forall k :: (exists i :: 0 <= i < |r| && r[i].0 == k) <==> HasKey(ps, k))
      && (forall i :: 0 <= i < |r| ==> r[i].1 == SumFor(ps, r[i].0))
      && Total(r) == Total(ps)
  {
    var ks := Keys(ps, less);
    KeysSortedExact(ps, less);
    var r := GroupSums(ps, less);
    forall k ensures (exists i :: 0 <= i < |r| && r[i].0 == k) <==> HasKey(ps, k) {
      if HasKey(ps, k) {
        var i :| 0 <= i < |ks| && ks[i] == k;
        assert r[i].0 == k;
      }
    }
    forall p | p in ps ensures p.0 in ks {
      assert HasKey(ps, p.0);
    }
    TotalOverAll(ks, ps);
    TotalOfSums(ks, ps);
    assert r == seq(|ks|, i requires 0 <= i < |ks| => (ks[i], SumFor(ps, ks[i])));
  }

  lemma {:induction false} MeanAt<K(!new)>(ps: seq<(K, int)>, less: (K, K) -> bool, i: int)
    requires 0 <= i < |Keys(ps, less)|
    ensures CountFor(ps, Keys(ps, less)[i]) > 0
    ensures GroupMeans(ps, less)[i].1 == SumFor(ps, Keys(ps, less)[i]) as real / CountFor(ps, Keys(ps, less)[i]) as real
  {
    KeysAreKeys(ps, less);
    CountPositive(ps, Keys(ps, less)[i]);
  }

  /** The mean groups come in key order and are exactly the keys that occur. */
  lemma {:induction false} GroupMeansKeys<K(!new)>(ps: seq<(K, int)>, less: (K, K) -> bool)
    requires StrictTotalOrder(less)
    ensures var r := GroupMeans(ps, less);
      && (forall i, j :: 0 <= i < j < |r| ==> less(r[i].0, r[j].0))
      && (forall k :: (exists i :: 0 <= i < |r| && r[i].0 == k) <==> HasKey(ps, k))
  {
    var ks := Keys(ps, less);
    KeysSortedExact(ps, less);
    var r := GroupMeans(ps, less);
    forall k ensures (exists i :: 0 <= i < |r| && r[i].0 == k) <==> HasKey(ps, k) {
      if HasKey(ps, k) {
        var i :| 0 <= i < |ks| && ks[i] == k;
        assert r[i].0 == k;
      }
    }
  }

  /** Each mean is its sum divided by its (non-zero) count. */
  lemma {:induction false} GroupMeansValues<K(!new)>(ps: seq<(K, int)>, less: (K, K) -> bool)
    ensures var r := GroupMeans(ps, less);
      forall i :: 0 <= i < |r| ==>
        CountFor(ps, r[i].0) > 0 && r[i].1 == SumFor(ps, r[i].0) as real / CountFor(ps, r[i].0) as real
  {
    var ks, r := Keys(ps, less), GroupMeans(ps, less);
    forall i | 0 <= i < |r|
      ensures CountFor(ps, r[i].0) > 0 && r[i].1 == SumFor(ps, r[i].0) as real / CountFor(ps, r[i].0) as real
    {
      MeanAt(ps, less, i);
    }
  }

  /** What `groupby(...).mean()` promises: ascending distinct keys, exactly the keys that occur,
      each paired with its sum divided by its (non-zero) count. */
  lemma {:induction false} GroupMeansSpec<K(!new)>(ps: seq<(K, int)>, less: (K, K) -> bool)
    requires StrictTotalOrder(less)
    ensures var r := GroupMeans(ps, less);
      && (forall i, j :: 0 <= i < j < |r| ==> less(r[i].0, r[j].0))
      && (forall k :: (exists i :: 0 <= i < |r| && r[i].0 == k) <==> HasKey(ps, k))
      && (forall i :: 0 <= i < |r| ==>
            CountFor(ps, r[i].0) > 0 && r[i].1 == SumFor(ps, r[i].0) as real / CountFor(ps, r[i].0) as real)
  {
    GroupMeansKeys(ps, less);
    GroupMeansValues(ps, less);
  }

  /** The number of groups is at most the number of values a key function can take: when every
      key lies in `range`, there are no more groups than `range` has elements. */
  lemma {:induction false} GroupCountBound<K(!new), V(!new)>(ps: seq<(K, V)>, less: (K, K) -> bool, range: set<K>)
    requires StrictTotalOrder(less) && forall p :: p in ps ==> p.0 in range
    ensures |Keys(ps, less)| <= |range|
  {
    var ks := Keys(ps, less);
    KeysSortedExact(ps, less);
    forall k | k in ks ensures k in range {
      var p :| p in ps && p.0 == k;
    }
    DistinctCardinality(ks);
    SubsetCardinality((set k | k in ks), range);
  }

  lemma {:induction false} SubsetCardinality<K>(a: set<K>, b: set<K>)
    requires a <= b
    ensures |a| <= |b|
    decreases a
  {
    if a != {} {
      var x :| x in a;
      SubsetCardinality(a - {x}, b - {x});
    }
  }

  lemma {:induction false} DistinctCardinality<K(!new)>(ks: seq<K>)
    requires Distinct(ks)
    ensures |set k | k in ks| == |ks|
  {
    if ks != [] {
      var init := ks[..|ks| - 1];
      DistinctCardinality(init);
      assert (set k | k in ks) == (set k | k in init) + {ks[|ks| - 1]};
      assert ks[|ks| - 1] !in init;
    }
  }

  // ---------------------------------------------------------------- lexicographic string order

  /** String order by code point, the order pandas sorts text keys in. */
  predicate StrLess(a: string, b: string)
  {
    if a == [] then b != []
    else if b == [] then false
    else if a[0] != b[0] then a[0] < b[0]
    else StrLess(a[1..], b[1..])
  }

  lemma {:induction false} StrLessIrreflexive(a: string)
    ensures !StrLess(a, a)
  {
    if a != [] {
      StrLessIrreflexive(a[1..]);
    }
  }

  lemma {:induction false} StrLessTransitive(a: string, b: string, c: string)
    requires StrLess(a, b) && StrLess(b, c)
    ensures StrLess(a, c)
  {
    if a != [] && b != [] && c != [] && a[0] == b[0] && b[0] == c[0] {
      StrLessTransitive(a[1..], b[1..], c[1..]);
    }
  }

  lemma {:induction false} StrLessTotal(a: string, b: string)
    requires a != b
    ensures StrLess(a, b) || StrLess(b, a)
  {
    if a != [] && b != [] && a[0] == b[0] {
      assert a == [a[0]] + a[1..] && b == [b[0]] + b[1..];
      StrLessTotal(a[1..], b[1..]);
    }
  }

  lemma StrLessOrder()
    ensures StrictTotalOrder(StrLess)
  {
    forall a ensures !StrLess(a, a) {
      StrLessIrreflexive(a);
    }
    forall a, b, c | StrLess(a, b) && StrLess(b, c) ensures StrLess(a, c) {
      StrLessTransitive(a, b, c);
    }
    forall a, b | a != b ensures StrLess(a, b) || StrLess(b, a) {
      StrLessTotal(a, b);
    }
  }

  /** `GroupMeansSpec` for text keys. */
  lemma {:induction false} GroupMeansByText(ps: seq<(string, int)>)
    ensures var r := GroupMeans(ps, StrLess);
      && (forall i, j :: 0 <= i < j < |r| ==> StrLess(r[i].0, r[j].0))
      && (forall k :: (exists i :: 0 <= i < |r| && r[i].0 == k) <==> HasKey(ps, k))
      && (forall i :: 0 <= i < |r| ==>
            CountFor(ps, r[i].0) > 0 && r[i].1 == SumFor(ps, r[i].0) as real / CountFor(ps, r[i].0) as real)
  {
    StrLessOrder();
    GroupMeansKeys(ps, StrLess);
    GroupMeansValues(ps, StrLess);
  }

  // ---------------------------------------------------------------- nlargest

  /** The position of the first largest score. */
  function FirstMaxIndex<T>(xs: seq<T>, score: T -> int): (i: int)
    requires xs != []
    ensures 0 <= i < |xs|
    ensures forall j :: 0 <= j < |xs| ==> score(xs[j]) <= score(xs[i])
    ensures forall j :: 0 <= j < i ==> score(xs[j]) < score(xs[i])
  {
    if |xs| == 1 then 0
    else
      var m := FirstMaxIndex(xs[..|xs| - 1], score);
      if score(xs[|xs| - 1]) > score(xs[m]) then |xs| - 1 else m
  }

  function RemoveAt<T>(xs: seq<T>, i: int): seq<T>
    requires 0 <= i < |xs|
  {
    xs[..i] + xs[i + 1..]
  }

  /** `nlargest(n)`: repeatedly take the first entry with the largest score. */
  function NLargest<T>(xs: seq<T>, n: nat, score: T -> int): seq<T>
    decreases n
  {
    if n == 0 || xs == [] then []
    else
      var i := FirstMaxIndex(xs, score);
      [xs[i]] + NLargest(RemoveAt(xs, i), n - 1, score)
  }

  /** The entries `nlargest(n)` leaves out, in their original order. */
  function Omitted<T>(xs: seq<T>, n: nat, score: T -> int): seq<T>
    decreases n
  {
    if n == 0 || xs == [] then xs
    else Omitted(RemoveAt(xs, FirstMaxIndex(xs, score)), n - 1, score)
  }

  function SumScores<T>(xs: seq<T>, score: T -> int): int
  {
    if xs == [] then 0 else score(xs[0]) + SumScores(xs[1..], score)
  }

  lemma {:induction false} SumScoresAppend<T>(a: seq<T>, b: seq<T>, score: T -> int)
    ensures SumScores(a + b, score) == SumScores(a, score) + SumScores(b, score)
  {
    if a != [] {
      assert (a + b)[1..] == a[1..] + b;
      SumScoresAppend(a[1..], b, score);
    } else {
      assert a + b == b;
    }
  }

  lemma {:induction false} RemoveAtMultiset<T>(xs: seq<T>, i: int)
    requires 0 <= i < |xs|
    ensures multiset(RemoveAt(xs, i)) + multiset{xs[i]} == multiset(xs)
  {
    assert xs == xs[..i] + [xs[i]] + xs[i + 1..];
  }

  lemma {:induction false} RemoveAtSum<T>(xs: seq<T>, i: int, score: T -> int)
    requires 0 <= i < |xs|
    ensures SumScores(RemoveAt(xs, i), score) + score(xs[i]) == SumScores(xs, score)
  {
    var a, b := xs[..i], xs[i + 1..];
    assert xs == a + ([xs[i]] + b);
    SumScoresAppend(a, b, score);
    SumScoresAppend(a, [xs[i]] + b, score);
  }

  lemma {:induction false} NLargestLength<T>(xs: seq<T>, n: nat, score: T -> int)
    ensures |NLargest(xs, n, score)| == (if n < |xs| then n else |xs|)
    decreases n
  {
    if n > 0 && xs != [] {
      NLargestLength(RemoveAt(xs, FirstMaxIndex(xs, score)), n - 1, score);
    }
  }

  /** Taking entry `i` out of `xs` and partitioning the remainder partitions `xs`. */
  lemma {:induction false} ConsPartition<T>(xs: seq<T>, i: int, kept: seq<T>, rest: seq<T>)
    requires 0 <= i < |xs| && multiset(kept) + multiset(rest) == multiset(RemoveAt(xs, i))
    ensures multiset([xs[i]] + kept) + multiset(rest) == multiset(xs)
  {
    RemoveAtMultiset(xs, i);
    assert multiset([xs[i]] + kept) == multiset{xs[i]} + multiset(kept);
  }

  /** Kept and left-out entries together are exactly the input. */
  lemma {:induction false} NLargestPartition<T>(xs: seq<T>, n: nat, score: T -> int)
    ensures multiset(NLargest(xs, n, score)) + multiset(Omitted(xs, n, score)) == multiset(xs)
    decreases n
  {
    if n > 0 && xs != [] {
      var i := FirstMaxIndex(xs, score);
      var ys := RemoveAt(xs, i);
      NLargestPartition(ys, n - 1, score);
      ConsPartition(xs, i, NLargest(ys, n - 1, score), Omitted(ys, n - 1, score));
    }
  }

  /** Taking entry `i` out of `xs` and splitting the remainder's score splits the score of `xs`. */
  lemma {:induction false} ConsSum<T>(xs: seq<T>, i: int, kept: seq<T>, rest: seq<T>, score: T -> int)
    requires 0 <= i < |xs|
    requires SumScores(kept, score) + SumScores(rest, score) == SumScores(RemoveAt(xs, i), score)
    ensures SumScores([xs[i]] + kept, score) + SumScores(rest, score) == SumScores(xs, score)
  {
    SumScoresCons(xs[i], kept, score);
    RemoveAtSum(xs, i, score);
  }

  lemma {:induction false} SumScoresCons<T>(x: T, s: seq<T>, score: T -> int)
    ensures SumScores([x] + s, score) == score(x) + SumScores(s, score)
  {
    assert ([x] + s)[1..] == s;
  }

  /** The kept and the left-out scores add up to the total score. */
  lemma {:induction false} NLargestSumSplit<T>(xs: seq<T>, n: nat, score: T -> int)
    ensures SumScores(NLargest(xs, n, score), score) + SumScores(Omitted(xs, n, score), score)
            == SumScores(xs, score)
    decreases n
  {
    if n > 0 && xs != [] {
      var i := FirstMaxIndex(xs, score);
      var ys := RemoveAt(xs, i);
      NLargestSumSplit(ys, n - 1, score);
      ConsSum(xs, i, NLargest(ys, n - 1, score), Omitted(ys, n - 1, score), score);
    }
  }

  /** Kept and left-out entries are all taken from the input. */
  lemma {:induction false} NLargestMembers<T>(xs: seq<T>, n: nat, score: T -> int)
    ensures forall x :: x in NLargest(xs, n, score) ==> x in xs
    ensures forall y :: y in Omitted(xs, n, score) ==> y in xs
  {
    NLargestPartition(xs, n, score);
    forall x | x in NLargest(xs, n, score) ensures x in xs {
      assert x in multiset(NLargest(xs, n, score));
      assert x in multiset(xs);
    }
    forall y | y in Omitted(xs, n, score) ensures y in xs {
      assert y in multiset(Omitted(xs, n, score));
      assert y in multiset(xs);
    }
  }

  /** The kept entries come largest first. */
  lemma {:induction false} NLargestDescending<T>(xs: seq<T>, n: nat, score: T -> int)
    ensures forall i, j :: 0 <= i < j < |NLargest(xs, n, score)| ==>
              score(NLargest(xs, n, score)[i]) >= score(NLargest(xs, n, score)[j])
    decreases n
  {
    if n > 0 && xs != [] {
      var i := FirstMaxIndex(xs, score);
      var ys := RemoveAt(xs, i);
      NLargestDescending(ys, n - 1, score);
      NLargestMembers(ys, n - 1, score);
      var r, r1 := NLargest(xs, n, score), NLargest(ys, n - 1, score);
      assert r == [xs[i]] + r1;
      RemoveAtMultiset(xs, i);
      forall a, b | 0 <= a < b < |r| ensures score(r[a]) >= score(r[b]) {
        if a > 0 {
          assert r[a] == r1[a - 1] && r[b] == r1[b - 1];
        } else {
          assert r[b] in r1;
          assert r[b] in multiset(ys);
          var j :| 0 <= j < |xs| && xs[j] == r[b];
        }
      }
    }
  }

  /** The first largest entry scores at least as much as every entry left after removing it. */
  lemma {:induction false} MaxAboveRest<T>(xs: seq<T>, score: T -> int)
    requires xs != []
    ensures forall y :: y in RemoveAt(xs, FirstMaxIndex(xs, score)) ==> score(y) <= score(xs[FirstMaxIndex(xs, score)])
  {
    var i := FirstMaxIndex(xs, score);
    forall y | y in RemoveAt(xs, i) ensures score(y) <= score(xs[i]) {
      var j :| 0 <= j < |RemoveAt(xs, i)| && RemoveAt(xs, i)[j] == y;
      if j < i {
        assert y == xs[j];
      } else {
        assert y == xs[j + 1];
      }
    }
  }

  /** Putting an entry that scores at least as much as all of `ys` in front of the kept entries
      keeps every left-out entry below every kept one. */
  lemma {:induction false} ConsBelow<T>(x: T, kept: seq<T>, rest: seq<T>, ys: seq<T>, score: T -> int)
    requires forall y, k :: y in rest && k in kept ==> score(y) <= score(k)
    requires forall y :: y in rest ==> y in ys
    requires forall y :: y in ys ==> score(y) <= score(x)
    ensures forall y, k :: y in rest && k in [x] + kept ==> score(y) <= score(k)
  {
  }

  /** Nothing left out scores above anything kept. */
  lemma {:induction false} OmittedBelowKept<T>(xs: seq<T>, n: nat, score: T -> int)
    ensures forall y, x :: y in Omitted(xs, n, score) && x in NLargest(xs, n, score) ==>
              score(y) <= score(x)
    decreases n
  {
    if n > 0 && xs != [] {
      var i := FirstMaxIndex(xs, score);
      var ys := RemoveAt(xs, i);
      OmittedBelowKept(ys, n - 1, score);
      NLargestMembers(ys, n - 1, score);
      MaxAboveRest(xs, score);
      ConsBelow(xs[i], NLargest(ys, n - 1, score), Omitted(ys, n - 1, score), ys, score);
    }
  }
}
