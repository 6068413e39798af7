/** Order-preserving selection over sequences: the shape of every loop in the source that walks a
    list and appends the items that pass a test. The folds here recurse on the LAST element, the
    way the loops grow their result. */
module Lists {

  /** The elements of `s` that satisfy `p`, in their original order. */
  function Filter<T(==, !new)>(s: seq<T>, p: T -> bool): (r: seq<T>)
    ensures |r| <= |s|
    ensures forall x :: x in r <==> x in s && p(x)
  {
    if s == [] then []
    else Filter(s[..|s| - 1], p) + (if p(s[|s| - 1]) then [s[|s| - 1]] else [])
  }

  /** The positions of `s` whose element satisfies `p`, ascending. */
  ghost function SelectedIndices<T>(s: seq<T>, p: T -> bool): seq<int>
  {
    if s == [] then []
    else SelectedIndices(s[..|s| - 1], p) + (if p(s[|s| - 1]) then [|s| - 1] else [])
  }

  /** The selected positions are ascending, in range, and are exactly those where `p` holds. */
  lemma {:induction false} SelectedIndicesExact<T(!new)>(s: seq<T>, p: T -> bool)
    ensures forall k :: 0 <= k < |SelectedIndices(s, p)| ==> 0 <= SelectedIndices(s, p)[k] < |s|
    ensures forall k, l :: 0 <= k < l < |SelectedIndices(s, p)| ==>
              SelectedIndices(s, p)[k] < SelectedIndices(s, p)[l]
    ensures forall j :: 0 <= j < |s| ==> (p(s[j]) <==> j in SelectedIndices(s, p))
  {
    if s != [] {
      var n := |s| - 1;
      var init := s[..n];
      SelectedIndicesExact(init, p);
      var ix0, ix := SelectedIndices(init, p), SelectedIndices(s, p);
      var tailIx: seq<int> := if p(s[n]) then [n] else [];
      assert ix == ix0 + tailIx;
      forall k | 0 <= k < |ix| ensures 0 <= ix[k] <= n {
        if k < |ix0| { assert ix[k] == ix0[k]; }
      }
      forall k, l | 0 <= k < l < |ix| ensures ix[k] < ix[l] {
        assert ix[k] == ix0[k];
        if l < |ix0| { assert ix[l] == ix0[l]; }
      }
      forall j | 0 <= j < |s| ensures p(s[j]) <==> j in ix {
        if j < n {
          assert init[j] == s[j];
          assert j in ix <==> j in ix0;
        } else {
          assert n !in ix0;
        }
      }
    }
  }

  /** `Filter` keeps exactly the elements at the positions where `p` holds, in ascending position
      order: the result is the order-preserving sub-list of matching elements. */
  lemma {:induction false} FilterIsOrderedSelection<T(!new)>(s: seq<T>, p: T -> bool)
    ensures |Filter(s, p)| == |SelectedIndices(s, p)|
    ensures forall k :: 0 <= k < |SelectedIndices(s, p)| ==>
              0 <= SelectedIndices(s, p)[k] < |s| && Filter(s, p)[k] == s[SelectedIndices(s, p)[k]]
    ensures forall k, l :: 0 <= k < l < |SelectedIndices(s, p)| ==>
              SelectedIndices(s, p)[k] < SelectedIndices(s, p)[l]
    ensures forall j :: 0 <= j < |s| ==> (p(s[j]) <==> j in SelectedIndices(s, p))
  {
    SelectedIndicesExact(s, p);
    FilterAtIndices(s, p);
  }

  /** The k-th kept element is the element at the k-th selected position. */
  lemma {:induction false} FilterAtIndices<T(!new)>(s: seq<T>, p: T -> bool)
    ensures |Filter(s, p)| == |SelectedIndices(s, p)|
    ensures forall k :: 0 <= k < |SelectedIndices(s, p)| ==>
              0 <= SelectedIndices(s, p)[k] < |s| && Filter(s, p)[k] == s[SelectedIndices(s, p)[k]]
  {
    if s != [] {
      var n := |s| - 1;
      var init := s[..n];
      FilterAtIndices(init, p);
      var ix0, r0 := SelectedIndices(init, p), Filter(init, p);
      var ix, r := SelectedIndices(s, p), Filter(s, p);
      var tailIx: seq<int> := if p(s[n]) then [n] else [];
      var tailR := if p(s[n]) then [s[n]] else [];
      assert ix == ix0 + tailIx;
      assert r == r0 + tailR;
      forall k | 0 <= k < |ix| ensures 0 <= ix[k] < |s| && r[k] == s[ix[k]] {
        if k < |ix0| {
          assert r[k] == r0[k] && ix[k] == ix0[k];
          assert init[ix0[k]] == s[ix0[k]];
        }
      }
    }
  }

  /** A test every element passes keeps the whole sequence. */
  lemma {:induction false} FilterAll<T(!new)>(s: seq<T>, p: T -> bool)
    requires forall i :: 0 <= i < |s| ==> p(s[i])
    ensures Filter(s, p) == s
  {
    if s != [] {
      FilterAll(s[..|s| - 1], p);
    }
  }

  /** Appending one element extends the filtered list by that element or by nothing. */
  lemma {:induction false} FilterSnoc<T(!new)>(s: seq<T>, x: T, p: T -> bool)
    ensures Filter(s + [x], p) == Filter(s, p) + (if p(x) then [x] else [])
  {
    assert (s + [x])[..|s + [x]| - 1] == s;
  }

  /** `x` alone when it passes, nothing otherwise. */
  function Kept<T>(x: T, p: T -> bool): seq<T>
  {
    if p(x) then [x] else []
  }

  /** Filtering four elements keeps each one that passes, in order. */
  lemma {:induction false} FilterOfFour<T(!new)>(a: T, b: T, c: T, d: T, p: T -> bool)
    ensures Filter([a, b, c, d], p) == Kept(a, p) + Kept(b, p) + Kept(c, p) + Kept(d, p)
  {
    var s1 := [a];
    var s2 := s1 + [b];
    var s3 := s2 + [c];
    FilterSnoc([], a, p);
    assert [] + [a] == s1;
    FilterSnoc(s1, b, p);
    FilterSnoc(s2, c, p);
    FilterSnoc(s3, d, p);
    assert s3 + [d] == [a, b, c, d];
  }

  /** Four elements that all pass are kept whole. */
  lemma {:induction false} FilterFourAll<T(!new)>(a: T, b: T, c: T, d: T, p: T -> bool)
    requires p(a) && p(b) && p(c) && p(d)
    ensures Filter([a, b, c, d], p) == [a, b, c, d]
  {
    FilterOfFour(a, b, c, d, p);
  }

  /** Sum of a sequence of integers. */
  function Sum(s: seq<int>): int
  {
    if s == [] then 0 else Sum(s[..|s| - 1]) + s[|s| - 1]
  }

  lemma {:induction false} SumSnoc(s: seq<int>, x: int)
    ensures Sum(s + [x]) == Sum(s) + x
  {
    assert (s + [x])[..|s + [x]| - 1] == s;
  }
}
