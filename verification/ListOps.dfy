/** `Array.prototype.filter` and the order it keeps, shared by every list
    the components prune (brands, passes). */
module ListOps {

  /** `s.filter(keep)`: the elements `keep` accepts, in their original order. */
  function Filter<T>(s: seq<T>, keep: T -> bool): (r: seq<T>)
    ensures |r| <= |s|
    ensures forall i :: 0 <= i < |r| ==> keep(r[i])
  {
    if s == [] then [] else (if keep(s[0]) then [s[0]] else []) + Filter(s[1..], keep)
  }

  /** `r` is `s` with some elements left out and the rest in the same order. */
  predicate Subsequence<T(==)>(r: seq<T>, s: seq<T>)
    decreases |s|
  {
    if r == [] then true
    else if s == [] then false
    else if r[0] == s[0] then Subsequence(r[1..], s[1..])
    else Subsequence(r, s[1..])
  }

  /** An element survives the filter exactly when it was there and is accepted. */
  lemma {:induction false} FilterMembership<T>(s: seq<T>, keep: T -> bool, x: T)
    ensures x in Filter(s, keep) <==> x in s && keep(x)
  {
    if s != [] {
      FilterMembership(s[1..], keep, x);
      assert s == [s[0]] + s[1..];
    }
  }

  /** The survivors keep their relative order. */
  lemma {:induction false} FilterIsSubsequence<T>(s: seq<T>, keep: T -> bool)
    ensures Subsequence(Filter(s, keep), s)
  {
    if s != [] {
      FilterIsSubsequence(s[1..], keep);
      var r := Filter(s, keep);
      if keep(s[0]) {
        assert r[0] == s[0] && r[1..] == Filter(s[1..], keep);
      } else {
        assert r == Filter(s[1..], keep);
        SubsequenceSkip(r, s[0], s[1..]);
        assert [s[0]] + s[1..] == s;
      }
    }
  }

  /** Adding an element in front of `s` keeps every subsequence of `s` one. */
  lemma SubsequenceSkip<T>(r: seq<T>, x: T, s: seq<T>)
    requires Subsequence(r, s)
    ensures Subsequence(r, [x] + s)
    decreases |s|, 1
  {
    var xs := [x] + s;
    assert xs[1..] == s;
    if r != [] && r[0] == x {
      SubsequenceTail(r, s);
    }
  }

  lemma SubsequenceTail<T>(r: seq<T>, s: seq<T>)
    requires r != [] && Subsequence(r, s)
    ensures Subsequence(r[1..], s)
    decreases |s|, 0
  {
    if r[0] == s[0] {
      SubsequenceSkip(r[1..], s[0], s[1..]);
      assert [s[0]] + s[1..] == s;
    } else {
      SubsequenceTail(r, s[1..]);
      SubsequenceSkip(r[1..], s[0], s[1..]);
      assert [s[0]] + s[1..] == s;
    }
  }

  /** An accepted element keeps its multiplicity; a rejected one is gone. */
  lemma {:induction false} FilterCounts<T>(s: seq<T>, keep: T -> bool, x: T)
    ensures multiset(Filter(s, keep))[x] == if keep(x) then multiset(s)[x] else 0
  {
    if s != [] {
      FilterCounts(s[1..], keep, x);
      assert s == [s[0]] + s[1..];
    }
  }

  /** Filtering twice with the same test is filtering once. */
  lemma {:induction false} FilterIdempotent<T>(s: seq<T>, keep: T -> bool)
    ensures Filter(Filter(s, keep), keep) == Filter(s, keep)
  {
    if s != [] {
      FilterIdempotent(s[1..], keep);
      var t := Filter(s[1..], keep);
      if keep(s[0]) {
        assert Filter(s, keep) == [s[0]] + t;
        assert ([s[0]] + t)[1..] == t;
        assert Filter([s[0]] + t, keep) == [s[0]] + Filter(t, keep);
      } else {
        assert Filter(s, keep) == t;
      }
    }
  }
}
