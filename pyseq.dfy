/**
 * Python list behaviour the source relies on: slicing with possibly negative bounds,
 * `[::-1]`, the stable descending sort of `sorted(..., reverse=True)`, and `np.mean`.
 */
module PySeq {

  /** How Python clamps one bound of a slice against a list of length `len`. */
  function SliceBound(i: int, len: nat): (b: nat)
    ensures b <= len
    ensures 0 <= i <= len ==> b == i
  {
    if i < 0 then (if i + len < 0 then 0 else i + len) else if i > len then len else i
  }

  /** `s[i:j]` */
  function Slice<T>(s: seq<T>, i: int, j: int): (r: seq<T>)
    ensures |r| <= |s|
    ensures |r| == if SliceBound(i, |s|) < SliceBound(j, |s|) then SliceBound(j, |s|) - SliceBound(i, |s|) else 0
    ensures forall k :: 0 <= k < |r| ==> r[k] == s[SliceBound(i, |s|) + k]
  {
    var a, b := SliceBound(i, |s|), SliceBound(j, |s|);
    if a < b then s[a..b] else []
  }

  /** `s[:n]`: always a prefix, of length `min(n, |s|)` when `n` is not negative. */
  function Take<T>(s: seq<T>, n: int): (r: seq<T>)
    ensures r <= s
    ensures n >= 0 ==> |r| == if n < |s| then n else |s|
  {
    Slice(s, 0, n)
  }

  /** `s[::-1]` */
  function Reverse<T>(s: seq<T>): (r: seq<T>)
    ensures |r| == |s|
    ensures forall i :: 0 <= i < |s| ==> r[i] == s[|s| - 1 - i]
  {
    seq(|s|, i requires 0 <= i < |s| => s[|s| - 1 - i])
  }

  // ---------------------------------------------------------------- subsequences

  /** `a` is obtained from `b` by deleting elements, keeping the order of the rest. */
  predicate IsSubsequence<T(==)>(a: seq<T>, b: seq<T>)
    decreases |b|
  {
    if a == [] then true
    else if b == [] then false
    else if a[|a| - 1] == b[|b| - 1] then IsSubsequence(a[..|a| - 1], b[..|b| - 1])
    else IsSubsequence(a, b[..|b| - 1])
  }

  lemma {:induction false} SubsequenceDropLast<T>(a: seq<T>, b: seq<T>)
    requires a != [] && IsSubsequence(a, b)
    ensures IsSubsequence(a[..|a| - 1], b)
    decreases |b|, 0
  {
    var a', b' := a[..|a| - 1], b[..|b| - 1];
    if a' == [] {
    } else if a[|a| - 1] == b[|b| - 1] {
      SubsequenceExtend(a', b', b[|b| - 1]);
      assert b' + [b[|b| - 1]] == b;
    } else {
      SubsequenceDropLast(a, b');
      SubsequenceExtend(a', b', b[|b| - 1]);
      assert b' + [b[|b| - 1]] == b;
    }
  }

  /** Adding an element at the end of the longer sequence keeps a subsequence one. */
  lemma {:induction false} SubsequenceExtend<T>(a: seq<T>, b: seq<T>, x: T)
    requires IsSubsequence(a, b)
    ensures IsSubsequence(a, b + [x])
    decreases |b|, 1
  {
    var c := b + [x];
    assert c[..|c| - 1] == b;
    if a != [] && a[|a| - 1] == x {
      SubsequenceDropLast(a, b);
    }
  }

  lemma {:induction false} SubsequenceOfSelf<T>(s: seq<T>)
    ensures IsSubsequence(s, s)
  {
    if s != [] {
      SubsequenceOfSelf(s[..|s| - 1]);
    }
  }

  /** Every element of a subsequence occurs in the sequence. */
  lemma {:induction false} SubsequenceMembers<T>(a: seq<T>, b: seq<T>)
    requires IsSubsequence(a, b)
    ensures forall x :: x in a ==> x in b
    decreases |b|
  {
    if a != [] && b != [] {
      var b' := b[..|b| - 1];
      assert b == b' + [b[|b| - 1]];
      if a[|a| - 1] == b[|b| - 1] {
        var a' := a[..|a| - 1];
        SubsequenceMembers(a', b');
        assert a == a' + [a[|a| - 1]];
      } else {
        SubsequenceMembers(a, b');
      }
    }
  }

  /** Deleting elements twice is deleting elements. */
  lemma {:induction false} SubsequenceTransitive<T>(a: seq<T>, b: seq<T>, c: seq<T>)
    requires IsSubsequence(a, b) && IsSubsequence(b, c)
    ensures IsSubsequence(a, c)
    decreases |c|
  {
    if a == [] {
    } else if b == [] {
    } else {
      assert c != [];
      var c' := c[..|c| - 1];
      var z := c[|c| - 1];
      assert c == c' + [z];
      if b[|b| - 1] == z {
        var b' := b[..|b| - 1];
        if a[|a| - 1] == z {
          SubsequenceTransitive(a[..|a| - 1], b', c');
        } else {
          SubsequenceTransitive(a, b', c');
          SubsequenceExtend(a, c', z);
        }
      } else {
        SubsequenceTransitive(a, b, c');
        SubsequenceExtend(a, c', z);
      }
    }
  }

  // ---------------------------------------------------------------- sorting

  /**
   * `a >= b` for the sort keys the source uses: tuples compared component by component
   * (a single score is the tuple `(score, 0.0)`).
   */
  predicate RankGeq(a: (real, real), b: (real, real)) {
    a.0 > b.0 || (a.0 == b.0 && a.1 >= b.1)
  }

  ghost predicate SortedDesc<T>(s: seq<T>, key: T -> (real, real)) {
    forall i, j :: 0 <= i < j < |s| ==> RankGeq(key(s[i]), key(s[j]))
  }

  /** Puts `x` in front of the first element it ranks at least as high as. */
  function InsertDesc<T>(x: T, s: seq<T>, key: T -> (real, real)): (r: seq<T>)
    ensures |r| == |s| + 1
  {
    if s == [] || RankGeq(key(x), key(s[0])) then [x] + s else [s[0]] + InsertDesc(x, s[1..], key)
  }

  /** Whatever ranks at least as high as `x` and every element of `s` ranks at least as high as their insertion. */
  lemma {:induction false} InsertDescBounded<T>(x: T, s: seq<T>, key: T -> (real, real), b: (real, real))
    requires RankGeq(b, key(x))
    requires forall i :: 0 <= i < |s| ==> RankGeq(b, key(s[i]))
    ensures forall k :: 0 <= k < |InsertDesc(x, s, key)| ==> RankGeq(b, key(InsertDesc(x, s, key)[k]))
  {
    if s != [] && !RankGeq(key(x), key(s[0])) {
      InsertDescBounded(x, s[1..], key, b);
    }
  }

  lemma {:induction false} InsertDescSorted<T>(x: T, s: seq<T>, key: T -> (real, real))
    requires SortedDesc(s, key)
    ensures SortedDesc(InsertDesc(x, s, key), key)
    ensures multiset(InsertDesc(x, s, key)) == multiset(s) + multiset{x}
  {
    if s == [] || RankGeq(key(x), key(s[0])) {
      assert [x] + s == InsertDesc(x, s, key);
    } else {
      InsertDescSorted(x, s[1..], key);
      InsertDescBounded(x, s[1..], key, key(s[0]));
      assert s == [s[0]] + s[1..];
    }
  }

  /**
   * `sorted(s, key=key, reverse=True)`: highest rank first; elements of equal rank keep
   * their original order (Python's sort is stable, also with `reverse=True`).
   */
  function SortDesc<T(==)>(s: seq<T>, key: T -> (real, real)): (r: seq<T>)
    ensures SortedDesc(r, key)
    ensures multiset(r) == multiset(s)
    ensures |r| == |s|
  {
    if s == [] then []
    else
      var t := SortDesc(s[1..], key);
      InsertDescSorted(s[0], t, key);
      assert s == [s[0]] + s[1..];
      InsertDesc(s[0], t, key)
  }

  /** A prefix of a sorted sequence is sorted. */
  lemma TakeSorted<T>(s: seq<T>, key: T -> (real, real), n: int)
    requires SortedDesc(s, key)
    ensures SortedDesc(Take(s, n), key)
  {
  }

  // ---------------------------------------------------------------- arithmetic

  function Sum(xs: seq<real>): real
  {
    if xs == [] then 0.0 else Sum(xs[..|xs| - 1]) + xs[|xs| - 1]
  }

  /** `np.mean(xs)`, or `sum(xs) / len(xs)` */
  function Mean(xs: seq<real>): real
    requires |xs| > 0
  {
    Sum(xs) / (|xs| as real)
  }

  lemma {:induction false} SumBounds(xs: seq<real>, lo: real, hi: real)
    requires forall i :: 0 <= i < |xs| ==> lo <= xs[i] <= hi
    ensures (|xs| as real) * lo <= Sum(xs) <= (|xs| as real) * hi
  {
    if xs != [] {
      SumBounds(xs[..|xs| - 1], lo, hi);
      assert (|xs| as real) * lo == ((|xs| - 1) as real) * lo + lo;
      assert (|xs| as real) * hi == ((|xs| - 1) as real) * hi + hi;
    }
  }

  /** The mean lies between the smallest and largest possible element. */
  lemma MeanBounds(xs: seq<real>, lo: real, hi: real)
    requires |xs| > 0
    requires forall i :: 0 <= i < |xs| ==> lo <= xs[i] <= hi
    ensures lo <= Mean(xs) <= hi
  {
    SumBounds(xs, lo, hi);
    var n := |xs| as real;
    assert Mean(xs) * n == Sum(xs);
  }
}
