/**
 * Sums, descending sort and the Python prefix slice, as the instance uses them
 * to compute an agent's value for a bundle and the largest value an agent can
 * get: the sum of its k largest item values.
 */
module TopValues {

  function Sum(s: seq<int>): int {
    if |s| == 0 then 0 else s[0] + Sum(s[1..])
  }

  /** The sum of a concatenation is the sum of the sums. */
  lemma {:induction false} SumAppend(a: seq<int>, b: seq<int>)
    ensures Sum(a + b) == Sum(a) + Sum(b)
  {
    if |a| == 0 {
      assert a + b == b;
    } else {
      assert (a + b)[1..] == a[1..] + b;
      SumAppend(a[1..], b);
    }
  }

  /** Taking out the element at position i takes its value out of the sum. */
  lemma SumRemove(s: seq<int>, i: nat)
    requires i < |s|
    ensures Sum(s) == s[i] + Sum(s[..i] + s[i + 1..])
  {
    assert s == s[..i] + s[i..];
    SumAppend(s[..i], s[i..]);
    SumAppend(s[..i], s[i + 1..]);
    assert s[i..][1..] == s[i + 1..];
  }

  /** The sequence with position i taken out holds one occurrence fewer of s[i]. */
  lemma MultisetRemove<T>(s: seq<T>, i: nat)
    requires i < |s|
    ensures multiset(s[..i] + s[i + 1..]) == multiset(s) - multiset{s[i]}
  {
    assert s == s[..i] + [s[i]] + s[i + 1..];
  }

  /** Reordering does not change a sum. */
  lemma {:induction false} SumPermutation(a: seq<int>, b: seq<int>)
    requires multiset(a) == multiset(b)
    ensures Sum(a) == Sum(b)
    decreases |a|
  {
    if |a| == 0 {
      assert |b| == |multiset(b)| == 0;
    } else {
      assert a[0] in multiset(b);
      var i :| 0 <= i < |b| && b[i] == a[0];
      var rest := b[..i] + b[i + 1..];
      MultisetRemove(b, i);
      assert a == [a[0]] + a[1..];
      assert multiset(a[1..]) == multiset(a) - multiset{a[0]};
      SumPermutation(a[1..], rest);
      SumRemove(b, i);
    }
  }

  predicate SortedDesc(s: seq<int>) {
    forall i, j :: 0 <= i < j < |s| ==> s[i] >= s[j]
  }

  /** A value no smaller than the head of a descending sequence extends it. */
  lemma ConsSorted(h: int, d: seq<int>)
    requires SortedDesc(d) && (|d| > 0 ==> h >= d[0])
    ensures SortedDesc([h] + d)
  {
    var r := [h] + d;
    forall i, j | 0 <= i < j < |r| ensures r[i] >= r[j] {
      if i == 0 && j > 1 {
        assert r[j] == d[j - 1] <= d[0];
      }
    }
  }

  /** x inserted into a descending sequence, keeping it descending. */
  function Insert(x: int, d: seq<int>): (r: seq<int>)
    requires SortedDesc(d)
    ensures SortedDesc(r)
    ensures multiset(r) == multiset(d) + multiset{x}
    ensures |r| == |d| + 1
    ensures r[0] == x || (|d| > 0 && r[0] == d[0])
  {
    if |d| == 0 then [x]
    else if x >= d[0] then ConsSorted(x, d); [x] + d
    else
      assert SortedDesc(d[1..]);
      var tail := Insert(x, d[1..]);
      assert d == [d[0]] + d[1..];
      assert |d| > 1 ==> d[1..][0] <= d[0];
      ConsSorted(d[0], tail);
      [d[0]] + tail
  }

  /** Python's sorted(s, reverse=True): the values of s, largest first. */
  function SortDesc(s: seq<int>): (r: seq<int>)
    ensures SortedDesc(r)
    ensures multiset(r) == multiset(s)
    ensures |r| == |s|
  {
    if |s| == 0 then []
    else
      assert s == [s[0]] + s[1..];
      Insert(s[0], SortDesc(s[1..]))
  }

  /** The tail of a descending sequence is descending. */
  lemma SortedTail(a: seq<int>)
    requires SortedDesc(a) && |a| > 0
    ensures SortedDesc(a[1..])
  {
  }

  /** Two descending sequences holding the same values start alike. */
  lemma SortedHeads(a: seq<int>, b: seq<int>)
    requires SortedDesc(a) && SortedDesc(b) && multiset(a) == multiset(b) && |a| > 0
    ensures |b| > 0 && a[0] == b[0]
  {
    HeadIsLargest(b, a[0]);
    HeadIsLargest(a, b[0]);
  }

  /** Sequences holding the same values and starting alike have tails holding the same values. */
  lemma SameTails(a: seq<int>, b: seq<int>)
    requires multiset(a) == multiset(b) && |a| > 0 && |b| > 0 && a[0] == b[0]
    ensures multiset(a[1..]) == multiset(b[1..])
  {
    assert a == [a[0]] + a[1..];
    assert b == [b[0]] + b[1..];
    assert multiset(a) == multiset{a[0]} + multiset(a[1..]);
    assert multiset(b) == multiset{b[0]} + multiset(b[1..]);
    assert multiset(a[1..]) == multiset(a) - multiset{a[0]};
  }

  /** Two descending sequences holding the same values are equal: the sorted order is determined by the values. */
  lemma {:induction false} SortedUnique(a: seq<int>, b: seq<int>)
    requires SortedDesc(a) && SortedDesc(b) && multiset(a) == multiset(b)
    ensures a == b
    decreases |a|
  {
    if |a| == 0 {
      SubMultisetLength(b, a);
    } else {
      SortedHeads(a, b);
      SameTails(a, b);
      SortedTail(a);
      SortedTail(b);
      SortedUnique(a[1..], b[1..]);
      assert a == [a[0]] + a[1..];
      assert b == [b[0]] + b[1..];
    }
  }

  /** Python's slice s[0:k]: the first k elements, all of them when k >= |s|, and all but the last -k when k is negative. */
  function SliceTo(s: seq<int>, k: int): (r: seq<int>)
    ensures r <= s
    ensures k >= 0 ==> |r| == if k <= |s| then k else |s|
    ensures k < 0 ==> |r| == if |s| + k >= 0 then |s| + k else 0
  {
    if k >= |s| then s
    else if k >= 0 then s[..k]
    else if |s| + k >= 0 then s[..|s| + k]
    else []
  }

  /** The sum of the k largest values of s, with Python's slice rules for k. */
  function TopSum(s: seq<int>, k: int): int {
    Sum(SliceTo(SortDesc(s), k))
  }

  /** A sequence drawn from another is no longer than it. */
  lemma SubMultisetLength<T>(t: seq<T>, d: seq<T>)
    requires multiset(t) <= multiset(d)
    ensures |t| <= |d|
  {
    var extra := multiset(d) - multiset(t);
    assert multiset(d) == multiset(t) + extra;
    assert |multiset(d)| == |multiset(t)| + |extra|;
  }

  /** The elements of a descending sequence are bounded by its head. */
  lemma HeadIsLargest(d: seq<int>, y: int)
    requires SortedDesc(d) && y in multiset(d)
    ensures |d| > 0 && y <= d[0]
  {
    var j :| 0 <= j < |d| && d[j] == y;
  }

  /**
   * Taking the head off d and, out of t, that same value when t holds it
   * (any position otherwise) keeps t drawn from d.
   */
  lemma RemoveHeads(d: seq<int>, t: seq<int>, i: nat)
    requires |d| > 0 && i < |t| && multiset(t) <= multiset(d)
    requires d[0] in multiset(t) ==> t[i] == d[0]
    ensures multiset(t[..i] + t[i + 1..]) <= multiset(d[1..])
  {
    var tm, dm := multiset(t), multiset(d);
    MultisetRemove(t, i);
    assert d == [d[0]] + d[1..];
    assert multiset(d[1..]) == dm - multiset{d[0]};
    var rest := multiset(t[..i] + t[i + 1..]);
    forall x ensures rest[x] <= multiset(d[1..])[x] {
      if x == d[0] && t[i] != d[0] {
        assert tm[x] == 0;
      }
    }
  }

  /** The first n > 0 elements are the head followed by n - 1 elements of the tail. */
  lemma PrefixSum(d: seq<int>, n: nat)
    requires 0 < n <= |d|
    ensures Sum(d[..n]) == d[0] + Sum(d[1..][..n - 1])
  {
    assert d[..n][1..] == d[1..][..n - 1];
  }

  /**
   * A descending sequence's first |t| elements sum to at least the sum of any
   * t drawn from it (as a sub-multiset).
   */
  lemma {:induction false} SortedPrefixDominates(d: seq<int>, t: seq<int>)
    requires SortedDesc(d) && multiset(t) <= multiset(d)
    ensures |t| <= |d|
    ensures Sum(t) <= Sum(d[..|t|])
    decreases |d|
  {
    SubMultisetLength(t, d);
    if |t| > 0 {
      var i: nat := 0;
      if d[0] in multiset(t) {
        i :| i < |t| && t[i] == d[0];
      }
      var rest := t[..i] + t[i + 1..];
      RemoveHeads(d, t, i);
      HeadIsLargest(d, t[i]);
      assert SortedDesc(d[1..]);
      SortedPrefixDominates(d[1..], rest);
      SumRemove(t, i);
      PrefixSum(d, |t|);
    }
  }

  /** No k values drawn from s sum to more than the k largest values of s. */
  lemma TopSumIsMaximum(s: seq<int>, t: seq<int>, k: int)
    requires multiset(t) <= multiset(s) && |t| == k
    ensures Sum(t) <= TopSum(s, k)
  {
    var d := SortDesc(s);
    SortedPrefixDominates(d, t);
    assert SliceTo(d, k) == d[..|t|];
  }

  /** The k largest values are themselves values of s, so the bound is reached. */
  lemma TopSumIsAttained(s: seq<int>, k: int)
    ensures multiset(SliceTo(SortDesc(s), k)) <= multiset(s)
  {
    var d := SortDesc(s);
    var r := SliceTo(d, k);
    assert d == r + d[|r|..];
  }

  /** With k at least the number of values, the top-k sum is the sum of all values. */
  lemma TopSumOfAll(s: seq<int>, k: int)
    requires k >= |s|
    ensures TopSum(s, k) == Sum(s)
  {
    SumPermutation(SortDesc(s), s);
  }

  /** Applying f to every element. */
  function Map<T>(f: T -> int, s: seq<T>): (r: seq<int>)
    ensures |r| == |s|
    ensures forall i :: 0 <= i < |s| ==> r[i] == f(s[i])
  {
    seq(|s|, i requires 0 <= i < |s| => f(s[i]))
  }

  /** Mapping distributes over concatenation. */
  lemma MapAppend<T>(f: T -> int, a: seq<T>, b: seq<T>)
    ensures Map(f, a + b) == Map(f, a) + Map(f, b)
  {
    var l := Map(f, a + b);
    var r := Map(f, a) + Map(f, b);
    forall i | 0 <= i < |l| ensures l[i] == r[i] {
      if i < |a| {
        assert (a + b)[i] == a[i];
      } else {
        assert (a + b)[i] == b[i - |a|];
      }
    }
  }

  /** Mapping then taking out position j takes out the image of s[j]. */
  lemma MapRemove<T>(f: T -> int, s: seq<T>, j: nat)
    requires j < |s|
    ensures multiset(Map(f, s[..j] + s[j + 1..])) == multiset(Map(f, s)) - multiset{f(s[j])}
  {
    assert Map(f, s[..j] + s[j + 1..]) == Map(f, s)[..j] + Map(f, s)[j + 1..];
    MultisetRemove(Map(f, s), j);
  }

  /** The images of a non-empty sequence: the head's image and the tail's images. */
  lemma MapHead<T>(f: T -> int, s: seq<T>)
    requires |s| > 0
    ensures multiset(Map(f, s)) == multiset{f(s[0])} + multiset(Map(f, s[1..]))
  {
    assert Map(f, s) == [f(s[0])] + Map(f, s[1..]);
  }

  /** Drawing a sub-multiset of the arguments draws a sub-multiset of the images. */
  lemma {:induction false} MapSubMultiset<T>(f: T -> int, xs: seq<T>, ys: seq<T>)
    requires multiset(xs) <= multiset(ys)
    ensures multiset(Map(f, xs)) <= multiset(Map(f, ys))
    decreases |xs|
  {
    if |xs| > 0 {
      assert xs[0] in multiset(ys);
      var j :| 0 <= j < |ys| && ys[j] == xs[0];
      var rest := ys[..j] + ys[j + 1..];
      MultisetRemove(ys, j);
      assert xs == [xs[0]] + xs[1..];
      assert multiset(xs[1..]) <= multiset(rest);
      MapSubMultiset(f, xs[1..], rest);
      MapRemove(f, ys, j);
      MapHead(f, xs);
      assert f(ys[j]) in multiset(Map(f, ys));
    }
  }
}
