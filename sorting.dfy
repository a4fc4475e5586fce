/** std::sort as the balancers use it: an in-place sort of a vector under a
    "comes before" comparator that compares one integer key of each element.
    std::sort is not stable, so any ordering of equal keys is allowed; the
    model fixes one of them, the stable order of an insertion sort. */
module Sorting {

  /** Non-increasing in `key`. */
  ghost predicate SortedDesc<T>(s: seq<T>, key: T -> int)
  {
    forall i, j :: 0 <= i < j < |s| ==> key(s[i]) >= key(s[j])
  }

  /** Places `x` after every element of `t` whose key is at least its own. */
  function Insert<T>(t: seq<T>, x: T, key: T -> int): seq<T>
    decreases |t|
  {
    if t == [] || key(t[|t| - 1]) >= key(x) then t + [x]
    else Insert(t[..|t| - 1], x, key) + [t[|t| - 1]]
  }

  /** The order a stable sort by non-increasing key produces. */
  function SortDesc<T>(s: seq<T>, key: T -> int): (r: seq<T>)
    ensures |r| == |s|
    decreases |s|
  {
    if s == [] then []
    else
      var sorted := SortDesc(s[..|s| - 1], key);
      InsertPermutes(sorted, s[|s| - 1], key);
      Insert(sorted, s[|s| - 1], key)
  }

  lemma {:induction false} InsertPermutes<T>(t: seq<T>, x: T, key: T -> int)
    ensures multiset(Insert(t, x, key)) == multiset(t) + multiset{x}
    ensures |Insert(t, x, key)| == |t| + 1
    decreases |t|
  {
    if t == [] || key(t[|t| - 1]) >= key(x) {
    } else {
      var init, last := t[..|t| - 1], t[|t| - 1];
      InsertPermutes(init, x, key);
      assert t == init + [last];
    }
  }

  lemma {:induction false} InsertKeepsSorted<T>(t: seq<T>, x: T, key: T -> int)
    requires SortedDesc(t, key)
    ensures SortedDesc(Insert(t, x, key), key)
    decreases |t|
  {
    if t == [] || key(t[|t| - 1]) >= key(x) {
      var r := t + [x];
      forall i, j | 0 <= i < j < |r| ensures key(r[i]) >= key(r[j]) {
        if j == |t| && i < |t| - 1 {
          assert key(t[i]) >= key(t[|t| - 1]);
        }
      }
    } else {
      var init, last := t[..|t| - 1], t[|t| - 1];
      assert SortedDesc(init, key);
      InsertKeepsSorted(init, x, key);
      assert forall k :: 0 <= k < |init| ==> key(init[k]) >= key(last) by {
        forall k | 0 <= k < |init| ensures key(init[k]) >= key(last) {
          assert init[k] == t[k];
        }
      }
      InsertAtLeast(init, x, key, key(last));
      var head := Insert(init, x, key);
      var r := head + [last];
      forall i, j | 0 <= i < j < |r| ensures key(r[i]) >= key(r[j]) {
        assert r[i] == head[i];
        if j < |head| {
          assert r[j] == head[j];
        }
      }
    }
  }

  /** A lower bound on every key survives an insertion that respects it. */
  lemma {:induction false} InsertAtLeast<T>(t: seq<T>, x: T, key: T -> int, b: int)
    requires key(x) >= b && forall k :: 0 <= k < |t| ==> key(t[k]) >= b
    ensures |Insert(t, x, key)| == |t| + 1
    ensures forall k :: 0 <= k < |Insert(t, x, key)| ==> key(Insert(t, x, key)[k]) >= b
    decreases |t|
  {
    if t != [] && key(t[|t| - 1]) < key(x) {
      var init := t[..|t| - 1];
      InsertAtLeast(init, x, key, b);
    }
  }

  /** The sorted order holds the same elements, in non-increasing key order. */
  lemma {:induction false} SortDescCorrect<T>(s: seq<T>, key: T -> int)
    ensures SortedDesc(SortDesc(s, key), key)
    ensures multiset(SortDesc(s, key)) == multiset(s)
    ensures |SortDesc(s, key)| == |s|
    decreases |s|
  {
    if s != [] {
      var init, last := s[..|s| - 1], s[|s| - 1];
      SortDescCorrect(init, key);
      InsertKeepsSorted(SortDesc(init, key), last, key);
      InsertPermutes(SortDesc(init, key), last, key);
      assert s == init + [last];
    }
  }

  /** Sorting a sequence that is already in order leaves it as it is. */
  lemma {:induction false} SortDescOfSorted<T>(s: seq<T>, key: T -> int)
    requires SortedDesc(s, key)
    ensures SortDesc(s, key) == s
    decreases |s|
  {
    if s != [] {
      var init := s[..|s| - 1];
      assert SortedDesc(init, key);
      SortDescOfSorted(init, key);
      assert init + [s[|s| - 1]] == s;
    }
  }

  /** Inserting in front of a run of smaller keys that follows a key at
      least as large puts the element exactly between the two. */
  lemma {:induction false} InsertAt<T>(t: seq<T>, x: T, j: nat, key: T -> int)
    requires j <= |t|
    requires j == 0 || key(t[j - 1]) >= key(x)
    requires forall k :: j <= k < |t| ==> key(t[k]) < key(x)
    ensures Insert(t, x, key) == t[..j] + [x] + t[j..]
    decreases |t|
  {
    if j < |t| {
      var init, last := t[..|t| - 1], t[|t| - 1];
      InsertAt(init, x, j, key);
      assert init[..j] == t[..j] && init[j..] + [last] == t[j..];
    } else {
      assert t[..j] == t;
    }
  }

  /** One insertion step: the element at index `i` sinks past the elements
      before it whose key is strictly smaller than its own. */
  method Sink<T>(a: array<T>, i: nat, key: T -> int)
    requires i < a.Length
    modifies a
    ensures a[..i + 1] == Insert(old(a[..i]), old(a[i]), key)
    ensures a[i + 1..] == old(a[i + 1..])
  {
    ghost var t := a[..i];
    ghost var tail := a[i + 1..];
    var x := a[i];
    var j := i;
    while j > 0 && key(a[j - 1]) < key(x)
      invariant 0 <= j <= i
      invariant forall k :: 0 <= k < j ==> a[k] == t[k]
      invariant a[j] == x
      invariant forall k :: j < k <= i ==> a[k] == t[k - 1]
      invariant forall k :: i < k < a.Length ==> a[k] == tail[k - i - 1]
      invariant forall k :: j <= k < i ==> key(t[k]) < key(x)
    {
      a[j] := a[j - 1];
      a[j - 1] := x;
      j := j - 1;
    }
    InsertAt(t, x, j, key);
    SinkLayout(a[..], t, x, j, i, tail);
  }

  /** Where the sinking stops, the array holds the prefix with the element
      in place, in front of the untouched tail. */
  lemma SinkLayout<T>(s: seq<T>, t: seq<T>, x: T, j: nat, i: nat, tail: seq<T>)
    requires j <= i == |t| && i < |s| && |tail| == |s| - i - 1
    requires forall k :: 0 <= k < j ==> s[k] == t[k]
    requires s[j] == x
    requires forall k :: j < k <= i ==> s[k] == t[k - 1]
    requires forall k :: i < k < |s| ==> s[k] == tail[k - i - 1]
    ensures s[..i + 1] == t[..j] + [x] + t[j..] && s[i + 1..] == tail
  {
    var u := t[..j] + [x] + t[j..];
    assert |u| == i + 1;
    forall k | 0 <= k <= i ensures s[k] == u[k] {
      if k < j {
        assert u[k] == t[k];
      } else if j < k {
        assert u[k] == t[j..][k - j - 1];
      }
    }
  }

  /** Insertion sort in place. */
  method SortInPlace<T>(a: array<T>, key: T -> int)
    modifies a
    ensures a[..] == SortDesc(old(a[..]), key)
  {
    ghost var s := a[..];
    var i := 0;
    while i < a.Length
      invariant 0 <= i <= a.Length
      invariant a[..i] == SortDesc(s[..i], key)
      invariant a[i..] == s[i..]
    {
      assert a[i] == s[i..][0] == s[i];
      Sink(a, i, key);
      SortDescStep(s, i, key);
      assert s[i..][1..] == s[i + 1..];
      i := i + 1;
    }
    assert a[..a.Length] == a[..];
    assert s[..a.Length] == s;
  }

  /** One more element of the input is one more insertion. */
  lemma SortDescStep<T>(s: seq<T>, i: nat, key: T -> int)
    requires i < |s|
    ensures SortDesc(s[..i + 1], key) == Insert(SortDesc(s[..i], key), s[i], key)
  {
    assert s[..i + 1][..i] == s[..i];
  }
}
