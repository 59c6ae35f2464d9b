/** Newest-first ordering of event lists. The query layer sorts its freshly filtered
    array in place with `(a, b) => time(b) - time(a)`; JavaScript's sort is stable, so
    events with equal timestamps keep their filtered order. `SortNewest` is that
    ordering as a function (an insertion sort); `SortNewestFirst` is the in-place sort
    on an array, proved to produce it. */
module EventSort {

  /** Non-increasing by `key`. */
  ghost predicate NewestFirst<T>(s: seq<T>, key: T -> int)
  {
    forall i, j :: 0 <= i < j < |s| ==> key(s[i]) >= key(s[j])
  }

  /** Puts `x` after every element of `sorted` whose key is at least its own. */
  function InsertNewest<T>(sorted: seq<T>, x: T, key: T -> int): (r: seq<T>)
    ensures |r| == |sorted| + 1
  {
    if sorted == [] then [x]
    else if key(sorted[|sorted| - 1]) >= key(x) then sorted + [x]
    else InsertNewest(sorted[..|sorted| - 1], x, key) + [sorted[|sorted| - 1]]
  }

  function SortNewest<T>(s: seq<T>, key: T -> int): (r: seq<T>)
    ensures |r| == |s|
  {
    if s == [] then [] else InsertNewest(SortNewest(s[..|s| - 1], key), s[|s| - 1], key)
  }

  /** The elements of `s` whose key is `k`, in order. */
  function WithKey<T>(s: seq<T>, key: T -> int, k: int): seq<T>
  {
    if s == [] then [] else WithKey(s[..|s| - 1], key, k) + (if key(s[|s| - 1]) == k then [s[|s| - 1]] else [])
  }

  lemma {:induction false} InsertPermutes<T>(sorted: seq<T>, x: T, key: T -> int)
    ensures multiset(InsertNewest(sorted, x, key)) == multiset(sorted) + multiset{x}
  {
    if sorted != [] && key(sorted[|sorted| - 1]) < key(x) {
      var init, last := sorted[..|sorted| - 1], sorted[|sorted| - 1];
      assert sorted == init + [last];
      InsertPermutes(init, x, key);
    }
  }

  lemma {:induction false} InsertKeepsOrder<T>(sorted: seq<T>, x: T, key: T -> int)
    requires NewestFirst(sorted, key)
    ensures NewestFirst(InsertNewest(sorted, x, key), key)
  {
    if sorted != [] && key(sorted[|sorted| - 1]) < key(x) {
      var init, last := sorted[..|sorted| - 1], sorted[|sorted| - 1];
      InsertKeepsOrder(init, x, key);
      InsertPermutes(init, x, key);
      var r := InsertNewest(init, x, key);
      forall i | 0 <= i < |r| ensures key(r[i]) >= key(last) {
        assert r[i] in multiset(init) + multiset{x};
        if r[i] != x {
          assert r[i] in init;
          var j :| 0 <= j < |init| && init[j] == r[i];
          assert sorted[j] == r[i];
        }
      }
      var res := r + [last];
      forall i, j | 0 <= i < j < |res| ensures key(res[i]) >= key(res[j]) {
        if j < |r| {
          assert res[i] == r[i] && res[j] == r[j];
        } else {
          assert res[i] == r[i] && res[j] == last;
        }
      }
    }
  }

  /** The sort yields a non-increasing sequence that is a permutation of its input. */
  lemma {:induction false} SortNewestSortsAndPermutes<T>(s: seq<T>, key: T -> int)
    ensures NewestFirst(SortNewest(s, key), key)
    ensures multiset(SortNewest(s, key)) == multiset(s)
  {
    if s != [] {
      var init := s[..|s| - 1];
      SortNewestSortsAndPermutes(init, key);
      InsertKeepsOrder(SortNewest(init, key), s[|s| - 1], key);
      InsertPermutes(SortNewest(init, key), s[|s| - 1], key);
      assert s == init + [s[|s| - 1]];
    }
  }

  lemma {:induction false} WithKeyAppend<T>(a: seq<T>, b: seq<T>, key: T -> int, k: int)
    ensures WithKey(a + b, key, k) == WithKey(a, key, k) + WithKey(b, key, k)
  {
    if b == [] {
      assert a + b == a;
    } else {
      assert (a + b)[..|a + b| - 1] == a + b[..|b| - 1];
      WithKeyAppend(a, b[..|b| - 1], key, k);
    }
  }

  lemma {:induction false} InsertIsStable<T>(sorted: seq<T>, x: T, key: T -> int, k: int)
    ensures WithKey(InsertNewest(sorted, x, key), key, k) == WithKey(sorted, key, k) + WithKey([x], key, k)
  {
    if sorted == [] {
      assert InsertNewest(sorted, x, key) == [x];
    } else if key(sorted[|sorted| - 1]) >= key(x) {
      WithKeyAppend(sorted, [x], key, k);
    } else {
      var init, last := sorted[..|sorted| - 1], sorted[|sorted| - 1];
      var moved := InsertNewest(init, x, key);
      assert InsertNewest(sorted, x, key) == moved + [last];
      assert sorted == init + [last];
      InsertIsStable(init, x, key, k);
      WithKeyAppend(moved, [last], key, k);
      WithKeyAppend(init, [last], key, k);
      // x moved in front of `last` only because its key is larger, so at most one of
      // the two is kept
      assert WithKey([x], key, k) + WithKey([last], key, k) == WithKey([last], key, k) + WithKey([x], key, k) by {
        SingleWithKey(x, key, k);
        SingleWithKey(last, key, k);
      }
    }
  }

  lemma SingleWithKey<T>(x: T, key: T -> int, k: int)
    ensures WithKey([x], key, k) == if key(x) == k then [x] else []
  {
    assert [x][..0] == [];
  }

  /** Stability: among events with any one timestamp, the sort keeps their original order. */
  lemma {:induction false} SortNewestIsStable<T>(s: seq<T>, key: T -> int, k: int)
    ensures WithKey(SortNewest(s, key), key, k) == WithKey(s, key, k)
  {
    if s != [] {
      var init, last := s[..|s| - 1], s[|s| - 1];
      SortNewestIsStable(init, key, k);
      InsertIsStable(SortNewest(init, key), last, key, k);
      assert s == init + [last];
      WithKeyAppend(init, [last], key, k);
    }
  }

  lemma InsertStep<T>(t: seq<T>, x: T, key: T -> int, j: nat)
    requires 0 < j <= |t| && key(t[j - 1]) < key(x)
    ensures InsertNewest(t[..j], x, key) + t[j..] == InsertNewest(t[..j - 1], x, key) + t[j - 1..]
  {
    assert t[..j][..j - 1] == t[..j - 1];
    assert t[j - 1..] == [t[j - 1]] + t[j..];
  }

  lemma SwapStep<T>(t: seq<T>, x: T, rest: seq<T>, j: nat)
    requires 0 < j <= |t|
    ensures (t[..j] + [x] + t[j..] + rest)[j - 1 := x][j := t[j - 1]] == t[..j - 1] + [x] + t[j - 1..] + rest
  {
    var before := t[..j] + [x] + t[j..] + rest;
    var after := before[j - 1 := x][j := t[j - 1]];
    var want := t[..j - 1] + [x] + t[j - 1..] + rest;
    assert |after| == |want|;
    forall k | 0 <= k < |want| ensures after[k] == want[k] {
      if k < j - 1 {
      } else if k == j - 1 {
      } else if k == j {
      } else if k <= |t| {
        assert after[k] == t[k - 1];
      }
    }
  }

  /** Moves `a[i]` left past every element of the sorted prefix `a[..i]` with a smaller key. */
  method InsertIntoPrefix<T>(a: array<T>, i: nat, key: T -> int)
    requires i < a.Length
    modifies a
    ensures a[..] == InsertNewest(old(a[..i]), old(a[i]), key) + old(a[i + 1..])
  {
    ghost var t, rest := a[..i], a[i + 1..];
    var x := a[i];
    assert a[..] == t + [x] + rest;
    var j := i;
    assert t[..j] == t && t[j..] == [];
    while j > 0 && key(a[j - 1]) < key(x)
      invariant 0 <= j <= i
      invariant a[..] == t[..j] + [x] + t[j..] + rest
      invariant InsertNewest(t, x, key) == InsertNewest(t[..j], x, key) + t[j..]
    {
      ghost var before := a[..];
      assert a[j - 1] == t[j - 1] && a[j] == x;
      InsertStep(t, x, key, j);
      a[j - 1], a[j] := a[j], a[j - 1];
      assert a[..] == before[j - 1 := x][j := t[j - 1]];
      SwapStep(t, x, rest, j);
      j := j - 1;
    }
    assert InsertNewest(t[..j], x, key) == t[..j] + [x];
  }

  /** Sorting one more element of `s` inserts it into the sorted shorter prefix. */
  lemma SortStep<T>(s: seq<T>, i: nat, key: T -> int)
    requires i < |s|
    ensures SortNewest(s[..i + 1], key) == InsertNewest(SortNewest(s[..i], key), s[i], key)
  {
    assert s[..i + 1][..i] == s[..i];
  }

  lemma SplitAt<T>(v: seq<T>, front: seq<T>, back: seq<T>)
    requires v == front + back && back != []
    ensures v[..|front|] == front && v[|front|] == back[0] && v[|front| + 1..] == back[1..]
  {
  }

  /** One round of the outer loop: inserting the first unsorted element extends the
      sorted prefix by one. */
  lemma SortLoopStep<T>(orig: seq<T>, i: nat, key: T -> int, cur: seq<T>, next: seq<T>)
    requires i < |orig| && cur == SortNewest(orig[..i], key) + orig[i..]
    requires next == InsertNewest(cur[..i], cur[i], key) + cur[i + 1..]
    ensures next == SortNewest(orig[..i + 1], key) + orig[i + 1..]
  {
    SplitAt(cur, SortNewest(orig[..i], key), orig[i..]);
    assert orig[i..][1..] == orig[i + 1..];
    SortStep(orig, i, key);
  }

  /** Sorts `a` in place, newest first, by insertion with adjacent swaps. */
  method SortNewestFirst<T>(a: array<T>, key: T -> int)
    modifies a
    ensures a[..] == SortNewest(old(a[..]), key)
  {
    ghost var orig := a[..];
    var i := 0;
    while i < a.Length
      invariant 0 <= i <= a.Length
      invariant a[..] == SortNewest(orig[..i], key) + orig[i..]
    {
      ghost var cur := a[..];
      assert a[..i] == cur[..i] && a[i] == cur[i] && a[i + 1..] == cur[i + 1..];
      InsertIntoPrefix(a, i, key);
      SortLoopStep(orig, i, key, cur, a[..]);
      i := i + 1;
    }
    assert orig == orig[..a.Length] && orig[a.Length..] == [];
  }
}
