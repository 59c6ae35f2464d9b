/** Sequence and integer helpers shared by the query layer, the series generators and the charts.
    They model the JavaScript built-ins the source leans on: `Array.prototype.filter`, `find`,
    `slice`, `reduce` with `+`, `Math.ceil` of a quotient, `Math.min` and `Math.max`. */
module Seqs {
  import opened Wrappers

  function Min(a: int, b: int): int { if a <= b then a else b }
  function Max(a: int, b: int): int { if a >= b then a else b }

  /** `x || d` for a numeric option: absent and 0 both give the default. */
  function OrDefault(o: Option<int>, d: int): (r: int)
    ensures r == d || (o.Some? && r == o.value && r != 0)
    ensures o.Some? && o.value != 0 ==> r == o.value
  {
    if o.Some? && o.value != 0 then o.value else d
  }

  /** A value `Math.random()` can return. */
  predicate UnitDraw(r: real) { 0.0 <= r < 1.0 }

  /** Dividing both sides of `a * n <= b * n` by a positive `n`. */
  lemma ScaleBack(a: real, b: real, n: real)
    requires n > 0.0 && a * n <= b * n
    ensures a <= b
  {
  }

  /** `Math.round`: the nearest integer, halves rounded up. */
  function Round(x: real): (r: int)
    ensures r as real - 0.5 <= x < r as real + 0.5
  {
    (x + 0.5).Floor
  }

  /** `Math.ceil(a / b)` for integers: the least integer not below the real quotient. */
  function CeilDiv(a: int, b: int): (r: int)
    requires b != 0
    ensures (r - 1) as real < a as real / b as real <= r as real
  {
    if b > 0 then
      var q := (-a) / b;
      assert -a == q * b + (-a) % b;
      CeilDivFacts(a, b, -q, (-a) % b);
      -q
    else
      var q := a / (-b);
      assert a == q * (-b) + a % (-b);
      CeilDivFacts(-a, -b, -q, a % (-b));
      assert (-a) as real / (-b) as real == a as real / b as real;
      -q
  }

  lemma CeilDivFacts(a: int, b: int, r: int, m: int)
    requires b > 0 && 0 <= m < b && a == r * b - m
    ensures (r - 1) as real < a as real / b as real <= r as real
  {
    var br := b as real;
    assert a as real == r as real * br - m as real;
    assert a as real / br == r as real - m as real / br;
    assert 0.0 <= m as real / br < 1.0;
  }

  /** For a positive divisor the real characterisation reads as two integer inequalities. */
  lemma CeilDivBounds(a: int, b: int)
    requires b > 0
    ensures (CeilDiv(a, b) - 1) * b < a <= CeilDiv(a, b) * b
  {
    var r := CeilDiv(a, b);
    var br := b as real;
    assert (r - 1) as real < a as real / br <= r as real;
    assert ((r - 1) as real) * br < (a as real / br) * br;
    assert (a as real / br) * br <= (r as real) * br;
    assert (a as real / br) * br == a as real;
    assert ((r - 1) * b) as real == ((r - 1) as real) * br;
    assert (r * b) as real == (r as real) * br;
  }

  /** `Array.prototype.filter`: keeps, in order, the elements that satisfy `keep`. */
  function Filter<T>(s: seq<T>, keep: T -> bool): (r: seq<T>)
    ensures |r| <= |s|
    ensures forall x :: x in r ==> x in s && keep(x)
    ensures forall x :: x in s && keep(x) ==> x in r
  {
    if s == [] then [] else (if keep(s[0]) then [s[0]] else []) + Filter(s[1..], keep)
  }

  /** Filtering keeps every kept element exactly as often as it occurs, and drops the rest. */
  lemma {:induction false} FilterCounts<T>(s: seq<T>, keep: T -> bool, x: T)
    ensures multiset(Filter(s, keep))[x] == if keep(x) then multiset(s)[x] else 0
  {
    if s != [] {
      FilterCounts(s[1..], keep, x);
      assert s == [s[0]] + s[1..];
    }
  }

  /** Filtering distributes over concatenation, so it never reorders what it keeps. */
  lemma {:induction false} FilterAppend<T>(a: seq<T>, b: seq<T>, keep: T -> bool)
    ensures Filter(a + b, keep) == Filter(a, keep) + Filter(b, keep)
  {
    if a == [] {
      assert a + b == b;
    } else {
      assert (a + b)[1..] == a[1..] + b;
      FilterAppend(a[1..], b, keep);
    }
  }

  /** Two successive filters are one filter by the conjunction of their predicates. */
  lemma {:induction false} FilterFuse<T>(s: seq<T>, p: T -> bool, q: T -> bool, both: T -> bool)
    requires forall x :: both(x) == (p(x) && q(x))
    ensures Filter(Filter(s, p), q) == Filter(s, both)
  {
    if s != [] {
      FilterFuse(s[1..], p, q, both);
      var head := if p(s[0]) then [s[0]] else [];
      FilterAppend(head, Filter(s[1..], p), q);
    }
  }

  /** Filters by pointwise-equal predicates agree. */
  lemma {:induction false} FilterExt<T>(s: seq<T>, p: T -> bool, q: T -> bool)
    requires forall x :: p(x) == q(x)
    ensures Filter(s, p) == Filter(s, q)
  {
    if s != [] {
      FilterExt(s[1..], p, q);
    }
  }

  /** One stage of a chain of optional filters (`if (given) list = list.filter(step)`):
      whether or not the stage applies, the list so far is one filter by the accumulated predicate. */
  lemma FilterStage<T>(s: seq<T>, prev: T -> bool, step: T -> bool, next: T -> bool, apply: bool)
    requires forall x :: next(x) == (prev(x) && (apply ==> step(x)))
    ensures (if apply then Filter(Filter(s, prev), step) else Filter(s, prev)) == Filter(s, next)
  {
    if apply {
      FilterFuse(s, prev, step, next);
    } else {
      FilterExt(s, prev, next);
    }
  }

  /** Filtering by a predicate that holds everywhere on `s` returns `s` itself. */
  lemma {:induction false} FilterAll<T>(s: seq<T>, keep: T -> bool)
    requires forall x :: x in s ==> keep(x)
    ensures Filter(s, keep) == s
  {
    if s != [] {
      FilterAll(s[1..], keep);
    }
  }

  /** `Array.prototype.find`: the first element satisfying `p`, or nothing. */
  function Find<T>(s: seq<T>, p: T -> bool): (r: Option<T>)
    ensures r.None? <==> (forall i :: 0 <= i < |s| ==> !p(s[i]))
    ensures r.Some? ==> exists i :: 0 <= i < |s| && s[i] == r.value && p(s[i]) && forall j :: 0 <= j < i ==> !p(s[j])
  {
    if s == [] then None
    else if p(s[0]) then
      Some(s[0])
    else
      var r := Find(s[1..], p);
      if r.Some? then
        ghost var i :| 0 <= i < |s[1..]| && s[1..][i] == r.value && p(s[1..][i]) && forall j :: 0 <= j < i ==> !p(s[1..][j]);
        assert s[i + 1] == r.value && forall j :: 0 <= j < i + 1 ==> !p(s[j]);
        r
      else
        assert forall i :: 1 <= i < |s| ==> s[i] == s[1..][i - 1];
        r
  }

  /** The index a JavaScript `slice` bound denotes: negative counts from the end, and the result is clamped to [0, len]. */
  function SliceIndex(i: int, len: nat): (r: nat)
    ensures r <= len
    ensures 0 <= i <= len ==> r == i
    ensures i > len ==> r == len
    ensures i < 0 ==> r == Max(0, len + i)
  {
    if i < 0 then (if len + i < 0 then 0 else len + i) else if i > len then len else i
  }

  /** `s.slice(start, end)`. */
  function JsSlice<T>(s: seq<T>, start: int, end: int): (r: seq<T>)
    ensures |r| <= |s|
    ensures SliceIndex(start, |s|) <= SliceIndex(end, |s|) ==> r == s[SliceIndex(start, |s|)..SliceIndex(end, |s|)]
    ensures SliceIndex(start, |s|) >= SliceIndex(end, |s|) ==> r == []
  {
    var from, to := SliceIndex(start, |s|), SliceIndex(end, |s|);
    if from < to then s[from..to] else []
  }

  /** `reduce((sum, x) => sum + x, 0)` over integers, read from the right so that appending is one step. */
  function Sum(s: seq<int>): int
  {
    if s == [] then 0 else Sum(s[..|s| - 1]) + s[|s| - 1]
  }

  lemma {:induction false} SumAppend(a: seq<int>, b: seq<int>)
    ensures Sum(a + b) == Sum(a) + Sum(b)
  {
    if b != [] {
      assert (a + b)[..|a + b| - 1] == a + b[..|b| - 1];
      SumAppend(a, b[..|b| - 1]);
    } else {
      assert a + b == a;
    }
  }

  function SumReal(s: seq<real>): real
  {
    if s == [] then 0.0 else SumReal(s[..|s| - 1]) + s[|s| - 1]
  }
}
