/** What the three chart components of components/protocol share: the thinning of a long
    series to at most 30 points, the compact currency label, and the legend's label lookup.
    The rows are the API rows after `parseFloat`, so amounts are numbers here. */
module ChartCommon {
  import opened Seqs

  /** A capital-flow row as the charts and cards receive it. */
  datatype FlowRow = FlowRow(
    date: string,
    deposits: real,
    loanRepayments: real,
    withdrawals: real,
    loanDrawdowns: real,
    netFlow: real,
    cumulativePosition: real)

  /** `s.filter((_, i) => i % k === 0)`. */
  function EveryKth<T>(s: seq<T>, k: int): seq<T>
    requires k >= 1
  {
    if s == [] then []
    else EveryKth(s[..|s| - 1], k) + (if (|s| - 1) % k == 0 then [s[|s| - 1]] else [])
  }

  /** `r` holds the items of `s` at multiples of `k`, in order, and reaches past the last index. */
  ghost predicate Shaped<T>(s: seq<T>, r: seq<T>, k: int)
  {
    && (s == [] ==> r == [])
    && (s != [] ==> (|r| - 1) * k < |s| <= |r| * k)
    && forall j :: 0 <= j < |r| ==> 0 <= j * k < |s| && r[j] == s[j * k]
  }

  /** The index filter keeps exactly the items at multiples of `k`, in order: item `j` of the
      result is item `j * k` of the input, and the result is as short as it can be while
      reaching past the last index. */
  lemma {:induction false} EveryKthShape<T>(s: seq<T>, k: int)
    requires k >= 1
    ensures Shaped(s, EveryKth(s, k), k)
  {
    if s != [] {
      var m := |s| - 1;
      EveryKthShape(s[..m], k);
      if m % k == 0 {
        KeepStep(s, EveryKth(s[..m], k), k);
      } else {
        SkipStep(s, EveryKth(s[..m], k), k);
      }
    }
  }

  /** The last index is a multiple of `k`: the prefix's result grows by the last item. */
  lemma KeepStep<T>(s: seq<T>, prev: seq<T>, k: int)
    requires k >= 1 && s != [] && (|s| - 1) % k == 0
    requires Shaped(s[..|s| - 1], prev, k)
    ensures Shaped(s, prev + [s[|s| - 1]], k)
  {
    var m := |s| - 1;
    var c := |prev|;
    var q := m / k;
    assert m == q * k;
    MulNonNeg(c, k);
    if m > 0 {
      MulOrder(c - 1, q, k);
      MulOrder(q, c, k);
    } else {
      MulOrder(q, 0, k);
      if c > 0 { MulOrder(1, c, k); }
    }
    assert q == c;
    MulSuccInt(c + 1, k);
    var r := prev + [s[m]];
    forall j | 0 <= j < c + 1
      ensures 0 <= j * k < |s| && r[j] == s[j * k]
    {
      MulNonNeg(j, k);
      if j < c {
        assert prev[j] == s[..m][j * k];
      }
    }
  }

  /** The last index is not a multiple of `k`: the result is the prefix's result. */
  lemma SkipStep<T>(s: seq<T>, prev: seq<T>, k: int)
    requires k >= 1 && s != [] && (|s| - 1) % k != 0
    requires Shaped(s[..|s| - 1], prev, k)
    ensures Shaped(s, prev, k)
  {
    var m := |s| - 1;
    var c := |prev|;
    MulSuccInt(c, k);
    assert m != c * k by {
      if m == c * k { ModOfMultiple(c, k); }
    }
    forall j | 0 <= j < c
      ensures 0 <= j * k < |s| && prev[j] == s[j * k]
    {
      assert prev[j] == s[..m][j * k];
    }
  }

  lemma MulNonNeg(a: int, b: int)
    requires a >= 0 && b >= 0
    ensures a * b >= 0
  {
  }

  lemma MulSuccInt(a: int, b: int)
    ensures (a - 1) * b == a * b - b
  {
  }

  /** Order of multiples: `a * k <= b * k` exactly when `a <= b`, for positive `k`. */
  lemma MulOrder(a: int, b: int, k: int)
    requires k >= 1
    ensures a <= b <==> a * k <= b * k
    ensures a < b <==> a * k < b * k
  {
    if a <= b {
      assert b * k - a * k == (b - a) * k;
      MulNonNeg(b - a, k);
    } else {
      assert a * k - b * k == (a - b) * k;
      MulNonNeg(a - b - 1, k);
      assert (a - b) * k == (a - b - 1) * k + k;
    }
  }

  lemma ModOfMultiple(c: int, k: int)
    requires k >= 1
    ensures (c * k) % k == 0
  {
    var m := c * k;
    var q, r := m / k, m % k;
    assert m == q * k + r && 0 <= r < k;
    assert (c - q) * k == r by { assert c * k - q * k == (c - q) * k; }
    if c - q > 0 { MulOrder(1, c - q, k); }
    if c - q < 0 { MulOrder(c - q, -1, k); }
  }

  /** `Math.ceil(n / 30)` for a series longer than 30: the sampling stride. */
  function Stride(n: int): (k: int)
    requires n > 30
    ensures k >= 2 && n <= 30 * k
    ensures 30 * (k - 1) < n
  {
    CeilDivBounds(n, 30);
    CeilDiv(n, 30)
  }

  /** `displayData`: the series itself up to 30 points, otherwise every `Stride`-th point:
      item `j` is item `j * Stride` of the series, and no multiple of the stride below the
      length is skipped. */
  function Downsample<T>(s: seq<T>): (r: seq<T>)
    ensures |s| <= 30 ==> r == s
    ensures |r| <= 30 && |r| <= |s|
    ensures s != [] ==> r != [] && r[0] == s[0]
    ensures |s| > 30 ==> forall j :: 0 <= j < |r| ==> 0 <= j * Stride(|s|) < |s| && r[j] == s[j * Stride(|s|)]
    ensures |s| > 30 ==> (|r| - 1) * Stride(|s|) < |s| <= |r| * Stride(|s|)
  {
    if |s| > 30 then
      var k := Stride(|s|);
      var r := EveryKth(s, k);
      EveryKthShape(s, k);
      MulOrder(|r| - 1, 29, k);
      assert (|r| - 1) * k < 30 * k;
      MulOrder(1, k, |s|);
      MulOrder(|r| - 1, |s|, k);
      assert r[0] == s[0 * k];
      r
    else
      s
  }

  /** A compact currency label, `$<scaled><suffix>`, with `digits` decimals after `toFixed`. */
  datatype Compact = Compact(scaled: real, suffix: string, digits: nat)

  function Abs(v: real): real { if v < 0.0 then -v else v }

  /** `formatCurrency(value)`: millions from 1,000,000 in magnitude, thousands from 1,000,
      plain dollars below; the scaled figure times its unit is the value itself. */
  function FormatCurrency(v: real): (r: Compact)
    ensures r.suffix == "M" <==> Abs(v) >= 1000000.0
    ensures r.suffix == "K" <==> 1000.0 <= Abs(v) < 1000000.0
    ensures r.suffix == "" <==> Abs(v) < 1000.0
    ensures r.scaled * Unit(r.suffix) == v
    ensures r.digits == (if r.suffix == "M" then 1 else 0)
  {
    if Abs(v) >= 1000000.0 then Compact(v / 1000000.0, "M", 1)
    else if Abs(v) >= 1000.0 then Compact(v / 1000.0, "K", 0)
    else Compact(v, "", 0)
  }

  function Unit(suffix: string): real
  {
    if suffix == "M" then 1000000.0 else if suffix == "K" then 1000.0 else 1.0
  }

  /** The look of a `Badge`. */
  datatype BadgeVariant = DefaultVariant | Secondary | Destructive | Outline

  /** `labels[value] || value` over a label table: a known key with a non-empty label
      gives its label, anything else comes back unchanged. */
  function LegendLabel(labels: map<string, string>, key: string): (r: string)
    ensures key in labels && labels[key] != "" ==> r == labels[key]
    ensures key !in labels ==> r == key
    ensures key in labels && labels[key] == "" ==> r == key
    ensures r == key || (key in labels && r == labels[key])
  {
    if key in labels && labels[key] != "" then labels[key] else key
  }
}
