/** The walk shared by the three series generators of lib/api/mocks.ts: the step size
    chosen by the granularity, the date window, the number of points, and the date of each
    point as the countdown loop visits them oldest first. Dates are whole day numbers and
    "today" is a parameter. */
module Series {
  import opened Wrappers
  import opened Seqs

  datatype Granularity = Daily | Weekly | Monthly

  /** Days per period: 1, 7 or 30. */
  function StepDays(g: Granularity): (r: int)
    ensures r == 1 || r == 7 || r == 30
    ensures r == 1 <==> g == Daily
    ensures r == 30 <==> g == Monthly
  {
    match g
    case Daily => 1
    case Weekly => 7
    case Monthly => 30
  }

  /** The optional query of a series endpoint. */
  datatype SeriesFilters = SeriesFilters(
    granularity: Option<Granularity>,
    startDate: Option<int>,
    endDate: Option<int>,
    limit: Option<int>,
    offset: Option<int>)

  /** What the generator settles before its loop. `count` is the number of loop turns,
      `max(0, numPoints)`; a negative `numPoints` runs the loop zero times as well. */
  datatype Window = Window(granularity: Granularity, step: int, limit: int, start: int, end: int, count: nat)

  /** The window a generator derives from its filters: the end is the given end date or
      today, the start is the given start date or 90 days before the end, and the number of
      points is `min(ceil(daysDiff / step), limit)`. */
  function MakeWindow(f: SeriesFilters, today: int, defaultGranularity: Granularity, defaultLimit: int): (w: Window)
    ensures w.granularity == f.granularity.GetOr(defaultGranularity) && w.step == StepDays(w.granularity)
    ensures w.limit == OrDefault(f.limit, defaultLimit)
    ensures w.end == f.endDate.GetOr(today) && w.start == f.startDate.GetOr(w.end - 90)
    ensures w.count <= Max(0, w.limit)
    ensures w.count == 0 <==> w.end - w.start <= 0 || w.limit <= 0
    ensures w.count > 0 ==> (w.count - 1) * w.step < w.end - w.start
    ensures w.count < w.limit ==> w.end - w.start <= w.count * w.step
  {
    var g := f.granularity.GetOr(defaultGranularity);
    var step := StepDays(g);
    var end := f.endDate.GetOr(today);
    var start := f.startDate.GetOr(end - 90);
    var limit := OrDefault(f.limit, defaultLimit);
    var numPoints := Min(CeilDiv(end - start, step), limit);
    CeilDivBounds(end - start, step);
    Window(g, step, limit, start, end, Max(0, numPoints))
  }

  /** The date of point `k` (oldest first): the loop counter is `count - 1 - k`. */
  function PointDate(w: Window, k: int): int
  {
    w.end - (w.count - 1 - k) * w.step
  }

  /** The dates strictly increase, the last point falls on the end date, and every point
      lies after the start date. */
  lemma DatesAscend(f: SeriesFilters, today: int, g: Granularity, limit: int, j: int, k: int)
    requires var w := MakeWindow(f, today, g, limit); 0 <= j < k < w.count
    ensures var w := MakeWindow(f, today, g, limit);
      && PointDate(w, j) < PointDate(w, k)
      && PointDate(w, w.count - 1) == w.end
      && w.start < PointDate(w, 0) <= PointDate(w, j)
  {
    var w := MakeWindow(f, today, g, limit);
    MulStrict(w.count - 1 - k, w.count - 1 - j, w.step);
    MulStrict(w.count - 1 - j, w.count - 1, w.step);
  }

  lemma MulStrict(a: int, b: int, c: int)
    requires 0 <= a <= b && c > 0
    ensures a * c <= b * c
    ensures a < b ==> a * c < b * c
  {
    var d := b - a;
    assert b * c == a * c + d * c;
  }

  /** Weekly points from 2024-01-01 to 2024-01-29 (28 days): four points, one week apart,
      the last on the end date. */
  lemma WeeklyFourPoints(jan1: int, today: int)
    ensures var w := MakeWindow(SeriesFilters(Some(Weekly), Some(jan1), Some(jan1 + 28), None, None), today, Daily, 100);
      && w.count == 4
      && PointDate(w, 0) == jan1 + 7 && PointDate(w, 1) == jan1 + 14
      && PointDate(w, 2) == jan1 + 21 && PointDate(w, 3) == jan1 + 28
  {
    var w := MakeWindow(SeriesFilters(Some(Weekly), Some(jan1), Some(jan1 + 28), None, None), today, Daily, 100);
    assert CeilDiv(28, 7) == 4;
  }

  /** The `pagination` block every generator returns: the number of points, the limit in
      force, and the requested offset echoed without being applied. */
  datatype SeriesPage = SeriesPage(total: int, limit: int, offset: int)

  function PageInfo(count: nat, w: Window, f: SeriesFilters): (r: SeriesPage)
    ensures r.total == count && r.limit == w.limit && r.offset == OrDefault(f.offset, 0)
  {
    SeriesPage(count, w.limit, OrDefault(f.offset, 0))
  }
}
