/** The one-pass summary of a query result, over exact reals, against its definition. */
module Statistics {
  import opened Basics

  datatype Number = Finite(value: real) | NotFinite

  /** A zero timestamp is None. */
  datatype Point = Point(time: Option<int>, number: Number)

  datatype Statistics = Statistics(
    seriesCount: nat, sampleCount: nat, first: real, latest: real, min: real, max: real,
    mean: real, delta: real, actualFrom: int, actualTo: int, hasData: bool)

  predicate Usable(p: Point) {
    p.time.Some? && p.number.Finite?
  }

  function AllPoints(series: seq<seq<Point>>): seq<Point> {
    if |series| == 0 then [] else AllPoints(series[..|series| - 1]) + series[|series| - 1]
  }

  /** What to add up: usable points or their values, all of them or those at one time. */
  datatype Measure = Count | Sum | CountAt(time: int) | SumAt(time: int)

  function Weigh(m: Measure, p: Point): real {
    if !Usable(p) then 0.0
    else
      match m
      case Count => 1.0
      case Sum => p.number.value
      case CountAt(t) => if p.time.value == t then 1.0 else 0.0
      case SumAt(t) => if p.time.value == t then p.number.value else 0.0
  }

  function Total(points: seq<Point>, m: Measure): real {
    if |points| == 0 then 0.0 else Total(points[..|points| - 1], m) + Weigh(m, points[|points| - 1])
  }

  lemma TotalAppend(points: seq<Point>, p: Point, m: Measure)
    ensures Total(points + [p], m) == Total(points, m) + Weigh(m, p)
  {
    assert (points + [p])[..|points|] == points;
  }

  /** First and last usable time, least and greatest usable value, each attained. */
  ghost predicate Extremes(s: Statistics, points: seq<Point>) {
    && (s.hasData <==> exists p :: p in points && Usable(p))
    && (!s.hasData ==> s.min == s.max == 0.0 && s.actualFrom == s.actualTo == 0)
    && (s.hasData ==>
          && (forall p :: p in points && Usable(p) ==>
                s.actualFrom <= p.time.value <= s.actualTo && s.min <= p.number.value <= s.max)
          && (exists p :: p in points && Usable(p) && p.time.value == s.actualFrom)
          && (exists p :: p in points && Usable(p) && p.time.value == s.actualTo)
          && (exists p :: p in points && Usable(p) && p.number.value == s.min)
          && (exists p :: p in points && Usable(p) && p.number.value == s.max))
  }

  /** `mean` is the mean of `count` values that add up to `sum`. */
  predicate IsMean(mean: real, count: real, sum: real) {
    mean * count == sum
  }

  /** First, latest and mean: over all values at the first time, at the last time, and at any time. */
  ghost predicate Averages(s: Statistics, points: seq<Point>) {
    && s.sampleCount as real == Total(points, Count)
    && (!s.hasData ==> s.first == s.latest == s.mean == s.delta == 0.0)
    && (s.hasData ==>
          && IsMean(s.first, Total(points, CountAt(s.actualFrom)), Total(points, SumAt(s.actualFrom)))
          && IsMean(s.latest, Total(points, CountAt(s.actualTo)), Total(points, SumAt(s.actualTo)))
          && IsMean(s.mean, Total(points, Count), Total(points, Sum))
          && s.delta == s.latest - s.first)
  }

  /** The definition of the summary. */
  ghost predicate Describes(s: Statistics, points: seq<Point>) {
    Extremes(s, points) && Averages(s, points)
  }

  /** The accumulators of the loop after the points read so far. */
  datatype Sums = Sums(hasData: bool, from: int, to: int, min: real, max: real, count: nat, total: real,
                       firstTotal: real, firstCount: nat, latestTotal: real, latestCount: nat)

  ghost predicate Tracks(a: Sums, points: seq<Point>) {
    && (a.hasData <==> exists p :: p in points && Usable(p))
    && a.count as real == Total(points, Count) && a.total == Total(points, Sum)
    && (!a.hasData ==> a.min == a.max == 0.0 && a.from == a.to == 0)
    && (a.hasData ==>
          && a.count > 0 && a.firstCount > 0 && a.latestCount > 0
          && (forall p :: p in points && Usable(p) ==> a.from <= p.time.value <= a.to && a.min <= p.number.value <= a.max)
          && (exists p :: p in points && Usable(p) && p.time.value == a.from)
          && (exists p :: p in points && Usable(p) && p.time.value == a.to)
          && (exists p :: p in points && Usable(p) && p.number.value == a.min)
          && (exists p :: p in points && Usable(p) && p.number.value == a.max)
          && a.firstCount as real == Total(points, CountAt(a.from)) && a.firstTotal == Total(points, SumAt(a.from))
          && a.latestCount as real == Total(points, CountAt(a.to)) && a.latestTotal == Total(points, SumAt(a.to)))
  }

  /** No point of another time counts. */
  lemma {:induction false} NothingAt(points: seq<Point>, t: int)
    requires forall p :: p in points && Usable(p) ==> p.time.value != t
    ensures Total(points, CountAt(t)) == 0.0 && Total(points, SumAt(t)) == 0.0
  {
    if |points| > 0 {
      NothingAt(points[..|points| - 1], t);
    }
  }

  const NOTHING_READ := Sums(false, 0, 0, 0.0, 0.0, 0, 0.0, 0.0, 0, 0.0, 0)

  function Lesser(a: real, b: real): real {
    if b < a then b else a
  }

  function Greater(a: real, b: real): real {
    if a < b then b else a
  }

  /** The accumulators after one point more. */
  function Take(a: Sums, p: Point): Sums {
    if !Usable(p) then a else
    var t, v := p.time.value, p.number.value;
    Sums(true,
         if !a.hasData || t < a.from then t else a.from,
         if !a.hasData || a.to < t then t else a.to,
         if !a.hasData then v else Lesser(a.min, v),
         if !a.hasData then v else Greater(a.max, v),
         a.count + 1, a.total + v,
         if !a.hasData || t < a.from then v else if t == a.from then a.firstTotal + v else a.firstTotal,
         if !a.hasData || t < a.from then 1 else if t == a.from then a.firstCount + 1 else a.firstCount,
         if !a.hasData || a.to < t then v else if t == a.to then a.latestTotal + v else a.latestTotal,
         if !a.hasData || a.to < t then 1 else if t == a.to then a.latestCount + 1 else a.latestCount)
  }

  lemma TakeTotals(a: Sums, points: seq<Point>, p: Point)
    requires Tracks(a, points) && Usable(p)
    ensures var a' := Take(a, p);
            && a'.count as real == Total(points + [p], Count) && a'.total == Total(points + [p], Sum)
            && a'.firstCount as real == Total(points + [p], CountAt(a'.from)) && a'.firstTotal == Total(points + [p], SumAt(a'.from))
            && a'.latestCount as real == Total(points + [p], CountAt(a'.to)) && a'.latestTotal == Total(points + [p], SumAt(a'.to))
  {
    var a' := Take(a, p);
    TotalAppend(points, p, Count);
    TotalAppend(points, p, Sum);
    TotalAppend(points, p, CountAt(a'.from));
    TotalAppend(points, p, SumAt(a'.from));
    TotalAppend(points, p, CountAt(a'.to));
    TotalAppend(points, p, SumAt(a'.to));
    if !a.hasData || p.time.value < a.from {
      NothingAt(points, p.time.value);
    }
    if !a.hasData || a.to < p.time.value {
      NothingAt(points, p.time.value);
    }
  }

  lemma TakeExtremes(a: Sums, points: seq<Point>, p: Point)
    requires Tracks(a, points) && Usable(p)
    ensures var a', points' := Take(a, p), points + [p];
            && (forall q :: q in points' && Usable(q) ==> a'.from <= q.time.value <= a'.to && a'.min <= q.number.value <= a'.max)
            && (exists q :: q in points' && Usable(q) && q.time.value == a'.from)
            && (exists q :: q in points' && Usable(q) && q.time.value == a'.to)
            && (exists q :: q in points' && Usable(q) && q.number.value == a'.min)
            && (exists q :: q in points' && Usable(q) && q.number.value == a'.max)
  {
    var points' := points + [p];
    assert p in points' && forall q :: q in points ==> q in points';
    if a.hasData {
      var q :| q in points && Usable(q) && q.time.value == a.from;
      var r :| r in points && Usable(r) && r.time.value == a.to;
      var s :| s in points && Usable(s) && s.number.value == a.min;
      var u :| u in points && Usable(u) && u.number.value == a.max;
      assert q in points' && r in points' && s in points' && u in points';
    }
  }

  lemma TakeTracks(a: Sums, points: seq<Point>, p: Point)
    requires Tracks(a, points)
    ensures Tracks(Take(a, p), points + [p])
  {
    if Usable(p) {
      TakeTotals(a, points, p);
      TakeExtremes(a, points, p);
      assert p in points + [p];
    } else {
      SkipTracks(a, points, p);
    }
  }

  lemma SkipTracks(a: Sums, points: seq<Point>, p: Point)
    requires Tracks(a, points) && !Usable(p)
    ensures Tracks(a, points + [p])
  {
    TotalAppend(points, p, Count);
    TotalAppend(points, p, Sum);
    TotalAppend(points, p, CountAt(a.from));
    TotalAppend(points, p, SumAt(a.from));
    TotalAppend(points, p, CountAt(a.to));
    TotalAppend(points, p, SumAt(a.to));
    forall q | Usable(q) ensures q in points + [p] <==> q in points {
    }
  }

  /** The inner loop: one series on top of those read before. */
  method ReadSeries(a0: Sums, series: seq<Point>, ghost before: seq<Point>) returns (a: Sums)
    requires Tracks(a0, before)
    ensures Tracks(a, before + series)
  {
    a := a0;
    assert before + series[..0] == before;
    var j := 0;
    while j < |series|
      invariant j <= |series| && Tracks(a, before + series[..j])
    {
      assert before + series[..j + 1] == before + series[..j] + [series[j]];
      TakeTracks(a, before + series[..j], series[j]);
      a := Accumulate(a, series[j]);
      j := j + 1;
    }
    assert series[..j] == series;
  }

  method ReadAll(series: seq<seq<Point>>) returns (a: Sums)
    ensures Tracks(a, AllPoints(series))
  {
    a := NOTHING_READ;
    var i := 0;
    while i < |series|
      invariant i <= |series| && Tracks(a, AllPoints(series[..i]))
    {
      assert series[..i + 1][..i] == series[..i];
      a := ReadSeries(a, series[i], AllPoints(series[..i]));
      i := i + 1;
    }
    assert series[..i] == series;
  }

  method Summarize(series: seq<seq<Point>>) returns (result: Statistics)
    ensures Describes(result, AllPoints(series)) && result.seriesCount == |series|
  {
    var a := ReadAll(series);
    ConcludeDescribes(a, AllPoints(series), |series|);
    result := Statistics(|series|, a.count, 0.0, 0.0, a.min, a.max, 0.0, 0.0, a.from, a.to, a.hasData);
    if a.hasData {
      result := result.(first := a.firstTotal / a.firstCount as real);
      result := result.(latest := a.latestTotal / a.latestCount as real);
      result := result.(mean := a.total / a.count as real);
      result := result.(delta := result.latest - result.first);
    }
  }

  lemma ConcludeDescribes(a: Sums, points: seq<Point>, n: nat)
    requires Tracks(a, points)
    ensures a.hasData ==>
              && a.firstCount > 0 && a.latestCount > 0 && a.count > 0
              && var first, latest := a.firstTotal / a.firstCount as real, a.latestTotal / a.latestCount as real;
                 Describes(Statistics(n, a.count, first, latest, a.min, a.max, a.total / a.count as real, latest - first,
                                      a.from, a.to, true), points)
    ensures !a.hasData ==> Describes(Statistics(n, a.count, 0.0, 0.0, a.min, a.max, 0.0, 0.0, a.from, a.to, false), points)
  {
    if a.hasData {
      MeanOf(a.firstTotal, a.firstCount);
      MeanOf(a.latestTotal, a.latestCount);
      MeanOf(a.total, a.count);
    }
  }

  lemma MeanOf(sum: real, count: nat)
    requires count > 0
    ensures IsMean(sum / count as real, count as real, sum)
  {
    QuotientBack(sum, count as real);
  }

  lemma QuotientBack(x: real, y: real)
    requires y != 0.0
    ensures x / y * y == x
  {
  }

  /** The body of the loop, variable by variable. */
  method Accumulate(a: Sums, point: Point) returns (r: Sums)
    ensures r == Take(a, point)
  {
    r := a;
    if point.time.None? || point.number.NotFinite? {
      return;
    }
    var time, value := point.time.value, point.number.value;
    if !r.hasData || time < r.from {
      r := r.(from := time, firstTotal := value, firstCount := 1);
    } else if time == r.from {
      r := r.(firstTotal := r.firstTotal + value, firstCount := r.firstCount + 1);
    }
    if !r.hasData || time > r.to {
      r := r.(to := time, latestTotal := value, latestCount := 1);
    } else if time == r.to {
      r := r.(latestTotal := r.latestTotal + value, latestCount := r.latestCount + 1);
    }
    if !r.hasData {
      r := r.(min := value, max := value);
    } else {
      r := r.(min := Lesser(r.min, value), max := Greater(r.max, value));
    }
    r := r.(hasData := true, count := r.count + 1, total := r.total + value);
  }

  // ------------------------------------------------------------------- properties

  lemma {:induction false} TotalOfParts(a: seq<Point>, b: seq<Point>, m: Measure)
    ensures Total(a + b, m) == Total(a, m) + Total(b, m)
  {
    if |b| == 0 {
      assert a + b == a;
    } else {
      TotalOfParts(a, b[..|b| - 1], m);
      assert (a + b)[..|a + b| - 1] == a + b[..|b| - 1];
    }
  }

  lemma TakenOut(a: seq<Point>, b: seq<Point>, k: nat)
    requires multiset(a) == multiset(b) && |a| > 0 && k < |b| && b[k] == a[|a| - 1]
    ensures multiset(a[..|a| - 1]) == multiset(b[..k] + b[k + 1..])
  {
    var last := b[k];
    assert a == a[..|a| - 1] + [last] && b == b[..k] + [last] + b[k + 1..];
    assert multiset(a) == multiset(a[..|a| - 1]) + multiset{last};
    assert multiset(b) == multiset(b[..k]) + multiset{last} + multiset(b[k + 1..]);
    assert multiset(b[..k] + b[k + 1..]) == multiset(b[..k]) + multiset(b[k + 1..]);
    CancelOne(multiset(a[..|a| - 1]), multiset(b[..k] + b[k + 1..]), last);
  }

  lemma CancelOne(x: multiset<Point>, y: multiset<Point>, e: Point)
    requires x + multiset{e} == y + multiset{e}
    ensures x == y
  {
    assert x == (x + multiset{e}) - multiset{e};
    assert y == (y + multiset{e}) - multiset{e};
  }

  lemma TotalWithout(b: seq<Point>, k: nat, m: Measure)
    requires k < |b|
    ensures Total(b, m) == Total(b[..k] + b[k + 1..], m) + Weigh(m, b[k])
  {
    assert b == (b[..k] + [b[k]]) + b[k + 1..];
    TotalOfParts(b[..k], b[k + 1..], m);
    TotalOfParts(b[..k] + [b[k]], b[k + 1..], m);
    TotalAppend(b[..k], b[k], m);
  }

  lemma FoundIn(a: seq<Point>, b: seq<Point>, p: Point)
    requires multiset(a) == multiset(b)
    ensures p in a <==> p in b
  {
    assert p in a <==> p in multiset(a);
    assert p in b <==> p in multiset(b);
  }

  /** A total does not depend on the order of the points. */
  lemma {:induction false} TotalPermutes(a: seq<Point>, b: seq<Point>, m: Measure)
    requires multiset(a) == multiset(b)
    ensures Total(a, m) == Total(b, m)
  {
    if |a| == 0 {
      assert |b| == |multiset(b)| == 0;
    } else {
      FoundIn(a, b, a[|a| - 1]);
      var k :| 0 <= k < |b| && b[k] == a[|a| - 1];
      TakenOut(a, b, k);
      TotalPermutes(a[..|a| - 1], b[..k] + b[k + 1..], m);
      TotalWithout(b, k, m);
    }
  }

  lemma ExtremesAreUnique(s: Statistics, t: Statistics, points: seq<Point>)
    requires Extremes(s, points) && Extremes(t, points)
    ensures s.hasData == t.hasData && s.actualFrom == t.actualFrom && s.actualTo == t.actualTo && s.min == t.min && s.max == t.max
  {
  }

  /** A description fits one summary only. */
  lemma DescriptionIsUnique(s: Statistics, t: Statistics, points: seq<Point>)
    requires Describes(s, points) && Describes(t, points)
    ensures s == t.(seriesCount := s.seriesCount)
  {
    ExtremesAreUnique(s, t, points);
    if s.hasData {
      SomethingAt(points, s.actualFrom);
      SomethingAt(points, s.actualTo);
      SameQuotient(s.first, t.first, Total(points, CountAt(s.actualFrom)), Total(points, SumAt(s.actualFrom)));
      SameQuotient(s.latest, t.latest, Total(points, CountAt(s.actualTo)), Total(points, SumAt(s.actualTo)));
      SameQuotient(s.mean, t.mean, Total(points, Count), Total(points, Sum));
    }
  }

  lemma SameQuotient(x: real, y: real, count: real, sum: real)
    requires IsMean(x, count, sum) && IsMean(y, count, sum) && count > 0.0
    ensures x == y
  {
    assert (x - y) * count == 0.0;
  }

  lemma {:induction false} CountsAreNonNegative(points: seq<Point>, t: int)
    ensures Total(points, CountAt(t)) >= 0.0 && Total(points, Count) >= Total(points, CountAt(t))
  {
    if |points| > 0 {
      CountsAreNonNegative(points[..|points| - 1], t);
    }
  }

  lemma {:induction false} SomethingAt(points: seq<Point>, t: int)
    requires exists p :: p in points && Usable(p) && p.time.value == t
    ensures 0.0 < Total(points, CountAt(t)) <= Total(points, Count)
  {
    CountsAreNonNegative(points, t);
    var last := points[|points| - 1];
    CountsAreNonNegative(points[..|points| - 1], t);
    if !(Usable(last) && last.time.value == t) {
      var p :| p in points && Usable(p) && p.time.value == t;
      assert points == points[..|points| - 1] + [last];
      assert p in points[..|points| - 1];
      SomethingAt(points[..|points| - 1], t);
    }
  }

  /** The summary depends on what was measured, not on how series and points are arranged. */
  lemma ArrangementIsIrrelevant(s: Statistics, t: Statistics, a: seq<seq<Point>>, b: seq<seq<Point>>)
    requires multiset(AllPoints(a)) == multiset(AllPoints(b))
    requires Describes(s, AllPoints(a)) && Describes(t, AllPoints(b))
    ensures s == t.(seriesCount := s.seriesCount)
  {
    SameMeasurements(s, AllPoints(a), AllPoints(b));
    DescriptionIsUnique(s, t, AllPoints(b));
  }

  lemma SameMeasurements(s: Statistics, a: seq<Point>, b: seq<Point>)
    requires multiset(a) == multiset(b) && Describes(s, a)
    ensures Describes(s, b)
  {
    forall p ensures p in a <==> p in b {
      FoundIn(a, b, p);
    }
    TotalPermutes(a, b, Count);
    TotalPermutes(a, b, Sum);
    TotalPermutes(a, b, CountAt(s.actualFrom));
    TotalPermutes(a, b, SumAt(s.actualFrom));
    TotalPermutes(a, b, CountAt(s.actualTo));
    TotalPermutes(a, b, SumAt(s.actualTo));
  }

  // ------------------------------------------------------- the stored sample range

  /** The extremes of all timestamps, whatever the values. */
  ghost predicate Spans(r: Option<(int, int)>, points: seq<Point>) {
    match r
    case None => forall p :: p in points ==> p.time.None?
    case Some(range) =>
      && (forall p :: p in points && p.time.Some? ==> range.0 <= p.time.value <= range.1)
      && (exists p :: p in points && p.time == Some(range.0))
      && (exists p :: p in points && p.time == Some(range.1))
  }

  lemma SpanGrows(r: Option<(int, int)>, points: seq<Point>, p: Point)
    requires Spans(r, points)
    ensures var r' := if p.time.None? then r
                      else if r.None? then Some((p.time.value, p.time.value))
                      else Some((if p.time.value < r.value.0 then p.time.value else r.value.0,
                                 if p.time.value > r.value.1 then p.time.value else r.value.1));
            Spans(r', points + [p])
  {
    var points' := points + [p];
    assert p in points' && forall q :: q in points ==> q in points';
    if r.Some? {
      var q :| q in points && q.time == Some(r.value.0);
      var u :| u in points && u.time == Some(r.value.1);
      assert q in points' && u in points';
    }
  }

  /** The inner loop of the range. */
  method SpanSeries(r0: Option<(int, int)>, series: seq<Point>, ghost before: seq<Point>) returns (r: Option<(int, int)>)
    requires Spans(r0, before)
    ensures Spans(r, before + series)
  {
    r := r0;
    assert before + series[..0] == before;
    var j := 0;
    while j < |series|
      invariant j <= |series| && Spans(r, before + series[..j])
    {
      assert before + series[..j + 1] == before + series[..j] + [series[j]];
      SpanGrows(r, before + series[..j], series[j]);
      var time := series[j].time;
      if time.Some? {
        if r.None? {
          r := Some((time.value, time.value));
        } else {
          var first, last := r.value.0, r.value.1;
          if time.value < first {
            first := time.value;
          }
          if time.value > last {
            last := time.value;
          }
          r := Some((first, last));
        }
      }
      j := j + 1;
    }
    assert series[..j] == series;
  }

  method ActualSampleRange(series: seq<seq<Point>>) returns (r: Option<(int, int)>)
    ensures Spans(r, AllPoints(series))
  {
    r := None;
    var i := 0;
    while i < |series|
      invariant i <= |series| && Spans(r, AllPoints(series[..i]))
    {
      assert series[..i + 1][..i] == series[..i];
      r := SpanSeries(r, series[i], AllPoints(series[..i]));
      i := i + 1;
    }
    assert series[..i] == series;
  }

  /** Where every timed value is finite, the summary's range is the stored range. */
  lemma RangesAgree(s: Statistics, r: Option<(int, int)>, points: seq<Point>)
    requires Describes(s, points) && Spans(r, points)
    requires forall p :: p in points && p.time.Some? ==> p.number.Finite?
    ensures r == if s.hasData then Some((s.actualFrom, s.actualTo)) else None
  {
  }
}
