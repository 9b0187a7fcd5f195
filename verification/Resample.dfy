/** The mock engine's linear resampler, over exact reals. */
module Resample {

  const SECOND := 1_000_000_000

  datatype Point = Point(time: int, value: real)

  datatype Series = Series(name: string, points: seq<Point>)

  function PointCount(start: int, end: int, step: int): nat
    requires start < end && 0 < step
  {
    (end - start) / (step * SECOND) + 1
  }

  function Larger(a: int, b: int): int {
    if a < b then b else a
  }

  function Smaller(a: int, b: int): int {
    if b < a then b else a
  }

  /** Where among `n` source points the `i`-th of `count` new points falls. */
  function Position(i: nat, count: nat, n: nat): real
    requires 0 < n && 0 < count
  {
    i as real * (n - 1) as real / Larger(count - 1, 1) as real
  }

  /** A fraction of the way from `a` to `b`. */
  function Along(a: real, b: real, fraction: real): real {
    a + (b - a) * fraction
  }

  /** The source read at a fractional position: a straight line between neighbours. */
  function ReadAt(points: seq<Point>, x: real): real
    requires |points| > 0 && 0.0 <= x <= (|points| - 1) as real
  {
    var left := x.Floor;
    var right := Smaller(left + 1, |points| - 1);
    Along(points[left].value, points[right].value, x - left as real)
  }

  lemma PositionInRange(i: nat, count: nat, n: nat)
    requires 0 < n && i < count
    ensures 0.0 <= Position(i, count, n) <= (n - 1) as real
    ensures Position(0, count, n) == 0.0
    ensures count > 1 ==> Position(count - 1, count, n) == (n - 1) as real
  {
    var a, b, d := i as real, (n - 1) as real, Larger(count - 1, 1) as real;
    Scale(a, d, b);
    Quotient(a * b, d);
    Quotient(d * b, d);
    Below(a * b, d * b, d);
  }

  lemma Scale(a: real, d: real, b: real)
    requires 0.0 <= a <= d && 0.0 <= b
    ensures 0.0 <= a * b <= d * b
  {
    assert (d - a) * b >= 0.0;
  }

  lemma Quotient(x: real, d: real)
    requires d != 0.0
    ensures x / d * d == x
  {
  }

  lemma Below(x: real, y: real, d: real)
    requires x <= y && 0.0 < d
    ensures x / d <= y / d
  {
    Quotient(x, d);
    Quotient(y, d);
    StrictlyScales(y / d, x / d, d);
  }

  lemma StrictlyScales(p: real, q: real, d: real)
    requires 0.0 < d
    ensures p < q ==> p * d < q * d
  {
    if p < q {
      assert (q - p) * d > 0.0;
    }
  }

  lemma PositionMonotone(i: nat, j: nat, count: nat, n: nat)
    requires 0 < n && i <= j < count
    ensures Position(i, count, n) <= Position(j, count, n)
  {
    Scale(i as real, j as real, (n - 1) as real);
    Below(i as real * (n - 1) as real, j as real * (n - 1) as real, Larger(count - 1, 1) as real);
  }

  ghost predicate Between(v: real, a: real, b: real) {
    (a <= v <= b) || (b <= v <= a)
  }

  lemma Sign(d: real, g: real)
    requires 0.0 <= g
    ensures 0.0 <= d ==> 0.0 <= d * g
    ensures d <= 0.0 ==> d * g <= 0.0
  {
  }

  /** Going further along a rise is rising, along a fall falling. */
  lemma AlongInOrder(a: real, b: real, f: real, g: real)
    requires f <= g
    ensures a <= b ==> Along(a, b, f) <= Along(a, b, g)
    ensures b <= a ==> Along(a, b, g) <= Along(a, b, f)
  {
    var d, h := b - a, g - f;
    Sign(d, h);
    assert d * g == d * f + d * h;
  }

  lemma AlongEnds(a: real, b: real)
    ensures Along(a, b, 0.0) == a && Along(a, b, 1.0) == b
  {
  }

  lemma OnSegment(a: real, b: real, f: real)
    requires 0.0 <= f <= 1.0
    ensures Between(Along(a, b, f), a, b)
  {
    AlongEnds(a, b);
    AlongInOrder(a, b, 0.0, f);
    AlongInOrder(a, b, f, 1.0);
  }

  /** A value read lies between its two neighbours. */
  lemma ReadsBetween(points: seq<Point>, x: real)
    requires |points| > 0 && 0.0 <= x <= (|points| - 1) as real
    ensures var left := x.Floor;
            var right := Smaller(left + 1, |points| - 1);
            && 0 <= left <= right < |points|
            && Between(ReadAt(points, x), points[left].value, points[right].value)
  {
    var left := x.Floor;
    var right := Smaller(left + 1, |points| - 1);
    OnSegment(points[left].value, points[right].value, x - left as real);
  }

  ghost predicate Rising(points: seq<Point>) {
    forall i, j :: 0 <= i <= j < |points| ==> points[i].value <= points[j].value
  }

  ghost predicate Falling(points: seq<Point>) {
    forall i, j :: 0 <= i <= j < |points| ==> points[j].value <= points[i].value
  }

  /** Reading a rising source further along never gives less. */
  lemma ReadMonotone(points: seq<Point>, x: real, y: real)
    requires |points| > 0 && 0.0 <= x <= y <= (|points| - 1) as real
    ensures Rising(points) ==> ReadAt(points, x) <= ReadAt(points, y)
    ensures Falling(points) ==> ReadAt(points, y) <= ReadAt(points, x)
  {
    ReadsBetween(points, x);
    ReadsBetween(points, y);
    if x.Floor == y.Floor {
      var left := x.Floor;
      var right := Smaller(left + 1, |points| - 1);
      AlongInOrder(points[left].value, points[right].value, x - left as real, y - left as real);
    } else {
      assert x.Floor + 1 <= y.Floor;
    }
  }

  /** One series drawn on the new grid: `count` points from `start` on, `step` seconds apart. */
  ghost predicate Resampled(points: seq<Point>, source: seq<Point>, start: int, end: int, step: int)
    requires start < end && 0 < step && |source| > 0
  {
    var count := PointCount(start, end, step);
    && |points| == count
    && (forall i :: 0 <= i < count ==>
          && points[i].time == start + i * step * SECOND
          && 0.0 <= Position(i, count, |source|) <= (|source| - 1) as real
          && points[i].value == ReadAt(source, Position(i, count, |source|)))
  }

  method ResamplePoints(source: seq<Point>, start: int, end: int, step: int) returns (points: seq<Point>)
    requires start < end && 0 < step && |source| > 0
    ensures Resampled(points, source, start, end, step)
  {
    var count := PointCount(start, end, step);
    CountPositive(start, end, step);
    var copied := new Point[count](i => Point(0, 0.0));
    var i := 0;
    while i < count
      invariant i <= count
      invariant forall j :: 0 <= j < i ==>
                  && copied[j].time == start + j * step * SECOND
                  && 0.0 <= Position(j, count, |source|) <= (|source| - 1) as real
                  && copied[j].value == ReadAt(source, Position(j, count, |source|))
    {
      PositionInRange(i, count, |source|);
      var value := Interpolate(source, Position(i, count, |source|));
      copied[i] := Point(start + i * step * SECOND, value);
      i := i + 1;
    }
    points := copied[..];
  }

  method Interpolate(source: seq<Point>, position: real) returns (value: real)
    requires |source| > 0 && 0.0 <= position <= (|source| - 1) as real
    ensures value == ReadAt(source, position)
  {
    var left := position.Floor;
    var right := Smaller(left + 1, |source| - 1);
    var fraction := position - left as real;
    value := source[left].value + (source[right].value - source[left].value) * fraction;
  }

  lemma CountPositive(start: int, end: int, step: int)
    requires start < end && 0 < step
    ensures PointCount(start, end, step) > 0
  {
    assert (end - start) / (step * SECOND) >= 0;
  }

  /** Resampling leaves a result without a first point alone, and redraws every series otherwise. */
  method ResampleToRange(series: seq<Series>, start: int, end: int, step: int) returns (result: seq<Series>)
    requires start < end && 0 < step
    requires |series| > 0 && |series[0].points| > 0 ==> forall s :: s in series ==> |s.points| > 0
    ensures |series| == 0 || |series[0].points| == 0 ==> result == series
    ensures |series| > 0 && |series[0].points| > 0 ==>
              && |result| == |series|
              && forall i :: 0 <= i < |series| ==>
                   result[i].name == series[i].name && Resampled(result[i].points, series[i].points, start, end, step)
  {
    if |series| == 0 || |series[0].points| == 0 {
      return series;
    }
    result := [];
    var i := 0;
    while i < |series|
      invariant i <= |series| && |result| == i
      invariant forall j :: 0 <= j < i ==>
                  result[j].name == series[j].name && Resampled(result[j].points, series[j].points, start, end, step)
    {
      assert series[i] in series;
      var points := ResamplePoints(series[i].points, start, end, step);
      result := result + [Series(series[i].name, points)];
      i := i + 1;
    }
  }

  /** The grid fills the range: it starts at the start, never passes the end and misses it by less than a step. */
  lemma GridFillsRange(points: seq<Point>, source: seq<Point>, start: int, end: int, step: int)
    requires start < end && 0 < step && |source| > 0 && Resampled(points, source, start, end, step)
    ensures |points| > 0 && points[0].time == start
    ensures forall i :: 0 <= i < |points| ==> points[i].time <= end
    ensures end - points[|points| - 1].time < step * SECOND
  {
    CountPositive(start, end, step);
    var d := step * SECOND;
    var q := (end - start) / d;
    assert q * d <= end - start < q * d + d;
    forall i | 0 <= i < |points| ensures points[i].time <= end {
      WholeSteps(i, q, step);
    }
    WholeSteps(q, q, step);
  }

  lemma WholeSteps(i: int, q: int, step: int)
    requires i <= q && 0 < step
    ensures i * step * SECOND <= q * (step * SECOND)
    ensures q * step * SECOND == q * (step * SECOND)
  {
    assert (q - i) * step >= 0;
  }

  /** The ends are kept: the first value, and the last when there is more than one point. */
  lemma EndsAreKept(points: seq<Point>, source: seq<Point>, start: int, end: int, step: int)
    requires start < end && 0 < step && |source| > 0 && Resampled(points, source, start, end, step)
    ensures |points| > 0 && points[0].value == source[0].value
    ensures |points| > 1 ==> points[|points| - 1].value == source[|source| - 1].value
  {
    CountPositive(start, end, step);
    PositionInRange(0, |points|, |source|);
    PositionInRange(|points| - 1, |points|, |source|);
  }

  /** `v` weighs the two source points about position way / d by how near they are, in parts of d. */
  ghost predicate Weighs(v: real, source: seq<Point>, way: nat, d: nat)
    requires |source| > 0 && 0 < d
  {
    var left, part := way / d, way % d;
    && left < |source|
    && v * d as real == source[left].value * (d - part) as real + source[Smaller(left + 1, |source| - 1)].value * part as real
  }

  /** In whole numbers: point `i` of `d + 1` is read `i * (n - 1)` d-th parts along the `n` source
      points, so an evenly spaced source is redrawn evenly. */
  lemma DrawnInParts(points: seq<Point>, source: seq<Point>, start: int, end: int, step: int, i: nat, way: nat)
    requires start < end && 0 < step && |source| > 0 && Resampled(points, source, start, end, step)
    requires i < |points| && |points| > 1 && way == i * (|source| - 1)
    ensures Weighs(points[i].value, source, way, |points| - 1)
  {
    PositionIs(i, |points|, |source|, way);
    ReadInParts(source, way, |points| - 1, Position(i, |points|, |source|));
  }

  lemma PositionIs(i: nat, count: nat, n: nat, way: nat)
    requires 0 < n && i < count && count > 1 && way == i * (n - 1)
    ensures Position(i, count, n) == way as real / (count - 1) as real
    ensures 0.0 <= Position(i, count, n) <= (n - 1) as real
  {
    PositionInRange(i, count, n);
    assert i as real * (n - 1) as real == way as real;
  }

  lemma ReadInParts(source: seq<Point>, way: nat, d: nat, x: real)
    requires |source| > 0 && 0 < d && x == way as real / d as real && 0.0 <= x <= (|source| - 1) as real
    ensures Weighs(ReadAt(source, x), source, way, d)
  {
    WholePart(way, d, x);
    WeighedBy(source[x.Floor].value, source[Smaller(x.Floor + 1, |source| - 1)].value, x - x.Floor as real, way % d, d);
  }

  lemma WholePart(way: nat, d: nat, x: real)
    requires 0 < d && x == way as real / d as real
    ensures x.Floor == way / d && (x - (way / d) as real) * d as real == (way % d) as real
  {
    var q, part := way / d, way % d;
    Quotient(way as real, d as real);
    assert way == q * d + part;
    assert x * d as real == (q as real) * d as real + part as real;
    assert (x - q as real) * d as real == part as real;
    StrictlyScales(1.0, x - q as real, d as real);
    StrictlyScales(x - q as real, 1.0, d as real);
    if x - q as real < 0.0 {
      StrictlyScales(x - q as real, 0.0, d as real);
    }
  }

  lemma WeighedBy(a: real, b: real, f: real, part: nat, d: nat)
    requires f * d as real == part as real && part <= d
    ensures Along(a, b, f) * d as real == a * (d - part) as real + b * part as real
  {
    var e := d as real;
    assert (b - a) * f * e == (b - a) * part as real;
    assert (d - part) as real == e - part as real;
  }

  /** `v` lies between neighbour `k` of the source and the next. */
  ghost predicate NearNeighbour(v: real, source: seq<Point>, k: int)
    requires |source| > 0
  {
    0 <= k < |source| && Between(v, source[k].value, source[Smaller(k + 1, |source| - 1)].value)
  }

  ghost predicate BetweenNeighbours(v: real, source: seq<Point>)
    requires |source| > 0
  {
    exists k :: NearNeighbour(v, source, k)
  }

  lemma DrawnInOrder(points: seq<Point>, source: seq<Point>, start: int, end: int, step: int, i: nat, j: nat)
    requires start < end && 0 < step && |source| > 0 && Resampled(points, source, start, end, step)
    requires i <= j < |points|
    ensures Rising(source) ==> points[i].value <= points[j].value
    ensures Falling(source) ==> points[j].value <= points[i].value
  {
    PositionMonotone(i, j, |points|, |source|);
    ReadMonotone(source, Position(i, |points|, |source|), Position(j, |points|, |source|));
  }

  /** Every value lies between two neighbours of the source, and a monotone source stays monotone. */
  lemma ShapeIsKept(points: seq<Point>, source: seq<Point>, start: int, end: int, step: int)
    requires start < end && 0 < step && |source| > 0 && Resampled(points, source, start, end, step)
    ensures forall i :: 0 <= i < |points| ==> BetweenNeighbours(points[i].value, source)
    ensures Rising(source) ==> Rising(points)
    ensures Falling(source) ==> Falling(points)
  {
    forall i | 0 <= i < |points| ensures BetweenNeighbours(points[i].value, source) {
      var x := Position(i, |points|, |source|);
      ReadsBetween(source, x);
      assert NearNeighbour(points[i].value, source, x.Floor);
    }
    if Rising(source) {
      forall i, j | 0 <= i <= j < |points| ensures points[i].value <= points[j].value {
        DrawnInOrder(points, source, start, end, step, i, j);
      }
    }
    if Falling(source) {
      forall i, j | 0 <= i <= j < |points| ensures points[j].value <= points[i].value {
        DrawnInOrder(points, source, start, end, step, i, j);
      }
    }
  }
}
