/** The bounded query planner, and its agreement with the guards of the services that run the plan. */
module QueryPlan {
  import opened Basics

  const SECOND := 1_000_000_000
  const MINUTE := 60 * SECOND
  const HOUR := 60 * MINUTE
  const DEFAULT_RANGE := 30 * MINUTE
  const MIN_RANGE := 30 * SECOND
  const MAX_RANGE := 6 * HOUR
  const MAX_AUTO_POINTS := 300
  const MAX_EXPLICIT_POINTS := 1000
  const ALLOWED_STEPS := [5, 10, 15, 30, 60, 120, 300]

  datatype TimeRange = TimeRange(from: int, to: int)

  datatype Requested = Requested(absolute: Option<TimeRange>, relative: int)

  datatype Plan = Plan(views: seq<string>, step: int, window: int)

  predicate KnownView(view: string) {
    view == "cpu" || view == "memory" || view == "load"
  }

  predicate AllowedStep(step: int) {
    step in ALLOWED_STEPS
  }

  predicate AllowedWindow(window: int) {
    window == 30 || window == 60 || window == 300
  }

  /** Samples a range query returns, counting both ends. */
  function TheoreticalPoints(duration: int, step: int): int
    requires 0 <= duration && 0 < step
  {
    duration / (step * SECOND) + 1
  }

  /** The least allowed step from position `i` on that stays within the automatic budget. */
  function AutoStepFrom(duration: int, i: nat): int
    requires 0 <= duration && i <= |ALLOWED_STEPS|
    decreases |ALLOWED_STEPS| - i
  {
    if i == |ALLOWED_STEPS| then ALLOWED_STEPS[|ALLOWED_STEPS| - 1]
    else if TheoreticalPoints(duration, ALLOWED_STEPS[i]) <= MAX_AUTO_POINTS then ALLOWED_STEPS[i]
    else AutoStepFrom(duration, i + 1)
  }

  method AutoStep(duration: int) returns (step: int)
    requires 0 <= duration
    ensures step == AutoStepFrom(duration, 0)
  {
    var i := 0;
    while i < |ALLOWED_STEPS|
      invariant i <= |ALLOWED_STEPS| && AutoStepFrom(duration, 0) == AutoStepFrom(duration, i)
    {
      if TheoreticalPoints(duration, ALLOWED_STEPS[i]) <= MAX_AUTO_POINTS {
        return ALLOWED_STEPS[i];
      }
      i := i + 1;
    }
    return ALLOWED_STEPS[|ALLOWED_STEPS| - 1];
  }

  lemma Grows(x: int, y: int, z: int)
    requires x <= y && 0 <= z
    ensures x * z <= y * z
  {
    assert (y - x) * z >= 0;
  }

  /** A quotient is the one number whose multiple is nearest below. */
  lemma QuotientIs(n: int, d: int, q: int)
    requires 0 < d && q * d <= n < q * d + d
    ensures n / d == q
  {
    var p := n / d;
    if p < q {
      Grows(p + 1, q, d);
    } else if q < p {
      Grows(q + 1, p, d);
    }
  }

  lemma QuotientMonotone(n: int, m: int, d: int, e: int)
    requires 0 <= n <= m && 0 < e <= d
    ensures n / d <= m / e
  {
    var p, r := n / d, m / e;
    Grows(e, d, p);
    if r < p {
      Grows(r + 1, p, e);
    }
  }

  /** Coarser steps never ask for more points, and longer ranges never for fewer. */
  lemma PointsMonotone(short: int, long: int, fine: int, coarse: int)
    requires 0 <= short <= long && 0 < fine <= coarse
    ensures TheoreticalPoints(short, coarse) <= TheoreticalPoints(long, fine)
  {
    QuotientMonotone(short, long, coarse * SECOND, fine * SECOND);
  }

  /** For every accepted range the automatic step is the least allowed one within the budget, and
      the last-resort step after the loop is never reached for want of a better. */
  lemma {:induction false} AutoStepIsLeast(duration: int)
    requires 0 <= duration <= MAX_RANGE
    ensures var step := AutoStepFrom(duration, 0);
            && AllowedStep(step) && TheoreticalPoints(duration, step) <= MAX_AUTO_POINTS
            && forall s :: AllowedStep(s) && s < step ==> TheoreticalPoints(duration, s) > MAX_AUTO_POINTS
  {
    LeastFrom(duration, 0);
  }

  lemma {:induction false} LeastFrom(duration: int, i: nat)
    requires 0 <= duration <= MAX_RANGE && i < |ALLOWED_STEPS|
    requires forall j :: 0 <= j < i ==> TheoreticalPoints(duration, ALLOWED_STEPS[j]) > MAX_AUTO_POINTS
    ensures var step := AutoStepFrom(duration, i);
            && AllowedStep(step) && TheoreticalPoints(duration, step) <= MAX_AUTO_POINTS
            && forall s :: AllowedStep(s) && s < step ==> TheoreticalPoints(duration, s) > MAX_AUTO_POINTS
    decreases |ALLOWED_STEPS| - i
  {
    if TheoreticalPoints(duration, ALLOWED_STEPS[i]) > MAX_AUTO_POINTS {
      QuotientMonotone(duration, MAX_RANGE, 300 * SECOND, 300 * SECOND);
      LeastFrom(duration, i + 1);
    }
  }

  /** A longer range never gets a finer step. */
  lemma AutoStepMonotone(short: int, long: int)
    requires 0 <= short <= long <= MAX_RANGE
    ensures AutoStepFrom(short, 0) <= AutoStepFrom(long, 0)
  {
    AutoStepIsLeast(short);
    AutoStepIsLeast(long);
    var a, b := AutoStepFrom(short, 0), AutoStepFrom(long, 0);
    if b < a {
      PointsMonotone(short, long, b, b);
    }
  }

  /** Whole seconds first, then steps, or steps of nanoseconds at once: the same floor. */
  lemma FloorsCompose(n: int, a: int, b: int)
    requires 0 <= n && 0 < a && 0 < b
    ensures n / a / b == n / (b * a)
  {
    var s := n / a;
    var q := s / b;
    Grows(q * b, s, a);
    Grows(s + 1, q * b + b, a);
    MultiplyOut(q, b, a);
    QuotientIs(n, b * a, q);
  }

  lemma MultiplyOut(q: int, b: int, a: int)
    ensures (q * b) * a == q * (b * a) && (q * b + b) * a == q * (b * a) + b * a
  {
  }

  // -------------------------------------------------------------------- the plan

  /** The range a request resolves to: an absolute one as given, else one that ends now. */
  function DurationOf(requested: Requested, plannedRange: Option<int>): int {
    if requested.absolute.Some? then requested.absolute.value.to - requested.absolute.value.from
    else if plannedRange.Some? then plannedRange.value
    else if requested.relative == 0 then DEFAULT_RANGE
    else requested.relative
  }

  function RangeOf(requested: Requested, plannedRange: Option<int>, now: int): TimeRange {
    if requested.absolute.Some? then requested.absolute.value
    else TimeRange(now - DurationOf(requested, plannedRange), now)
  }

  /** The planner's own step goes before the request's. */
  function ExplicitStep(plannedStep: Option<int>, requestedStep: Option<int>): Option<int> {
    if plannedStep.Some? then plannedStep else requestedStep
  }

  predicate GoodViews(views: seq<string>) {
    && (forall i :: 0 <= i < |views| ==> KnownView(views[i]))
    && forall i, j :: 0 <= i < j < |views| ==> views[i] != views[j]
  }

  /** What a request must meet to be accepted. */
  predicate Acceptable(views: seq<string>, duration: int, explicit: Option<int>) {
    && MIN_RANGE <= duration <= MAX_RANGE
    && (explicit.Some? ==> AllowedStep(explicit.value) && TheoreticalPoints(duration, explicit.value) <= MAX_EXPLICIT_POINTS)
    && GoodViews(views)
  }

  /** The window of the CPU rate grows with the range. */
  function WindowFor(duration: int): int {
    if duration <= 10 * MINUTE then 30 else if duration <= HOUR then 60 else 300
  }

  /** What the range and the plan of an accepted request honour: an absolute range as it is given, else one
      that ends now and is as long as planned, or else as requested, or else half an hour; the planned
      step before the requested one; and half a minute, a minute or five for the window, for a range of up
      to ten minutes, up to an hour, or longer. */
  ghost predicate Honours(range: TimeRange, plan: Plan, views: seq<string>, plannedRange: Option<int>, plannedStep: Option<int>,
                          requested: Requested, requestedStep: Option<int>, now: int)
  {
    var length := range.to - range.from;
    && (match requested.absolute
        case Some(given) => range == given
        case None =>
          && range.to == now
          && (plannedRange.Some? ==> length == plannedRange.value)
          && (plannedRange.None? ==> length == if requested.relative == 0 then 1_800 * SECOND else requested.relative))
    && plan.views == views
    && (plannedStep.Some? ==> plan.step == plannedStep.value)
    && (plannedStep.None? && requestedStep.Some? ==> plan.step == requestedStep.value)
    && (plan.window == 30 <==> length <= 600 * SECOND) && (plan.window == 300 <==> length > 3_600 * SECOND)
    && plan.window in {30, 60, 300}
  }

  method NewQueryPlan(views: seq<string>, step: int, window: int) returns (r: Result<Plan>)
    ensures if GoodViews(views) && AllowedStep(step) && AllowedWindow(window) then r == Success(Plan(views, step, window))
            else r == Failure(InvalidArgument)
  {
    var normalized: seq<string> := [];
    var seen: set<string> := {};
    var i := 0;
    while i < |views|
      invariant i <= |views| && normalized == views[..i] && GoodViews(views[..i])
      invariant forall v :: v in seen <==> v in views[..i]
    {
      var view := views[i];
      if view != "cpu" && view != "memory" && view != "load" {
        return Failure(InvalidArgument);
      }
      if view in seen {
        return Failure(InvalidArgument);
      }
      seen := seen + {view};
      normalized := normalized + [view];
      i := i + 1;
    }
    if step !in ALLOWED_STEPS {
      return Failure(InvalidArgument);
    }
    if window != 30 && window != 60 && window != 300 {
      return Failure(InvalidArgument);
    }
    assert views[..i] == views;
    return Success(Plan(normalized, step, window));
  }

  method ResolvePlannedQueryPlan(views: seq<string>, plannedRange: Option<int>, plannedStep: Option<int>,
                                 requested: Requested, requestedStep: Option<int>, now: int)
    returns (r: Result<(TimeRange, Plan)>)
    ensures var duration, explicit := DurationOf(requested, plannedRange), ExplicitStep(plannedStep, requestedStep);
            if Acceptable(views, duration, explicit) then
              r == Success((RangeOf(requested, plannedRange, now),
                            Plan(views, if explicit.Some? then explicit.value else AutoStepFrom(duration, 0), WindowFor(duration))))
            else r == Failure(InvalidArgument)
    ensures r.Success? ==> Honours(r.value.0, r.value.1, views, plannedRange, plannedStep, requested, requestedStep, now)
  {
    var timeRange := ResolveRange(plannedRange, requested, now);
    if timeRange.Failure? {
      return Failure(timeRange.error);
    }
    var (range, duration) := timeRange.value;
    if duration < MIN_RANGE || duration > MAX_RANGE {
      return Failure(InvalidArgument);
    }
    var step := ResolveStep(plannedStep, requestedStep, duration);
    if step.Failure? {
      return Failure(step.error);
    }
    var window := 300;
    if duration <= 10 * MINUTE {
      window := 30;
    } else if duration <= HOUR {
      window := 60;
    }
    var plan := NewQueryPlan(views, step.value, window);
    if plan.Failure? {
      return Failure(plan.error);
    }
    return Success((range, plan.value));
  }

  method ResolveRange(plannedRange: Option<int>, requested: Requested, now: int) returns (r: Result<(TimeRange, int)>)
    ensures var duration := DurationOf(requested, plannedRange);
            if requested.absolute.None? && duration <= 0 then r == Failure(InvalidArgument)
            else r == Success((RangeOf(requested, plannedRange, now), duration))
  {
    var duration := requested.relative;
    if duration == 0 {
      duration := DEFAULT_RANGE;
    }
    if requested.absolute.None? && plannedRange.Some? {
      duration := plannedRange.value;
    }
    if requested.absolute.Some? {
      var given := requested.absolute.value;
      return Success((given, given.to - given.from));
    }
    var range := TimeRange(now - duration, now);
    if range.from >= range.to {
      return Failure(InvalidArgument);
    }
    return Success((range, duration));
  }

  method ResolveStep(plannedStep: Option<int>, requestedStep: Option<int>, duration: int) returns (r: Result<int>)
    requires MIN_RANGE <= duration <= MAX_RANGE
    ensures var explicit := ExplicitStep(plannedStep, requestedStep);
            if explicit.None? then r == Success(AutoStepFrom(duration, 0)) && AllowedStep(AutoStepFrom(duration, 0))
            else if AllowedStep(explicit.value) && TheoreticalPoints(duration, explicit.value) <= MAX_EXPLICIT_POINTS then
              r == Success(explicit.value)
            else r == Failure(InvalidArgument)
  {
    var explicit := plannedStep;
    if explicit.None? {
      explicit := requestedStep;
    }
    var step := AutoStep(duration);
    AutoStepIsLeast(duration);
    if explicit.Some? {
      step := explicit.value;
      if step !in ALLOWED_STEPS {
        return Failure(InvalidArgument);
      }
      if TheoreticalPoints(duration, step) > MAX_EXPLICIT_POINTS {
        return Failure(InvalidArgument);
      }
    }
    return Success(step);
  }

  // -------------------------------------------------------------- downstream guards

  /** The window sent along with a view: only CPU has one. */
  function WindowSent(view: string, window: int): Option<int> {
    if view == "cpu" then Some(window) else None
  }

  /** What the tool service and the query adapter both ask of one query. Whole seconds are counted first. */
  predicate GuardsPass(view: string, window: Option<int>, range: TimeRange, step: int) {
    && KnownView(view)
    && (if view == "cpu" then window.Some? && AllowedWindow(window.value) else window.None?)
    && range.from < range.to && range.to - range.from <= MAX_RANGE
    && AllowedStep(step)
    && (range.to - range.from) / SECOND / step + 1 <= MAX_EXPLICIT_POINTS
  }

  /** Every accepted plan is executable: within the range and point budgets, and through both
      downstream guards for each of its views. */
  lemma AcceptedPlansRun(views: seq<string>, plannedRange: Option<int>, explicit: Option<int>, requested: Requested, now: int, view: string)
    requires Acceptable(views, DurationOf(requested, plannedRange), explicit) && view in views
    ensures var duration := DurationOf(requested, plannedRange);
            var range := RangeOf(requested, plannedRange, now);
            var step := if explicit.Some? then explicit.value else AutoStepFrom(duration, 0);
            && range.to - range.from == duration
            && AllowedStep(step)
            && TheoreticalPoints(duration, step) <= (if explicit.None? then MAX_AUTO_POINTS else MAX_EXPLICIT_POINTS)
            && GuardsPass(view, WindowSent(view, WindowFor(duration)), range, step)
  {
    var duration := DurationOf(requested, plannedRange);
    AutoStepIsLeast(duration);
    FloorsCompose(duration, SECOND, if explicit.Some? then explicit.value else AutoStepFrom(duration, 0));
  }
}
