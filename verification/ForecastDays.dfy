/** What a forecast's days, start and crossings are, and what the line under it is
    (internal/batteryanalysis/analysis.go). */
module ForecastDays {
  import opened Reals
  import opened Counting
  import opened TheilSen
  import SunPhases
  import opened Ledger
  import LedgerDays
  import opened Forecast

  // ---------------------------------------------------------------------- the days --

  function Smaller(a: real, b: real): real {
    if a <= b then a else b
  }

  /** Day k of a forecast from a low of start, whose weather is that of day k of the sun. */
  predicate DayFollows(
    f: Line, inp: Input, all: seq<SunPhases.Daylight>, sqrt: real -> real, start: real, days: seq<ForecastDay>, k: nat)
    requires k < |days| && k + 1 < |all|
  {
    var d, w := days[k], WeatherOf(inp.weather, all[k].sunrise, all[k].sunset, all[k + 1].sunrise, inp.cold);
    var before := if k == 0 then start else days[k - 1].mid;
    var spread := f.spread * sqrt((k + 1) as real);
    && w.DayWeather? && d.rise == all[k].sunrise && d.morning == all[k + 1].sunrise
    && d.sunKWh == w.sunKWh && d.usableKWh == w.usableKWh && d.frozen == w.frozen
    && d.net == f.intercept + f.slope * w.usableKWh
    && d.mid == Smaller(4200.0, before + d.net)
    && d.low == Smaller(4200.0, d.mid - spread) && d.high == Smaller(4200.0, d.mid + spread)
  }

  lemma {:induction false} ProjectAt(
    f: Line, inp: Input, all: seq<SunPhases.Daylight>, sqrt: real -> real, i: nat, mid: real, k: nat)
    requires k < |Project(f, inp, all, sqrt, i, mid)|
    ensures var r := Project(f, inp, all, sqrt, i, mid);
            var w := if i + k + 1 < |all| then Ahead(inp, all, i + k) else NoWeather;
            && i + k + 1 < |all| && w.DayWeather?
            && r[k] == ForecastOf(f, all[i + k], all[i + k + 1], w,
                         MidAfter(f, if k == 0 then mid else r[k - 1].mid, w), SpreadAfter(f, sqrt, i + k + 1))
    decreases |all| - i
  {
    hide WeatherOf, NetFor, SpreadAfter, Capped;
    var mid1 := MidAfter(f, mid, Ahead(inp, all, i));
    assert Project(f, inp, all, sqrt, i, mid)[1..] == Project(f, inp, all, sqrt, i + 1, mid1);
    if k > 0 {
      ProjectAt(f, inp, all, sqrt, i + 1, mid1, k - 1);
      assert i + 1 + (k - 1) == i + k;
    }
  }

  /** Each projected day starts from the middle of the day before, or from the start, gains
      what its usable sunshine gains on the line, and is as wide as the root of its number. */
  lemma EveryDayFollows(f: Line, inp: Input, all: seq<SunPhases.Daylight>, sqrt: real -> real, start: real, k: nat)
    requires k < |Project(f, inp, all, sqrt, 0, start)|
    ensures k + 1 < |all| && DayFollows(f, inp, all, sqrt, start, Project(f, inp, all, sqrt, 0, start), k)
  {
    hide WeatherOf, Project;
    ProjectAt(f, inp, all, sqrt, 0, start, k);
  }

  /** It ends after seven days, or where the sun's days or the weather end. */
  lemma {:induction false} ProjectEnds(
    f: Line, inp: Input, all: seq<SunPhases.Daylight>, sqrt: real -> real, i: nat, mid: real)
    requires i <= 7
    ensures var n := i + |Project(f, inp, all, sqrt, i, mid)|;
            && n <= 7
            && (n < 7 && n + 1 < |all| ==>
                 WeatherOf(inp.weather, all[n].sunrise, all[n].sunset, all[n + 1].sunrise, inp.cold).NoWeather?)
    decreases |all| - i
  {
    hide WeatherOf, NetFor, SpreadAfter, Capped;
    if i + 1 < |all| && i < 7 && Ahead(inp, all, i).DayWeather? {
      ProjectEnds(f, inp, all, sqrt, i + 1, MidAfter(f, mid, Ahead(inp, all, i)));
    }
  }

  // ---------------------------------------------------------------------- the start --

  /** The newest low is a low of one of the days, at its own time. */
  lemma {:induction false} NewestLowIsALow(days: seq<Day>, n: nat)
    requires n <= |days|
    ensures var w := NewestLow(days, n); w.at >= 0 && (w.at != 0 ==> LedgerDays.LowAmong(days, n, w.mv, w.at))
  {
    if n > 0 {
      NewestLowIsALow(days, n - 1);
    }
  }

  /** The battery has been heard within the day. */
  predicate HeardLately(s: seq<Sample>, now: int) {
    s != [] && now - s[|s| - 1].at <= 24 * HOUR
  }

  /** A forecast starts from a morning low of the last two days, or else from a reading of
      the last day; it has no start exactly when there is neither, or the battery has been
      silent for a day. */
  lemma StartExactlyWhen(days: seq<Day>, s: seq<Sample>, now: int, age: int)
    requires Chained(days) && LedgerDays.LowsAreKnownOrZero(days)
    ensures var st := StartOf(days, s, now, age);
            var lately := exists mv, at :: LedgerDays.IsLowAt(days, mv, at) && now - at <= 48 * HOUR;
            && (st.Nowhere? <==> age > 24 * HOUR || (!lately && !HeardLately(s, now)))
            && (st.From? && lately ==>
                 exists mv :: st.mv == mv as real && LedgerDays.IsLowAt(days, mv, st.at)
                              && LedgerDays.NoneAfter(days, st.at))
            && (st.From? && !lately ==> st == From(s[|s| - 1].at, s[|s| - 1].mv as real))
  {
    var w := NewestLow(days, |days|);
    NewestLowIsALow(days, |days|);
    NewestLowIsNewest(days, |days|);
    forall mv, at | LedgerDays.IsLowAt(days, mv, at) ensures w.at >= at && w.at != 0 {
      LowIsNotAfter(days, mv, at, w.at);
    }
    if w.at != 0 {
      assert LedgerDays.IsLowAt(days, w.mv, w.at);
    }
  }

  lemma LowIsNotAfter(days: seq<Day>, mv: int, at: int, newest: int)
    requires Chained(days) && LedgerDays.LowsAreKnownOrZero(days) && LedgerDays.IsLowAt(days, mv, at)
    requires LedgerDays.NoneAfter(days, newest)
    ensures 0 < at <= newest
  {
    var i :| 0 <= i < |days| && mv > 0
             && ((days[i].rise, days[i].morningLow) == (at, mv) || (days[i].nextRise, days[i].nextLow) == (at, mv));
    assert Consistent(days[i]);
  }

  /** A level is listed exactly when it is set, the start was not below it already and some
      day's range reaches below it; and then at the end of the first that does. */
  lemma CrossingExactlyWhen(days: seq<ForecastDay>, startMV: real, level: Level, mv: int)
    ensures var cs := CrossingOf(days, startMV, level, mv);
            && (cs != [] <==>
                 mv > 0 && startMV >= mv as real && exists k :: 0 <= k < |days| && days[k].low < mv as real)
            && (cs != [] ==>
                 exists k :: 0 <= k < |days| && cs == [Crossing(level, mv, days[k].morning)] && days[k].low < mv as real
                             && forall j :: 0 <= j < k ==> days[j].low >= mv as real)
  {
    FirstBelowIsFirst(days, mv as real, 0);
  }

  // ----------------------------------------------------------------------- the line --

  /** Two days whose sunshine differs by 0.4 kWh or more. */
  ghost predicate Mixed(pts: seq<Point>) {
    exists a, b :: 0 <= a < |pts| && 0 <= b < |pts| && pts[b].x - pts[a].x >= 0.4
  }

  lemma {:induction false} EndsHold(pts: seq<Point>, i: nat)
    requires i < |pts|
    ensures Lowest(pts) <= pts[i].x <= Highest(pts)
  {
    if |pts| > 1 {
      var init := pts[..|pts| - 1];
      if i < |init| {
        EndsHold(init, i);
        assert init[i] == pts[i];
      } else {
        EndsHold(init, 0);
      }
    }
  }

  /** A line is found exactly when there are five days, of mixed sunshine, and half of the
      slopes between them or so are more than zero; else the first of these that fails is
      the reason. */
  lemma FitExactlyWhen(pts: seq<Point>)
    ensures var r := FitPoints(pts);
            && (r == NoFit(FewDays) <==> |pts| < 5)
            && (r == NoFit(SameSun) <==> |pts| >= 5 && !Mixed(pts))
            && (r == NoFit(NoFollow) <==> |pts| >= 5 && Mixed(pts) && MedianOf(FitSlopes(pts, 0)) <= 0.0)
            && (r.Fitted? <==> |pts| >= 5 && Mixed(pts) && MedianOf(FitSlopes(pts, 0)) > 0.0)
            && (r.Fitted? ==> r.line.days == |pts| && r.line.slope == MedianOf(FitSlopes(pts, 0)))
  {
    hide MedianOf, Lowest, Highest, FitSlopes, Intercepts, Distances;
    if |pts| >= 5 {
      var a, b := EndsAreMet(pts);
      if Mixed(pts) {
        var c, d :| 0 <= c < |pts| && 0 <= d < |pts| && pts[d].x - pts[c].x >= 0.4;
        EndsHold(pts, c);
        EndsHold(pts, d);
      }
    }
  }

  /** Half of the slopes between days are no steeper than the line, and half no gentler; and
      unless the spread is the least there is, half of the days lie no nearer than it. */
  lemma LineIsTypical(pts: seq<Point>, steeper: real -> bool, gentler: real -> bool, nearer: real -> bool)
    requires FitPoints(pts).Fitted?
    requires forall y :: steeper(y) == (y > FitPoints(pts).line.slope)
    requires forall y :: gentler(y) == (y < FitPoints(pts).line.slope)
    requires forall y :: nearer(y) == (y < FitPoints(pts).line.spread)
    ensures var f, n, slopes := FitPoints(pts).line, |pts|, FitSlopes(pts, 0);
            && 2 * Count(slopes, steeper) <= |slopes| && 2 * Count(slopes, gentler) <= |slopes|
            && f.spread >= 5.0
            && (f.spread > 5.0 ==> 2 * Count(Distances(pts, f.slope, f.intercept, n), nearer) <= n)
  {
    hide MedianOf, Lowest, Highest, FitSlopes, Count;
    var f, n := FitPoints(pts).line, |pts|;
    MedianSplits(FitSlopes(pts, 0), steeper, gentler);
    var ds := Distances(pts, f.slope, f.intercept, n);
    var far: real -> bool, near: real -> bool := y => y > MedianOf(ds), y => y < MedianOf(ds);
    MedianSplits(ds, far, near);
    if f.spread > 5.0 {
      CountFewer(ds, nearer, near);
    }
  }

  /** Which of the first n days have both their net change and their weather. */
  function Complete(days: seq<Day>, n: nat): set<nat>
    requires n <= |days|
  {
    set i | 0 <= i < n && days[i].net.By? && days[i].weather.DayWeather?
  }

  lemma CompleteGrows(days: seq<Day>, n: nat)
    requires 0 < n <= |days|
    ensures |Complete(days, n)|
         == |Complete(days, n - 1)| + if days[n - 1].net.By? && days[n - 1].weather.DayWeather? then 1 else 0
  {
    var before := Complete(days, n - 1);
    assert n - 1 !in before;
    assert Complete(days, n)
        == before + if days[n - 1].net.By? && days[n - 1].weather.DayWeather? then {n - 1} else {};
  }

  lemma {:induction false} AsManyPointsAsComplete(days: seq<Day>, n: nat)
    requires n <= |days|
    ensures |Points(days, n)| == |Complete(days, n)|
  {
    if n > 0 {
      AsManyPointsAsComplete(days, n - 1);
      CompleteGrows(days, n);
    } else {
      assert Complete(days, 0) == {};
    }
  }

  /** The days a line is learned from are the complete ones, in their order, by their usable
      sunshine and their net change. */
  lemma {:induction false} EachCompleteDayIsAPoint(days: seq<Day>, n: nat, i: nat)
    requires i < n <= |days| && days[i].net.By? && days[i].weather.DayWeather?
    ensures |Points(days, n)| == |Complete(days, n)| && |Complete(days, i)| < |Points(days, n)|
    ensures Points(days, n)[|Complete(days, i)|] == Point(days[i].weather.usableKWh, days[i].net.mv as real)
  {
    hide Complete;
    AsManyPointsAsComplete(days, n);
    AsManyPointsAsComplete(days, i);
    if i < n - 1 {
      EachCompleteDayIsAPoint(days, n - 1, i);
    }
  }
}
