/** How much sun holds a battery level, and where its morning lows are heading
    (internal/batteryanalysis/analysis.go), over exact reals. */
module Forecast {
  import opened Reals
  import opened Counting
  import opened TheilSen
  import SunPhases
  import BatteryTrend
  import opened Ledger

  const MIN_FIT_DAYS := 5
  const MIN_FIT_SPREAD_KWH := 0.4
  const MIN_SPREAD_MV := 5.0
  const SAME_SUN_KWH := 0.000001
  const FORECAST_DAYS := 7
  const MAX_START_AGE := 24 * HOUR
  const FULL_MV := 4200.0

  // ------------------------------------------------------------------- medians --

  /** The middle element, or the mean of the two. */
  function MedianOf(v: seq<real>): real {
    SortSorts(v);
    var s, n := Sort(v), |v|;
    if n == 0 then 0.0 else if n % 2 == 1 then s[n / 2] else (s[n / 2 - 1] + s[n / 2]) / 2.0
  }

  lemma MedianInTheMiddle(v: seq<real>)
    ensures var s, n, x := Sort(v), |v|, MedianOf(v);
            && |s| == n && (forall k :: 0 <= k < n - n / 2 ==> s[k] <= x) && (forall k :: n / 2 <= k < n ==> x <= s[k])
  {
    hide Sort;
    SortSorts(v);
  }

  /** At most half of them lie above the median and at most half below it. */
  lemma MedianSplits(v: seq<real>, above: real -> bool, below: real -> bool)
    requires forall y :: above(y) == (y > MedianOf(v))
    requires forall y :: below(y) == (y < MedianOf(v))
    ensures 2 * Count(v, above) <= |v| && 2 * Count(v, below) <= |v|
  {
    hide Sort, MedianOf, Count;
    SortSorts(v);
    var s, n := Sort(v), |v|;
    MedianInTheMiddle(v);
    CountIsByMultiset(v, s, above);
    CountIsByMultiset(v, s, below);
    if n == 0 {
      CountAtMost(v, above);
      CountAtMost(v, below);
    } else {
      CountWithin(s, above, n - n / 2, n);
      CountWithin(s, below, 0, n / 2);
    }
  }

  lemma MedianOfEqual(v: seq<real>, m: real)
    requires v != [] && forall i :: 0 <= i < |v| ==> v[i] == m
    ensures MedianOf(v) == m
  {
    hide Sort;
    SortSorts(v);
    var s := Sort(v);
    forall i | 0 <= i < |s| ensures s[i] == m {
      assert s[i] in multiset(v);
    }
  }

  // ------------------------------------------------------------ the break-even --

  datatype Line = Line(slope: real, intercept: real, breakEven: real, spread: real, days: nat)

  datatype Reason = FewDays | SameSun | NoFollow

  datatype FitResult = NoFit(reason: Reason) | Fitted(line: Line)

  function NetFor(f: Line, sunKWh: real): real {
    f.intercept + f.slope * sunKWh
  }

  /** Complete days, by usable sunshine and net change. */
  function Points(days: seq<Day>, n: nat): seq<Point>
    requires n <= |days|
  {
    if n == 0 then []
    else
      var before, d := Points(days, n - 1), days[n - 1];
      if d.net.By? && d.weather.DayWeather? then before + [Point(d.weather.usableKWh, d.net.mv as real)] else before
  }

  function Lowest(pts: seq<Point>): real
    requires pts != []
  {
    if |pts| == 1 then pts[0].x
    else
      var m, x := Lowest(pts[..|pts| - 1]), pts[|pts| - 1].x;
      if x < m then x else m
  }

  function Highest(pts: seq<Point>): real
    requires pts != []
  {
    if |pts| == 1 then pts[0].x
    else
      var m, x := Highest(pts[..|pts| - 1]), pts[|pts| - 1].x;
      if x > m then x else m
  }

  predicate Apart(p: Point, q: Point) {
    q.x - p.x > SAME_SUN_KWH || p.x - q.x > SAME_SUN_KWH
  }

  function SlopeOf(p: Point, q: Point): real
    requires Apart(p, q)
  {
    (q.y - p.y) / (q.x - p.x)
  }

  /** Unlike the trend's, these take pairs in either direction, and none too close. */
  function FitRow(pts: seq<Point>, i: nat, j: nat): seq<real>
    requires i < |pts| && j <= |pts|
    decreases |pts| - j
  {
    if j == |pts| then []
    else (if Apart(pts[i], pts[j]) then [SlopeOf(pts[i], pts[j])] else []) + FitRow(pts, i, j + 1)
  }

  function FitSlopes(pts: seq<Point>, i: nat): seq<real>
    requires i <= |pts|
    decreases |pts| - i
  {
    if i == |pts| then [] else FitRow(pts, i, i + 1) + FitSlopes(pts, i + 1)
  }

  /** Where a line of that slope through the point starts. */
  function InterceptAt(p: Point, m: real): real {
    p.y - m * p.x
  }

  function Intercepts(pts: seq<Point>, m: real, n: nat): (v: seq<real>)
    requires n <= |pts|
    ensures |v| == n && forall i :: 0 <= i < n ==> v[i] == InterceptAt(pts[i], m)
  {
    if n == 0 then [] else Intercepts(pts, m, n - 1) + [InterceptAt(pts[n - 1], m)]
  }

  function Distance(p: Point, m: real, c: real): real {
    var d := p.y - (c + m * p.x);
    if d < 0.0 then -d else d
  }

  function Distances(pts: seq<Point>, m: real, c: real, n: nat): (v: seq<real>)
    requires n <= |pts|
    ensures |v| == n && forall i :: 0 <= i < n ==> v[i] == Distance(pts[i], m, c)
  {
    if n == 0 then [] else Distances(pts, m, c, n - 1) + [Distance(pts[n - 1], m, c)]
  }

  function FitPoints(pts: seq<Point>): FitResult {
    if |pts| < MIN_FIT_DAYS then NoFit(FewDays)
    else if Highest(pts) - Lowest(pts) < MIN_FIT_SPREAD_KWH then NoFit(SameSun)
    else
      var m := MedianOf(FitSlopes(pts, 0));
      if m <= 0.0 then NoFit(NoFollow)
      else
        var c := MedianOf(Intercepts(pts, m, |pts|));
        var typical := MedianOf(Distances(pts, m, c, |pts|));
        Fitted(Line(m, c, -c / m, if typical > MIN_SPREAD_MV then typical else MIN_SPREAD_MV, |pts|))
  }

  method FitDays(days: seq<Day>) returns (r: FitResult)
    ensures r == FitPoints(Points(days, |days|))
  {
    hide Sort, MedianOf, InterceptAt, Distance;
    var pts, lo, hi := CompleteDays(days);
    if |pts| < MIN_FIT_DAYS {
      return NoFit(FewDays);
    }
    if hi - lo < MIN_FIT_SPREAD_KWH {
      return NoFit(SameSun);
    }
    var slopes := PairSlopes(pts);
    var m := MedianOf(slopes);
    if m <= 0.0 {
      return NoFit(NoFollow);
    }
    var ics: seq<real> := [];
    for n := 0 to |pts|
      invariant ics == Intercepts(pts, m, n)
    {
      ics := ics + [InterceptAt(pts[n], m)];
    }
    var c := MedianOf(ics);
    var res: seq<real> := [];
    for n := 0 to |pts|
      invariant res == Distances(pts, m, c, n)
    {
      res := res + [Distance(pts[n], m, c)];
    }
    var typical := MedianOf(res);
    r := Fitted(Line(m, c, -c / m, if typical > MIN_SPREAD_MV then typical else MIN_SPREAD_MV, |pts|));
  }

  method CompleteDays(days: seq<Day>) returns (pts: seq<Point>, lo: real, hi: real)
    ensures pts == Points(days, |days|)
    ensures pts != [] ==> lo == Lowest(pts) && hi == Highest(pts)
  {
    pts, lo, hi := [], 0.0, 0.0;
    for n := 0 to |days|
      invariant pts == Points(days, n)
      invariant pts != [] ==> lo == Lowest(pts) && hi == Highest(pts)
    {
      var d := days[n];
      if d.net.By? && d.weather.DayWeather? {
        var x := d.weather.usableKWh;
        ghost var was := pts;
        lo := if pts == [] || x < lo then x else lo;
        hi := if pts == [] || x > hi then x else hi;
        pts := pts + [Point(x, d.net.mv as real)];
        assert pts[..|pts| - 1] == was;
      }
    }
  }

  method PairSlopes(pts: seq<Point>) returns (sl: seq<real>)
    ensures sl == FitSlopes(pts, 0)
  {
    hide SlopeOf;
    sl := [];
    for i := 0 to |pts|
      invariant sl + FitSlopes(pts, i) == FitSlopes(pts, 0)
    {
      ghost var before := sl;
      for j := i + 1 to |pts|
        invariant sl + FitRow(pts, i, j) == before + FitRow(pts, i, i + 1)
      {
        var dx := pts[j].x - pts[i].x;
        if dx > SAME_SUN_KWH || -dx > SAME_SUN_KWH {
          sl := sl + [SlopeOf(pts[i], pts[j])];
        }
      }
      assert sl + [] == sl;
      assert (before + FitRow(pts, i, i + 1)) + FitSlopes(pts, i + 1)
        == before + (FitRow(pts, i, i + 1) + FitSlopes(pts, i + 1));
    }
    assert sl + [] == sl;
  }

  /** A day's sunshine holds the level exactly from the break-even on. */
  lemma BreakEvenHoldsTheLevel(pts: seq<Point>, sunKWh: real)
    requires FitPoints(pts).Fitted?
    ensures var f := FitPoints(pts).line; f.slope > 0.0 && (NetFor(f, sunKWh) >= 0.0 <==> sunKWh >= f.breakEven)
  {
    hide MedianOf, Lowest, Highest, FitSlopes, Intercepts, Distances;
    var f := FitPoints(pts).line;
    ZeroOfLine(f.slope, f.intercept, sunKWh);
  }

  lemma ZeroOfLine(m: real, c: real, x: real)
    requires m > 0.0
    ensures c + m * x >= 0.0 <==> x >= -c / m
  {
    var z := -c / m;
    assert m * z == -c;
    if x >= z {
      ProductSign(m, x - z);
      assert m * (x - z) == m * x - m * z;
    } else {
      Positive(m, z - x);
      assert m * (z - x) == m * z - m * x;
    }
  }

  /** At most half of the days the line was learned from lie above it and at most half
      below; and at most half of them lie further from it than the spread. */
  lemma LineSplitsTheDays(pts: seq<Point>, above: real -> bool, below: real -> bool, far: real -> bool)
    requires FitPoints(pts).Fitted?
    requires forall y :: above(y) == (y > FitPoints(pts).line.intercept)
    requires forall y :: below(y) == (y < FitPoints(pts).line.intercept)
    requires forall y :: far(y) == (y > FitPoints(pts).line.spread)
    ensures var f, n := FitPoints(pts).line, |pts|;
            && 2 * Count(Intercepts(pts, f.slope, n), above) <= n
            && 2 * Count(Intercepts(pts, f.slope, n), below) <= n
            && 2 * Count(Distances(pts, f.slope, f.intercept, n), far) <= n
  {
    hide MedianOf, Lowest, Highest, FitSlopes;
    var f, n := FitPoints(pts).line, |pts|;
    MedianSplits(Intercepts(pts, f.slope, n), above, below);
    var ds := Distances(pts, f.slope, f.intercept, n);
    var typical := MedianOf(ds);
    var over: real -> bool, under: real -> bool := y => y > typical, y => y < typical;
    MedianSplits(ds, over, under);
    CountFewer(ds, far, over);
  }

  lemma {:induction false} CountFewer(s: seq<real>, p: real -> bool, q: real -> bool)
    requires forall y :: p(y) ==> q(y)
    ensures Count(s, p) <= Count(s, q)
  {
    if s != [] {
      CountFewer(s[1..], p, q);
    }
  }

  ghost predicate OnOneLine(pts: seq<Point>, m: real, c: real) {
    forall i :: 0 <= i < |pts| ==> pts[i].y == c + m * pts[i].x
  }

  lemma LineSlopeOf(p: Point, q: Point, m: real, c: real)
    requires Apart(p, q) && p.y == c + m * p.x && q.y == c + m * q.x
    ensures SlopeOf(p, q) == m
  {
    assert q.y - p.y == m * (q.x - p.x);
  }

  lemma {:induction false} RowIsSlope(pts: seq<Point>, m: real, c: real, i: nat, j: nat)
    requires i < |pts| && j <= |pts| && OnOneLine(pts, m, c)
    ensures forall k :: 0 <= k < |FitRow(pts, i, j)| ==> FitRow(pts, i, j)[k] == m
    ensures (exists k :: j <= k < |pts| && Apart(pts[i], pts[k])) ==> FitRow(pts, i, j) != []
    decreases |pts| - j
  {
    hide SlopeOf;
    if j < |pts| {
      RowIsSlope(pts, m, c, i, j + 1);
      if Apart(pts[i], pts[j]) {
        LineSlopeOf(pts[i], pts[j], m, c);
      }
    }
  }

  lemma {:induction false} SlopesAreSlope(pts: seq<Point>, m: real, c: real, i: nat)
    requires i <= |pts| && OnOneLine(pts, m, c)
    ensures forall k :: 0 <= k < |FitSlopes(pts, i)| ==> FitSlopes(pts, i)[k] == m
    ensures (exists a, b :: i <= a < b < |pts| && Apart(pts[a], pts[b])) ==> FitSlopes(pts, i) != []
    decreases |pts| - i
  {
    hide FitRow, Apart;
    if i < |pts| {
      SlopesAreSlope(pts, m, c, i + 1);
      RowIsSlope(pts, m, c, i, i + 1);
    }
  }

  lemma {:induction false} EndsAreMet(pts: seq<Point>) returns (a: nat, b: nat)
    requires pts != []
    ensures a < |pts| && b < |pts| && pts[a].x == Lowest(pts) && pts[b].x == Highest(pts)
  {
    a, b := 0, 0;
    if |pts| > 1 {
      var init, last := pts[..|pts| - 1], |pts| - 1;
      a, b := EndsAreMet(init);
      a := if pts[last].x < Lowest(init) then last else a;
      b := if pts[last].x > Highest(init) then last else b;
    }
  }

  /** Days that lie on a line rising with the sunshine are given that very line. */
  lemma ExactLineIsFound(pts: seq<Point>, m: real, c: real)
    requires |pts| >= MIN_FIT_DAYS && Highest(pts) - Lowest(pts) >= MIN_FIT_SPREAD_KWH && m > 0.0
    requires OnOneLine(pts, m, c)
    ensures FitPoints(pts) == Fitted(Line(m, c, -c / m, MIN_SPREAD_MV, |pts|))
  {
    hide MedianOf, Lowest, Highest, FitSlopes;
    SlopesAreSlope(pts, m, c, 0);
    var a, b := EndsAreMet(pts);
    assert Apart(pts[a], pts[b]) && Apart(pts[b], pts[a]);
    MedianOfEqual(FitSlopes(pts, 0), m);
    MedianOfEqual(Intercepts(pts, m, |pts|), c);
    MedianOfEqual(Distances(pts, m, c, |pts|), 0.0);
  }

  // ---------------------------------------------------------------- the forecast --

  datatype ForecastDay = ForecastDay(rise: int, morning: int, sunKWh: real, usableKWh: real, frozen: nat,
                                     net: real, mid: real, low: real, high: real)

  datatype Level = Critical | Low

  datatype Crossing = Crossing(level: Level, mv: int, day: int)

  datatype Levels = Levels(critical: int, low: int)

  /** Where a forecast starts. */
  datatype Start = Nowhere | From(at: int, mv: real)

  datatype Outlook = Outlook(start: Start, days: seq<ForecastDay>, crossings: seq<Crossing>)

  /** No cell is projected past full. */
  function Capped(mv: real): real {
    if FULL_MV < mv then FULL_MV else mv
  }

  /** The newest morning low among the first n days; at 0, none. */
  function NewestLow(days: seq<Day>, n: nat): Newest
    requires n <= |days|
  {
    if n == 0 then Newest(0, 0)
    else
      var w, d := NewestLow(days, n - 1), days[n - 1];
      var w1 := if d.morningLow > 0 && d.rise > w.at then Newest(d.morningLow, d.rise) else w;
      if d.nextLow > 0 && d.nextRise > w1.at then Newest(d.nextLow, d.nextRise) else w1
  }

  function StartOf(days: seq<Day>, s: seq<Sample>, now: int, age: int): Start {
    var w := NewestLow(days, |days|);
    if age > MAX_START_AGE then Nowhere
    else if w.at != 0 && now - w.at <= 48 * HOUR then From(w.at, w.mv as real)
    else if s == [] || now - s[|s| - 1].at > MAX_START_AGE then Nowhere
    else From(s[|s| - 1].at, s[|s| - 1].mv as real)
  }

  method FindStart(days: seq<Day>, s: seq<Sample>, now: int, age: int) returns (start: Start)
    ensures start == StartOf(days, s, now, age)
  {
    if age > MAX_START_AGE {
      return Nowhere;
    }
    var at, mv := 0, 0;
    for n := 0 to |days|
      invariant Newest(mv, at) == NewestLow(days, n)
    {
      var d := days[n];
      if d.morningLow > 0 && d.rise > at {
        at, mv := d.rise, d.morningLow;
      }
      if d.nextLow > 0 && d.nextRise > at {
        at, mv := d.nextRise, d.nextLow;
      }
    }
    if at == 0 || now - at > 48 * HOUR {
      if |s| == 0 || now - s[|s| - 1].at > MAX_START_AGE {
        return Nowhere;
      }
      return From(s[|s| - 1].at, s[|s| - 1].mv as real);
    }
    return From(at, mv as real);
  }

  /** In a ledger whose days join up, that is the last low there is. */
  lemma {:induction false} NewestLowIsNewest(days: seq<Day>, n: nat)
    requires n <= |days| && Chained(days) && forall i :: 0 <= i < |days| ==> days[i].rise > 0
    ensures var w := NewestLow(days, n);
            && (forall i :: 0 <= i < n && days[i].morningLow > 0 ==> days[i].rise <= w.at)
            && (forall i :: 0 <= i < n && days[i].nextLow > 0 ==> days[i].nextRise <= w.at)
            && (w.at == 0 <==> forall i :: 0 <= i < n ==> days[i].morningLow <= 0 && days[i].nextLow <= 0)
  {
    if n > 0 {
      NewestLowIsNewest(days, n - 1);
      assert Consistent(days[n - 1]);
    }
  }

  /** Weather of the day that begins at days[i]. */
  function Ahead(inp: Input, all: seq<SunPhases.Daylight>, i: nat): DayWeather
    requires i + 1 < |all|
  {
    WeatherOf(inp.weather, all[i].sunrise, all[i].sunset, all[i + 1].sunrise, inp.cold)
  }

  function MidAfter(f: Line, mid: real, w: DayWeather): real
    requires w.DayWeather?
  {
    Capped(mid + NetFor(f, w.usableKWh))
  }

  function ForecastOf(
    f: Line, a: SunPhases.Daylight, b: SunPhases.Daylight, w: DayWeather, mid: real, spread: real): ForecastDay
    requires w.DayWeather?
  {
    ForecastDay(a.sunrise, b.sunrise, w.sunKWh, w.usableKWh, w.frozen, NetFor(f, w.usableKWh), mid,
      Capped(mid - spread), Capped(mid + spread))
  }

  function SpreadAfter(f: Line, sqrt: real -> real, k: nat): real {
    f.spread * sqrt(k as real)
  }

  /** Days i, i + 1, … of the forecast, from a low of `mid` at the sunrise before. */
  function Project(
    f: Line, inp: Input, all: seq<SunPhases.Daylight>, sqrt: real -> real, i: nat, mid: real): (r: seq<ForecastDay>)
    ensures |r| <= FORECAST_DAYS && (i <= FORECAST_DAYS ==> |r| <= FORECAST_DAYS - i)
    decreases |all| - i
  {
    if i + 1 >= |all| || i >= FORECAST_DAYS || Ahead(inp, all, i).NoWeather? then []
    else
      var w := Ahead(inp, all, i);
      var mid1 := MidAfter(f, mid, w);
      [ForecastOf(f, all[i], all[i + 1], w, mid1, SpreadAfter(f, sqrt, i + 1))]
        + Project(f, inp, all, sqrt, i + 1, mid1)
  }

  function DaysAhead(inp: Input, start: int): seq<SunPhases.Daylight> {
    var cs := SunPhases.CrossingsOf(inp.el, SunPhases.HORIZON_DEG, start - HOUR / 60,
      start + (FORECAST_DAYS + 2) * 24 * HOUR);
    SunPhases.DaysAfter(cs, |cs|).days
  }

  /** The first day whose likely range reaches below the level. */
  function FirstBelow(days: seq<ForecastDay>, mv: real, i: nat): nat
    requires i <= |days|
    decreases |days| - i
  {
    if i == |days| || days[i].low < mv then i else FirstBelow(days, mv, i + 1)
  }

  function CrossingOf(days: seq<ForecastDay>, startMV: real, level: Level, mv: int): seq<Crossing> {
    var k := FirstBelow(days, mv as real, 0);
    if mv <= 0 || startMV < mv as real || k >= |days| then [] else [Crossing(level, mv, days[k].morning)]
  }

  function CrossingsIn(days: seq<ForecastDay>, startMV: real, levels: Levels): seq<Crossing> {
    CrossingOf(days, startMV, Critical, levels.critical) + CrossingOf(days, startMV, Low, levels.low)
  }

  function OutlookOf(
    f: Line, days: seq<Day>, s: seq<Sample>, inp: Input, levels: Levels, age: int, sqrt: real -> real): Outlook {
    match StartOf(days, s, inp.now, age)
    case Nowhere => Outlook(Nowhere, [], [])
    case From(at, mv) =>
      var ahead := Project(f, inp, DaysAhead(inp, at), sqrt, 0, mv);
      Outlook(From(at, mv), ahead, CrossingsIn(ahead, mv, levels))
  }

  /** What the analysis of one battery has found so far. */
  class Result {
    var days: seq<Day>
    var fit: Line
    var age: int
    var start: Start
    var forecast: seq<ForecastDay>
    var crossings: seq<Crossing>

    constructor (days: seq<Day>, fit: Line, age: int)
      ensures this.days == days && this.fit == fit && this.age == age
      ensures start == Nowhere && forecast == [] && crossings == []
    {
      this.days, this.fit, this.age := days, fit, age;
      start, forecast, crossings := Nowhere, [], [];
    }

    method Forecast(s: seq<Sample>, inp: Input, levels: Levels, sqrt: real -> real)
      requires start == Nowhere && forecast == [] && crossings == []
      modifies this`start, this`forecast, this`crossings
      ensures Outlook(start, forecast, crossings) == OutlookOf(fit, days, s, inp, levels, age, sqrt)
    {
      hide StartOf, DaysAhead, SunPhases.CrossingsOf;
      var found := FindStart(days, s, inp.now, age);
      if found.Nowhere? {
        return;
      }
      start := found;
      var all := FindDaysAhead(inp, found.at);
      ProjectDays(inp, all, sqrt, found.mv);
      FindCrossing(found.mv, Critical, levels.critical);
      FindCrossing(found.mv, Low, levels.low);
    }

    method FindDaysAhead(inp: Input, start: int) returns (all: seq<SunPhases.Daylight>)
      ensures all == DaysAhead(inp, start)
    {
      hide SunPhases.CrossingsOf, SunPhases.DaysAfter;
      all := SunPhases.Days(inp.el, start - HOUR / 60, start + (FORECAST_DAYS + 2) * 24 * HOUR);
    }

    method ProjectDays(inp: Input, all: seq<SunPhases.Daylight>, sqrt: real -> real, mv: real)
      requires forecast == []
      modifies this`forecast
      ensures forecast == Project(fit, inp, all, sqrt, 0, mv)
    {
      hide WeatherOf, MidAfter, ForecastOf, SpreadAfter;
      var mid, i := mv, 0;
      while i + 1 < |all| && |forecast| < FORECAST_DAYS
        invariant |forecast| == i
        invariant forecast + Project(fit, inp, all, sqrt, i, mid) == Project(fit, inp, all, sqrt, 0, mv)
      {
        var w := SumDayWeather(inp.weather, all[i].sunrise, all[i].sunset, all[i + 1].sunrise, inp.cold);
        if w.NoWeather? {
          assert forecast + [] == forecast;
          return;
        }
        ghost var before := forecast;
        ghost var rest := Project(fit, inp, all, sqrt, i, mid);
        mid := MidAfter(fit, mid, w);
        var f := ForecastOf(fit, all[i], all[i + 1], w, mid, SpreadAfter(fit, sqrt, i + 1));
        forecast := forecast + [f];
        i := i + 1;
        assert rest == [f] + Project(fit, inp, all, sqrt, i, mid);
        assert before + ([f] + Project(fit, inp, all, sqrt, i, mid)) == forecast + Project(fit, inp, all, sqrt, i, mid);
      }
      assert forecast + [] == forecast;
    }

    method FindCrossing(startMV: real, level: Level, mv: int)
      modifies this`crossings
      ensures crossings == old(crossings) + CrossingOf(forecast, startMV, level, mv)
    {
      if mv <= 0 || startMV < mv as real {
        assert crossings + [] == crossings;
        return;
      }
      for i := 0 to |forecast|
        invariant crossings == old(crossings)
        invariant FirstBelow(forecast, mv as real, 0) == FirstBelow(forecast, mv as real, i)
      {
        if forecast[i].low < mv as real {
          crossings := crossings + [Crossing(level, mv, forecast[i].morning)];
          return;
        }
      }
      assert crossings + [] == crossings;
    }
  }

  // ------------------------------------------------------ what a forecast keeps --

  /** The library's square root, as far as the forecast cares. */
  ghost predicate NonNegative(sqrt: real -> real) {
    forall x :: x >= 0.0 ==> sqrt(x) >= 0.0
  }

  ghost predicate Nested(days: seq<ForecastDay>) {
    forall i :: 0 <= i < |days| ==> days[i].low <= days[i].mid <= days[i].high <= FULL_MV
  }

  /** Every projected range holds its middle and stays within a full cell. */
  lemma {:induction false} RangesNest(
    f: Line, inp: Input, all: seq<SunPhases.Daylight>, sqrt: real -> real, i: nat, mid: real)
    requires f.spread >= 0.0 && NonNegative(sqrt)
    ensures Nested(Project(f, inp, all, sqrt, i, mid))
    decreases |all| - i
  {
    hide WeatherOf, NetFor;
    if i + 1 < |all| && i < FORECAST_DAYS && Ahead(inp, all, i).DayWeather? {
      RangesNest(f, inp, all, sqrt, i + 1, MidAfter(f, mid, Ahead(inp, all, i)));
      ProductSign(f.spread, sqrt((i + 1) as real));
    }
  }

  /** Every line learned from days has a spread the forecast can use. */
  lemma SpreadIsPositive(pts: seq<Point>)
    requires FitPoints(pts).Fitted?
    ensures FitPoints(pts).line.spread >= MIN_SPREAD_MV
  {
    hide MedianOf, Lowest, Highest, FitSlopes, Intercepts, Distances;
  }

  /** The same days, as far along, each no lower. */
  ghost predicate NoLower(a: seq<ForecastDay>, b: seq<ForecastDay>) {
    && |a| == |b|
    && forall i :: 0 <= i < |a| ==>
      a[i].morning == b[i].morning && a[i].mid <= b[i].mid && a[i].low <= b[i].low && a[i].high <= b[i].high
  }

  /** A battery that starts higher is never projected lower. */
  lemma {:induction false} HigherStaysHigher(
    f: Line, inp: Input, all: seq<SunPhases.Daylight>, sqrt: real -> real, i: nat, mid: real, mid1: real)
    requires mid <= mid1
    ensures NoLower(Project(f, inp, all, sqrt, i, mid), Project(f, inp, all, sqrt, i, mid1))
    decreases |all| - i
  {
    hide WeatherOf, NetFor, SpreadAfter;
    if i + 1 < |all| && i < FORECAST_DAYS && Ahead(inp, all, i).DayWeather? {
      var w := Ahead(inp, all, i);
      HigherStaysHigher(f, inp, all, sqrt, i + 1, MidAfter(f, mid, w), MidAfter(f, mid1, w));
    }
  }

  lemma {:induction false} FirstBelowIsFirst(days: seq<ForecastDay>, mv: real, i: nat)
    requires i <= |days|
    ensures var k := FirstBelow(days, mv, i);
            i <= k <= |days| && (k < |days| ==> days[k].low < mv) && forall j :: i <= j < k ==> days[j].low >= mv
    decreases |days| - i
  {
    if i < |days| {
      FirstBelowIsFirst(days, mv, i + 1);
    }
  }

  /** A higher level is reached no later, and so is any level from a lower start. */
  lemma LowerReachesFirst(a: seq<ForecastDay>, b: seq<ForecastDay>, mv: real, mv1: real)
    requires NoLower(a, b) && mv1 <= mv
    ensures FirstBelow(a, mv, 0) <= FirstBelow(b, mv1, 0)
  {
    FirstBelowIsFirst(a, mv, 0);
    FirstBelowIsFirst(b, mv1, 0);
  }

  ghost predicate MorningsClimb(days: seq<ForecastDay>) {
    forall i, j :: 0 <= i < j < |days| ==> days[i].morning < days[j].morning
  }

  lemma {:induction false} SunriseAfter(all: seq<SunPhases.Daylight>, i: nat, j: nat)
    requires SunOrdered(all) && i < j < |all|
    ensures all[i].sunrise < all[j].sunrise
  {
    assert all[j - 1].sunrise < all[j - 1 + 1].sunrise;
    if i < j - 1 {
      SunriseAfter(all, i, j - 1);
    }
  }

  /** Each forecast day ends at the next of these sunrises. */
  ghost predicate EndAtSunrises(days: seq<ForecastDay>, after: seq<SunPhases.Daylight>) {
    |days| <= |after| && forall k :: 0 <= k < |days| ==> days[k].morning == after[k].sunrise
  }

  lemma OneMoreSunrise(d: ForecastDay, rest: seq<ForecastDay>, after: seq<SunPhases.Daylight>)
    requires after != [] && EndAtSunrises(rest, after[1..]) && d.morning == after[0].sunrise
    ensures EndAtSunrises([d] + rest, after)
  {
    var days := [d] + rest;
    forall k | 0 <= k < |days| ensures days[k].morning == after[k].sunrise {
      if k > 0 {
        assert days[k] == rest[k - 1] && after[k] == after[1..][k - 1];
      }
    }
  }

  lemma {:induction false} ProjectedMornings(
    f: Line, inp: Input, all: seq<SunPhases.Daylight>, sqrt: real -> real, i: nat, mid: real)
    requires i < |all|
    ensures EndAtSunrises(Project(f, inp, all, sqrt, i, mid), all[i + 1..])
    decreases |all| - i
  {
    hide WeatherOf, NetFor, SpreadAfter, EndAtSunrises;
    if i + 1 < |all| && i < FORECAST_DAYS && Ahead(inp, all, i).DayWeather? {
      var mid1 := MidAfter(f, mid, Ahead(inp, all, i));
      ProjectedMornings(f, inp, all, sqrt, i + 1, mid1);
      assert all[i + 1..][1..] == all[i + 1 + 1..];
      OneMoreSunrise(Project(f, inp, all, sqrt, i, mid)[0], Project(f, inp, all, sqrt, i + 1, mid1), all[i + 1..]);
    } else {
      NoSunrise(all[i + 1..]);
    }
  }

  lemma NoSunrise(after: seq<SunPhases.Daylight>)
    ensures EndAtSunrises([], after)
  {
  }

  lemma SunrisesGiveOrder(days: seq<ForecastDay>, all: seq<SunPhases.Daylight>)
    requires SunOrdered(all) && all != [] && EndAtSunrises(days, all[1..])
    ensures MorningsClimb(days)
  {
    forall i, j | 0 <= i < j < |days| ensures days[i].morning < days[j].morning {
      assert days[i].morning == all[1..][i].sunrise && days[j].morning == all[1..][j].sunrise;
      SunriseAfter(all, i + 1, j + 1);
    }
  }

  lemma MorningsAreInOrder(f: Line, inp: Input, all: seq<SunPhases.Daylight>, sqrt: real -> real, mid: real)
    requires SunOrdered(all)
    ensures MorningsClimb(Project(f, inp, all, sqrt, 0, mid))
  {
    hide EndAtSunrises, MorningsClimb, SunOrdered;
    if all == [] {
      NoMornings();
    } else {
      ProjectedMornings(f, inp, all, sqrt, 0, mid);
      SunrisesGiveOrder(Project(f, inp, all, sqrt, 0, mid), all);
    }
  }

  /** With the critical level no higher than the low one, a battery now above the low
      level that may reach critical may reach low, and no later. */
  lemma LowComesFirst(days: seq<ForecastDay>, startMV: real, levels: Levels)
    requires MorningsClimb(days) && 0 < levels.critical <= levels.low && startMV >= levels.low as real
    ensures var crit, low :=
      CrossingOf(days, startMV, Critical, levels.critical), CrossingOf(days, startMV, Low, levels.low);
            crit != [] ==> low != [] && low[0].day <= crit[0].day
  {
    LowerReachesFirst(days, days, levels.low as real, levels.critical as real);
  }

  /** Whenever a forecast lists both crossings, critical does not come before low. */
  lemma CriticalNeverBeforeLow(
    f: Line, days: seq<Day>, s: seq<Sample>, inp: Input, levels: Levels, age: int, sqrt: real -> real)
    requires 0 < levels.critical <= levels.low
    requires StartOf(days, s, inp.now, age).From? ==> StartOf(days, s, inp.now, age).at >= HOUR / 60 + SunPhases.SECOND
    ensures var o := OutlookOf(f, days, s, inp, levels, age, sqrt);
            && MorningsClimb(o.days)
            && (|o.crossings| == 2 ==>
                 o.crossings[0].level == Critical && o.crossings[1].level == Low
                   && o.crossings[1].day <= o.crossings[0].day)
  {
    hide StartOf, Project, FirstBelow, MorningsClimb, SunPhases.CrossingsOf, SunPhases.DaysAfter;
    match StartOf(days, s, inp.now, age)
    case Nowhere => NoMornings();
    case From(at, mv) =>
      SunPhases.DaysAreOrdered(inp.el, at - HOUR / 60, at + (FORECAST_DAYS + 2) * 24 * HOUR);
      MorningsAreInOrder(f, inp, DaysAhead(inp, at), sqrt, mv);
      var ahead := Project(f, inp, DaysAhead(inp, at), sqrt, 0, mv);
      if mv >= levels.low as real {
        LowComesFirst(ahead, mv, levels);
      }
  }

  lemma NoMornings()
    ensures MorningsClimb([])
  {
  }
}
