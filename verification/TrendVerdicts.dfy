/** When a battery is called what: each kind of trend from the readings that earn it, and
    when its estimates are met (internal/alert/trend.go). */
module TrendVerdicts {
  import opened Counting
  import Grouping
  import OddPoint
  import opened Options
  import opened Reals
  import opened TheilSen
  import opened BatteryTrend

  // ------------------------------------------------------------- which kind, when --

  /** Which kind a trend is of, for any readings. */
  lemma VerdictExactlyWhen(s: seq<Sample>, now: int, cal: Calendar)
    requires s != []
    ensures var t, high, nights := Judge(s, now, cal), DailyHigh(s, now, |s|), AllNights(SinceJump(s), cal);
            var fit, rate := FitOf(nights), ChargingRate(SinceJump(s), now);
            var settled := !TooJumpy(s) && rate.None?;
            var fitted := settled && |nights| >= 3;
            && (t.kind == Jumpy <==> TooJumpy(s))
            && (t.kind == ChargingNow <==> !TooJumpy(s) && rate.Some?)
            && (t.kind == Insufficient <==> settled && |nights| < 3 && high < 4180)
            && (t.kind == Draining <==> fitted && fit.high <= -10.0)
            && (t.kind == Full <==> settled && high >= 4180 && (|nights| >= 3 ==> fit.high > -10.0))
            && (t.kind == Charging <==> fitted && fit.high > -10.0 && high < 4180 && fit.low >= 10.0)
            && (t.kind == Steady <==> fitted && fit.high > -10.0 && high < 4180 && fit.low < 10.0)
    ensures var t, nights := Judge(s, now, cal), AllNights(SinceJump(s), cal);
            && t.latest == s[|s| - 1].mv && t.dailyHigh == DailyHigh(s, now, |s|)
            && (t.kind in {Draining, Charging, Steady} ==>
                 t.fit == FitOf(nights) && t.nights == |nights| && t.lastLow == FinalLow(SinceJump(s), cal))
            && (t.kind == ChargingNow ==>
                 Some(t.rate) == ChargingRate(SinceJump(s), now) && (t.nearlyFull <==> t.latest >= 4150))
  {
    hide TooJumpy, FitOf, ChargingRate, AllNights, FinalLow, SinceJump, DailyHigh;
  }

  /** The daily high is the highest reading of the last day, if there was one. */
  lemma {:induction false} DailyHighIsHighest(s: seq<Sample>, now: int, n: nat)
    requires n <= |s| && forall i :: 0 <= i < |s| ==> s[i].mv > 0
    ensures var high := DailyHigh(s, now, n);
            && (forall i :: 0 <= i < n && now - s[i].at <= DAY ==> s[i].mv <= high)
            && (high == 0 <==> forall i :: 0 <= i < n ==> now - s[i].at > DAY)
            && (high > 0 ==> exists i :: 0 <= i < n && now - s[i].at <= DAY && s[i].mv == high)
  {
    if n > 0 {
      DailyHighIsHighest(s, now, n - 1);
    }
  }

  /** A step of more than 150 mV. */
  predicate IsJump(s: seq<Sample>, i: nat)
    requires 1 <= i < |s|
  {
    s[i].mv - s[i - 1].mv > 150 || s[i - 1].mv - s[i].mv > 150
  }

  lemma {:induction false} JumpsAreCounted(s: seq<Sample>, n: nat)
    requires 1 <= n <= |s|
    ensures Jumps(s, n) == |set i | 1 <= i < n && IsJump(s, i)|
  {
    if n > 1 {
      JumpsAreCounted(s, n - 1);
      var before, all := set i | 1 <= i < n - 1 && IsJump(s, i), set i | 1 <= i < n && IsJump(s, i);
      assert all == before + if IsJump(s, n - 1) then {n - 1} else {};
      assert n - 1 !in before;
    }
  }

  /** A jump whose next reading stayed within 75 mV of it, if there was a next. */
  predicate Sticks(s: seq<Sample>, i: nat)
    requires 1 <= i < |s|
  {
    IsJump(s, i) && (i + 1 == |s| || -75 <= s[i + 1].mv - s[i].mv <= 75)
  }

  /** A trend is taken from the last jump that stuck, or from the first reading. */
  lemma TrendStartsAtLastJump(s: seq<Sample>)
    requires s != []
    ensures exists k :: 0 <= k < |s| && SinceJump(s) == s[k..] && (k > 0 ==> Sticks(s, k))
                        && forall i :: k < i < |s| ==> !Sticks(s, i)
  {
    hide Start;
    StartIsLastHeldJump(s, |s|);
    var k := Start(s, |s|);
    forall i | 1 <= i < |s| ensures Held(s, i) <==> Sticks(s, i) {
    }
    assert SinceJump(s) == s[k..] && (k > 0 ==> Sticks(s, k));
  }

  /** A step of more than 40 mV. */
  predicate IsBigStep(s: seq<Sample>, i: nat)
    requires 1 <= i < |s|
  {
    s[i].mv - s[i - 1].mv > 40 || s[i - 1].mv - s[i].mv > 40
  }

  /** Where among the first n readings the steps of more than 40 mV are. */
  function BigSteps(s: seq<Sample>, n: nat): set<nat>
    requires n <= |s|
  {
    set i | 1 <= i < n && IsBigStep(s, i)
  }

  lemma BigStepsGrow(s: seq<Sample>, n: nat)
    requires 1 < n <= |s|
    ensures |BigSteps(s, n)| == |BigSteps(s, n - 1)| + if IsBigStep(s, n - 1) then 1 else 0
  {
    hide IsBigStep;
    var before := BigSteps(s, n - 1);
    assert BigSteps(s, n) == before + if IsBigStep(s, n - 1) then {n - 1} else {};
    assert n - 1 !in before;
  }

  lemma {:induction false} BigStepsAreCounted(s: seq<Sample>, n: nat)
    requires 1 <= n <= |s|
    ensures Count(Steps(s, n), OddPoint.More(40.0)) == |BigSteps(s, n)|
  {
    hide Count;
    if n > 1 {
      BigStepsAreCounted(s, n - 1);
      BigStepsGrow(s, n);
      var step := BatteryTrend.Step(s, n - 1) as real;
      CountConcat(Steps(s, n - 1), [step], OddPoint.More(40.0));
      CountFirst(step, [], OddPoint.More(40.0));
      assert [step] + [] == [step];
    } else {
      hide IsBigStep;
      assert BigSteps(s, 1) == {};
    }
    NothingToCount(OddPoint.More(40.0));
  }

  lemma NothingToCount(p: real -> bool)
    ensures Count([], p) == 0
  {
  }

  /** The median is above a value exactly when half the elements, or half and one, are. */
  lemma MedianByCount(v: seq<real>, m: real)
    requires v != []
    ensures Median(v) > m <==> Count(v, OddPoint.More(m)) >= |v| - |v| / 2
  {
    hide Count, Sort;
    SortSorts(v);
    var o, h := Sort(v), |v| / 2;
    CountIsByMultiset(o, v, OddPoint.More(m));
    if o[h] > m {
      CountAtLeast(o, OddPoint.More(m), h, |v|);
    } else {
      CountWithin(o, OddPoint.More(m), h + 1, |v|);
    }
  }

  /** Readings are too jumpy to judge exactly when they have more than three jumps, or are
      seven or more and half of their steps or more are of more than 40 mV. */
  lemma JumpyExactlyWhen(s: seq<Sample>)
    requires s != []
    ensures var steps := |s| - 1;
            TooJumpy(s) <==>
              || |set i | 1 <= i < |s| && IsJump(s, i)| > 3
              || (steps >= 6 && |BigSteps(s, |s|)| >= steps - steps / 2)
  {
    hide Median, Steps, Jumps;
    JumpsAreCounted(s, |s|);
    BigStepsAreCounted(s, |s|);
    if |s| - 1 >= 6 {
      MedianByCount(Steps(s, |s|), 40.0);
    }
  }

  // ------------------------------------------------------------- charging just now --

  /** In order of time the readings of the last three hours are the last of them. */
  lemma {:induction false} LatelyIsTheEnd(s: seq<Sample>, now: int, n: nat, j: nat)
    requires j <= n <= |s|
    requires forall i :: 0 <= i < j ==> now - s[i].at > 3 * HOUR
    requires forall i :: j <= i < |s| ==> now - s[i].at <= 3 * HOUR
    ensures Lately(s, now, n) == s[j..n]
  {
    if j < n {
      LatelyIsTheEnd(s, now, n - 1, j);
      assert s[j..n] == s[j..n - 1] + [s[n - 1]];
    } else {
      NoneLately(s, now, n);
    }
  }

  lemma {:induction false} NoneLately(s: seq<Sample>, now: int, n: nat)
    requires n <= |s| && forall i :: 0 <= i < n ==> now - s[i].at > 3 * HOUR
    ensures Lately(s, now, n) == []
  {
    if n > 0 {
      NoneLately(s, now, n - 1);
    }
  }

  /** With w the readings of the last three hours: a battery counts as charging exactly when
      there are three that span two hours, none lies more than 10 mV under the one before,
      and together they rise 40 mV an hour; and it charges at their overall rate. */
  lemma ChargingExactlyWhen(s: seq<Sample>, now: int, j: nat)
    requires j <= |s| && forall i :: 0 <= i < j ==> now - s[i].at > 3 * HOUR
    requires forall i :: j <= i < |s| ==> now - s[i].at <= 3 * HOUR
    ensures var w, r := s[j..], ChargingRate(s, now);
            && (r.Some? <==>
                 && |w| >= 3 && w[|w| - 1].at - w[0].at >= 2 * HOUR
                 && (forall i :: 1 <= i < |w| ==> w[i].mv >= w[i - 1].mv - 10)
                 && (w[|w| - 1].mv - w[0].mv) * HOUR >= 40 * (w[|w| - 1].at - w[0].at))
            && (r.Some? ==>
                 r.value * (w[|w| - 1].at - w[0].at) as real == (w[|w| - 1].mv - w[0].mv) as real * HOUR as real)
  {
    LatelyIsTheEnd(s, now, |s|, j);
    var w := s[j..];
    assert Lately(s, now, |s|) == w;
    if |w| >= 3 && w[|w| - 1].at - w[0].at >= 2 * HOUR {
      RateMeans(w[|w| - 1].mv - w[0].mv, w[|w| - 1].at - w[0].at);
    }
  }

  lemma RateMeans(rise: int, span: int)
    requires span > 0
    ensures var rate := rise as real / (span as real / HOUR as real);
            rate * span as real == rise as real * HOUR as real && (rate >= 40.0 <==> rise * HOUR >= 40 * span)
  {
    var hours := span as real / HOUR as real;
    assert hours * HOUR as real == span as real;
    var rate := rise as real / hours;
    assert rate * hours == rise as real;
    assert rate * span as real == rate * hours * HOUR as real;
    var lead := rate - 40.0;
    assert lead * span as real == rise as real * HOUR as real - 40.0 * span as real;
    assert rise as real * HOUR as real == (rise * HOUR) as real;
    if rate >= 40.0 {
      ProductSign(lead, span as real);
    } else {
      Positive(-lead, span as real);
    }
  }

  // ------------------------------------------------------------------- nightly lows --

  /** The readings of one day. */
  function OfDay(s: seq<Sample>, cal: Calendar, day: int): (mvs: seq<int>) {
    Grouping.Pick(ByDay(s, cal), day)
  }

  /** p is a night of day: six readings or more, the lowest of them, and the days since the
      first reading's own. */
  ghost predicate IsNightOf(s: seq<Sample>, cal: Calendar, day: int, p: Point)
    requires s != []
  {
    && |OfDay(s, cal, day)| >= 6
    && (exists i :: 0 <= i < |s| && cal(s[i].at) == day && s[i].mv as real == p.y)
    && (forall i :: 0 <= i < |s| && cal(s[i].at) == day ==> p.y <= s[i].mv as real)
    && p.x * DAY as real == (day - cal(s[0].at)) as real
  }

  lemma {:induction false} LowestIsLowest(v: seq<int>)
    requires v != []
    ensures LowestOf(v) in v && forall x :: x in v ==> LowestOf(v) <= x
  {
    if |v| > 1 {
      LowestIsLowest(v[..|v| - 1]);
      assert v == v[..|v| - 1] + [v[|v| - 1]];
    }
  }

  lemma DayIsNight(s: seq<Sample>, cal: Calendar, j: nat)
    requires s != [] && j < |Grouping.Keys(ByDay(s, cal))|
    ensures var day := Grouping.Keys(ByDay(s, cal))[j];
            var mvs := OfDay(s, cal, day);
            mvs != []
            && (|mvs| >= 6 ==> IsNightOf(s, cal, day, Point(DayNumber(ByDay(s, cal), j), LowestOf(mvs) as real)))
  {
    hide Grouping.Keys, Grouping.Pick, LowestOf;
    var items := ByDay(s, cal);
    var day := Grouping.Keys(items)[j];
    var mvs := OfDay(s, cal, day);
    Grouping.KeysAreTheItemsKeys(items, day);
    LowestIsLowest(mvs);
    Grouping.PickHolds(items, day, LowestOf(mvs));
    var i :| 0 <= i < |items| && items[i] == (day, LowestOf(mvs));
    assert cal(s[i].at) == day && s[i].mv == LowestOf(mvs);
    forall i | 0 <= i < |s| && cal(s[i].at) == day ensures LowestOf(mvs) <= s[i].mv {
      assert items[i] == (day, s[i].mv);
      Grouping.PickHolds(items, day, s[i].mv);
    }
    FirstKey(items);
  }

  lemma FirstKey(items: seq<(int, int)>)
    requires items != []
    ensures Grouping.Keys(items) != [] && Grouping.Keys(items)[0] == items[0].0
  {
    Grouping.KeysInOrderOfAppearance(items, 1);
    assert items[..1] == [] + [items[0]];
    Grouping.Append([], items[0]);
  }

  ghost predicate HasNight(nights: seq<Point>, s: seq<Sample>, cal: Calendar, day: int)
    requires s != []
  {
    exists i :: 0 <= i < |nights| && IsNightOf(s, cal, day, nights[i])
  }

  ghost predicate IsSomeNight(s: seq<Sample>, cal: Calendar, p: Point)
    requires s != []
  {
    exists day :: IsNightOf(s, cal, day, p)
  }

  lemma NightsGrow(nights: seq<Point>, p: Point, s: seq<Sample>, cal: Calendar, day: int)
    requires s != []
    ensures HasNight(nights, s, cal, day) || IsNightOf(s, cal, day, p) ==> HasNight(nights + [p], s, cal, day)
  {
    hide IsNightOf;
    var all := nights + [p];
    assert all[|nights|] == p;
    if HasNight(nights, s, cal, day) {
      var i :| 0 <= i < |nights| && IsNightOf(s, cal, day, nights[i]);
      assert all[i] == nights[i];
    }
  }

  lemma {:induction false} NightsAreDays(s: seq<Sample>, cal: Calendar, n: nat)
    requires s != [] && n <= |Grouping.Keys(ByDay(s, cal))|
    ensures var nights := Nights(ByDay(s, cal), n);
            && (forall i :: 0 <= i < |nights| ==> IsSomeNight(s, cal, nights[i]))
            && (nights != [] ==> nights[|nights| - 1].y == LastLow(ByDay(s, cal), n) as real)
  {
    hide Grouping.Keys, Grouping.Pick, LowestOf, IsNightOf, ByDay, DayNumber;
    if n > 0 {
      NightsAreDays(s, cal, n - 1);
      DayIsNight(s, cal, n - 1);
    }
  }

  lemma {:induction false} DayHasNight(s: seq<Sample>, cal: Calendar, n: nat, j: nat)
    requires s != [] && j < n <= |Grouping.Keys(ByDay(s, cal))|
    requires |OfDay(s, cal, Grouping.Keys(ByDay(s, cal))[j])| >= 6
    ensures HasNight(Nights(ByDay(s, cal), n), s, cal, Grouping.Keys(ByDay(s, cal))[j])
  {
    hide Grouping.Keys, Grouping.Pick, LowestOf, IsNightOf, ByDay, DayNumber, HasNight;
    var items := ByDay(s, cal);
    DayIsNight(s, cal, n - 1);
    var mvs := Grouping.Pick(items, Grouping.Keys(items)[n - 1]);
    if j < n - 1 {
      DayHasNight(s, cal, n - 1, j);
    }
    NightsGrow(Nights(items, n - 1), Point(DayNumber(items, n - 1), LowestOf(mvs) as real), s, cal,
      Grouping.Keys(items)[j]);
  }

  /** The nights of a trend are the days with six readings or more, each with its lowest;
      and the last low of it is that of the last of them. */
  lemma NightsAreTheLows(s: seq<Sample>, cal: Calendar, day: int)
    requires s != []
    ensures var nights := AllNights(s, cal);
            && (forall i :: 0 <= i < |nights| ==> IsSomeNight(s, cal, nights[i]))
            && (HasNight(nights, s, cal, day) <==> |OfDay(s, cal, day)| >= 6)
            && (nights != [] ==> nights[|nights| - 1].y == FinalLow(s, cal) as real)
  {
    hide Grouping.Keys, Grouping.Pick, ByDay, Nights, LastLow, IsSomeNight;
    var items := ByDay(s, cal);
    NightsAreDays(s, cal, |Grouping.Keys(items)|);
    if |OfDay(s, cal, day)| >= 6 {
      Grouping.KeysAreTheItemsKeys(items, day);
      var j :| 0 <= j < |Grouping.Keys(items)| && Grouping.Keys(items)[j] == day;
      DayHasNight(s, cal, |Grouping.Keys(items)|, j);
    }
  }

  // ------------------------------------------------------- from the nights to a kind --

  /** Between one night and the next the low climbs at most v a day. */
  ghost predicate ClimbsAtMost(pts: seq<Point>, v: real) {
    forall i :: 0 <= i < |pts| - 1 ==> pts[i + 1].y - pts[i].y <= v * (pts[i + 1].x - pts[i].x)
  }

  ghost predicate ClimbsAtLeast(pts: seq<Point>, v: real) {
    forall i :: 0 <= i < |pts| - 1 ==> pts[i + 1].y - pts[i].y >= v * (pts[i + 1].x - pts[i].x)
  }

  /** So it does between any two nights. */
  lemma {:induction false} ClimbsAdd(pts: seq<Point>, v: real, i: nat, j: nat)
    requires i <= j < |pts|
    ensures ClimbsAtMost(pts, v) ==> pts[j].y - pts[i].y <= v * (pts[j].x - pts[i].x)
    ensures ClimbsAtLeast(pts, v) ==> pts[j].y - pts[i].y >= v * (pts[j].x - pts[i].x)
  {
    if i < j {
      ClimbsAdd(pts, v, i, j - 1);
      assert pts[j] == pts[j - 1 + 1];
      assert v * (pts[j].x - pts[i].x) == v * (pts[j].x - pts[j - 1].x) + v * (pts[j - 1].x - pts[i].x);
    }
  }

  lemma SlopeBounds(p: Point, q: Point, v: real)
    requires p.x < q.x
    ensures q.y - p.y <= v * (q.x - p.x) <==> Slope(p, q) <= v
    ensures q.y - p.y >= v * (q.x - p.x) <==> Slope(p, q) >= v
  {
    var m, dx := Slope(p, q), q.x - p.x;
    assert m * dx == q.y - p.y;
    assert (m - v) * dx == m * dx - v * dx;
    if m > v {
      Positive(m - v, dx);
    } else if m < v {
      Positive(v - m, dx);
      assert (v - m) * dx == v * dx - m * dx;
    }
  }

  ghost predicate EverySlope(pts: seq<Point>, p: real -> bool) {
    forall i, j :: 0 <= i < j < |pts| && pts[i].x < pts[j].x ==> p(Slope(pts[i], pts[j]))
  }

  ghost predicate All(s: seq<real>, p: real -> bool) {
    forall i :: 0 <= i < |s| ==> p(s[i])
  }

  lemma {:induction false} RowsSatisfy(pts: seq<Point>, p: real -> bool, i: nat, j: nat)
    requires i < j <= |pts| && EverySlope(pts, p)
    ensures All(Row(pts, i, j), p)
    decreases |pts| - j
  {
    hide Slope;
    if j < |pts| {
      RowsSatisfy(pts, p, i, j + 1);
    }
  }

  lemma {:induction false} SlopesSatisfy(pts: seq<Point>, p: real -> bool, i: nat)
    requires i <= |pts| && EverySlope(pts, p)
    ensures All(Slopes(pts, i), p)
    decreases |pts| - i
  {
    hide Row, EverySlope;
    if i < |pts| {
      SlopesSatisfy(pts, p, i + 1);
      RowsSatisfy(pts, p, i, i + 1);
    }
  }

  function AtMost(v: real): real -> bool {
    y => y <= v
  }

  function AtLeast(v: real): real -> bool {
    y => y >= v
  }

  lemma SortKeepsAll(s: seq<real>, p: real -> bool)
    requires All(s, p)
    ensures All(Sort(s), p)
  {
    hide Sort;
    SortSorts(s);
    forall i | 0 <= i < |Sort(s)| ensures p(Sort(s)[i]) {
      assert Sort(s)[i] in multiset(s);
    }
  }

  lemma QuantileFollowsAll(s: seq<real>, share: real, v: real)
    requires s != [] && Sorted(s) && 0.0 <= share <= 1.0
    ensures All(s, AtMost(v)) ==> Quantile(s, share) <= v
    ensures All(s, AtLeast(v)) ==> Quantile(s, share) >= v
  {
    hide Between, Ceil;
    var pos := Position(share, |s|);
    BetweenNeighbours(s, pos);
    if All(s, AtMost(v)) {
      assert AtMost(v)(s[Ceil(pos)]);
    }
    if All(s, AtLeast(v)) {
      assert AtLeast(v)(s[pos.Floor]);
    }
  }

  /** The likely range lies where all slopes lie. */
  lemma RangeFollowsSlopes(pts: seq<Point>, v: real)
    requires Slopes(pts, 0) != []
    ensures All(Slopes(pts, 0), AtMost(v)) ==> FitOf(pts).high <= v
    ensures All(Slopes(pts, 0), AtLeast(v)) ==> FitOf(pts).low >= v
  {
    hide Slopes, Sort, Quantile, All;
    SortSorts(Slopes(pts, 0));
    var sl := Sort(Slopes(pts, 0));
    QuantileFollowsAll(sl, 0.75, v);
    QuantileFollowsAll(sl, 0.25, v);
    if All(Slopes(pts, 0), AtMost(v)) {
      SortKeepsAll(Slopes(pts, 0), AtMost(v));
    }
    if All(Slopes(pts, 0), AtLeast(v)) {
      SortKeepsAll(Slopes(pts, 0), AtLeast(v));
    }
  }

  lemma NightsHaveSlopes(pts: seq<Point>)
    requires Increasing(pts) && |pts| >= 2
    ensures Slopes(pts, 0) != []
  {
    hide Slope;
    assert pts[0].x < pts[1].x;
  }

  lemma ClimbsBoundTheRange(pts: seq<Point>, v: real)
    requires Increasing(pts) && |pts| >= 2
    ensures ClimbsAtMost(pts, v) ==> FitOf(pts).high <= v
    ensures ClimbsAtLeast(pts, v) ==> FitOf(pts).low >= v
  {
    hide Slope, Slopes, FitOf, All;
    NightsHaveSlopes(pts);
    RangeFollowsSlopes(pts, v);
    forall i, j | 0 <= i < j < |pts| && pts[i].x < pts[j].x
      ensures ClimbsAtMost(pts, v) ==> Slope(pts[i], pts[j]) <= v
      ensures ClimbsAtLeast(pts, v) ==> Slope(pts[i], pts[j]) >= v
    {
      ClimbsAdd(pts, v, i, j);
      SlopeBounds(pts[i], pts[j], v);
    }
    if ClimbsAtMost(pts, v) {
      SlopesSatisfy(pts, AtMost(v), 0);
    }
    if ClimbsAtLeast(pts, v) {
      SlopesSatisfy(pts, AtLeast(v), 0);
    }
  }

  /** The readings can be judged by their nights: not too jumpy, not charging just now, and
      three nights at least. */
  predicate JudgedByNights(s: seq<Sample>, now: int, cal: Calendar)
    requires s != []
  {
    !TooJumpy(s) && ChargingRate(SinceJump(s), now).None? && |AllNights(SinceJump(s), cal)| >= 3
  }

  /** Local days follow one another. */
  lemma NightsInOrder(s: seq<Sample>, cal: Calendar)
    requires s != [] && ByTime(s) && ClimbsWithTime(cal)
    ensures Increasing(AllNights(SinceJump(s), cal))
  {
    hide AllNights, Start;
    StartIsLastHeldJump(s, |s|);
    NightsIncrease(SinceJump(s), cal);
  }

  /** A battery whose lows fall by 10 mV a day or more, night after night, is draining,
      however full it is. */
  lemma FallingNightsAreDraining(s: seq<Sample>, now: int, cal: Calendar)
    requires s != [] && ByTime(s) && ClimbsWithTime(cal) && JudgedByNights(s, now, cal)
    requires ClimbsAtMost(AllNights(SinceJump(s), cal), -10.0)
    ensures Judge(s, now, cal).kind == Draining
  {
    hide TooJumpy, FitOf, ChargingRate, AllNights, FinalLow, SinceJump, DailyHigh, Judge, ClimbsAtMost;
    NightsInOrder(s, cal);
    ClimbsBoundTheRange(AllNights(SinceJump(s), cal), -10.0);
    VerdictExactlyWhen(s, now, cal);
  }

  /** One whose lows climb by 10 mV a day or more is charging, until it is full. */
  lemma ClimbingNightsAreCharging(s: seq<Sample>, now: int, cal: Calendar)
    requires s != [] && ByTime(s) && ClimbsWithTime(cal) && JudgedByNights(s, now, cal)
    requires ClimbsAtLeast(AllNights(SinceJump(s), cal), 10.0)
    ensures Judge(s, now, cal).kind == if DailyHigh(s, now, |s|) >= 4180 then Full else Charging
  {
    hide TooJumpy, FitOf, ChargingRate, AllNights, FinalLow, SinceJump, DailyHigh, Judge, ClimbsAtLeast;
    NightsInOrder(s, cal);
    ClimbsBoundTheRange(AllNights(SinceJump(s), cal), 10.0);
    RangeHoldsMedian(AllNights(SinceJump(s), cal));
    VerdictExactlyWhen(s, now, cal);
  }

  /** And one whose lows never move by that much is steady. */
  lemma LevelNightsAreSteady(s: seq<Sample>, now: int, cal: Calendar, v: real)
    requires s != [] && ByTime(s) && ClimbsWithTime(cal) && JudgedByNights(s, now, cal) && v < 10.0
    requires ClimbsAtLeast(AllNights(SinceJump(s), cal), -v) && ClimbsAtMost(AllNights(SinceJump(s), cal), v)
    ensures Judge(s, now, cal).kind == if DailyHigh(s, now, |s|) >= 4180 then Full else Steady
  {
    hide TooJumpy, FitOf, ChargingRate, AllNights, FinalLow, SinceJump, DailyHigh, Judge, ClimbsAtLeast, ClimbsAtMost;
    NightsInOrder(s, cal);
    ClimbsBoundTheRange(AllNights(SinceJump(s), cal), v);
    ClimbsBoundTheRange(AllNights(SinceJump(s), cal), -v);
    RangeHoldsMedian(AllNights(SinceJump(s), cal));
    VerdictExactlyWhen(s, now, cal);
  }

  /** A quantile is at most v exactly as far as so many elements are. */
  lemma QuantileByCount(s: seq<real>, share: real, v: real)
    requires s != [] && Sorted(s) && 0.0 <= share <= 1.0
    ensures var pos := Position(share, |s|);
            && (Count(s, AtMost(v)) > Ceil(pos) ==> Quantile(s, share) <= v)
            && (Quantile(s, share) <= v ==> Count(s, AtMost(v)) > pos.Floor)
  {
    hide Between, Count, Along;
    var pos := Position(share, |s|);
    BetweenNeighbours(s, pos);
    if s[Ceil(pos)] > v {
      CountWithin(s, AtMost(v), 0, Ceil(pos));
    }
    if s[pos.Floor] <= v {
      CountAtLeast(s, AtMost(v), 0, pos.Floor + 1);
    }
  }

  /** Draining by counting: with n slopes between the nights, more than three quarters of
      n - 1, rounded up, that fall by 10 mV a day make it so, and it takes more than three
      quarters of n - 1 rounded down. */
  lemma DrainingByCount(s: seq<Sample>, now: int, cal: Calendar)
    requires s != [] && ByTime(s) && ClimbsWithTime(cal) && JudgedByNights(s, now, cal)
    ensures var slopes := Slopes(AllNights(SinceJump(s), cal), 0);
            var falling, pos := Count(slopes, AtMost(-10.0)), 0.75 * (|slopes| - 1) as real;
            && slopes != []
            && (falling > Ceil(pos) ==> Judge(s, now, cal).kind == Draining)
            && (Judge(s, now, cal).kind == Draining ==> falling > pos.Floor)
  {
    hide TooJumpy, ChargingRate, AllNights, FinalLow, SinceJump, DailyHigh, Judge, Slopes, Count, Sort, Quantile;
    NightsInOrder(s, cal);
    var pts := AllNights(SinceJump(s), cal);
    NightsHaveSlopes(pts);
    var slopes := Slopes(pts, 0);
    SortSorts(slopes);
    CountIsByMultiset(Sort(slopes), slopes, AtMost(-10.0));
    QuantileByCount(Sort(slopes), 0.75, -10.0);
    assert Position(0.75, |slopes|) == 0.75 * (|slopes| - 1) as real;
    VerdictExactlyWhen(s, now, cal);
  }

  // ------------------------------------------------------------------- estimates --

  /** When an estimate says reached, and when beyond. */
  lemma EstimatesSayWhen(t: Trend, mv: int)
    requires Sound(t)
    ensures var e := TimeTo(t, mv);
            && e.mv == mv && (e.reached <==> t.kind == Draining && t.lastLow <= mv)
            && (e.beyond <==> t.kind != Draining || (t.lastLow > mv && e.soonest > 60.0))
    ensures var e := TimeToFull(t);
            && e.mv == 4200
            && (e.reached <==> t.kind == Full || (t.kind in {ChargingNow, Charging} && ChargesFrom(t) >= 4200))
            && (e.beyond <==> t.kind !in {Full, ChargingNow, Charging} || (t.kind == Charging && e.soonest > 60.0))
  {
  }

  /** Where a charge starts from: now, or the day's high. */
  function ChargesFrom(t: Trend): int {
    if t.kind == ChargingNow || t.dailyHigh == 0 then t.latest else t.dailyHigh
  }

  /** A charge followed for the promised time is full: just now, at its hourly rate over
      days of 24 hours; else at the steeper slope for Soonest and the gentler for Latest. */
  lemma ChargeMeetsFull(t: Trend)
    requires Sound(t) && ChargesFrom(t) < 4200
    ensures var e, from := TimeToFull(t), ChargesFrom(t) as real;
            && (t.kind == ChargingNow ==> from + t.rate * (24.0 * e.soonest) == 4200.0 && e.latest == e.soonest)
            && (t.kind == Charging ==>
                 from + t.fit.high * e.soonest == 4200.0 && from + t.fit.low * e.latest == 4200.0)
  {
    var gap := (4200 - ChargesFrom(t)) as real;
    if t.kind == ChargingNow {
      Cancels(gap, t.rate);
      Cancels(gap / t.rate, 24.0);
    } else if t.kind == Charging {
      Cancels(gap, t.fit.high);
      Cancels(gap, t.fit.low);
    }
  }

  /** Readings are usable exactly when they are positive and of the week before now, and all
      of those are used, each as often as it was given. */
  lemma {:induction false} UsablesAreTheWeek(samples: seq<Sample>, now: int, n: nat, x: Sample)
    requires n <= |samples|
    ensures multiset(Usables(samples, now, n))[x]
         == if x.mv > 0 && x.at <= now && now - x.at <= 7 * 24 * 3600 * 1_000_000_000
              then multiset(samples[..n])[x] else 0
  {
    if n > 0 {
      UsablesAreTheWeek(samples, now, n - 1, x);
      assert samples[..n] == samples[..n - 1] + [samples[n - 1]];
    }
  }
}
