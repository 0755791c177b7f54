/** Which way a battery is going and how long until a level (internal/alert/trend.go).
    Times are nanoseconds, voltages millivolts. */
module BatteryTrend {
  import Grouping
  import opened Options
  import opened Reals
  import Sorting
  import opened TheilSen
  import OddPoint

  const HOUR := 3600 * 1_000_000_000
  const DAY := 24 * HOUR
  const WINDOW := 7 * DAY
  const MIN_NIGHTS := 3
  const MIN_READINGS_PER_DAY := 6
  const DIRECTION_MV_PER_DAY := 10.0
  const JUMP_MV := 150
  const MAX_JUMPS := 3
  const JUMPY_MEDIAN_STEP_MV := 40
  const CHARGING_NOW_WINDOW := 3 * HOUR
  const CHARGING_NOW_MV_PER_HOUR := 40.0
  const FULL_MV := 4200
  const FULL_DAILY_HIGH_MV := 4180
  const NEARLY_FULL_MV := 4150

  datatype Sample = Sample(at: int, mv: int)

  datatype Kind = Insufficient | Jumpy | Steady | Draining | Charging | ChargingNow | Full

  datatype Trend = Trend(kind: Kind, fit: Fit, rate: real, nights: nat, lastLow: int, latest: int, dailyHigh: int,
    nearlyFull: bool)

  const UNKNOWN_TREND := Trend(Insufficient, Fit(0.0, 0.0, 0.0), 0.0, 0, 0, 0, 0, false)

  function Abs(v: int): nat {
    if v < 0 then -v else v
  }

  // -------------------------------------------------------------- the readings --

  predicate Usable(x: Sample, now: int) {
    x.mv > 0 && x.at <= now && now - x.at <= WINDOW
  }

  function Usables(samples: seq<Sample>, now: int, n: nat): (r: seq<Sample>)
    requires n <= |samples|
    ensures forall i :: 0 <= i < |r| ==> Usable(r[i], now)
  {
    if n == 0 then []
    else
      var before := Usables(samples, now, n - 1);
      if Usable(samples[n - 1], now) then before + [samples[n - 1]] else before
  }

  ghost predicate ByTime(s: seq<Sample>) {
    forall i, j :: 0 <= i < j < |s| ==> s[i].at <= s[j].at
  }

  function At(x: Sample): real {
    x.at as real
  }

  lemma SortedIsByTime(s: seq<Sample>)
    ensures Sorting.SortedBy(s, At) <==> ByTime(s)
  {
  }

  /** Highest reading of the last day among the first n. */
  function DailyHigh(s: seq<Sample>, now: int, n: nat): int
    requires n <= |s|
  {
    if n == 0 then 0
    else
      var high := DailyHigh(s, now, n - 1);
      if now - s[n - 1].at <= DAY && s[n - 1].mv > high then s[n - 1].mv else high
  }

  // ------------------------------------------------------------------- jumps --

  function Step(s: seq<Sample>, i: nat): nat
    requires 1 <= i < |s|
  {
    Abs(s[i].mv - s[i - 1].mv)
  }

  /** The reading stayed where the jump took it, or is the last. */
  predicate Held(s: seq<Sample>, i: nat)
    requires 1 <= i < |s|
  {
    Step(s, i) > JUMP_MV && (i == |s| - 1 || Step(s, i + 1) <= JUMP_MV / 2)
  }

  function Jumps(s: seq<Sample>, n: nat): nat
    requires 1 <= n <= |s|
  {
    if n == 1 then 0 else Jumps(s, n - 1) + if Step(s, n - 1) > JUMP_MV then 1 else 0
  }

  function Start(s: seq<Sample>, n: nat): nat
    requires 1 <= n <= |s|
  {
    if n == 1 then 0 else if Held(s, n - 1) then n - 1 else Start(s, n - 1)
  }

  /** Where the trend starts: after the last jump that held, and none later did. */
  lemma {:induction false} StartIsLastHeldJump(s: seq<Sample>, n: nat)
    requires 1 <= n <= |s|
    ensures Start(s, n) < n && (Start(s, n) > 0 ==> Held(s, Start(s, n)))
    ensures forall i :: Start(s, n) < i < n ==> !Held(s, i)
  {
    if n > 1 {
      StartIsLastHeldJump(s, n - 1);
    }
  }

  /** The readings since the last jump that held. */
  function SinceJump(s: seq<Sample>): seq<Sample>
    requires s != []
  {
    StartIsLastHeldJump(s, |s|);
    s[Start(s, |s|)..]
  }

  function Steps(s: seq<Sample>, n: nat): (r: seq<real>)
    requires 1 <= n <= |s|
    ensures |r| == n - 1
  {
    if n == 1 then [] else Steps(s, n - 1) + [Step(s, n - 1) as real]
  }

  /** The upper of the two middle elements for an even number of them. */
  function Median(v: seq<real>): real
    requires v != []
  {
    SortSorts(v);
    Sort(v)[|v| / 2]
  }

  predicate TooJumpy(s: seq<Sample>)
    requires s != []
  {
    Jumps(s, |s|) > MAX_JUMPS
    || (|s| - 1 >= MIN_READINGS_PER_DAY && Median(Steps(s, |s|)) > JUMPY_MEDIAN_STEP_MV as real)
  }

  // ------------------------------------------------------------- charging now --

  function Lately(s: seq<Sample>, now: int, n: nat): seq<Sample>
    requires n <= |s|
  {
    if n == 0 then []
    else
      var before := Lately(s, now, n - 1);
      if now - s[n - 1].at <= CHARGING_NOW_WINDOW then before + [s[n - 1]] else before
  }

  /** None unless the last hours climbed steadily and fast enough. */
  function ChargingRate(s: seq<Sample>, now: int): Option<real> {
    var w := Lately(s, now, |s|);
    if |w| < 3 || w[|w| - 1].at - w[0].at < 2 * HOUR then None
    else if exists i :: 1 <= i < |w| && w[i].mv < w[i - 1].mv - 10 then None
    else
      var rate := (w[|w| - 1].mv - w[0].mv) as real / ((w[|w| - 1].at - w[0].at) as real / HOUR as real);
      if rate >= CHARGING_NOW_MV_PER_HOUR then Some(rate) else None
  }

  method FindChargingRate(s: seq<Sample>, now: int) returns (r: Option<real>)
    ensures r == ChargingRate(s, now)
  {
    var w: seq<Sample> := [];
    for n := 0 to |s|
      invariant w == Lately(s, now, n)
    {
      if now - s[n].at <= CHARGING_NOW_WINDOW {
        w := w + [s[n]];
      }
    }
    if |w| < 3 || w[|w| - 1].at - w[0].at < 2 * HOUR {
      return None;
    }
    for i := 1 to |w|
      invariant forall j :: 1 <= j < i ==> w[j].mv >= w[j - 1].mv - 10
    {
      if w[i].mv < w[i - 1].mv - 10 {
        return None;
      }
    }
    var rate := (w[|w| - 1].mv - w[0].mv) as real / ((w[|w| - 1].at - w[0].at) as real / HOUR as real);
    r := if rate >= CHARGING_NOW_MV_PER_HOUR then Some(rate) else None;
  }

  // ------------------------------------------------------------- nightly lows --

  /** The local midnight that begins an instant's day; any function will do. */
  type Calendar = int -> int

  /** Readings keyed by their day. */
  function ByDay(s: seq<Sample>, cal: Calendar): seq<(int, int)> {
    seq(|s|, i requires 0 <= i < |s| => (cal(s[i].at), s[i].mv))
  }

  function LowestOf(v: seq<int>): int
    requires v != []
  {
    if |v| == 1 then v[0] else var m := LowestOf(v[..|v| - 1]); if v[|v| - 1] < m then v[|v| - 1] else m
  }

  /** The days with enough readings among the first n, each with its lowest. */
  function Nights(items: seq<(int, int)>, n: nat): seq<Point>
    requires n <= |Grouping.Keys(items)|
  {
    if n == 0 then []
    else
      var before := Nights(items, n - 1);
      var mvs := Grouping.Pick(items, Grouping.Keys(items)[n - 1]);
      if |mvs| < MIN_READINGS_PER_DAY then before
      else before + [Point(DayNumber(items, n - 1), LowestOf(mvs) as real)]
  }

  function LastLow(items: seq<(int, int)>, n: nat): int
    requires n <= |Grouping.Keys(items)|
  {
    if n == 0 then 0
    else
      var mvs := Grouping.Pick(items, Grouping.Keys(items)[n - 1]);
      if |mvs| < MIN_READINGS_PER_DAY then LastLow(items, n - 1) else LowestOf(mvs)
  }

  function AllNights(s: seq<Sample>, cal: Calendar): seq<Point> {
    Nights(ByDay(s, cal), |Grouping.Keys(ByDay(s, cal))|)
  }

  function FinalLow(s: seq<Sample>, cal: Calendar): int {
    LastLow(ByDay(s, cal), |Grouping.Keys(ByDay(s, cal))|)
  }

  datatype DayLow = DayLow(at: int, low: int, n: nat)

  ghost predicate DaysAre(items: seq<(int, int)>, days: seq<DayLow>, byKey: map<int, nat>) {
    && |days| == |Grouping.Keys(items)|
    && (forall i :: 0 <= i < |days| ==> DayIs(items, days[i], Grouping.Keys(items)[i]))
    && (forall k :: k in byKey <==> k in Grouping.Keys(items))
    && (forall k :: k in byKey ==> byKey[k] < |days| && Grouping.Keys(items)[byKey[k]] == k)
  }

  ghost predicate DayIs(items: seq<(int, int)>, d: DayLow, key: int) {
    d.at == key && Grouping.Pick(items, key) != []
    && d.low == LowestOf(Grouping.Pick(items, key)) && d.n == |Grouping.Pick(items, key)|
  }

  lemma LowestOfAppend(v: seq<int>, x: int)
    ensures LowestOf(v + [x]) == if v == [] then x else if x < LowestOf(v) then x else LowestOf(v)
  {
    assert (v + [x])[..|v|] == v;
  }

  lemma NextReading(items: seq<(int, int)>, days: seq<DayLow>, byKey: map<int, nat>, k: int, mv: int)
    requires DaysAre(items, days, byKey)
    ensures k !in byKey ==> DaysAre(items + [(k, mv)], days + [DayLow(k, mv, 1)], byKey[k := |days|])
    ensures k in byKey ==>
      var d := days[byKey[k]];
      DaysAre(items + [(k, mv)], days[byKey[k] := DayLow(d.at, if mv < d.low then mv else d.low, d.n + 1)], byKey)
  {
    hide Grouping.Keys, Grouping.Pick, LowestOf;
    Grouping.Append(items, (k, mv));
    Grouping.KeysAreTheItemsKeys(items, k);
    Grouping.KeysAreDistinct(items);
    LowestOfAppend(Grouping.Pick(items, k), mv);
  }

  lemma NoDays()
    ensures DaysAre([], [], map[])
  {
  }

  method DailyLows(s: seq<Sample>, cal: Calendar) returns (days: seq<DayLow>)
    ensures var keys := Grouping.Keys(ByDay(s, cal));
            |days| == |keys| && forall i :: 0 <= i < |days| ==> DayIs(ByDay(s, cal), days[i], keys[i])
  {
    hide DaysAre;
    days := [];
    var index: map<int, nat> := map[];
    NoDays();
    assert ByDay(s[..0], cal) == [];
    for n := 0 to |s|
      invariant DaysAre(ByDay(s[..n], cal), days, index)
    {
      var x := s[n];
      var k := cal(x.at);
      NextReading(ByDay(s[..n], cal), days, index, k, x.mv);
      IndexFits(ByDay(s[..n], cal), days, index, k);
      assert ByDay(s[..n + 1], cal) == ByDay(s[..n], cal) + [(k, x.mv)];
      if k !in index {
        index := index[k := |days|];
        days := days + [DayLow(k, x.mv, 1)];
      } else {
        var d := days[index[k]];
        days := days[index[k] := DayLow(d.at, if x.mv < d.low then x.mv else d.low, d.n + 1)];
      }
    }
    assert s[..|s|] == s;
    DaysThere(ByDay(s, cal), days, index);
  }

  lemma DaysThere(items: seq<(int, int)>, days: seq<DayLow>, byKey: map<int, nat>)
    requires DaysAre(items, days, byKey)
    ensures |days| == |Grouping.Keys(items)|
    ensures forall i :: 0 <= i < |days| ==> DayIs(items, days[i], Grouping.Keys(items)[i])
  {
  }

  lemma IndexFits(items: seq<(int, int)>, days: seq<DayLow>, byKey: map<int, nat>, k: int)
    requires DaysAre(items, days, byKey)
    ensures k in byKey ==> byKey[k] < |days|
  {
  }

  method NightlyLows(s: seq<Sample>, cal: Calendar) returns (pts: seq<Point>, lastLow: int)
    ensures pts == AllNights(s, cal) && lastLow == FinalLow(s, cal)
  {
    hide Grouping.Keys, Grouping.Pick, ByDay, LowestOf;
    var days := DailyLows(s, cal);
    pts, lastLow := [], 0;
    for n := 0 to |days|
      invariant pts == Nights(ByDay(s, cal), n) && lastLow == LastLow(ByDay(s, cal), n)
    {
      var d := days[n];
      assert DayIs(ByDay(s, cal), d, Grouping.Keys(ByDay(s, cal))[n]);
      assert DayIs(ByDay(s, cal), days[0], Grouping.Keys(ByDay(s, cal))[0]);
      if d.n >= MIN_READINGS_PER_DAY {
        pts := pts + [Point((d.at - days[0].at) as real / DAY as real, d.low as real)];
        lastLow := d.low;
      }
    }
  }

  // ---------------------------------------------------------- classification --

  function Direction(fit: Fit, dailyHigh: int): Kind {
    if fit.high <= -DIRECTION_MV_PER_DAY then Draining
    else if dailyHigh >= FULL_DAILY_HIGH_MV then Full
    else if fit.low >= DIRECTION_MV_PER_DAY then Charging
    else Steady
  }

  /** What the readings since the last held jump say. */
  function JudgeTail(t: Trend, s: seq<Sample>, now: int, cal: Calendar): Trend {
    match ChargingRate(s, now)
    case Some(rate) => t.(kind := ChargingNow, rate := rate, nearlyFull := t.latest >= NEARLY_FULL_MV)
    case None =>
      var pts := AllNights(s, cal);
      var t1 := t.(nights := |pts|, lastLow := FinalLow(s, cal));
      if |pts| < MIN_NIGHTS then t1.(kind := if t.dailyHigh >= FULL_DAILY_HIGH_MV then Full else Insufficient)
      else t1.(fit := FitOf(pts), kind := Direction(FitOf(pts), t.dailyHigh))
  }

  /** The trend of usable readings in order of time. */
  function Judge(s: seq<Sample>, now: int, cal: Calendar): Trend {
    if s == [] then UNKNOWN_TREND
    else
      var t := UNKNOWN_TREND.(latest := s[|s| - 1].mv, dailyHigh := DailyHigh(s, now, |s|));
      if TooJumpy(s) then t.(kind := Jumpy) else JudgeTail(t, SinceJump(s), now, cal)
  }

  method AnalyseTrend(samples: seq<Sample>, now: int, cal: Calendar) returns (t: Trend, s: seq<Sample>)
    ensures multiset(s) == multiset(Usables(samples, now, |samples|)) && ByTime(s)
    ensures t == Judge(s, now, cal)
  {
    s := UsableByTime(samples, now);
    t := JudgeSorted(s, now, cal);
  }

  method UsableByTime(samples: seq<Sample>, now: int) returns (s: seq<Sample>)
    ensures multiset(s) == multiset(Usables(samples, now, |samples|)) && ByTime(s)
  {
    hide Sorting.SortBy;
    s := [];
    for n := 0 to |samples|
      invariant s == Usables(samples, now, n)
    {
      var x := samples[n];
      if x.mv > 0 && x.at <= now && now - x.at <= WINDOW {
        s := s + [x];
      }
    }
    Sorting.SortBySorts(s, At);
    s := Sorting.SortBy(s, At);
    SortedIsByTime(s);
  }

  method JudgeSorted(s: seq<Sample>, now: int, cal: Calendar) returns (t: Trend)
    ensures t == Judge(s, now, cal)
  {
    hide JudgeTail, Median;
    if |s| == 0 {
      return UNKNOWN_TREND;
    }
    t := UNKNOWN_TREND.(latest := s[|s| - 1].mv);
    for n := 0 to |s|
      invariant t == UNKNOWN_TREND.(latest := s[|s| - 1].mv, dailyHigh := DailyHigh(s, now, n))
    {
      if now - s[n].at <= DAY && s[n].mv > t.dailyHigh {
        t := t.(dailyHigh := s[n].mv);
      }
    }
    var jumps, start, steps := CountJumps(s);
    StartIsLastHeldJump(s, |s|);
    if jumps > MAX_JUMPS || (|steps| >= MIN_READINGS_PER_DAY && Median(steps) > JUMPY_MEDIAN_STEP_MV as real) {
      t := t.(kind := Jumpy);
      return;
    }
    t := FinishTrend(t, s[start..], now, cal);
  }

  method CountJumps(s: seq<Sample>) returns (jumps: nat, start: nat, steps: seq<real>)
    requires s != []
    ensures jumps == Jumps(s, |s|) && start == Start(s, |s|) && steps == Steps(s, |s|)
  {
    jumps, start, steps := 0, 0, [];
    for i := 1 to |s|
      invariant jumps == Jumps(s, i) && start == Start(s, i) && steps == Steps(s, i)
    {
      var d := s[i].mv - s[i - 1].mv;
      steps := steps + [Abs(d) as real];
      if Abs(d) <= JUMP_MV {
        continue;
      }
      jumps := jumps + 1;
      var held := i == |s| - 1 || Abs(s[i + 1].mv - s[i].mv) <= JUMP_MV / 2;
      if held {
        start := i;
      }
    }
  }

  method FinishTrend(t: Trend, s: seq<Sample>, now: int, cal: Calendar) returns (r: Trend)
    requires t.kind == Insufficient
    ensures r == JudgeTail(t, s, now, cal)
  {
    hide ChargingRate, AllNights, FinalLow, FitOf;
    r := t;
    var rate := FindChargingRate(s, now);
    if rate.Some? {
      return r.(kind := ChargingNow, rate := rate.value, nearlyFull := t.latest >= NEARLY_FULL_MV);
    }
    var pts, lastLow := NightlyLows(s, cal);
    r := r.(nights := |pts|, lastLow := lastLow);
    if |pts| < MIN_NIGHTS {
      if r.dailyHigh >= FULL_DAILY_HIGH_MV {
        return r.(kind := Full);
      }
      return r.(kind := Insufficient);
    }
    var fit := TheilSenFit(pts);
    r := r.(fit := fit);
    if fit.high <= -DIRECTION_MV_PER_DAY {
      r := r.(kind := Draining);
    } else if r.dailyHigh >= FULL_DAILY_HIGH_MV {
      r := r.(kind := Full);
    } else if fit.low >= DIRECTION_MV_PER_DAY {
      r := r.(kind := Charging);
    } else {
      r := r.(kind := Steady);
    }
  }

  // ------------------------------------------------------- what a trend promises --

  /** What every trend keeps, whatever the readings. */
  ghost predicate Sound(t: Trend) {
    && t.fit.low <= t.fit.median <= t.fit.high
    && (t.kind == Draining ==> t.fit.high <= -DIRECTION_MV_PER_DAY && t.nights >= MIN_NIGHTS && t.lastLow > 0)
    && (t.kind == Charging ==>
         t.fit.low >= DIRECTION_MV_PER_DAY && t.nights >= MIN_NIGHTS && t.dailyHigh < FULL_DAILY_HIGH_MV)
    && (t.kind == ChargingNow ==> t.rate >= CHARGING_NOW_MV_PER_HOUR)
    && (t.kind == Full ==> t.dailyHigh >= FULL_DAILY_HIGH_MV)
    && (t.nearlyFull ==> t.kind == ChargingNow && t.latest >= NEARLY_FULL_MV)
  }

  lemma EveryTrendIsSound(s: seq<Sample>, now: int, cal: Calendar)
    requires forall i :: 0 <= i < |s| ==> Usable(s[i], now)
    ensures Sound(Judge(s, now, cal))
  {
    hide TooJumpy, FitOf, ChargingRate, AllNights, FinalLow, Start, DailyHigh;
    if s != [] {
      StartIsLastHeldJump(s, |s|);
      var tail := SinceJump(s);
      RangeHoldsMedian(AllNights(tail, cal));
      RateIsFast(tail, now);
      if |AllNights(tail, cal)| > 0 {
        FinalLowIsPositive(tail, cal);
      }
    }
  }

  lemma RateIsFast(s: seq<Sample>, now: int)
    ensures ChargingRate(s, now).Some? ==> ChargingRate(s, now).value >= CHARGING_NOW_MV_PER_HOUR
  {
  }

  lemma {:induction false} LowestOfIsPositive(v: seq<int>)
    requires v != [] && forall i :: 0 <= i < |v| ==> v[i] > 0
    ensures LowestOf(v) > 0
  {
    if |v| > 1 {
      LowestOfIsPositive(v[..|v| - 1]);
    }
  }

  lemma {:induction false} PickIsPositive(items: seq<(int, int)>, k: int)
    requires forall i :: 0 <= i < |items| ==> items[i].1 > 0
    ensures forall i :: 0 <= i < |Grouping.Pick(items, k)| ==> Grouping.Pick(items, k)[i] > 0
  {
    if items != [] {
      PickIsPositive(items[..|items| - 1], k);
    }
  }

  lemma {:induction false} LastLowIsPositive(items: seq<(int, int)>, n: nat)
    requires n <= |Grouping.Keys(items)| && Nights(items, n) != []
    requires forall i :: 0 <= i < |items| ==> items[i].1 > 0
    ensures LastLow(items, n) > 0
  {
    var mvs := Grouping.Pick(items, Grouping.Keys(items)[n - 1]);
    if |mvs| < MIN_READINGS_PER_DAY {
      LastLowIsPositive(items, n - 1);
    } else {
      PickIsPositive(items, Grouping.Keys(items)[n - 1]);
      LowestOfIsPositive(mvs);
    }
  }

  lemma FinalLowIsPositive(s: seq<Sample>, cal: Calendar)
    requires AllNights(s, cal) != [] && forall i :: 0 <= i < |s| ==> s[i].mv > 0
    ensures FinalLow(s, cal) > 0
  {
    LastLowIsPositive(ByDay(s, cal), |Grouping.Keys(ByDay(s, cal))|);
  }

  // ------------------------------------------------------------------ estimates --

  const MAX_ESTIMATE := 60.0
  const JUST_PAST_MAX := MAX_ESTIMATE + 1.0 / 24.0

  /** Both ends in days. */
  datatype Estimate = Estimate(mv: int, soonest: real, latest: real, reached: bool, beyond: bool)

  /** What the divisions need; every trend has it. */
  predicate Divisible(t: Trend) {
    && (t.kind == Draining ==> t.fit.low < 0.0)
    && (t.kind == ChargingNow ==> t.rate > 0.0)
    && (t.kind == Charging ==> t.fit.low > 0.0 && t.fit.high > 0.0)
  }

  lemma EveryTrendIsDivisible(s: seq<Sample>, now: int, cal: Calendar)
    requires forall i :: 0 <= i < |s| ==> Usable(s[i], now)
    ensures Divisible(Judge(s, now, cal))
  {
    hide Judge;
    EveryTrendIsSound(s, now, cal);
  }

  /** When a draining battery reaches a level. */
  function TimeTo(t: Trend, mv: int): Estimate
    requires Divisible(t)
  {
    var e := Estimate(mv, 0.0, 0.0, false, false);
    if t.kind != Draining || t.lastLow == 0 then e.(beyond := true)
    else if t.lastLow <= mv then e.(reached := true)
    else
      var gap := (t.lastLow - mv) as real;
      var soonest := gap / -t.fit.low;
      var latest := if t.fit.high < 0.0 then gap / -t.fit.high else JUST_PAST_MAX;
      e.(soonest := soonest, latest := latest, beyond := soonest > MAX_ESTIMATE)
  }

  function TimeToFull(t: Trend): Estimate
    requires Divisible(t)
  {
    var e := Estimate(FULL_MV, 0.0, 0.0, false, false);
    match t.kind
    case Full => e.(reached := true)
    case ChargingNow =>
      if t.latest >= FULL_MV then e.(reached := true)
      else
        var days := (FULL_MV - t.latest) as real / t.rate / 24.0;
        e.(soonest := days, latest := days)
    case Charging =>
      var from := if t.dailyHigh == 0 then t.latest else t.dailyHigh;
      if from >= FULL_MV then e.(reached := true)
      else
        var gap := (FULL_MV - from) as real;
        var soonest := gap / t.fit.high;
        e.(soonest := soonest, latest := gap / t.fit.low, beyond := soonest > MAX_ESTIMATE)
    case _ => e.(beyond := true)
  }

  lemma AtMostQuotient(q: real, a: real, c: real)
    requires c > 0.0 && q * c <= a
    ensures q <= a / c
  {
    var r := a / c;
    assert r * c == a;
    if q > r {
      Positive(q - r, c);
    }
  }

  lemma Quotients(a: real, b: real, c: real, d: real)
    requires 0.0 <= a <= b && 0.0 < c <= d
    ensures 0.0 <= a / d <= b / c
  {
    var q := a / d;
    assert q * d == a;
    AtMostQuotient(0.0, a, d);
    ProductSign(q, d - c);
    assert q * (d - c) == q * d - q * c;
    AtMostQuotient(q, b, c);
  }

  /** A draining battery's estimates are never negative, never out of order, and a lower
      level is never reached sooner. */
  lemma LowerLevelsComeLater(t: Trend, mv: int, lower: int)
    requires Sound(t) && t.kind == Draining && lower <= mv
    ensures var e, f := TimeTo(t, mv), TimeTo(t, lower);
            && 0.0 <= e.soonest <= e.latest && 0.0 <= f.soonest <= f.latest
            && e.soonest <= f.soonest && e.latest <= f.latest
            && (f.reached ==> e.reached) && (e.beyond ==> f.beyond)
            && (e.reached <==> t.lastLow <= mv)
  {
    if t.lastLow > mv {
      var gap := (t.lastLow - mv) as real;
      Quotients(gap, gap, -t.fit.high, -t.fit.low);
      Quotients(gap, (t.lastLow - lower) as real, -t.fit.low, -t.fit.low);
      Quotients(gap, (t.lastLow - lower) as real, -t.fit.high, -t.fit.high);
    }
    if t.lastLow > lower {
      var gap := (t.lastLow - lower) as real;
      Quotients(gap, gap, -t.fit.high, -t.fit.low);
    }
  }

  /** A battery loses its lead over a level in the promised time: at the steeper slope
      no sooner than Soonest, at the gentler no later than Latest. */
  lemma SlopesMeetTheLevel(t: Trend, mv: int)
    requires Sound(t) && t.kind == Draining && t.lastLow > mv
    ensures t.lastLow as real + t.fit.low * TimeTo(t, mv).soonest == mv as real
    ensures t.lastLow as real + t.fit.high * TimeTo(t, mv).latest == mv as real
  {
    var gap := (t.lastLow - mv) as real;
    assert gap / -t.fit.low * -t.fit.low == gap;
    assert gap / -t.fit.high * -t.fit.high == gap;
  }

  /** Time to full is never negative and its ends never out of order. */
  lemma TimeToFullIsOrdered(t: Trend)
    requires Sound(t)
    ensures 0.0 <= TimeToFull(t).soonest <= TimeToFull(t).latest
  {
    if t.kind == ChargingNow && t.latest < FULL_MV {
      var gap := (FULL_MV - t.latest) as real;
      Quotients(gap, gap, t.rate, t.rate);
    } else if t.kind == Charging {
      var from := if t.dailyHigh == 0 then t.latest else t.dailyHigh;
      if from < FULL_MV {
        var gap := (FULL_MV - from) as real;
        Quotients(gap, gap, t.fit.low, t.fit.high);
      }
    }
  }

  // ------------------------------------------------------------- one odd night --

  ghost predicate ClimbsWithTime(cal: Calendar) {
    forall a, b :: a <= b ==> cal(a) <= cal(b)
  }

  ghost predicate Climbing(ks: seq<int>) {
    forall i, j :: 0 <= i < j < |ks| ==> ks[i] < ks[j]
  }

  ghost predicate AllAtMost(ks: seq<int>, top: int) {
    forall i :: 0 <= i < |ks| ==> ks[i] <= top
  }

  ghost predicate KeysInOrder(items: seq<(int, int)>) {
    forall i, j :: 0 <= i < j < |items| ==> items[i].0 <= items[j].0
  }

  lemma OneMoreKey(ks: seq<int>, top: int, k: int)
    requires Climbing(ks) && AllAtMost(ks, top) && top <= k
    ensures Climbing(if k in ks then ks else ks + [k]) && AllAtMost(if k in ks then ks else ks + [k], k)
  {
    forall i | 0 <= i < |ks| && k !in ks ensures ks[i] < k {
      assert ks[i] in ks;
    }
  }

  /** Readings in order of time meet their days in order. */
  lemma {:induction false} DaysClimb(items: seq<(int, int)>)
    requires KeysInOrder(items)
    ensures Climbing(Grouping.Keys(items)) && (items != [] ==> AllAtMost(Grouping.Keys(items), items[|items| - 1].0))
  {
    hide Climbing, AllAtMost;
    if |items| <= 1 {
      FewKeys(items);
    } else {
      var init, last := items[..|items| - 1], items[|items| - 1];
      DaysClimb(init);
      OneMoreKey(Grouping.Keys(init), init[|init| - 1].0, last.0);
    }
  }

  lemma FewKeys(items: seq<(int, int)>)
    requires |items| <= 1
    ensures Climbing(Grouping.Keys(items)) && (items != [] ==> AllAtMost(Grouping.Keys(items), items[|items| - 1].0))
  {
    if items != [] {
      assert Grouping.Keys(items[..0]) == [];
    }
  }

  function DayNumber(items: seq<(int, int)>, n: nat): real
    requires n < |Grouping.Keys(items)|
  {
    (Grouping.Keys(items)[n] - Grouping.Keys(items)[0]) as real / DAY as real
  }

  lemma {:induction false} NightsClimb(items: seq<(int, int)>, n: nat)
    requires n <= |Grouping.Keys(items)| && Climbing(Grouping.Keys(items))
    ensures Increasing(Nights(items, n))
    ensures n == 0 ==> Nights(items, n) == []
    ensures n > 0 ==> forall i :: 0 <= i < |Nights(items, n)| ==> Nights(items, n)[i].x <= DayNumber(items, n - 1)
  {
    hide Grouping.Keys, Grouping.Pick;
    if n > 0 {
      NightsClimb(items, n - 1);
    }
  }

  /** When local days follow one another, the slope found from five or more nights all
      but one of which lie on a line is that line's, whichever night is the odd one. */
  lemma OneOddNightCannotSwingIt(s: seq<Sample>, now: int, cal: Calendar, m: real, c: real)
    requires s != [] && ByTime(s) && ClimbsWithTime(cal)
    ensures Judge(s, now, cal).nights >= 5 && Odd(AllNights(SinceJump(s), cal), m, c, 0) <= 1 ==>
      Judge(s, now, cal).fit.median == m
  {
    hide FitOf, Odd, AllNights, FinalLow, ChargingRate, TooJumpy, Start, DailyHigh;
    StartIsLastHeldJump(s, |s|);
    LineThroughNights(SinceJump(s), cal, m, c);
  }

  /** One odd night among the three or more of a fitted trend leaves its slope alone if and
      only if there are five nights, or the odd one is neither the first nor the last. */
  lemma OneOddNightSwingsExactlyWhen(s: seq<Sample>, now: int, cal: Calendar, m: real, c: real, k: nat)
    requires s != [] && ByTime(s) && ClimbsWithTime(cal)
    ensures Judge(s, now, cal).nights >= MIN_NIGHTS && OddPoint.OddOnlyAt(AllNights(SinceJump(s), cal), m, c, k) ==>
      (Judge(s, now, cal).fit.median == m <==> Judge(s, now, cal).nights >= 5 || 0 < k < Judge(s, now, cal).nights - 1)
  {
    hide FitOf, AllNights, FinalLow, ChargingRate, TooJumpy, Start, DailyHigh;
    StartIsLastHeldJump(s, |s|);
    var pts := AllNights(SinceJump(s), cal);
    NightsIncrease(SinceJump(s), cal);
    if |pts| >= MIN_NIGHTS && OddPoint.OddOnlyAt(pts, m, c, k) {
      OddPoint.OddPointSwingsExactlyWhen(pts, m, c, k);
    }
  }

  lemma NightsIncrease(s: seq<Sample>, cal: Calendar)
    requires ByTime(s) && ClimbsWithTime(cal)
    ensures Increasing(AllNights(s, cal))
  {
    DaysClimb(ByDay(s, cal));
    NightsClimb(ByDay(s, cal), |Grouping.Keys(ByDay(s, cal))|);
  }

  lemma LineThroughNights(s: seq<Sample>, cal: Calendar, m: real, c: real)
    requires ByTime(s) && ClimbsWithTime(cal)
    ensures |AllNights(s, cal)| >= 5 && Odd(AllNights(s, cal), m, c, 0) <= 1 ==> FitOf(AllNights(s, cal)).median == m
  {
    hide FitOf, Odd;
    NightsIncrease(s, cal);
    if |AllNights(s, cal)| >= 5 && Odd(AllNights(s, cal), m, c, 0) <= 1 {
      OneOddDay(AllNights(s, cal), m, c);
    }
  }
}
