/** A battery's days, each from one sunrise to the next, and what they add up to
    (internal/batteryanalysis/analysis.go). Times are nanoseconds, voltages
    millivolts. */
module Ledger {
  import opened Options
  import opened Reals
  import Sorting
  import SunPhases
  import BatteryTrend

  type Sample = BatteryTrend.Sample

  const HOUR := BatteryTrend.HOUR
  const MORNING_BEFORE := 5 * HOUR
  const MORNING_AFTER := 3 * HOUR
  const MIN_MORNING := 2
  const NEAR_RISE := 3 * HOUR
  const HIGH_AFTER_SET := 3 * HOUR
  const MIN_DAYTIME := 2
  const PANEL_READS := 3
  const MIDDAY := 2 * HOUR
  const PANEL_SUN_KWH := 1.0
  const PANEL_GAIN_MV := 10
  const ROOM_TO_FILL_MV := 4100

  datatype WeatherHour = WeatherHour(at: int, sunWm2: real, cloudPct: real)

  /** Which hours were too cold to charge; any predicate will do. */
  type ColdModel = WeatherHour -> bool

  datatype DayWeather = NoWeather | DayWeather(sunKWh: real, usableKWh: real, cloudPct: real, frozen: nat)

  /** A change, when both ends are known. */
  datatype Change = Unknown | By(mv: int)

  /** Lows and highs are 0 when unknown. */
  datatype Day = Day(rise: int, sunset: int, nextRise: int, weather: DayWeather,
                     morningLow: int, high: int, nextLow: int,
                     gain: Change, overnight: Change, net: Change, panelSuspect: bool)

  datatype Input = Input(from: int, now: int, el: SunPhases.Sun, weather: seq<WeatherHour>, cold: ColdModel)

  // ----------------------------------------------------------------- readings --

  predicate InRange(x: Sample, from: int, now: int) {
    x.mv > 0 && from <= x.at <= now
  }

  function AllInRange(samples: seq<Sample>, from: int, now: int, n: nat): (r: seq<Sample>)
    requires n <= |samples|
    ensures forall i :: 0 <= i < |r| ==> InRange(r[i], from, now)
  {
    if n == 0 then []
    else
      var before := AllInRange(samples, from, now, n - 1);
      if InRange(samples[n - 1], from, now) then before + [samples[n - 1]] else before
  }

  method Within(samples: seq<Sample>, from: int, now: int) returns (out: seq<Sample>)
    ensures multiset(out) == multiset(AllInRange(samples, from, now, |samples|)) && BatteryTrend.ByTime(out)
    ensures forall i :: 0 <= i < |out| ==> InRange(out[i], from, now)
  {
    hide Sorting.SortBy;
    var kept: seq<Sample> := [];
    for n := 0 to |samples|
      invariant kept == AllInRange(samples, from, now, n)
    {
      if samples[n].mv > 0 && from <= samples[n].at <= now {
        kept := kept + [samples[n]];
      }
    }
    Sorting.SortBySorts(kept, BatteryTrend.At);
    out := Sorting.SortBy(kept, BatteryTrend.At);
    BatteryTrend.SortedIsByTime(out);
    forall i | 0 <= i < |out| ensures InRange(out[i], from, now) {
      assert out[i] in multiset(kept);
    }
  }

  /** The best reading of a window and how many it holds. */
  datatype Found = Found(mv: int, n: nat)

  predicate In(x: Sample, from: int, until: int) {
    from <= x.at <= until
  }

  function ExtremeOf(s: seq<Sample>, from: int, until: int, highest: bool, n: nat): Found
    requires n <= |s|
  {
    if n == 0 then Found(0, 0)
    else
      var f, x := ExtremeOf(s, from, until, highest, n - 1), s[n - 1];
      if !In(x, from, until) then f
      else Found(if f.n == 0 || (highest && x.mv > f.mv) || (!highest && x.mv < f.mv) then x.mv else f.mv, f.n + 1)
  }

  function Extreme(s: seq<Sample>, from: int, until: int, highest: bool): Found {
    ExtremeOf(s, from, until, highest, |s|)
  }

  method FindExtreme(s: seq<Sample>, from: int, until: int, highest: bool) returns (f: Found)
    ensures f == Extreme(s, from, until, highest)
  {
    var best, n := 0, 0;
    for i := 0 to |s|
      invariant Found(best, n) == ExtremeOf(s, from, until, highest, i)
    {
      var x := s[i];
      if x.at < from || x.at > until {
        continue;
      }
      n := n + 1;
      if n == 1 || (highest && x.mv > best) || (!highest && x.mv < best) {
        best := x.mv;
      }
    }
    f := Found(best, n);
  }

  /** It is a reading of the window, and none of them goes beyond it. */
  lemma {:induction false} ExtremeBounds(s: seq<Sample>, from: int, until: int, highest: bool, n: nat)
    requires n <= |s|
    ensures var f := ExtremeOf(s, from, until, highest, n);
            && (f.n == 0 <==> forall i :: 0 <= i < n ==> !In(s[i], from, until))
            && (f.n > 0 ==> exists i :: 0 <= i < n && In(s[i], from, until) && s[i].mv == f.mv)
            && (forall i :: 0 <= i < n && In(s[i], from, until) ==>
                 if highest then s[i].mv <= f.mv else f.mv <= s[i].mv)
  {
    if n > 0 {
      ExtremeBounds(s, from, until, highest, n - 1);
    }
  }

  /** A wider window goes at least as far. */
  lemma WiderWindow(s: seq<Sample>, from: int, until: int, from1: int, until1: int, highest: bool)
    requires from1 <= from && until <= until1 && Extreme(s, from, until, highest).n > 0
    ensures var f, g := Extreme(s, from, until, highest), Extreme(s, from1, until1, highest);
            g.n > 0 && if highest then f.mv <= g.mv else g.mv <= f.mv
  {
    ExtremeBounds(s, from, until, highest, |s|);
    ExtremeBounds(s, from1, until1, highest, |s|);
  }

  function MorningLow(s: seq<Sample>, rise: int, now: int): int {
    if now < rise + MORNING_AFTER then 0
    else
      var f := Extreme(s, rise - MORNING_BEFORE, rise + MORNING_AFTER, false);
      if f.n < MIN_MORNING || Extreme(s, rise - NEAR_RISE, rise + MORNING_AFTER, false).n == 0 then 0 else f.mv
  }

  method FindMorningLow(s: seq<Sample>, rise: int, now: int) returns (mv: int)
    ensures mv == MorningLow(s, rise, now)
  {
    if now < rise + MORNING_AFTER {
      return 0;
    }
    var f := FindExtreme(s, rise - MORNING_BEFORE, rise + MORNING_AFTER, false);
    if f.n < MIN_MORNING {
      return 0;
    }
    var near := FindExtreme(s, rise - NEAR_RISE, rise + MORNING_AFTER, false);
    if near.n == 0 {
      return 0;
    }
    return f.mv;
  }

  // ------------------------------------------------------------------ weather --

  datatype Sums = Sums(sun: real, usable: real, cloud: real, frozen: nat, n: nat, nc: nat)

  function SumHours(hours: seq<WeatherHour>, rise: int, sunset: int, nextRise: int, cold: ColdModel, k: nat): Sums
    requires k <= |hours|
  {
    if k == 0 then Sums(0.0, 0.0, 0.0, 0, 0, 0)
    else
      var w, h := SumHours(hours, rise, sunset, nextRise, cold, k - 1), hours[k - 1];
      if h.at <= rise || h.at > nextRise then w
      else
        var day := h.at <= sunset + HOUR;
        Sums(w.sun + h.sunWm2, if cold(h) then w.usable else w.usable + h.sunWm2,
          if day then w.cloud + h.cloudPct else w.cloud,
          if cold(h) then w.frozen + 1 else w.frozen, w.n + 1, if day then w.nc + 1 else w.nc)
  }

  function WeatherOf(hours: seq<WeatherHour>, rise: int, sunset: int, nextRise: int, cold: ColdModel): DayWeather {
    var w := SumHours(hours, rise, sunset, nextRise, cold, |hours|);
    if w.n == 0 || w.n < WholeHours(nextRise - rise) - 1 || w.nc == 0 then NoWeather
    else DayWeather(w.sun / 1000.0, w.usable / 1000.0, w.cloud / w.nc as real, w.frozen)
  }

  function WholeHours(d: int): int {
    if d >= 0 then d / HOUR else -(-d / HOUR)
  }

  method SumDayWeather(
    hours: seq<WeatherHour>, rise: int, sunset: int, nextRise: int, cold: ColdModel) returns (w: DayWeather)
    ensures w == WeatherOf(hours, rise, sunset, nextRise, cold)
  {
    var sun, usable, cloud := 0.0, 0.0, 0.0;
    var frozen, n, nc := 0, 0, 0;
    for k := 0 to |hours|
      invariant Sums(sun, usable, cloud, frozen, n, nc) == SumHours(hours, rise, sunset, nextRise, cold, k)
    {
      var h := hours[k];
      if !(h.at > rise) || h.at > nextRise {
        continue;
      }
      n := n + 1;
      sun := sun + h.sunWm2;
      if cold(h) {
        frozen := frozen + 1;
      } else {
        usable := usable + h.sunWm2;
      }
      if !(h.at > sunset + HOUR) {
        cloud := cloud + h.cloudPct;
        nc := nc + 1;
      }
    }
    var want := WholeHours(nextRise - rise);
    if n == 0 || n < want - 1 || nc == 0 {
      return NoWeather;
    }
    w := DayWeather(sun / 1000.0, usable / 1000.0, cloud / nc as real, frozen);
  }

  lemma {:induction false} SumsBound(
    hours: seq<WeatherHour>, rise: int, sunset: int, nextRise: int, cold: ColdModel, k: nat)
    requires k <= |hours|
    requires forall i :: 0 <= i < |hours| ==> hours[i].sunWm2 >= 0.0 && 0.0 <= hours[i].cloudPct <= 100.0
    ensures var w := SumHours(hours, rise, sunset, nextRise, cold, k);
            && 0.0 <= w.usable <= w.sun && 0.0 <= w.cloud <= 100.0 * w.nc as real
            && w.frozen <= w.n && w.nc <= w.n && (w.frozen == 0 ==> w.usable == w.sun)
  {
    if k > 0 {
      SumsBound(hours, rise, sunset, nextRise, cold, k - 1);
    }
  }

  /** Usable sunshine is never more than the sunshine there was, and the same when no
      hour was too cold; mean cloud is a percentage. */
  lemma WeatherIsPlausible(hours: seq<WeatherHour>, rise: int, sunset: int, nextRise: int, cold: ColdModel)
    requires forall i :: 0 <= i < |hours| ==> hours[i].sunWm2 >= 0.0 && 0.0 <= hours[i].cloudPct <= 100.0
    ensures var w := WeatherOf(hours, rise, sunset, nextRise, cold);
            w.DayWeather? ==>
              && 0.0 <= w.usableKWh <= w.sunKWh && 0.0 <= w.cloudPct <= 100.0
              && (w.frozen == 0 ==> w.usableKWh == w.sunKWh)
  {
    SumsBound(hours, rise, sunset, nextRise, cold, |hours|);
    var w := SumHours(hours, rise, sunset, nextRise, cold, |hours|);
    if w.nc > 0 {
      MeanWithin(w.cloud, w.nc as real, 100.0);
    }
  }

  lemma MeanWithin(sum: real, n: real, top: real)
    requires n > 0.0 && 0.0 <= sum <= top * n
    ensures 0.0 <= sum / n <= top
  {
    var q := sum / n;
    assert q * n == sum;
    if q < 0.0 {
      Positive(-q, n);
    } else if q > top {
      Positive(q - top, n);
    }
  }

  // --------------------------------------------------------------- the ledger --

  function Between(a: int, b: int): Change {
    if a > 0 && b > 0 then By(b - a) else Unknown
  }

  /** The day's high, once the day is over, and whether readings covered it well. */
  datatype High = High(mv: int, wellCovered: bool)

  function HighOf(s: seq<Sample>, rise: int, sunset: int, now: int): High {
    var f := Extreme(s, rise, sunset + HIGH_AFTER_SET, true);
    if now < sunset + HIGH_AFTER_SET || f.n < MIN_DAYTIME then High(0, false)
    else
      var noon := rise + (sunset - rise) / 2;
      High(f.mv, f.n >= PANEL_READS && Extreme(s, noon - MIDDAY, noon + MIDDAY, true).n > 0)
  }

  function DayOf(s: seq<Sample>, a: SunPhases.Daylight, b: SunPhases.Daylight, inp: Input): Day {
    var low, high, next :=
      MorningLow(s, a.sunrise, inp.now), HighOf(s, a.sunrise, a.sunset, inp.now), MorningLow(s, b.sunrise, inp.now);
    var w := WeatherOf(inp.weather, a.sunrise, a.sunset, b.sunrise, inp.cold);
    var gain := Between(low, high.mv);
    Day(a.sunrise, a.sunset, b.sunrise, w, low, high.mv, next, gain, Between(high.mv, next), Between(low, next),
      gain.By? && high.wellCovered && w.DayWeather? && w.usableKWh >= PANEL_SUN_KWH && gain.mv < PANEL_GAIN_MV
        && low < ROOM_TO_FILL_MV)
  }

  predicate Belongs(a: SunPhases.Daylight, inp: Input) {
    inp.from <= a.sunset && a.sunrise <= inp.now
  }

  /** The first n days of `all` that belong to the range; the last has no next sunrise. */
  function DaysOf(s: seq<Sample>, all: seq<SunPhases.Daylight>, inp: Input, n: nat): seq<Day>
    requires n < |all| || n == 0
  {
    if n == 0 then []
    else
      var before := DaysOf(s, all, inp, n - 1);
      if Belongs(all[n - 1], inp) then before + [DayOf(s, all[n - 1], all[n], inp)] else before
  }

  function SunDays(inp: Input): seq<SunPhases.Daylight> {
    var cs := SunPhases.CrossingsOf(inp.el, SunPhases.HORIZON_DEG, inp.from - 36 * HOUR, inp.now + 36 * HOUR);
    SunPhases.DaysAfter(cs, |cs|).days
  }

  function LedgerOf(s: seq<Sample>, inp: Input): seq<Day> {
    var all := SunDays(inp);
    DaysOf(s, all, inp, if all == [] then 0 else |all| - 1)
  }

  method MakeLedger(s: seq<Sample>, inp: Input) returns (out: seq<Day>)
    ensures out == LedgerOf(s, inp)
  {
    hide SunPhases.CrossingsOf, SunPhases.DaysAfter, DayOf;
    var all := SunPhases.Days(inp.el, inp.from - 36 * HOUR, inp.now + 36 * HOUR);
    out := [];
    if |all| == 0 {
      return;
    }
    for i := 0 to |all| - 1
      invariant out == DaysOf(s, all, inp, i)
    {
      if all[i].sunset < inp.from || all[i].sunrise > inp.now {
        continue;
      }
      var d := MakeDay(s, all[i], all[i + 1], inp);
      out := out + [d];
    }
  }

  method MakeDay(s: seq<Sample>, a: SunPhases.Daylight, b: SunPhases.Daylight, inp: Input) returns (d: Day)
    ensures d == DayOf(s, a, b, inp)
  {
    hide Extreme, WeatherOf, MorningLow;
    var low := FindMorningLow(s, a.sunrise, inp.now);
    var high, wellCovered := 0, false;
    if a.sunset + HIGH_AFTER_SET <= inp.now {
      var f := FindExtreme(s, a.sunrise, a.sunset + HIGH_AFTER_SET, true);
      if f.n >= MIN_DAYTIME {
        high := f.mv;
        var noon := a.sunrise + (a.sunset - a.sunrise) / 2;
        var mid := FindExtreme(s, noon - MIDDAY, noon + MIDDAY, true);
        wellCovered := f.n >= PANEL_READS && mid.n > 0;
      }
    }
    var next := FindMorningLow(s, b.sunrise, inp.now);
    var gain, overnight, net := Unknown, Unknown, Unknown;
    if low > 0 && high > 0 {
      gain := By(high - low);
    }
    if high > 0 && next > 0 {
      overnight := By(next - high);
    }
    if low > 0 && next > 0 {
      net := By(next - low);
    }
    var w := SumDayWeather(inp.weather, a.sunrise, a.sunset, b.sunrise, inp.cold);
    var suspect := gain.By? && wellCovered && w.DayWeather? && w.usableKWh >= PANEL_SUN_KWH
      && gain.mv < PANEL_GAIN_MV && low < ROOM_TO_FILL_MV;
    d := Day(a.sunrise, a.sunset, b.sunrise, w, low, high, next, gain, overnight, net, suspect);
  }

  // ------------------------------------------------------ how the days join up --

  /** One day ends where the next begins, at the same low. */
  predicate JoinsOn(d: Day, e: Day) {
    e.rise == d.nextRise && e.morningLow == d.nextLow && d.sunset <= e.rise
  }

  predicate Consistent(d: Day) {
    && d.rise < d.nextRise && d.rise <= d.sunset
    && d.gain == Between(d.morningLow, d.high) && d.overnight == Between(d.high, d.nextLow)
    && d.net == Between(d.morningLow, d.nextLow)
  }

  ghost predicate Chained(days: seq<Day>) {
    && (forall i :: 0 <= i < |days| ==> Consistent(days[i]))
    && (forall i :: 0 <= i < |days| - 1 ==> JoinsOn(days[i], days[i + 1]))
  }

  ghost predicate SunOrdered(all: seq<SunPhases.Daylight>) {
    && (forall k :: 0 <= k < |all| ==> all[k].sunrise <= all[k].sunset)
    && (forall k :: 0 <= k < |all| - 1 ==> all[k].sunset <= all[k + 1].sunrise && all[k].sunrise < all[k + 1].sunrise)
  }

  /** The days that belong are neighbours: if one has been left behind none after it
      belongs. */
  lemma {:induction false} DaysChain(s: seq<Sample>, all: seq<SunPhases.Daylight>, inp: Input, n: nat)
    requires SunOrdered(all) && (n < |all| || n == 0)
    ensures Chained(DaysOf(s, all, inp, n))
    ensures var days := DaysOf(s, all, inp, n);
            days != [] ==>
              var last := days[|days| - 1];
              && (all[n].sunrise <= inp.now ==> last == DayOf(s, all[n - 1], all[n], inp) && Belongs(all[n - 1], inp))
              && inp.from <= all[n].sunrise
  {
    hide MorningLow, HighOf, WeatherOf;
    if n > 0 {
      DaysChain(s, all, inp, n - 1);
      assert all[n - 1].sunset <= all[n - 1 + 1].sunrise;
    }
  }

  /** Whatever the readings, the weather and the sun, each day's next-morning low is the
      following day's morning low. */
  lemma LedgerIsChained(s: seq<Sample>, inp: Input)
    requires 36 * HOUR + SunPhases.SECOND <= inp.from <= inp.now
    ensures Chained(LedgerOf(s, inp))
  {
    hide Chained, SunPhases.CrossingsOf, SunPhases.DaysAfter, DayOf;
    SunPhases.DaysAreOrdered(inp.el, inp.from - 36 * HOUR, inp.now + 36 * HOUR);
    var all := SunDays(inp);
    DaysChain(s, all, inp, if all == [] then 0 else |all| - 1);
  }

  /** When the day's high is known too, what it gained and what the night took make up
      its net change. */
  lemma GainAndNightMakeNet(d: Day)
    requires Consistent(d)
    ensures d.gain.By? && d.overnight.By? ==> d.net.By? && d.net.mv == d.gain.mv + d.overnight.mv
    ensures d.net.By? && d.high > 0 ==> d.gain.By? && d.overnight.By?
    ensures d.net.By? <==> d.morningLow > 0 && d.nextLow > 0
  {
  }

  // ------------------------------------------------------------ the headline --

  /** The change and how long it took. */
  datatype Headline = Headline(mv: int, span: int)

  /** Index of the first known morning low, or |days|. */
  function FirstKnown(days: seq<Day>, i: nat): nat
    requires i <= |days|
    decreases |days| - i
  {
    if i == |days| || days[i].morningLow != 0 then i else FirstKnown(days, i + 1)
  }

  datatype Newest = Newest(mv: int, at: int)

  function LastKnown(days: seq<Day>, n: nat): Newest
    requires n <= |days|
  {
    if n == 0 then Newest(0, 0)
    else if days[n - 1].morningLow != 0 then Newest(days[n - 1].morningLow, days[n - 1].rise)
    else LastKnown(days, n - 1)
  }

  function NextKnown(days: seq<Day>, start: Newest, n: nat): Newest
    requires n <= |days|
  {
    if n == 0 then start
    else
      var w, d := NextKnown(days, start, n - 1), days[n - 1];
      if d.nextLow > 0 && d.nextRise > w.at then Newest(d.nextLow, d.nextRise) else w
  }

  function MorningNetOf(days: seq<Day>): Option<Headline> {
    var first := FirstKnown(days, 0);
    if first >= |days| then None
    else
      var last := NextKnown(days, LastKnown(days, |days|), |days|);
      if last.at <= days[first].rise then None
      else Some(Headline(last.mv - days[first].morningLow, last.at - days[first].rise))
  }

  method MorningNet(days: seq<Day>) returns (h: Option<Headline>)
    ensures h == MorningNetOf(days)
  {
    var first, last := |days|, |days|;
    for i := 0 to |days|
      invariant 0 <= first <= |days| && 0 <= last <= |days|
      invariant FirstKnown(days, 0) == if first < |days| then first else FirstKnown(days, i)
      invariant first < |days| ==> first < i
      invariant last < |days| <==> first < |days|
      invariant last < |days| ==> LastKnown(days, i) == Newest(days[last].morningLow, days[last].rise)
    {
      if days[i].morningLow == 0 {
        continue;
      }
      if first == |days| {
        first := i;
      }
      last := i;
    }
    var newest := Newest(0, 0);
    if last < |days| {
      newest := Newest(days[last].morningLow, days[last].rise);
      var start := newest;
      for i := 0 to |days|
        invariant newest == NextKnown(days, start, i)
      {
        if days[i].nextLow > 0 && days[i].nextRise > newest.at {
          newest := Newest(days[i].nextLow, days[i].nextRise);
        }
      }
    }
    if first == |days| || newest.at <= days[first].rise {
      return None;
    }
    return Some(Headline(newest.mv - days[first].morningLow, newest.at - days[first].rise));
  }

  function SumOfNets(days: seq<Day>, n: nat): int
    requires n <= |days| && forall i :: 0 <= i < n ==> days[i].net.By?
  {
    if n == 0 then 0 else SumOfNets(days, n - 1) + days[n - 1].net.mv
  }

  lemma {:induction false} NetsTelescope(days: seq<Day>, n: nat)
    requires 1 <= n <= |days| && Chained(days) && forall i :: 0 <= i < |days| ==> days[i].net.By?
    ensures SumOfNets(days, n) == days[n - 1].nextLow - days[0].morningLow
  {
    if n > 1 {
      NetsTelescope(days, n - 1);
      assert JoinsOn(days[n - 2], days[n - 2 + 1]);
    }
  }

  lemma {:induction false} RisesClimb(days: seq<Day>, n: nat)
    requires 1 <= n <= |days| && Chained(days)
    ensures days[0].rise < days[n - 1].nextRise
    ensures forall i :: 0 <= i < n - 1 ==> days[i].nextRise <= days[n - 1].rise
  {
    if n > 1 {
      RisesClimb(days, n - 1);
      assert JoinsOn(days[n - 2], days[n - 2 + 1]);
      assert Consistent(days[n - 2]);
    }
    assert Consistent(days[n - 1]);
  }

  lemma {:induction false} NothingNewer(days: seq<Day>, start: Newest, n: nat)
    requires n <= |days| && forall i :: 0 <= i < n ==> days[i].nextRise <= start.at
    ensures NextKnown(days, start, n) == start
  {
    if n > 0 {
      NothingNewer(days, start, n - 1);
    }
  }

  /** When every day's net is known, the headline is their sum, over the whole time from
      the first sunrise to the last. */
  lemma HeadlineIsSumOfNets(days: seq<Day>)
    requires days != [] && Chained(days) && forall i :: 0 <= i < |days| ==> days[i].net.By?
    ensures MorningNetOf(days) == Some(Headline(SumOfNets(days, |days|), days[|days| - 1].nextRise - days[0].rise))
  {
    var n := |days|;
    NetsTelescope(days, n);
    RisesClimb(days, n);
    assert Consistent(days[0]) && Consistent(days[n - 1]);
    var last := Newest(days[n - 1].morningLow, days[n - 1].rise);
    assert LastKnown(days, n) == last;
    NothingNewer(days, last, n - 1);
  }

  /** Of a longer ledger, the days whose charging reached into the range shown. */
  function Shown(days: seq<Day>, from: int, n: nat): seq<Day>
    requires n <= |days|
  {
    if n == 0 then []
    else
      var before := Shown(days, from, n - 1);
      if days[n - 1].sunset >= from then before + [days[n - 1]] else before
  }

  lemma {:induction false} SunsetsClimb(days: seq<Day>, i: nat, j: nat)
    requires Chained(days) && i <= j < |days|
    ensures days[i].sunset <= days[j].sunset
  {
    if i < j {
      SunsetsClimb(days, i, j - 1);
      assert JoinsOn(days[j - 1], days[j - 1 + 1]) && Consistent(days[j]);
    }
  }

  lemma {:induction false} ShownFrom(days: seq<Day>, from: int, n: nat) returns (k: nat)
    requires Chained(days) && n <= |days|
    ensures k <= n && Shown(days, from, n) == days[k..n] && (k < n ==> days[k].sunset >= from)
  {
    k := 0;
    if n > 0 {
      k := ShownFrom(days, from, n - 1);
      if k < n - 1 {
        SunsetsClimb(days, k, n - 1);
      } else if days[n - 1].sunset < from {
        k := n;
      }
    }
  }

  lemma SuffixIsChained(days: seq<Day>, k: nat)
    requires Chained(days) && k <= |days|
    ensures Chained(days[k..])
  {
    var rest := days[k..];
    forall i | 0 <= i < |rest| - 1 ensures JoinsOn(rest[i], rest[i + 1]) {
      assert JoinsOn(days[k + i], days[k + i + 1]);
    }
  }

  /** The headline over the days shown of the ledger: the sum of their nets when all are
      known. */
  lemma HeadlineOfRange(s: seq<Sample>, inp: Input, from: int)
    requires 36 * HOUR + SunPhases.SECOND <= inp.from <= inp.now
    ensures var days := Shown(LedgerOf(s, inp), from, |LedgerOf(s, inp)|);
            && Chained(days)
            && (days != [] && (forall i :: 0 <= i < |days| ==> days[i].net.By?) ==>
                  MorningNetOf(days)
                    == Some(Headline(SumOfNets(days, |days|), days[|days| - 1].nextRise - days[0].rise)))
  {
    hide LedgerOf, Chained, MorningNetOf;
    var all := LedgerOf(s, inp);
    LedgerIsChained(s, inp);
    var k := ShownFrom(all, from, |all|);
    assert all[k..|all|] == all[k..];
    SuffixIsChained(all, k);
    var days := Shown(all, from, |all|);
    if days != [] && forall i :: 0 <= i < |days| ==> days[i].net.By? {
      HeadlineIsSumOfNets(days);
    }
  }
}
