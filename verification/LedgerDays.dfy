/** What the figures of a day are, read off the readings, the hours of weather and the sun
    (internal/batteryanalysis/analysis.go). */
module LedgerDays {
  import opened Options
  import opened Reals
  import SunPhases
  import BatteryTrend
  import opened Ledger

  /** A reading is used exactly when it is positive and lies in the range, both ends
      included, and as often as it was given. */
  lemma {:induction false} ReadingsOfTheRange(samples: seq<Sample>, from: int, now: int, n: nat, x: Sample)
    requires n <= |samples|
    ensures multiset(AllInRange(samples, from, now, n))[x]
         == if x.mv > 0 && x.at >= from && x.at <= now then multiset(samples[..n])[x] else 0
  {
    if n > 0 {
      ReadingsOfTheRange(samples, from, now, n - 1, x);
      assert samples[..n] == samples[..n - 1] + [samples[n - 1]];
    }
  }

  // ---------------------------------------------------------------- lows and highs --

  /** Which of the first n readings lie in a window. */
  function Inside(s: seq<Sample>, from: int, until: int, n: nat): set<nat>
    requires n <= |s|
  {
    set i | 0 <= i < n && from <= s[i].at <= until
  }

  lemma InsideGrows(s: seq<Sample>, from: int, until: int, n: nat)
    requires 0 < n <= |s|
    ensures |Inside(s, from, until, n)|
         == |Inside(s, from, until, n - 1)| + if from <= s[n - 1].at <= until then 1 else 0
  {
    var before := Inside(s, from, until, n - 1);
    assert n - 1 !in before;
    assert Inside(s, from, until, n) == before + if from <= s[n - 1].at <= until then {n - 1} else {};
  }

  lemma {:induction false} ExtremeCounts(s: seq<Sample>, from: int, until: int, highest: bool, n: nat)
    requires n <= |s|
    ensures ExtremeOf(s, from, until, highest, n).n == |Inside(s, from, until, n)|
  {
    if n > 0 {
      ExtremeCounts(s, from, until, highest, n - 1);
      InsideGrows(s, from, until, n);
    } else {
      assert Inside(s, from, until, 0) == {};
    }
  }

  /** Some reading of the window is at mv, and none is lower; or none is higher. */
  predicate IsLowestIn(s: seq<Sample>, from: int, until: int, mv: int) {
    && (exists i :: 0 <= i < |s| && from <= s[i].at <= until && s[i].mv == mv)
    && forall i :: 0 <= i < |s| && from <= s[i].at <= until ==> mv <= s[i].mv
  }

  predicate IsHighestIn(s: seq<Sample>, from: int, until: int, mv: int) {
    && (exists i :: 0 <= i < |s| && from <= s[i].at <= until && s[i].mv == mv)
    && forall i :: 0 <= i < |s| && from <= s[i].at <= until ==> s[i].mv <= mv
  }

  ghost predicate AllPositive(s: seq<Sample>) {
    forall i :: 0 <= i < |s| ==> s[i].mv > 0
  }

  lemma ExtremeIsIn(s: seq<Sample>, from: int, until: int, highest: bool)
    ensures var f := Extreme(s, from, until, highest);
            && f.n == |Inside(s, from, until, |s|)|
            && (f.n > 0 ==> if highest then IsHighestIn(s, from, until, f.mv) else IsLowestIn(s, from, until, f.mv))
            && (f.n > 0 <==> exists i :: 0 <= i < |s| && from <= s[i].at <= until)
  {
    ExtremeBounds(s, from, until, highest, |s|);
    ExtremeCounts(s, from, until, highest, |s|);
  }

  /** A morning low is known exactly when the morning is over and has two readings, one of
      them near sunrise; and then it is the lowest from five hours before to three after. */
  lemma MorningLowExactlyWhen(s: seq<Sample>, rise: int, now: int)
    requires AllPositive(s)
    ensures var low := MorningLow(s, rise, now);
            && (low != 0 <==>
                 && now >= rise + 3 * HOUR && |Inside(s, rise - 5 * HOUR, rise + 3 * HOUR, |s|)| >= 2
                 && exists i :: 0 <= i < |s| && rise - 3 * HOUR <= s[i].at <= rise + 3 * HOUR)
            && (low != 0 ==> low > 0 && IsLowestIn(s, rise - 5 * HOUR, rise + 3 * HOUR, low))
  {
    hide Extreme;
    ExtremeIsIn(s, rise - MORNING_BEFORE, rise + MORNING_AFTER, false);
    ExtremeIsIn(s, rise - NEAR_RISE, rise + MORNING_AFTER, false);
  }

  /** A high is known exactly when the day has been over for three hours and has two
      readings until then; and then it is the highest of them. The day is well covered
      when there are three, and some within two hours of midday. */
  lemma HighExactlyWhen(s: seq<Sample>, rise: int, sunset: int, now: int)
    requires AllPositive(s)
    ensures var h := HighOf(s, rise, sunset, now);
            var read, noon := |Inside(s, rise, sunset + 3 * HOUR, |s|)|, rise + (sunset - rise) / 2;
            && (h.mv != 0 <==> now >= sunset + 3 * HOUR && read >= 2)
            && (h.mv != 0 ==> h.mv > 0 && IsHighestIn(s, rise, sunset + 3 * HOUR, h.mv))
            && (h.wellCovered <==>
                 && h.mv != 0 && read >= 3
                 && exists i :: 0 <= i < |s| && noon - 2 * HOUR <= s[i].at <= noon + 2 * HOUR)
  {
    hide Extreme;
    ExtremeIsIn(s, rise, sunset + HIGH_AFTER_SET, true);
    var noon := rise + (sunset - rise) / 2;
    ExtremeIsIn(s, noon - MIDDAY, noon + MIDDAY, true);
  }

  // ----------------------------------------------------------------------- weather --

  /** The hours that count toward a day: after its sunrise, up to the next. */
  function HoursOf(hours: seq<WeatherHour>, rise: int, nextRise: int): seq<WeatherHour> {
    if hours == [] then []
    else
      var before, h := HoursOf(hours[..|hours| - 1], rise, nextRise), hours[|hours| - 1];
      if rise < h.at <= nextRise then before + [h] else before
  }

  function SumOf(hours: seq<WeatherHour>, amount: WeatherHour -> real): real {
    if hours == [] then 0.0 else SumOf(hours[..|hours| - 1], amount) + amount(hours[|hours| - 1])
  }

  function SunOf(h: WeatherHour): real {
    h.sunWm2
  }

  /** What of it can charge. */
  function UsableBy(cold: ColdModel): WeatherHour -> real {
    (h: WeatherHour) => if cold(h) then 0.0 else h.sunWm2
  }

  function ColdBy(cold: ColdModel): WeatherHour -> real {
    (h: WeatherHour) => if cold(h) then 1.0 else 0.0
  }

  /** The sun is up, give or take an hour. */
  function CloudUntil(sunset: int): WeatherHour -> real {
    (h: WeatherHour) => if h.at <= sunset + HOUR then h.cloudPct else 0.0
  }

  function LightUntil(sunset: int): WeatherHour -> real {
    (h: WeatherHour) => if h.at <= sunset + HOUR then 1.0 else 0.0
  }

  lemma SumAppend(hours: seq<WeatherHour>, h: WeatherHour, amount: WeatherHour -> real)
    ensures SumOf(hours + [h], amount) == SumOf(hours, amount) + amount(h)
  {
    assert (hours + [h])[..|hours|] == hours;
  }

  lemma {:induction false} SumsAreTotals(
    hours: seq<WeatherHour>, rise: int, sunset: int, nextRise: int, cold: ColdModel, k: nat)
    requires k <= |hours|
    ensures var w, own := SumHours(hours, rise, sunset, nextRise, cold, k), HoursOf(hours[..k], rise, nextRise);
            && w.sun == SumOf(own, SunOf) && w.usable == SumOf(own, UsableBy(cold))
            && w.cloud == SumOf(own, CloudUntil(sunset)) && w.frozen as real == SumOf(own, ColdBy(cold))
            && w.n == |own| && w.nc as real == SumOf(own, LightUntil(sunset))
  {
    hide SumOf;
    if k > 0 {
      SumsAreTotals(hours, rise, sunset, nextRise, cold, k - 1);
      var own, h := HoursOf(hours[..k - 1], rise, nextRise), hours[k - 1];
      assert hours[..k][..k - 1] == hours[..k - 1];
      SumAppend(own, h, SunOf);
      SumAppend(own, h, UsableBy(cold));
      SumAppend(own, h, CloudUntil(sunset));
      SumAppend(own, h, ColdBy(cold));
      SumAppend(own, h, LightUntil(sunset));
    } else {
      NoSum(SunOf);
      NoSum(UsableBy(cold));
      NoSum(CloudUntil(sunset));
      NoSum(ColdBy(cold));
      NoSum(LightUntil(sunset));
    }
  }

  lemma NoSum(amount: WeatherHour -> real)
    ensures SumOf([], amount) == 0.0
  {
  }

  /** A day's weather is known exactly when at most one of its whole hours is missing and
      one is by daylight. Its sunshine is what its hours add up to, in thousands; usable
      sunshine leaves out those too cold; its cloud is the mean of those by daylight. */
  lemma WeatherIsOfItsHours(hours: seq<WeatherHour>, rise: int, sunset: int, nextRise: int, cold: ColdModel)
    requires rise <= nextRise
    ensures var w, own := WeatherOf(hours, rise, sunset, nextRise, cold), HoursOf(hours, rise, nextRise);
            var light := SumOf(own, LightUntil(sunset));
            && (w.DayWeather? <==> |own| >= 1 && |own| + 1 >= (nextRise - rise) / HOUR && light != 0.0)
            && (w.DayWeather? ==>
                 && 1000.0 * w.sunKWh == SumOf(own, SunOf) && 1000.0 * w.usableKWh == SumOf(own, UsableBy(cold))
                 && light * w.cloudPct == SumOf(own, CloudUntil(sunset))
                 && w.frozen as real == SumOf(own, ColdBy(cold)))
  {
    hide SumOf, HoursOf, SumHours;
    assert hours[..|hours|] == hours;
    SumsAreTotals(hours, rise, sunset, nextRise, cold, |hours|);
    var w := SumHours(hours, rise, sunset, nextRise, cold, |hours|);
    if w.nc != 0 {
      Cancels(w.cloud, w.nc as real);
    }
  }

  // ---------------------------------------------------------------------- the days --

  /** A panel is suspected exactly after a well covered day that gained less than 10 mV
      from a low with room above it, though it had an hour's full sun to charge from. */
  lemma PanelSuspectedExactlyWhen(s: seq<Sample>, a: SunPhases.Daylight, b: SunPhases.Daylight, inp: Input)
    requires AllPositive(s)
    ensures var d := DayOf(s, a, b, inp);
            d.panelSuspect <==>
              && d.morningLow != 0 && d.high != 0 && d.high - d.morningLow < 10 && d.morningLow < 4100
              && HighOf(s, a.sunrise, a.sunset, inp.now).wellCovered
              && d.weather.DayWeather? && d.weather.usableKWh >= 1.0
  {
    hide MorningLow, HighOf, WeatherOf;
    MorningLowExactlyWhen(s, a.sunrise, inp.now);
    HighExactlyWhen(s, a.sunrise, a.sunset, inp.now);
  }

  /** Whether a day of the sun charged in the range. */
  predicate ChargedIn(a: SunPhases.Daylight, inp: Input) {
    a.sunset >= inp.from && a.sunrise <= inp.now
  }

  function Charged(all: seq<SunPhases.Daylight>, inp: Input, n: nat): set<nat>
    requires n <= |all|
  {
    set i | 0 <= i < n && ChargedIn(all[i], inp)
  }

  lemma ChargedGrows(all: seq<SunPhases.Daylight>, inp: Input, n: nat)
    requires 0 < n <= |all|
    ensures |Charged(all, inp, n)| == |Charged(all, inp, n - 1)| + if ChargedIn(all[n - 1], inp) then 1 else 0
  {
    var before := Charged(all, inp, n - 1);
    assert Charged(all, inp, n) == before + if ChargedIn(all[n - 1], inp) then {n - 1} else {};
    assert n - 1 !in before;
  }

  lemma {:induction false} AsManyDaysAsCharged(s: seq<Sample>, all: seq<SunPhases.Daylight>, inp: Input, n: nat)
    requires n < |all| || n == 0
    ensures |DaysOf(s, all, inp, n)| == |Charged(all, inp, n)|
  {
    hide DayOf, Charged;
    if n > 0 {
      AsManyDaysAsCharged(s, all, inp, n - 1);
      ChargedGrows(all, inp, n);
    } else {
      NoneCharged(all, inp);
    }
  }

  lemma NoneCharged(all: seq<SunPhases.Daylight>, inp: Input)
    ensures Charged(all, inp, 0) == {}
  {
  }

  /** The ledger has every day that charged in the range and no other, in their order: each
      stands after as many as charged before it. */
  lemma {:induction false} EachDayHasItsPlace(
    s: seq<Sample>, all: seq<SunPhases.Daylight>, inp: Input, n: nat, i: nat)
    requires i < n < |all| && ChargedIn(all[i], inp)
    ensures var out := DaysOf(s, all, inp, n);
            && |out| == |Charged(all, inp, n)| && |Charged(all, inp, i)| < |out|
            && out[|Charged(all, inp, i)|] == DayOf(s, all[i], all[i + 1], inp)
  {
    hide DayOf, Charged;
    AsManyDaysAsCharged(s, all, inp, n);
    AsManyDaysAsCharged(s, all, inp, i);
    if i < n - 1 {
      EachDayHasItsPlace(s, all, inp, n - 1, i);
    }
  }

  // -------------------------------------------------------------------- the headline --

  ghost predicate LowsAreKnownOrZero(days: seq<Day>) {
    forall i :: 0 <= i < |days| ==> days[i].morningLow >= 0 && days[i].nextLow >= 0 && days[i].rise > 0
  }

  /** mv is a known morning low of one of the first n days, at that time. */
  predicate LowAmong(days: seq<Day>, n: nat, mv: int, at: int)
    requires n <= |days|
  {
    exists i :: 0 <= i < n && mv > 0
                && ((days[i].rise, days[i].morningLow) == (at, mv) || (days[i].nextRise, days[i].nextLow) == (at, mv))
  }

  predicate IsLowAt(days: seq<Day>, mv: int, at: int) {
    LowAmong(days, |days|, mv, at)
  }

  ghost predicate NoneAfter(days: seq<Day>, at: int) {
    forall i :: 0 <= i < |days| ==>
      && (days[i].morningLow > 0 ==> days[i].rise <= at)
      && (days[i].nextLow > 0 ==> days[i].nextRise <= at)
  }

  lemma {:induction false} FirstKnownIsFirst(days: seq<Day>, i: nat)
    requires i <= |days|
    ensures var k := FirstKnown(days, i);
            && i <= k <= |days| && (k < |days| ==> days[k].morningLow != 0)
            && forall j :: i <= j < k ==> days[j].morningLow == 0
    decreases |days| - i
  {
    if i < |days| {
      FirstKnownIsFirst(days, i + 1);
    }
  }

  lemma {:induction false} RisesAreInOrder(days: seq<Day>, i: nat, j: nat)
    requires Chained(days) && i <= j < |days|
    ensures days[i].rise <= days[j].rise
  {
    if i < j {
      RisesAreInOrder(days, i, j - 1);
      assert Consistent(days[j - 1]) && JoinsOn(days[j - 1], days[j - 1 + 1]);
    }
  }

  lemma {:induction false} LastKnownIsLast(days: seq<Day>, n: nat)
    requires n <= |days| && Chained(days) && LowsAreKnownOrZero(days)
    requires exists i :: 0 <= i < n && days[i].morningLow > 0
    ensures var w := LastKnown(days, n);
            && (exists i :: 0 <= i < n && days[i].rise == w.at && days[i].morningLow == w.mv > 0)
            && forall i :: 0 <= i < n && days[i].morningLow > 0 ==> days[i].rise <= w.at
  {
    if days[n - 1].morningLow != 0 {
      forall i | 0 <= i < n ensures days[i].rise <= days[n - 1].rise {
        RisesAreInOrder(days, i, n - 1);
      }
    } else {
      LastKnownIsLast(days, n - 1);
    }
  }

  lemma {:induction false} NextKnownIsNewest(days: seq<Day>, start: Newest, n: nat)
    requires n <= |days|
    ensures var w := NextKnown(days, start, n);
            && w.at >= start.at
            && (w == start || exists i :: 0 <= i < n && days[i].nextRise == w.at && days[i].nextLow == w.mv > 0)
            && forall i :: 0 <= i < n && days[i].nextLow > 0 ==> days[i].nextRise <= w.at
  {
    if n > 0 {
      NextKnownIsNewest(days, start, n - 1);
    }
  }

  /** The headline is the change from the first known morning low to the newest there is,
      over the time between them; there is one exactly when there are two such. */
  lemma HeadlineIsFirstToNewest(days: seq<Day>)
    requires Chained(days) && LowsAreKnownOrZero(days)
    ensures var h, k := MorningNetOf(days), FirstKnown(days, 0);
            && (h.Some? <==> k < |days| && !NoneAfter(days, days[k].rise))
            && (h.Some? ==>
                 && days[k].morningLow > 0 && (forall j :: 0 <= j < k ==> days[j].morningLow == 0)
                 && h.value.span > 0
                 && IsLowAt(days, days[k].morningLow + h.value.mv, days[k].rise + h.value.span)
                 && NoneAfter(days, days[k].rise + h.value.span))
  {
    FirstKnownIsFirst(days, 0);
    var k := FirstKnown(days, 0);
    if k < |days| {
      LastKnownIsLast(days, |days|);
      NextKnownIsNewest(days, LastKnown(days, |days|), |days|);
    }
  }
}
