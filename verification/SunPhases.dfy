/** When the sun passes a height, and the phases and days that follow from it
    (internal/sun/sun.go), for any sun: its height is an arbitrary function of time.
    Times are nanoseconds, and 0 is no time. */
module SunPhases {
  import Sorting

  const SECOND := 1_000_000_000
  const SCAN_STEP := 600 * SECOND

  type Sun = int -> real

  datatype Phase = Night | Astronomical | Nautical | Civil | Day

  const HORIZON_DEG := -0.833
  const CIVIL_DEG := -6.0
  const NAUTICAL_DEG := -12.0
  const ASTRONOMICAL_DEG := -18.0

  function PhaseOf(height: real): Phase {
    if height >= HORIZON_DEG then Day
    else if height >= CIVIL_DEG then Civil
    else if height >= NAUTICAL_DEG then Nautical
    else if height >= ASTRONOMICAL_DEG then Astronomical
    else Night
  }

  function Brightness(p: Phase): nat {
    match p
    case Night => 0
    case Astronomical => 1
    case Nautical => 2
    case Civil => 3
    case Day => 4
  }

  /** A higher sun is never darker, and it grows lighter exactly at each of the four heights. */
  lemma HigherIsBrighter(a: real, b: real)
    ensures a <= b ==> Brightness(PhaseOf(a)) <= Brightness(PhaseOf(b))
    ensures Brightness(PhaseOf(a))
         == (if a < -18.0 then 0 else 1) + (if a < -12.0 then 0 else 1) + (if a < -6.0 then 0 else 1)
            + (if a < -0.833 then 0 else 1)
  {
  }

  function Truncated(t: int): int {
    t - t % SECOND
  }

  predicate Below(el: Sun, h: real, t: int) {
    el(t) < h
  }

  // ---------------------------------------------------------------- crossings --

  /** The two instants a crossing was narrowed down to, and its direction. */
  datatype Bracket = Bracket(lo: int, hi: int, up: bool)

  datatype Crossing = Crossing(at: int, up: bool)

  datatype Ends = Ends(lo: int, hi: int)

  /** Halving until the ends are a second apart. */
  function Narrow(el: Sun, h: real, lo: int, hi: int): Ends
    decreases hi - lo
  {
    if hi - lo <= SECOND then Ends(lo, hi)
    else
      var mid := lo + (hi - lo) / 2;
      if Below(el, h, mid) == Below(el, h, lo) then Narrow(el, h, mid, hi) else Narrow(el, h, lo, mid)
  }

  function NextScan(t: int, until: int): int {
    if t + SCAN_STEP > until then until else t + SCAN_STEP
  }

  /** The crossing found between two neighbouring samples, if they differ. */
  function Here(el: Sun, h: real, prev: int, t: int): seq<Bracket> {
    if Below(el, h, prev) == Below(el, h, t) then []
    else var e := Narrow(el, h, prev, t); [Bracket(e.lo, e.hi, !Below(el, h, t))]
  }

  function Scan(el: Sun, h: real, prev: int, until: int): seq<Bracket>
    decreases until - prev
  {
    var t := NextScan(prev, until);
    Here(el, h, prev, t) + if t >= until then [] else Scan(el, h, t, until)
  }

  function Reported(bs: seq<Bracket>): (cs: seq<Crossing>)
    ensures |cs| == |bs| && forall i :: 0 <= i < |bs| ==> cs[i] == Crossing(Truncated(bs[i].hi), bs[i].up)
  {
    if bs == [] then [] else Reported(bs[..|bs| - 1]) + [Crossing(Truncated(bs[|bs| - 1].hi), bs[|bs| - 1].up)]
  }

  lemma ReportedAppend(bs: seq<Bracket>, b: Bracket)
    ensures Reported(bs + [b]) == Reported(bs) + [Crossing(Truncated(b.hi), b.up)]
  {
  }

  function CrossingsOf(el: Sun, h: real, from: int, until: int): seq<Crossing> {
    Reported(Scan(el, h, from, until))
  }

  method Crossings(el: Sun, h: real, from: int, until: int) returns (out: seq<Crossing>)
    ensures out == CrossingsOf(el, h, from, until)
  {
    hide Reported, Narrow;
    out := [];
    ghost var found: seq<Bracket> := [];
    NothingReported();
    var prevT, prevBelow := from, el(from) < h;
    var t := from + SCAN_STEP;
    var more := true;
    while more
      invariant prevBelow == Below(el, h, prevT) && t == prevT + SCAN_STEP
      invariant found + (if more then Scan(el, h, prevT, until) else []) == Scan(el, h, from, until)
      invariant out == Reported(found)
      decreases more, until - prevT
    {
      if t > until {
        t := until;
      }
      var curBelow := el(t) < h;
      var here := [];
      if prevBelow != curBelow {
        var ends := NarrowDown(el, h, prevT, t, prevBelow);
        ReportedAppend(found, Bracket(ends.lo, ends.hi, !curBelow));
        here := [Bracket(ends.lo, ends.hi, !curBelow)];
        out := out + [Crossing(Truncated(ends.hi), !curBelow)];
      }
      ScanStepOn(el, h, prevT, until, found);
      assert here == Here(el, h, prevT, t);
      found := found + here;
      more := t < until;
      prevT, prevBelow := t, curBelow;
      t := t + SCAN_STEP;
    }
    assert found + [] == found;
  }

  method NarrowDown(el: Sun, h: real, from: int, until: int, prevBelow: bool) returns (e: Ends)
    requires prevBelow == Below(el, h, from)
    ensures e == Narrow(el, h, from, until)
  {
    var lo, hi := from, until;
    while hi - lo > SECOND
      invariant Narrow(el, h, lo, hi) == Narrow(el, h, from, until)
      invariant Below(el, h, lo) == prevBelow
      decreases hi - lo
    {
      var mid := lo + (hi - lo) / 2;
      if (el(mid) < h) == prevBelow {
        lo := mid;
      } else {
        hi := mid;
      }
    }
    e := Ends(lo, hi);
  }

  lemma NothingReported()
    ensures Reported([]) == []
  {
  }

  lemma ScanStepOn(el: Sun, h: real, prev: int, until: int, found: seq<Bracket>)
    ensures var t := NextScan(prev, until);
            found + Scan(el, h, prev, until)
            == (found + Here(el, h, prev, t)) + if t < until then Scan(el, h, t, until) else []
  {
  }

  /** The sun passes the height between two instants at most a second apart. */
  predicate Brackets(el: Sun, h: real, b: Bracket, from: int, until: int) {
    && from <= b.lo < b.hi <= until && b.hi - b.lo <= SECOND
    && Below(el, h, b.lo) == b.up && Below(el, h, b.hi) != b.up
  }

  lemma {:induction false} NarrowKeepsSides(el: Sun, h: real, lo: int, hi: int)
    requires lo < hi && Below(el, h, lo) != Below(el, h, hi)
    ensures var e := Narrow(el, h, lo, hi);
            && lo <= e.lo < e.hi <= hi && e.hi - e.lo <= SECOND
            && Below(el, h, e.lo) == Below(el, h, lo) && Below(el, h, e.hi) == Below(el, h, hi)
    decreases hi - lo
  {
    if hi - lo > SECOND {
      var mid := lo + (hi - lo) / 2;
      if Below(el, h, mid) == Below(el, h, lo) {
        NarrowKeepsSides(el, h, mid, hi);
      } else {
        NarrowKeepsSides(el, h, lo, mid);
      }
    }
  }

  /** Each crossing is bracketed; they come one after another; their directions
      alternate, beginning with the way out of where the sun was; and they lead to where
      it ends up. */
  ghost predicate Faithful(el: Sun, h: real, bs: seq<Bracket>, from: int, until: int) {
    && AllBracket(el, h, bs, from, until) && Alternating(bs)
    && Below(el, h, from) == (if bs == [] then Below(el, h, until) else bs[0].up)
    && (bs != [] ==> Below(el, h, until) != bs[|bs| - 1].up)
  }

  ghost predicate AllBracket(el: Sun, h: real, bs: seq<Bracket>, from: int, until: int) {
    forall i :: 0 <= i < |bs| ==> Brackets(el, h, bs[i], from, until)
  }

  predicate Follows(a: Bracket, b: Bracket) {
    a.hi <= b.lo && a.up != b.up
  }

  ghost predicate Alternating(bs: seq<Bracket>) {
    forall i :: 0 <= i < |bs| - 1 ==> Follows(bs[i], bs[i + 1])
  }

  lemma HereIsFaithful(el: Sun, h: real, prev: int, t: int)
    requires prev <= t
    ensures Faithful(el, h, Here(el, h, prev, t), prev, t)
  {
    if Below(el, h, prev) != Below(el, h, t) {
      NarrowKeepsSides(el, h, prev, t);
    }
  }

  lemma FaithfulJoin(el: Sun, h: real, a: seq<Bracket>, b: seq<Bracket>, from: int, mid: int, until: int)
    requires Faithful(el, h, a, from, mid) && Faithful(el, h, b, mid, until) && from <= mid <= until
    ensures Faithful(el, h, a + b, from, until)
  {
    hide Below, AllBracket, Alternating;
    BracketsJoin(el, h, a, b, from, mid, until);
    AlternatingJoin(a, b);
  }

  lemma BracketsJoin(el: Sun, h: real, a: seq<Bracket>, b: seq<Bracket>, from: int, mid: int, until: int)
    requires AllBracket(el, h, a, from, mid) && AllBracket(el, h, b, mid, until) && from <= mid <= until
    ensures AllBracket(el, h, a + b, from, until)
    ensures a != [] && b != [] ==> a[|a| - 1].hi <= b[0].lo
  {
    hide Below;
    assert a != [] ==> Brackets(el, h, a[|a| - 1], from, mid);
    assert b != [] ==> Brackets(el, h, b[0], mid, until);
  }

  lemma AlternatingJoin(a: seq<Bracket>, b: seq<Bracket>)
    requires Alternating(a) && Alternating(b) && (a != [] && b != [] ==> Follows(a[|a| - 1], b[0]))
    ensures Alternating(a + b)
  {
    hide Follows;
    var all := a + b;
    forall i | 0 <= i < |all| - 1 ensures Follows(all[i], all[i + 1]) {
      if i >= |a| {
        assert all[i] == b[i - |a|] && all[i + 1] == b[i - |a| + 1];
      } else if i < |a| - 1 {
        assert all[i] == a[i] && all[i + 1] == a[i + 1];
      }
    }
  }

  lemma {:induction false} ScanIsFaithful(el: Sun, h: real, from: int, until: int)
    requires from <= until
    ensures Faithful(el, h, Scan(el, h, from, until), from, until)
    decreases until - from
  {
    hide Faithful, Here;
    var t := NextScan(from, until);
    HereIsFaithful(el, h, from, t);
    if t < until {
      assert t == from + SCAN_STEP;
      ScanIsFaithful(el, h, t, until);
      FaithfulJoin(el, h, Here(el, h, from, t), Scan(el, h, t, until), from, t, until);
    } else {
      assert Here(el, h, from, t) + [] == Here(el, h, from, t);
    }
  }

  /** How high the sun is at a scan sample is what the crossings found so far say. */
  lemma {:induction false} SamplesAgree(el: Sun, h: real, from: int, mid: int, until: int, k: nat)
    requires from <= mid < until && mid == from + k * SCAN_STEP
    ensures exists a :: Scan(el, h, from, until) == a + Scan(el, h, mid, until) && Faithful(el, h, a, from, mid)
    decreases k
  {
    hide Faithful, Here;
    if k == 0 {
      NothingFound(el, h, from);
      assert Scan(el, h, from, until) == [] + Scan(el, h, mid, until);
    } else {
      var t := from + SCAN_STEP;
      SamplesAgree(el, h, t, mid, until, k - 1);
      var b :| Scan(el, h, t, until) == b + Scan(el, h, mid, until) && Faithful(el, h, b, t, mid);
      HereIsFaithful(el, h, from, t);
      var a := Here(el, h, from, t) + b;
      FaithfulJoin(el, h, Here(el, h, from, t), b, from, t, mid);
      assert Scan(el, h, from, until) == a + Scan(el, h, mid, until);
    }
  }

  /** Two crossings in the same direction are more than a scan step apart. */
  lemma {:induction false} ScanIsSpaced(el: Sun, h: real, from: int, until: int)
    requires from <= until
    ensures var bs := Scan(el, h, from, until);
            && (|bs| >= 2 ==> from + 600 * SECOND <= bs[1].lo)
            && (forall i :: 0 <= i < |bs| - 2 ==> bs[i].hi + 600 * SECOND <= bs[i + 2].lo)
    decreases until - from
  {
    hide Here, Below;
    var t := NextScan(from, until);
    HereIsFaithful(el, h, from, t);
    var here := Here(el, h, from, t);
    AtMostOneHere(el, h, from, t);
    assert here != [] ==> Brackets(el, h, here[0], from, t);
    if t < until {
      var rest := Scan(el, h, t, until);
      ScanIsSpaced(el, h, t, until);
      ScanIsFaithful(el, h, t, until);
      assert rest != [] ==> Brackets(el, h, rest[0], t, until);
    }
  }

  lemma AtMostOneHere(el: Sun, h: real, prev: int, t: int)
    ensures |Here(el, h, prev, t)| <= 1
  {
  }

  lemma NothingFound(el: Sun, h: real, t: int)
    ensures Faithful(el, h, [], t, t)
  {
  }

  lemma TruncatedIsClose(t: int, u: int)
    ensures Truncated(t) <= t < Truncated(t) + SECOND && Truncated(t) % SECOND == 0
    ensures t <= u ==> Truncated(t) <= Truncated(u)
    ensures u <= t && u % SECOND == 0 ==> u <= Truncated(t)
  {
  }

  ghost predicate InOrder(cs: seq<Crossing>) {
    forall i :: 0 <= i < |cs| - 1 ==> cs[i].at <= cs[i + 1].at && cs[i].up != cs[i + 1].up
  }

  /** Reported crossings never go back in time, alternate, and lie in the range, but for
      the fraction of a second that truncation takes off the start. */
  lemma CrossingsAreOrdered(el: Sun, h: real, from: int, until: int)
    requires from <= until
    ensures var cs := CrossingsOf(el, h, from, until);
            && InOrder(cs)
            && (forall i :: 0 <= i < |cs| ==> Truncated(from) <= cs[i].at <= until)
            && (from % SECOND == 0 ==> forall i :: 0 <= i < |cs| ==> from <= cs[i].at)
            && (forall i :: 0 <= i < |cs| - 2 ==> cs[i].at < cs[i + 2].at)
  {
    hide Truncated, Scan, Below;
    ScanIsFaithful(el, h, from, until);
    ScanIsSpaced(el, h, from, until);
    var bs := Scan(el, h, from, until);
    var cs := CrossingsOf(el, h, from, until);
    forall i | 0 <= i < |cs| ensures Truncated(from) <= cs[i].at <= until && (from % SECOND == 0 ==> from <= cs[i].at) {
      assert Brackets(el, h, bs[i], from, until);
      TruncatedIsClose(from, bs[i].hi);
      TruncatedIsClose(bs[i].hi, from);
    }
    forall i | 0 <= i < |cs| - 2 ensures cs[i].at < cs[i + 2].at {
      assert Brackets(el, h, bs[i + 2], from, until);
      TruncatedIsClose(bs[i].hi, bs[i + 2].hi);
      TruncatedIsClose(bs[i + 2].hi, bs[i].hi);
    }
    forall i | 0 <= i < |cs| - 1 ensures cs[i].at <= cs[i + 1].at && cs[i].up != cs[i + 1].up {
      assert Brackets(el, h, bs[i + 1], from, until) && Follows(bs[i], bs[i + 1]);
      TruncatedIsClose(bs[i].hi, bs[i + 1].hi);
    }
  }

  // --------------------------------------------------------------------- days --

  datatype Daylight = Daylight(sunrise: int, sunset: int)

  /** The days so far and the sunrise still open, 0 for none. */
  datatype DayState = DayState(days: seq<Daylight>, rise: int)

  function DaysAfter(cs: seq<Crossing>, n: nat): DayState
    requires n <= |cs|
  {
    if n == 0 then DayState([], 0)
    else
      var s, c := DaysAfter(cs, n - 1), cs[n - 1];
      if c.up then s.(rise := c.at)
      else if s.rise != 0 then DayState(s.days + [Daylight(s.rise, c.at)], 0)
      else s
  }

  method Days(el: Sun, from: int, until: int) returns (out: seq<Daylight>)
    ensures var cs := CrossingsOf(el, HORIZON_DEG, from, until); out == DaysAfter(cs, |cs|).days
  {
    out := [];
    var rise := 0;
    var cs := Crossings(el, HORIZON_DEG, from, until);
    for n := 0 to |cs|
      invariant DayState(out, rise) == DaysAfter(cs, n)
    {
      var c := cs[n];
      if c.up {
        rise := c.at;
      } else if rise != 0 {
        out := out + [Daylight(rise, c.at)];
        rise := 0;
      }
    }
  }

  lemma {:induction false} Alternates(cs: seq<Crossing>, i: nat)
    requires InOrder(cs) && i < |cs|
    ensures cs[i].up == (cs[0].up == (i % 2 == 0))
  {
    if i > 0 {
      Alternates(cs, i - 1);
      assert cs[i - 1].up != cs[i - 1 + 1].up;
    }
  }

  /** A sunset before any sunrise is passed over. */
  function Skip(cs: seq<Crossing>): nat {
    if cs == [] || cs[0].up then 0 else 1
  }

  predicate Pair(a: Crossing, b: Crossing, d: Daylight) {
    a.up && !b.up && d == Daylight(a.at, b.at) && d.sunrise <= d.sunset
  }

  /** Each day is a sunrise and the crossing right after it; a last sunrise without its
      sunset makes no day. */
  ghost predicate DaysAre(cs: seq<Crossing>, n: nat, s: DayState)
    requires n <= |cs|
  {
    var m := if n <= Skip(cs) then 0 else n - Skip(cs);
    && |s.days| == m / 2
    && s.rise == (if m % 2 == 1 then cs[n - 1].at else 0)
    && forall k :: 0 <= k < |s.days| ==> Pair(cs[2 * k + Skip(cs)], cs[2 * k + Skip(cs) + 1], s.days[k])
  }

  lemma {:induction false} DaysPairUp(cs: seq<Crossing>, n: nat)
    requires n <= |cs| && InOrder(cs) && forall i :: 0 <= i < |cs| ==> cs[i].at > 0
    ensures DaysAre(cs, n, DaysAfter(cs, n))
  {
    if n > 0 {
      DaysPairUp(cs, n - 1);
      Alternates(cs, n - 1);
      if n > 1 {
        Alternates(cs, n - 2);
        assert cs[n - 2].at <= cs[n - 2 + 1].at;
      }
    }
  }

  /** From the first second on, whatever the sun does: every day has its sunrise no later
      than its sunset and its sunset no later than the next sunrise, and no sunset found
      after a sunrise is left out. */
  lemma DaysAreOrdered(el: Sun, from: int, until: int)
    requires SECOND <= from <= until
    ensures var cs := CrossingsOf(el, HORIZON_DEG, from, until);
            var days := DaysAfter(cs, |cs|).days;
            && |days| == (if cs == [] then 0 else (|cs| - Skip(cs)) / 2)
            && (forall k :: 0 <= k < |days| ==> Pair(cs[2 * k + Skip(cs)], cs[2 * k + Skip(cs) + 1], days[k]))
            && (forall k :: 0 <= k < |days| - 1 ==>
                 days[k].sunset <= days[k + 1].sunrise && days[k].sunrise < days[k + 1].sunrise)
  {
    hide DaysAfter, CrossingsOf;
    var cs := CrossingsOf(el, HORIZON_DEG, from, until);
    var days := DaysAfter(cs, |cs|).days;
    CrossingsAreOrdered(el, HORIZON_DEG, from, until);
    TruncatedIsClose(from, SECOND);
    DaysPairUp(cs, |cs|);
    forall k | 0 <= k < |days| - 1
      ensures days[k].sunset <= days[k + 1].sunrise && days[k].sunrise < days[k + 1].sunrise
    {
      var i := 2 * k + Skip(cs) + 1;
      assert Pair(cs[2 * k + Skip(cs)], cs[i], days[k]);
      assert Pair(cs[2 * (k + 1) + Skip(cs)], cs[2 * (k + 1) + Skip(cs) + 1], days[k + 1]);
      assert cs[i].at <= cs[i + 1].at;
    }
  }

  // -------------------------------------------------------------------- spans --

  datatype Span = Span(start: int, end: int, phase: Phase)

  function Heights(): seq<real> {
    [HORIZON_DEG, CIVIL_DEG, NAUTICAL_DEG, ASTRONOMICAL_DEG]
  }

  function Times(cs: seq<Crossing>, n: nat): (ts: seq<int>)
    requires n <= |cs|
    ensures |ts| == n && forall i :: 0 <= i < n ==> ts[i] == cs[i].at
  {
    if n == 0 then [] else Times(cs, n - 1) + [cs[n - 1].at]
  }

  /** When the sun passes any of the first n heights. */
  function Passes(el: Sun, from: int, until: int, n: nat): seq<int>
    requires n <= |Heights()|
  {
    if n == 0 then []
    else
      var cs := CrossingsOf(el, Heights()[n - 1], from, until);
      Passes(el, from, until, n - 1) + Times(cs, |cs|)
  }

  function Moment(t: int): real {
    t as real
  }

  function Bounds(el: Sun, from: int, until: int): seq<int> {
    Sorting.SortBy([from, until] + Passes(el, from, until, |Heights()|), Moment)
  }

  function PhaseBetween(el: Sun, a: int, b: int): Phase {
    PhaseOf(el(a + (b - a) / 2))
  }

  /** One more piece: nothing if empty, else longer or new. */
  function AddPiece(out: seq<Span>, a: int, b: int, p: Phase): seq<Span> {
    if b <= a then out
    else if out != [] && out[|out| - 1].phase == p then out[|out| - 1 := out[|out| - 1].(end := b)]
    else out + [Span(a, b, p)]
  }

  /** The spans between the first n bounds. */
  function Merge(el: Sun, bounds: seq<int>, n: nat): seq<Span>
    requires n <= |bounds|
  {
    if n < 2 then []
    else AddPiece(Merge(el, bounds, n - 1), bounds[n - 2], bounds[n - 1],
      PhaseBetween(el, bounds[n - 2], bounds[n - 1]))
  }

  function SpansOf(el: Sun, from: int, until: int): seq<Span> {
    if until <= from then [] else Merge(el, Bounds(el, from, until), |Bounds(el, from, until)|)
  }

  method Spans(el: Sun, from: int, until: int) returns (out: seq<Span>)
    ensures out == SpansOf(el, from, until)
  {
    out := [];
    if until <= from {
      return;
    }
    var bounds := CollectBounds(el, from, until);
    out := MergeSpans(el, bounds);
  }

  method CollectBounds(el: Sun, from: int, until: int) returns (bounds: seq<int>)
    ensures bounds == Bounds(el, from, until) && |bounds| >= 2
  {
    hide CrossingsOf, Sorting.SortBy;
    bounds := [from, until];
    for k := 0 to |Heights()|
      invariant bounds == [from, until] + Passes(el, from, until, k)
    {
      var cs := Crossings(el, Heights()[k], from, until);
      ghost var before := bounds;
      for i := 0 to |cs|
        invariant bounds == before + Times(cs, i)
      {
        bounds := bounds + [cs[i].at];
      }
    }
    Sorting.SortBySorts(bounds, Moment);
    bounds := Sorting.SortBy(bounds, Moment);
  }

  method MergeSpans(el: Sun, bounds: seq<int>) returns (out: seq<Span>)
    requires |bounds| >= 2
    ensures out == Merge(el, bounds, |bounds|)
  {
    out := [];
    for n := 1 to |bounds|
      invariant out == Merge(el, bounds, n)
    {
      var a, b := bounds[n - 1], bounds[n];
      if b <= a {
        continue;
      }
      var p := PhaseBetween(el, a, b);
      var last := |out|;
      if last > 0 && out[last - 1].phase == p {
        out := out[last - 1 := out[last - 1].(end := b)];
        continue;
      }
      out := out + [Span(a, b, p)];
    }
  }

  /** Spans that follow one another from start to end without gaps, none empty and no two
      neighbours alike. */
  ghost predicate Partition(out: seq<Span>, start: int, end: int) {
    && (out == [] <==> start == end)
    && (out != [] ==> out[0].start == start && out[|out| - 1].end == end)
    && (forall i :: 0 <= i < |out| ==> out[i].start < out[i].end)
    && (forall i :: 0 <= i < |out| - 1 ==> out[i].end == out[i + 1].start && out[i].phase != out[i + 1].phase)
  }

  lemma PieceKeepsPartition(out: seq<Span>, start: int, a: int, b: int, p: Phase)
    requires Partition(out, start, a) && start <= a <= b
    ensures Partition(AddPiece(out, a, b, p), start, b)
  {
  }

  ghost predicate Ascending(s: seq<int>) {
    forall i, j :: 0 <= i < j < |s| ==> s[i] <= s[j]
  }

  lemma {:induction false} MergePartitions(el: Sun, bounds: seq<int>, n: nat)
    requires 1 <= n <= |bounds| && Ascending(bounds)
    ensures Partition(Merge(el, bounds, n), bounds[0], bounds[n - 1])
  {
    hide Partition, PhaseBetween;
    if n == 1 {
      NothingToSplit(bounds[0]);
    } else {
      MergePartitions(el, bounds, n - 1);
      PieceKeepsPartition(Merge(el, bounds, n - 1), bounds[0], bounds[n - 2], bounds[n - 1],
        PhaseBetween(el, bounds[n - 2], bounds[n - 1]));
    }
  }

  lemma NothingToSplit(t: int)
    ensures Partition([], t, t)
  {
  }

  /** The span holds the piece and has the phase found in its middle. */
  predicate Holds(el: Sun, s: Span, a: int, b: int) {
    s.start <= a && b <= s.end && s.phase == PhaseBetween(el, a, b)
  }

  ghost predicate SomeHolds(el: Sun, out: seq<Span>, a: int, b: int) {
    exists i :: 0 <= i < |out| && Holds(el, out[i], a, b)
  }

  lemma PieceIsHeld(el: Sun, out: seq<Span>, start: int, a: int, b: int)
    requires Partition(out, start, a) && start <= a < b
    ensures SomeHolds(el, AddPiece(out, a, b, PhaseBetween(el, a, b)), a, b)
    ensures forall c, d :: SomeHolds(el, out, c, d) ==> SomeHolds(el, AddPiece(out, a, b, PhaseBetween(el, a, b)), c, d)
  {
    hide PhaseBetween;
    var out1 := AddPiece(out, a, b, PhaseBetween(el, a, b));
    assert Holds(el, out1[|out1| - 1], a, b);
    forall c, d | SomeHolds(el, out, c, d) ensures SomeHolds(el, out1, c, d) {
      var i :| 0 <= i < |out| && Holds(el, out[i], c, d);
      assert Holds(el, out1[i], c, d);
    }
  }

  /** Each piece between neighbouring bounds lies in a span of its own phase. */
  lemma {:induction false} PiecesKeepTheirPhase(el: Sun, bounds: seq<int>, n: nat, i: nat)
    requires 2 <= n <= |bounds| && Ascending(bounds) && i < n - 1 && bounds[i] < bounds[i + 1]
    ensures SomeHolds(el, Merge(el, bounds, n), bounds[i], bounds[i + 1])
  {
    hide SomeHolds, PhaseBetween, Partition;
    var a, b := bounds[n - 2], bounds[n - 1];
    MergePartitions(el, bounds, n - 1);
    if a < b {
      PieceIsHeld(el, Merge(el, bounds, n - 1), bounds[0], a, b);
    }
    if i < n - 2 {
      PiecesKeepTheirPhase(el, bounds, n - 1, i);
    }
  }

  lemma {:induction false} PassesWithin(el: Sun, from: int, until: int, n: nat)
    requires n <= |Heights()| && from <= until
    ensures forall t :: t in Passes(el, from, until, n) ==> Truncated(from) <= t <= until
    ensures from % SECOND == 0 ==> forall t :: t in Passes(el, from, until, n) ==> from <= t
  {
    hide CrossingsOf, Truncated;
    if n > 0 {
      PassesWithin(el, from, until, n - 1);
      CrossingsAreOrdered(el, Heights()[n - 1], from, until);
    }
  }

  lemma BoundsSorted(el: Sun, from: int, until: int)
    ensures var bounds := Bounds(el, from, until);
            && Ascending(bounds) && |bounds| >= 2
            && forall t :: t in bounds <==> t == from || t == until || t in Passes(el, from, until, |Heights()|)
  {
    hide Passes;
    var all := [from, until] + Passes(el, from, until, |Heights()|);
    Sorting.SortBySorts(all, Moment);
    var bounds := Bounds(el, from, until);
    forall i, j | 0 <= i < j < |bounds| ensures bounds[i] <= bounds[j] {
      assert Moment(bounds[i]) <= Moment(bounds[j]);
    }
    forall t ensures t in bounds <==> t == from || t == until || t in Passes(el, from, until, |Heights()|) {
      assert t in bounds <==> t in multiset(bounds);
      assert t in all <==> t in multiset(all);
    }
  }

  // ------------------------------------------------------ where the spans begin --

  /** The sun passes the height in the first scan step, so soon after a start inside a
      second that the crossing's time is truncated to before it. */
  predicate PassesEarly(el: Sun, h: real, from: int, until: int) {
    var t := NextScan(from, until);
    from % SECOND != 0 && Below(el, h, from) != Below(el, h, t) && Narrow(el, h, from, t).hi < Truncated(from) + SECOND
  }

  ghost predicate AnyBefore(ts: seq<int>, t: int) {
    exists i :: 0 <= i < |ts| && ts[i] < t
  }

  lemma AnyBeforeConcat(a: seq<int>, b: seq<int>, t: int)
    ensures AnyBefore(a + b, t) <==> AnyBefore(a, t) || AnyBefore(b, t)
  {
    var all := a + b;
    if AnyBefore(a, t) {
      var i :| 0 <= i < |a| && a[i] < t;
      assert all[i] < t;
    }
    if AnyBefore(b, t) {
      var i :| 0 <= i < |b| && b[i] < t;
      assert all[|a| + i] < t;
    }
  }

  lemma TruncatedBefore(from: int, hi: int)
    requires from < hi
    ensures Truncated(hi) < from <==> from % SECOND != 0 && hi < Truncated(from) + SECOND
  {
    TruncatedIsClose(from, hi);
    TruncatedIsClose(hi, from);
    var steps := (Truncated(hi) - Truncated(from)) / SECOND;
    assert Truncated(hi) == Truncated(from) + steps * SECOND;
  }

  /** Only the first scan step can find a crossing before the start. */
  lemma EarlyCrossing(el: Sun, h: real, from: int, until: int)
    requires from < until
    ensures var cs := CrossingsOf(el, h, from, until);
            AnyBefore(Times(cs, |cs|), from) <==> PassesEarly(el, h, from, until)
  {
    hide Below, Truncated, Narrow, Scan;
    var t := NextScan(from, until);
    var bs, ts := Scan(el, h, from, until), Times(CrossingsOf(el, h, from, until), |CrossingsOf(el, h, from, until)|);
    ScanSplits(el, h, from, until);
    HereIsFaithful(el, h, from, t);
    if Below(el, h, from) != Below(el, h, t) {
      assert bs[0] == Here(el, h, from, t)[0] && Brackets(el, h, bs[0], from, t);
      TruncatedBefore(from, bs[0].hi);
    }
    if PassesEarly(el, h, from, until) {
      assert ts[0] < from;
    }
    if AnyBefore(ts, from) {
      var i :| 0 <= i < |ts| && ts[i] < from;
      LaterIsLater(el, h, from, until, i);
    }
  }

  lemma ScanSplits(el: Sun, h: real, from: int, until: int)
    ensures var t := NextScan(from, until);
            Scan(el, h, from, until) == Here(el, h, from, t) + if t >= until then [] else Scan(el, h, t, until)
  {
  }

  lemma LaterIsLater(el: Sun, h: real, from: int, until: int, i: nat)
    requires from < until && i < |Scan(el, h, from, until)| && Truncated(Scan(el, h, from, until)[i].hi) < from
    ensures i == 0 && Below(el, h, from) != Below(el, h, NextScan(from, until))
  {
    hide Below, Scan, Narrow;
    var t := NextScan(from, until);
    var here := Here(el, h, from, t);
    ScanSplits(el, h, from, until);
    AtMostOneHere(el, h, from, t);
    if i >= |here| {
      var rest := Scan(el, h, t, until);
      ScanIsFaithful(el, h, t, until);
      assert Scan(el, h, from, until)[i] == rest[i - |here|];
      assert Brackets(el, h, rest[i - |here|], t, until);
      TruncatedIsClose(rest[i - |here|].hi, from);
    }
  }

  lemma {:induction false} EarlyPasses(el: Sun, from: int, until: int, n: nat)
    requires n <= |Heights()| && from < until
    ensures AnyBefore(Passes(el, from, until, n), from) <==>
      exists k :: 0 <= k < n && PassesEarly(el, Heights()[k], from, until)
  {
    hide CrossingsOf, PassesEarly, AnyBefore;
    if n == 0 {
      NoneBefore(from);
    } else {
      EarlyPasses(el, from, until, n - 1);
      EarlyCrossing(el, Heights()[n - 1], from, until);
      var cs := CrossingsOf(el, Heights()[n - 1], from, until);
      AnyBeforeConcat(Passes(el, from, until, n - 1), Times(cs, |cs|), from);
    }
  }

  lemma NoneBefore(t: int)
    ensures !AnyBefore([], t)
  {
  }

  /** The first bound is the start, unless some height was passed before it. */
  lemma FirstBound(el: Sun, from: int, until: int)
    requires from < until
    ensures var bounds := Bounds(el, from, until);
            && |bounds| >= 2 && Ascending(bounds) && bounds[|bounds| - 1] == until
            && Truncated(from) <= bounds[0] <= from
            && (bounds[0] < from <==> AnyBefore(Passes(el, from, until, |Heights()|), from))
  {
    hide Bounds, Passes, Truncated;
    var bounds, ts := Bounds(el, from, until), Passes(el, from, until, |Heights()|);
    BoundsSorted(el, from, until);
    PassesWithin(el, from, until, |Heights()|);
    TruncatedIsClose(from, until);
    EndsBound(bounds);
    assert from in bounds && until in bounds && bounds[0] in bounds && bounds[|bounds| - 1] in bounds;
    if bounds[0] < from {
      var i := IndexOf(ts, bounds[0]);
    }
    if AnyBefore(ts, from) {
      var i :| 0 <= i < |ts| && ts[i] < from;
      assert ts[i] in bounds;
    }
  }

  /** For any sun, the spans partition the time from their start to the end; they start
      within the second asked for, and exactly when asked for unless one of the heights is
      passed early. */
  lemma SpansPartition(el: Sun, from: int, until: int)
    requires from < until
    ensures var spans := SpansOf(el, from, until);
            && spans != [] && Partition(spans, spans[0].start, until) && Truncated(from) <= spans[0].start <= from
            && (spans[0].start < from <==>
                 exists k :: 0 <= k < |Heights()| && PassesEarly(el, Heights()[k], from, until))
  {
    hide Bounds, Passes, Partition, Merge, Truncated, PassesEarly, AnyBefore;
    var bounds := Bounds(el, from, until);
    FirstBound(el, from, until);
    EarlyPasses(el, from, until, |Heights()|);
    MergePartitions(el, bounds, |bounds|);
    PartitionStarts(SpansOf(el, from, until), bounds[0], until);
  }

  lemma IndexOf<T>(s: seq<T>, x: T) returns (i: nat)
    requires x in s
    ensures i < |s| && s[i] == x
  {
    i :| 0 <= i < |s| && s[i] == x;
  }

  lemma EndsBound(s: seq<int>)
    requires Ascending(s) && s != []
    ensures forall t :: t in s ==> s[0] <= t <= s[|s| - 1]
  {
    forall t | t in s ensures s[0] <= t <= s[|s| - 1] {
      var i := IndexOf(s, t);
    }
  }

  /** Asked from a whole second, the spans cover exactly what was asked. */
  lemma WholeSecondsAreCovered(el: Sun, from: int, until: int)
    requires from < until && from % SECOND == 0
    ensures Partition(SpansOf(el, from, until), from, until)
  {
    hide SpansOf, Partition, Truncated, Below, Narrow;
    SpansPartition(el, from, until);
  }

  function EarlySun(t: int): real {
    if t <= 1_300_000_000 then -1.0 else 1.0
  }

  /** Otherwise they may begin before it: here the sun rises within the first second. */
  lemma SpansMayBeginEarly()
    ensures var spans := SpansOf(EarlySun, 1_300_000_000, 1_900_000_000);
            spans != [] && spans[0].start < 1_300_000_000
  {
    hide SpansOf, Partition;
    var from, until := 1_300_000_000, 1_900_000_000;
    assert Narrow(EarlySun, HORIZON_DEG, from, until) == Ends(from, until);
    assert PassesEarly(EarlySun, Heights()[0], from, until);
    SpansPartition(EarlySun, from, until);
  }

  lemma PartitionStarts(out: seq<Span>, start: int, end: int)
    requires Partition(out, start, end) && start < end
    ensures out != [] && out[0].start == start
  {
  }
}
