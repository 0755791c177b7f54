/** The battery alert machine: hysteresis, run counting and announcements
    (internal/alert/battery.go). Voltages are millivolts. */
module BatteryMachine {

  /** Whole seconds; zero is the zero time. */
  type Time = nat

  /** `Blank` is the empty string, used for "no candidate" and "nobody told". */
  datatype Level = Blank | Unknown | OK | Low | Critical | Overcharged {
    predicate Down() { Low? || Critical? }
  }

  datatype Levels = Levels(lowMV: int, criticalMV: int, overchargeMV: int)
  datatype Reading = Reading(mv: int, at: Time, hasBattery: bool)
  datatype Policy = Policy(confirmReadings: int, recoverMarginMV: int)
  datatype Prefs = Prefs(muted: bool, notifyRecovery: bool)
  datatype Kind = NoKind | LowKind | CriticalKind | OverchargedKind | RecoveredKind

  datatype BatteryState = BatteryState(
    level: Level, since: Time, candidate: Level, candidateCount: int, lastReadingAt: Time, lastMV: int,
    announced: Level)

  datatype Outcome = Outcome(state: BatteryState, changed: bool, notify: bool, kind: Kind, from: Level)

  function Classify(mv: int, cur: Level, lv: Levels, marginMV: int): Level {
    if lv.overchargeMV > 0 && mv >= lv.overchargeMV then Overcharged
    else if lv.overchargeMV > 0 && cur == Overcharged && mv > lv.overchargeMV - marginMV then Overcharged
    else if mv < lv.criticalMV then Critical
    else if cur == Critical && mv < lv.criticalMV + marginMV then Critical
    else if mv < lv.lowMV then Low
    else if cur.Down() && mv < lv.lowMV + marginMV then Low
    else OK
  }

  predicate SameRun(a: Level, b: Level) {
    a == b || (a.Down() && b.Down())
  }

  function Confirm(pol: Policy): (c: int)
    ensures c >= 1
  {
    if pol.confirmReadings < 1 then 1 else pol.confirmReadings
  }

  /** The message a confirmed change deserves, before muting. */
  function KindOf(prev: Level, target: Level, announced: Level, notifyRecovery: bool): Kind {
    match target
    case Low => if prev != Critical then LowKind else NoKind
    case Critical => CriticalKind
    case Overcharged => OverchargedKind
    case OK => if announced != Blank && notifyRecovery then RecoveredKind else NoKind
    case _ => NoKind
  }

  function EvaluateBattery(r: Reading, stored: BatteryState, lv: Levels, pol: Policy, prefs: Prefs): Outcome {
    var cur := if stored.level == Blank then stored.(level := Unknown) else stored;
    if !r.hasBattery then
      if cur.level != Unknown || cur.candidate != Blank || cur.announced != Blank then
        Outcome(cur.(level := Unknown, candidate := Blank, candidateCount := 0, announced := Blank,
                     since := if r.at != 0 then r.at else cur.since),
                true, false, NoKind, cur.level)
      else Outcome(cur, false, false, NoKind, cur.level)
    else if r.at == 0 || r.at <= cur.lastReadingAt then Outcome(cur, false, false, NoKind, cur.level)
    else
      var next := cur.(lastReadingAt := r.at, lastMV := r.mv);
      var target := Classify(r.mv, cur.level, lv, pol.recoverMarginMV);
      if cur.level == Unknown then
        Outcome(next.(level := target, since := r.at, candidate := Blank, candidateCount := 0), true, false, NoKind,
          cur.level)
      else if target == cur.level then
        Outcome(next.(candidate := Blank, candidateCount := 0), true, false, NoKind, cur.level)
      else
        var count := if cur.candidate != Blank && SameRun(cur.candidate, target) then cur.candidateCount + 1 else 1;
        if count < Confirm(pol) then
          Outcome(next.(candidate := target, candidateCount := count), true, false, NoKind, cur.level)
        else
          var kind := KindOf(cur.level, target, cur.announced, prefs.notifyRecovery);
          var quiet := if target == OK then Blank else cur.announced;
          var told := kind != NoKind && !prefs.muted;
          Outcome(next.(level := target, since := r.at, candidate := Blank, candidateCount := 0,
                        announced := if told && kind != RecoveredKind then target else quiet),
                  true, told, if told then kind else NoKind, cur.level)
  }

  function Rank(l: Level): nat {
    match l
    case Critical => 1
    case Low => 2
    case OK => 3
    case Overcharged => 4
    case _ => 0
  }

  /** A higher voltage is never classed lower, whatever level is held and whatever the
      levels and the margin are. */
  lemma HigherIsNeverLower(mv: int, mv1: int, cur: Level, lv: Levels, marginMV: int)
    requires mv <= mv1
    ensures Rank(Classify(mv, cur, lv, marginMV)) <= Rank(Classify(mv1, cur, lv, marginMV))
  {
  }

  /** The same reading judged again, from the level it led to, leads to that level. */
  lemma SameReadingSettles(mv: int, cur: Level, lv: Levels, marginMV: int)
    ensures Classify(mv, Classify(mv, cur, lv, marginMV), lv, marginMV) == Classify(mv, cur, lv, marginMV)
  {
  }

  /** A level is entered at its own threshold but only left past it by the margin: which
      readings lead where, from every level. */
  lemma LeavingTakesTheMargin(mv: int, cur: Level, lv: Levels, marginMV: int)
    requires marginMV >= 0 && lv.criticalMV <= lv.lowMV
    ensures var y := Classify(mv, cur, lv, marginMV);
            && (!cur.Down() && !cur.Overcharged? ==>
                  && (y == Overcharged <==> lv.overchargeMV > 0 && mv >= lv.overchargeMV)
                  && (y == Critical <==> y != Overcharged && mv < lv.criticalMV)
                  && (y == Low <==> y != Overcharged && lv.criticalMV <= mv < lv.lowMV))
            && (cur.Down() ==>
                  && (y == Overcharged <==> lv.overchargeMV > 0 && mv >= lv.overchargeMV)
                  && (y == OK <==> y != Overcharged && mv >= lv.lowMV + marginMV)
                  && (y == Critical <==>
                       y != Overcharged && mv < lv.criticalMV + if cur == Critical then marginMV else 0))
            && (cur == Overcharged ==>
                  && (y == Overcharged <==>
                       lv.overchargeMV > 0 && (mv >= lv.overchargeMV || mv > lv.overchargeMV - marginMV))
                  && (y == OK <==> y != Overcharged && mv >= lv.lowMV)
                  && (y == Critical <==> y != Overcharged && mv < lv.criticalMV))
  {
  }

  /** Which message each change of a known level sends, and that nothing else sends one. */
  lemma MessageExactlyWhen(r: Reading, s: BatteryState, lv: Levels, pol: Policy, prefs: Prefs)
    ensures var out := EvaluateBattery(r, s, lv, pol, prefs);
            var told := out.from != Unknown && out.state.level != out.from && !prefs.muted;
            && (out.kind == CriticalKind <==> told && out.state.level == Critical)
            && (out.kind == LowKind <==> told && out.state.level == Low && out.from != Critical)
            && (out.kind == OverchargedKind <==> told && out.state.level == Overcharged)
            && (out.kind == RecoveredKind <==>
                 told && out.state.level == OK && s.announced != Blank && prefs.notifyRecovery)
            && (out.notify <==> out.kind != NoKind)
            && out.from == (if s.level == Blank then Unknown else s.level)
  {
  }

  // ------------------------------------------------------------------ runs --

  /** One fetched reading with everything else in force at that fetch: the owner may
      have edited levels or preferences in between. */
  datatype Fetch = Fetch(reading: Reading, levels: Levels, prefs: Prefs)

  function Step(pol: Policy, s: BatteryState, f: Fetch): Outcome {
    EvaluateBattery(f.reading, s, f.levels, pol, f.prefs)
  }

  function StateAt(pol: Policy, s0: BatteryState, fs: seq<Fetch>, k: nat): BatteryState
    requires k <= |fs|
  {
    if k == 0 then s0 else Step(pol, StateAt(pol, s0, fs, k - 1), fs[k - 1]).state
  }

  function OutcomeAt(pol: Policy, s0: BatteryState, fs: seq<Fetch>, k: nat): Outcome
    requires k < |fs|
  {
    Step(pol, StateAt(pol, s0, fs, k), fs[k])
  }

  /** How a rule starts: switched on by its owner, or added at the level the battery
      is at (internal/store/battery.go, internal/poller/battery.go). */
  predicate FreshlyAdded(s: BatteryState) {
    s.level != Blank && s.candidate == Blank && s.candidateCount == 0 && s.announced == Blank
  }

  predicate WellFormed(s: BatteryState) {
    && s.level != Blank
    && (s.announced != Blank ==> s.level in {Low, Critical, Overcharged})
    && (s.candidate == Blank <==> s.candidateCount == 0)
    && s.candidateCount >= 0
    && (s.level == Unknown ==> s.candidate == Blank)
  }

  lemma StepKeepsWellFormed(pol: Policy, s: BatteryState, f: Fetch)
    requires WellFormed(s)
    ensures WellFormed(Step(pol, s, f).state)
  {
  }

  // ------------------------------------------------------ what moves a level --

  /** A reading the machine looks at: a battery reading strictly newer than the last. */
  predicate Fresh(s: BatteryState, f: Fetch) {
    f.reading.hasBattery && f.reading.at > s.lastReadingAt
  }

  function Target(pol: Policy, s: BatteryState, f: Fetch): (t: Level)
    ensures t in {OK, Low, Critical, Overcharged}
  {
    Classify(f.reading.mv, s.level, f.levels, pol.recoverMarginMV)
  }

  /** What the fresh readings since the level was last set pointed to, in order. */
  function SinceChange(pol: Policy, s0: BatteryState, fs: seq<Fetch>, k: nat): seq<Level>
    requires k <= |fs|
  {
    if k == 0 then []
    else
      var s := StateAt(pol, s0, fs, k - 1);
      var before := SinceChange(pol, s0, fs, k - 1);
      if Step(pol, s, fs[k - 1]).state.level != s.level then []
      else if !fs[k - 1].reading.hasBattery then []
      else if !Fresh(s, fs[k - 1]) then before
      else before + [Target(pol, s, fs[k - 1])]
  }

  /** The longest suffix whose levels all differ from the held one and all point the
      same way as its last. */
  function TrailingRun(held: Level, ts: seq<Level>): nat {
    if |ts| == 0 || ts[|ts| - 1] == held then 0 else RunToward(held, ts[|ts| - 1], ts)
  }

  function RunToward(held: Level, way: Level, ts: seq<Level>): nat {
    if |ts| == 0 || ts[|ts| - 1] == held || !SameRun(ts[|ts| - 1], way) then 0
    else 1 + RunToward(held, way, ts[..|ts| - 1])
  }

  predicate AllToward(held: Level, way: Level, ts: seq<Level>, c: nat)
    requires c <= |ts|
  {
    forall i :: |ts| - c <= i < |ts| ==> ts[i] != held && SameRun(ts[i], way)
  }

  lemma AllTowardByLast(held: Level, way: Level, ts: seq<Level>, c: nat)
    requires 0 < c <= |ts|
    ensures var last := ts[|ts| - 1];
            AllToward(held, way, ts, c) <==>
              last != held && SameRun(last, way) && AllToward(held, way, ts[..|ts| - 1], c - 1)
  {
    hide SameRun;
    var init := ts[..|ts| - 1];
    if AllToward(held, way, init, c - 1) && ts[|ts| - 1] != held && SameRun(ts[|ts| - 1], way) {
      forall i | |ts| - c <= i < |ts|
        ensures ts[i] != held && SameRun(ts[i], way)
      {
        if i < |ts| - 1 {
          assert init[i] == ts[i];
        }
      }
    }
  }

  lemma {:induction false} RunTowardMeaning(held: Level, way: Level, ts: seq<Level>, c: nat)
    ensures RunToward(held, way, ts) >= c <==> c <= |ts| && AllToward(held, way, ts, c)
  {
    if |ts| > 0 && c > 0 {
      hide SameRun, AllToward;
      RunTowardMeaning(held, way, ts[..|ts| - 1], c - 1);
      if c <= |ts| {
        AllTowardByLast(held, way, ts, c);
      }
    } else if c == 0 {
      assert AllToward(held, way, ts, c);
    }
  }

  /** Because SameRun is an equivalence, "same way as the last" means "all the same
      way as each other". */
  lemma TrailingRunMeaning(held: Level, ts: seq<Level>, c: nat)
    requires c > 0
    ensures TrailingRun(held, ts) >= c
       <==> c <= |ts| && (forall i :: |ts| - c <= i < |ts| ==> ts[i] != held)
            && forall i, j :: |ts| - c <= i < |ts| && |ts| - c <= j < |ts| ==> SameRun(ts[i], ts[j])
  {
    if |ts| > 0 {
      RunTowardMeaning(held, ts[|ts| - 1], ts, c);
    }
  }

  lemma SameRunIsEquivalence(a: Level, b: Level, c: Level)
    ensures SameRun(a, a)
    ensures SameRun(a, b) ==> SameRun(b, a)
    ensures SameRun(a, b) && SameRun(b, c) ==> SameRun(a, c)
  {
  }

  lemma {:induction false} RunTowardSameWay(held: Level, a: Level, b: Level, ts: seq<Level>)
    requires SameRun(a, b)
    ensures RunToward(held, a, ts) == RunToward(held, b, ts)
  {
    hide SameRun;
    if |ts| > 0 {
      SameRunIsEquivalence(a, b, ts[|ts| - 1]);
      SameRunIsEquivalence(ts[|ts| - 1], a, b);
      SameRunIsEquivalence(ts[|ts| - 1], b, a);
      RunTowardSameWay(held, a, b, ts[..|ts| - 1]);
    }
  }

  /** Appending one target, seen the way the machine's own counter sees it. */
  lemma TrailingRunAppend(held: Level, ts: seq<Level>, t: Level)
    ensures TrailingRun(held, ts + [t])
         == if t == held then 0
            else if |ts| > 0 && ts[|ts| - 1] != held && SameRun(ts[|ts| - 1], t) then 1 + TrailingRun(held, ts)
            else 1
  {
    hide SameRun;
    var all := ts + [t];
    assert all[..|all| - 1] == ts && all[|all| - 1] == t;
    SameRunIsEquivalence(t, t, t);
    if t != held {
      assert TrailingRun(held, all) == 1 + RunToward(held, t, ts);
      if |ts| > 0 && ts[|ts| - 1] != held && SameRun(ts[|ts| - 1], t) {
        RunTowardSameWay(held, ts[|ts| - 1], t, ts);
      }
    }
  }

  /** At every point of every history the counter is the length of the trailing run
      of agreeing readings, and the candidate the last of them. */
  ghost predicate CounterMeans(pol: Policy, s: BatteryState, ts: seq<Level>) {
    && WellFormed(s)
    && (s.level == Unknown ==> ts == [])
    && s.candidateCount == TrailingRun(s.level, ts)
    && s.candidateCount < Confirm(pol)
    && (s.candidate != Blank ==> |ts| > 0 && s.candidate == ts[|ts| - 1])
  }

  lemma CounterStep(pol: Policy, s: BatteryState, f: Fetch, ts: seq<Level>)
    requires CounterMeans(pol, s, ts)
    ensures var s' := Step(pol, s, f).state;
            CounterMeans(pol, s', if s'.level != s.level || !f.reading.hasBattery then []
                                  else if !Fresh(s, f) then ts else ts + [Target(pol, s, f)])
  {
    hide Classify, EvaluateBattery, TrailingRun, WellFormed;
    StepKeepsWellFormed(pol, s, f);
    NotBlank(s);
    if !f.reading.hasBattery {
      GoneForgets(pol, s, f);
      NoRun(Step(pol, s, f).state.level);
    } else if !Fresh(s, f) {
      StaleChangesNothing(pol, s, f);
    } else if s.level == Unknown {
      AdoptionStartsOver(pol, s, f);
      NoRun(Step(pol, s, f).state.level);
    } else {
      NoRun(Target(pol, s, f));
      NoRun(s.level);
      TrailingRunAppend(s.level, ts, Target(pol, s, f));
      TrailingRunZero(s.level, ts);
      FreshStep(pol, s, f);
    }
  }

  lemma NotBlank(s: BatteryState)
    requires WellFormed(s)
    ensures s.level != Blank && (s.candidate == Blank <==> s.candidateCount == 0)
  {
  }

  lemma NoRun(held: Level)
    ensures TrailingRun(held, []) == 0
  {
  }

  lemma TrailingRunZero(held: Level, ts: seq<Level>)
    ensures TrailingRun(held, ts) == 0 <==> ts == [] || ts[|ts| - 1] == held
  {
  }

  lemma GoneForgets(pol: Policy, s: BatteryState, f: Fetch)
    requires WellFormed(s) && !f.reading.hasBattery
    ensures var t := Step(pol, s, f).state; t.level == Unknown && t.candidate == Blank && t.candidateCount == 0
  {
  }

  lemma AdoptionStartsOver(pol: Policy, s: BatteryState, f: Fetch)
    requires s.level == Unknown && Fresh(s, f)
    ensures var t := Step(pol, s, f).state;
            t.level == Target(pol, s, f) != Unknown && t.candidate == Blank && t.candidateCount == 0
  {
  }

  /** What a fresh reading does to a known level, seen by the counter. */
  lemma FreshStep(pol: Policy, s: BatteryState, f: Fetch)
    requires s.level !in {Unknown, Blank} && Fresh(s, f)
    ensures var t, target := Step(pol, s, f).state, Target(pol, s, f);
            var count := if s.candidate != Blank && SameRun(s.candidate, target) then s.candidateCount + 1 else 1;
            && target !in {Unknown, Blank}
            && (target == s.level ==> t.level == s.level && t.candidate == Blank && t.candidateCount == 0)
            && (target != s.level && count < Confirm(pol) ==>
                 t.level == s.level && t.candidate == target && t.candidateCount == count)
            && (target != s.level && count >= Confirm(pol) ==>
                 t.level == target && t.candidate == Blank && t.candidateCount == 0)
  {
  }

  lemma {:induction false} CounterIsRunLength(pol: Policy, s0: BatteryState, fs: seq<Fetch>, k: nat)
    requires FreshlyAdded(s0) && k <= |fs|
    ensures CounterMeans(pol, StateAt(pol, s0, fs, k), SinceChange(pol, s0, fs, k))
  {
    hide EvaluateBattery;
    if k > 0 {
      CounterIsRunLength(pol, s0, fs, k - 1);
      CounterStep(pol, StateAt(pol, s0, fs, k - 1), fs[k - 1], SinceChange(pol, s0, fs, k - 1));
    }
  }

  /** A known level changes at fetch k exactly when that fetch reports no battery, or
      brings a fresh reading that completes a run of ConfirmReadings fresh readings
      since the last change, all against the held level and all one way. */
  lemma LevelChangesExactlyWhenRunCompletes(pol: Policy, s0: BatteryState, fs: seq<Fetch>, k: nat)
    requires FreshlyAdded(s0) && k < |fs|
    requires StateAt(pol, s0, fs, k).level != Unknown
    ensures var s := StateAt(pol, s0, fs, k);
            var out := OutcomeAt(pol, s0, fs, k);
            var ts := SinceChange(pol, s0, fs, k) + [Target(pol, s, fs[k])];
            && (out.state.level != s.level
                <==> !fs[k].reading.hasBattery
                     || (Fresh(s, fs[k]) && TrailingRun(s.level, ts) >= Confirm(pol)))
            && (out.state.level != s.level && fs[k].reading.hasBattery ==> out.state.level == Target(pol, s, fs[k]))
            && (out.notify ==> out.state.level != s.level)
  {
    hide EvaluateBattery, Classify, TrailingRun, StateAt, SinceChange, CounterMeans;
    CounterIsRunLength(pol, s0, fs, k);
    ChangesInOneStep(pol, StateAt(pol, s0, fs, k), fs[k], SinceChange(pol, s0, fs, k));
  }

  lemma ChangesInOneStep(pol: Policy, s: BatteryState, f: Fetch, since: seq<Level>)
    requires CounterMeans(pol, s, since) && s.level != Unknown
    ensures var out, ts := Step(pol, s, f), since + [Target(pol, s, f)];
            && (out.state.level != s.level <==>
                 !f.reading.hasBattery || (Fresh(s, f) && TrailingRun(s.level, ts) >= Confirm(pol)))
            && (out.state.level != s.level && f.reading.hasBattery ==> out.state.level == Target(pol, s, f))
            && (out.notify ==> out.state.level != s.level)
  {
    hide Classify;
    TrailingRunAppend(s.level, since, Target(pol, s, f));
  }

  // ------------------------------------------------------ repeated readings --

  /** The history without the battery readings that are repeats of, or older than,
      one already seen. */
  function WithoutStale(pol: Policy, s0: BatteryState, fs: seq<Fetch>): seq<Fetch>
    decreases |fs|
  {
    if fs == [] then []
    else
      var rest := WithoutStale(pol, Step(pol, s0, fs[0]).state, fs[1..]);
      if fs[0].reading.hasBattery && !Fresh(s0, fs[0]) then rest else [fs[0]] + rest
  }

  function Final(pol: Policy, s0: BatteryState, fs: seq<Fetch>): BatteryState
    decreases |fs|
  {
    if fs == [] then s0 else Final(pol, Step(pol, s0, fs[0]).state, fs[1..])
  }

  /** The messages of a history, in order. */
  function Messages(pol: Policy, s0: BatteryState, fs: seq<Fetch>): seq<Kind>
    decreases |fs|
  {
    if fs == [] then []
    else
      var out := Step(pol, s0, fs[0]);
      (if out.notify then [out.kind] else []) + Messages(pol, out.state, fs[1..])
  }

  lemma StaleChangesNothing(pol: Policy, s: BatteryState, f: Fetch)
    requires s.level != Blank && f.reading.hasBattery && !Fresh(s, f)
    ensures Step(pol, s, f) == Outcome(s, false, false, NoKind, s.level)
  {
  }

  lemma StepSetsLevel(pol: Policy, s: BatteryState, f: Fetch)
    ensures Step(pol, s, f).state.level != Blank
  {
  }

  /** Fetching more often than readings arrive changes no state and no message. */
  lemma {:induction false} RepeatedReadingsChangeNothing(pol: Policy, s0: BatteryState, fs: seq<Fetch>)
    requires s0.level != Blank
    ensures Final(pol, s0, WithoutStale(pol, s0, fs)) == Final(pol, s0, fs)
    ensures Messages(pol, s0, WithoutStale(pol, s0, fs)) == Messages(pol, s0, fs)
    decreases |fs|
  {
    hide EvaluateBattery;
    if fs != [] {
      var rest := WithoutStale(pol, Step(pol, s0, fs[0]).state, fs[1..]);
      StepSetsLevel(pol, s0, fs[0]);
      RepeatedReadingsChangeNothing(pol, Step(pol, s0, fs[0]).state, fs[1..]);
      if fs[0].reading.hasBattery && !Fresh(s0, fs[0]) {
        StaleChangesNothing(pol, s0, fs[0]);
      } else {
        assert ([fs[0]] + rest)[1..] == rest;
      }
    }
  }

  // ------------------------------------------------------------ narrow band --

  /** Fetches a to b are battery readings within [lo, hi], judged against the same levels. */
  predicate InBand(fs: seq<Fetch>, a: nat, b: nat, lv: Levels, lo: int, hi: int)
    requires a <= b <= |fs|
  {
    forall i :: a <= i < b ==> fs[i].reading.hasBattery && fs[i].levels == lv && lo <= fs[i].reading.mv <= hi
  }

  predicate Known(l: Level) {
    l in {OK, Low, Critical, Overcharged}
  }

  /** A battery at cur can no longer reach x by readings in [lo, hi]: either it is held
      at overcharged or critical for good, or no reading in the band points back. */
  predicate Gone(x: Level, cur: Level, lv: Levels, margin: int, lo: int, hi: int) {
    var heldOver := cur == Overcharged && lv.overchargeMV > 0 && lo > lv.overchargeMV - margin;
    var heldCritical := cur == Critical && hi < lv.criticalMV + margin;
    match x
    case Overcharged => cur != Overcharged && (lv.overchargeMV <= 0 || hi < lv.overchargeMV)
    case Critical => heldOver || (cur != Critical && cur != Overcharged && lo >= lv.criticalMV)
    case Low => heldOver || heldCritical || (cur == OK && lo >= lv.lowMV)
    case OK => heldOver || heldCritical || (cur == Low && hi < lv.lowMV + margin)
    case _ => false
  }

  lemma LeavingIsForGood(mv: int, x: Level, lv: Levels, margin: int, lo: int, hi: int)
    requires Known(x) && hi - lo < margin && lo <= mv <= hi
    ensures var y := Classify(mv, x, lv, margin);
            y != x ==> Gone(x, y, lv, margin, lo, hi)
  {
  }

  lemma GoneStaysGone(mv: int, x: Level, cur: Level, lv: Levels, margin: int, lo: int, hi: int)
    requires Known(x) && Known(cur) && hi - lo < margin && lo <= mv <= hi && Gone(x, cur, lv, margin, lo, hi)
    ensures Gone(x, Classify(mv, cur, lv, margin), lv, margin, lo, hi)
  {
  }

  lemma LevelMovesToTarget(pol: Policy, s: BatteryState, f: Fetch)
    requires Known(s.level) && f.reading.hasBattery
    ensures Step(pol, s, f).state.level == s.level
         || Step(pol, s, f).state.level == Classify(f.reading.mv, s.level, f.levels, pol.recoverMarginMV)
  {
  }

  function LevelAt(pol: Policy, s0: BatteryState, fs: seq<Fetch>, k: nat): Level
    requires k <= |fs|
  {
    StateAt(pol, s0, fs, k).level
  }

  lemma {:induction false} HeldOrGone(
    pol: Policy, s0: BatteryState, fs: seq<Fetch>, a: nat, b: nat, lv: Levels, lo: int, hi: int)
    requires a <= b <= |fs| && InBand(fs, a, b, lv, lo, hi) && hi - lo < pol.recoverMarginMV
    requires Known(LevelAt(pol, s0, fs, a))
    ensures Known(LevelAt(pol, s0, fs, b))
    ensures var x := LevelAt(pol, s0, fs, a);
            || (forall m :: a <= m <= b ==> LevelAt(pol, s0, fs, m) == x)
            || Gone(x, LevelAt(pol, s0, fs, b), lv, pol.recoverMarginMV, lo, hi)
  {
    hide EvaluateBattery;
    if a < b {
      HeldOrGone(pol, s0, fs, a, b - 1, lv, lo, hi);
      var x, cur, mv := LevelAt(pol, s0, fs, a), LevelAt(pol, s0, fs, b - 1), fs[b - 1].reading.mv;
      LevelMovesToTarget(pol, StateAt(pol, s0, fs, b - 1), fs[b - 1]);
      LeavingIsForGood(mv, x, lv, pol.recoverMarginMV, lo, hi);
      if Gone(x, cur, lv, pol.recoverMarginMV, lo, hi) {
        GoneStaysGone(mv, x, cur, lv, pol.recoverMarginMV, lo, hi);
      }
    }
  }

  /** Readings confined to a band narrower than the margin never bring a battery back
      to a level it has left. The levels need not even be in order. */
  lemma NarrowBandNeverReturns(
    pol: Policy, s0: BatteryState, fs: seq<Fetch>, a: nat, m: nat, b: nat, lv: Levels, lo: int, hi: int)
    requires a <= m <= b <= |fs| && InBand(fs, a, b, lv, lo, hi) && hi - lo < pol.recoverMarginMV
    requires Known(LevelAt(pol, s0, fs, a)) && LevelAt(pol, s0, fs, m) != LevelAt(pol, s0, fs, a)
    ensures LevelAt(pol, s0, fs, b) != LevelAt(pol, s0, fs, a)
  {
    HeldOrGone(pol, s0, fs, a, b, lv, lo, hi);
  }

  function Changes(pol: Policy, s0: BatteryState, fs: seq<Fetch>, a: nat, b: nat): nat
    requires a <= b <= |fs|
  {
    if a == b then 0
    else Changes(pol, s0, fs, a, b - 1) + if LevelAt(pol, s0, fs, b) != LevelAt(pol, s0, fs, b - 1) then 1 else 0
  }

  /** The levels a run has been at. */
  function Visited(pol: Policy, s0: BatteryState, fs: seq<Fetch>, a: nat, b: nat): set<Level>
    requires a <= b <= |fs|
  {
    set m | a <= m <= b :: LevelAt(pol, s0, fs, m)
  }

  lemma {:induction false} EachChangeIsANewLevel(
    pol: Policy, s0: BatteryState, fs: seq<Fetch>, a: nat, b: nat, lv: Levels, lo: int, hi: int)
    requires a <= b <= |fs| && InBand(fs, a, b, lv, lo, hi) && hi - lo < pol.recoverMarginMV
    requires Known(LevelAt(pol, s0, fs, a))
    ensures |Visited(pol, s0, fs, a, b)| == Changes(pol, s0, fs, a, b) + 1
    ensures Visited(pol, s0, fs, a, b) <= {OK, Low, Critical, Overcharged}
  {
    hide EvaluateBattery, LevelAt, Known, Visited, InBand;
    if a == b {
      VisitedOne(pol, s0, fs, a);
      KnownMeans(LevelAt(pol, s0, fs, a));
    } else {
      InBandBefore(fs, a, b, lv, lo, hi);
      EachChangeIsANewLevel(pol, s0, fs, a, b - 1, lv, lo, hi);
      VisitedGrows(pol, s0, fs, a, b);
      HeldOrGone(pol, s0, fs, a, b, lv, lo, hi);
      KnownMeans(LevelAt(pol, s0, fs, b));
      OneMoreLevel(Visited(pol, s0, fs, a, b - 1), LevelAt(pol, s0, fs, b));
      if LevelAt(pol, s0, fs, b) != LevelAt(pol, s0, fs, b - 1) {
        NeverVisited(pol, s0, fs, a, b, lv, lo, hi);
      }
    }
  }

  lemma OneMoreLevel(seen: set<Level>, l: Level)
    ensures |seen + {l}| == |seen| + if l in seen then 0 else 1
  {
    if l in seen {
      assert seen + {l} == seen;
    }
  }

  lemma VisitedOne(pol: Policy, s0: BatteryState, fs: seq<Fetch>, a: nat)
    requires a <= |fs|
    ensures Visited(pol, s0, fs, a, a) == {LevelAt(pol, s0, fs, a)}
  {
    hide LevelAt;
  }

  lemma InBandBefore(fs: seq<Fetch>, a: nat, b: nat, lv: Levels, lo: int, hi: int)
    requires a < b <= |fs| && InBand(fs, a, b, lv, lo, hi)
    ensures InBand(fs, a, b - 1, lv, lo, hi)
  {
  }

  lemma NeverVisited(pol: Policy, s0: BatteryState, fs: seq<Fetch>, a: nat, b: nat, lv: Levels, lo: int, hi: int)
    requires a < b <= |fs| && InBand(fs, a, b, lv, lo, hi) && hi - lo < pol.recoverMarginMV
    requires Known(LevelAt(pol, s0, fs, a)) && LevelAt(pol, s0, fs, b) != LevelAt(pol, s0, fs, b - 1)
    ensures LevelAt(pol, s0, fs, b) !in Visited(pol, s0, fs, a, b - 1)
  {
    hide LevelAt, Known, InBand;
    forall m | a <= m <= b - 1 ensures LevelAt(pol, s0, fs, m) != LevelAt(pol, s0, fs, b) {
      NotSeenBefore(pol, s0, fs, a, m, b, lv, lo, hi);
    }
  }

  lemma VisitedGrows(pol: Policy, s0: BatteryState, fs: seq<Fetch>, a: nat, b: nat)
    requires a < b <= |fs|
    ensures Visited(pol, s0, fs, a, b) == Visited(pol, s0, fs, a, b - 1) + {LevelAt(pol, s0, fs, b)}
    ensures LevelAt(pol, s0, fs, b - 1) in Visited(pol, s0, fs, a, b - 1)
  {
    hide LevelAt;
  }

  lemma NotSeenBefore(
    pol: Policy, s0: BatteryState, fs: seq<Fetch>, a: nat, m: nat, b: nat, lv: Levels, lo: int, hi: int)
    requires a <= m < b <= |fs| && InBand(fs, a, b, lv, lo, hi) && hi - lo < pol.recoverMarginMV
    requires Known(LevelAt(pol, s0, fs, a)) && LevelAt(pol, s0, fs, b) != LevelAt(pol, s0, fs, b - 1)
    ensures LevelAt(pol, s0, fs, m) != LevelAt(pol, s0, fs, b)
  {
    hide LevelAt, Known;
    HeldOrGone(pol, s0, fs, a, m, lv, lo, hi);
    if LevelAt(pol, s0, fs, m) == LevelAt(pol, s0, fs, b) {
      NarrowBandNeverReturns(pol, s0, fs, m, b - 1, b, lv, lo, hi);
    }
  }

  lemma KnownMeans(l: Level)
    ensures Known(l) <==> l in {OK, Low, Critical, Overcharged}
  {
  }

  /** However long the band lasts, at most three changes. */
  lemma AtMostThreeChanges(pol: Policy, s0: BatteryState, fs: seq<Fetch>, a: nat, b: nat, lv: Levels, lo: int, hi: int)
    requires a <= b <= |fs| && InBand(fs, a, b, lv, lo, hi) && hi - lo < pol.recoverMarginMV
    requires Known(LevelAt(pol, s0, fs, a))
    ensures Changes(pol, s0, fs, a, b) <= 3
  {
    EachChangeIsANewLevel(pol, s0, fs, a, b, lv, lo, hi);
    SubsetCardinality(Visited(pol, s0, fs, a, b), {OK, Low, Critical, Overcharged});
  }

  lemma {:induction false} SubsetCardinality<T>(a: set<T>, b: set<T>)
    requires a <= b
    ensures |a| <= |b|
  {
    if a != {} {
      var x :| x in a;
      SubsetCardinality(a - {x}, b - {x});
    }
  }

  /** The bound is met: ok, low, critical, overcharged within one band, then stuck. */
  lemma ThreeChangesHappen() returns (pol: Policy, s0: BatteryState, fs: seq<Fetch>, lv: Levels)
    ensures |fs| == 4 && InBand(fs, 0, 4, lv, 3290, 3310) && 20 < pol.recoverMarginMV
    ensures FreshlyAdded(s0) && s0.level == Unknown
    ensures Known(LevelAt(pol, s0, fs, 1)) && Changes(pol, s0, fs, 1, 4) == 3
  {
    pol, lv := Policy(1, 50), Levels(3300, 3295, 3308);
    s0 := BatteryState(Unknown, 1, Blank, 0, 0, 0, Blank);
    var quiet := Prefs(false, true);
    fs := [Fetch(Reading(3302, 10, true), lv, quiet), Fetch(Reading(3298, 20, true), lv, quiet),
           Fetch(Reading(3290, 30, true), lv, quiet), Fetch(Reading(3310, 40, true), lv, quiet)];
    assert StateAt(pol, s0, fs, 1) == Step(pol, s0, fs[0]).state;
    assert LevelAt(pol, s0, fs, 1) == OK;
    assert StateAt(pol, s0, fs, 2) == Step(pol, StateAt(pol, s0, fs, 1), fs[1]).state;
    assert LevelAt(pol, s0, fs, 2) == Low;
    assert StateAt(pol, s0, fs, 3) == Step(pol, StateAt(pol, s0, fs, 2), fs[2]).state;
    assert LevelAt(pol, s0, fs, 3) == Critical;
    assert StateAt(pol, s0, fs, 4) == Step(pol, StateAt(pol, s0, fs, 3), fs[3]).state;
    assert LevelAt(pol, s0, fs, 4) == Overcharged;
    assert Changes(pol, s0, fs, 1, 2) == 1;
    assert Changes(pol, s0, fs, 1, 3) == 2;
  }

  // ------------------------------------------- preferences never move levels --

  predicate SameButAnnounced(a: BatteryState, b: BatteryState) {
    && a.level == b.level && a.since == b.since && a.candidate == b.candidate
    && a.candidateCount == b.candidateCount && a.lastReadingAt == b.lastReadingAt && a.lastMV == b.lastMV
  }

  predicate SameEvidence(f: Fetch, g: Fetch) {
    f.reading == g.reading && f.levels == g.levels
  }

  lemma OneStepIgnoresPreferences(pol: Policy, a: BatteryState, b: BatteryState, f: Fetch, g: Fetch)
    requires WellFormed(a) && WellFormed(b) && SameButAnnounced(a, b) && SameEvidence(f, g)
    ensures SameButAnnounced(Step(pol, a, f).state, Step(pol, b, g).state)
    ensures Step(pol, a, f).changed == Step(pol, b, g).changed
    ensures Step(pol, a, f).from == Step(pol, b, g).from
  {
  }

  /** Two histories of the same readings, whatever each owner asked to hear, agree on
      every level, candidate, count and time, and on what needs saving. */
  lemma {:induction false} PreferencesNeverMoveLevels(
    pol: Policy, s0: BatteryState, t0: BatteryState, fs: seq<Fetch>, gs: seq<Fetch>, k: nat)
    requires WellFormed(s0) && WellFormed(t0) && SameButAnnounced(s0, t0)
    requires |fs| == |gs| && k <= |fs| && forall i :: 0 <= i < |fs| ==> SameEvidence(fs[i], gs[i])
    ensures WellFormed(StateAt(pol, s0, fs, k)) && WellFormed(StateAt(pol, t0, gs, k))
    ensures SameButAnnounced(StateAt(pol, s0, fs, k), StateAt(pol, t0, gs, k))
    ensures k < |fs| ==> OutcomeAt(pol, s0, fs, k).changed == OutcomeAt(pol, t0, gs, k).changed
  {
    hide EvaluateBattery;
    if k > 0 {
      PreferencesNeverMoveLevels(pol, s0, t0, fs, gs, k - 1);
      StepKeepsWellFormed(pol, StateAt(pol, s0, fs, k - 1), fs[k - 1]);
      StepKeepsWellFormed(pol, StateAt(pol, t0, gs, k - 1), gs[k - 1]);
      OneStepIgnoresPreferences(pol, StateAt(pol, s0, fs, k - 1), StateAt(pol, t0, gs, k - 1), fs[k - 1], gs[k - 1]);
    }
    if k < |fs| {
      OneStepIgnoresPreferences(pol, StateAt(pol, s0, fs, k), StateAt(pol, t0, gs, k), fs[k], gs[k]);
    }
  }

  // ---------------------------------------------------------------- balance --

  function Owed(s: BatteryState): nat {
    if s.announced != Blank then 1 else 0
  }

  /** What a rule remembers as announced: the level of the last alert that was sent, until
      a known level turns ok or the battery is gone. Nothing else moves it. */
  lemma AnnouncementIsRemembered(pol: Policy, s: BatteryState, f: Fetch)
    requires s.level != Blank
    ensures var out := Step(pol, s, f);
            var turnedOK := s.level != Unknown && s.level != OK && out.state.level == OK;
            out.state.announced
              == if out.kind in {LowKind, CriticalKind, OverchargedKind} then out.state.level
                 else if turnedOK || !f.reading.hasBattery then Blank
                 else s.announced
  {
  }

  /** The stored times and voltage: since when the level has been held, and the newest
      reading judged. What needs saving is any new reading and any change. */
  lemma TimesFollowTheLevel(pol: Policy, s: BatteryState, f: Fetch)
    requires WellFormed(s)
    ensures var out := Step(pol, s, f);
            && out.state.since == (if out.state.level != s.level && f.reading.at != 0 then f.reading.at else s.since)
            && out.state.lastReadingAt == (if Fresh(s, f) then f.reading.at else s.lastReadingAt)
            && out.state.lastMV == (if Fresh(s, f) then f.reading.mv else s.lastMV)
            && (out.changed <==> Fresh(s, f) || out.state != s)
  {
  }

  /** A recovery is announced only when something was announced and not yet recovered. */
  lemma RecoveryPaysADebt(pol: Policy, s: BatteryState, f: Fetch)
    ensures var out := Step(pol, s, f);
            && (out.kind == RecoveredKind ==> out.notify && Owed(s) == 1 && Owed(out.state) == 0)
            && (out.kind in {LowKind, CriticalKind, OverchargedKind} ==> out.notify && Owed(out.state) == 1)
            && (Owed(out.state) > Owed(s) ==> out.notify && out.kind in {LowKind, CriticalKind, OverchargedKind})
            && (out.notify <==> out.kind != NoKind)
  {
  }

  // ------------------------------------------------------ one message each ----

  /** Fetches a to b bring newer and newer readings of one way, heard by an owner who
      wants everything. */
  ghost predicate Unbroken(pol: Policy, s0: BatteryState, fs: seq<Fetch>, n: nat, way: Level)
    requires n <= |fs|
  {
    && (forall i :: 0 <= i < n ==> Heard(fs[i]) && Target(pol, s0, fs[i]) == way)
    && (n > 0 ==> fs[0].reading.at > s0.lastReadingAt)
    && forall i :: 1 <= i < n ==> fs[i].reading.at > fs[i - 1].reading.at
  }

  predicate Heard(f: Fetch) {
    f.reading.hasBattery && !f.prefs.muted && f.prefs.notifyRecovery
  }

  /** How far such a run has got after n of its readings: still counting, or turned. */
  predicate Turning(pol: Policy, s0: BatteryState, s: BatteryState, n: nat, way: Level) {
    if n < Confirm(pol) then
      && s.level == s0.level && s.announced == s0.announced
      && if n == 0 then s.candidate == s0.candidate && s.candidateCount == s0.candidateCount
         else s.candidate == way && s.candidateCount == n
    else
      && s.level == way && s.candidate == Blank && s.candidateCount == 0
      && s.announced == if way == OK then Blank
                        else if KindOf(s0.level, way, s0.announced, true) == NoKind then s0.announced
                        else way
  }

  lemma OneTurn(pol: Policy, s0: BatteryState, s: BatteryState, f: Fetch, n: nat, way: Level)
    requires Known(s0.level) && s0.level != way && (s0.candidate == Blank || !SameRun(s0.candidate, way))
    requires Turning(pol, s0, s, n, way) && Heard(f) && f.reading.at > s.lastReadingAt && Target(pol, s0, f) == way
    ensures var out := Step(pol, s, f);
            && Turning(pol, s0, out.state, n + 1, way) && out.state.lastReadingAt == f.reading.at
            && out.kind == if n + 1 == Confirm(pol) then KindOf(s0.level, way, s0.announced, true) else NoKind
  {
    hide Classify;
    SameReadingSettles(f.reading.mv, s0.level, f.levels, pol.recoverMarginMV);
  }

  /** An unbroken run of new readings that all point one way, away from the held level,
      turns the level once and says so once, at the reading that confirms it, however long
      it goes on. */
  lemma {:induction false} UnbrokenRunTurnsOnce(pol: Policy, s0: BatteryState, fs: seq<Fetch>, n: nat, way: Level)
    requires Known(s0.level) && s0.level != way && (s0.candidate == Blank || !SameRun(s0.candidate, way))
    requires n <= |fs| && Unbroken(pol, s0, fs, n, way)
    ensures Turning(pol, s0, StateAt(pol, s0, fs, n), n, way)
    ensures StateAt(pol, s0, fs, n).lastReadingAt == if n == 0 then s0.lastReadingAt else fs[n - 1].reading.at
    ensures forall i :: 0 <= i < n ==>
      OutcomeAt(pol, s0, fs, i).kind
        == if i + 1 == Confirm(pol) then KindOf(s0.level, way, s0.announced, true) else NoKind
  {
    hide EvaluateBattery, Classify, KindOf, Turning, SameRun, Heard;
    if n > 0 {
      UnbrokenRunTurnsOnce(pol, s0, fs, n - 1, way);
      OneTurn(pol, s0, StateAt(pol, s0, fs, n - 1), fs[n - 1], n - 1, way);
    } else {
      NotTurned(pol, s0, way);
    }
  }

  lemma NotTurned(pol: Policy, s0: BatteryState, way: Level)
    ensures Turning(pol, s0, s0, 0, way)
  {
  }

  /** Messages of one kind sent by fetches 0 to n. */
  function Sent(pol: Policy, s0: BatteryState, fs: seq<Fetch>, n: nat, kinds: set<Kind>): nat
    requires n <= |fs|
  {
    if n == 0 then 0 else Sent(pol, s0, fs, n - 1, kinds) + if OutcomeAt(pol, s0, fs, n - 1).kind in kinds then 1 else 0
  }

  lemma {:induction false} SentOnce(
    pol: Policy, s0: BatteryState, fs: seq<Fetch>, n: nat, at: nat, told: Kind, kinds: set<Kind>)
    requires n <= |fs| && NoKind !in kinds
    requires forall i :: 0 <= i < n ==> OutcomeAt(pol, s0, fs, i).kind == if i == at then told else NoKind
    ensures Sent(pol, s0, fs, n, kinds) == if at < n && told in kinds then 1 else 0
  {
    hide EvaluateBattery;
    if n > 0 {
      SentOnce(pol, s0, fs, n - 1, at, told, kinds);
    }
  }

  const ALERTS := {LowKind, CriticalKind, OverchargedKind}

  /** A healthy battery that turns low, critical or overcharged for good is announced
      exactly once, and the announcement is remembered. */
  lemma DropSendsOneAlert(pol: Policy, s0: BatteryState, fs: seq<Fetch>, n: nat, way: Level)
    requires s0.level == OK && s0.candidate == Blank && way in {Low, Critical, Overcharged}
    requires n <= |fs| && Unbroken(pol, s0, fs, n, way)
    ensures forall i :: 0 <= i < n ==> (OutcomeAt(pol, s0, fs, i).kind != NoKind <==> i + 1 == Confirm(pol))
    ensures Sent(pol, s0, fs, n, ALERTS) == (if n >= Confirm(pol) then 1 else 0)
    ensures Sent(pol, s0, fs, n, {RecoveredKind}) == 0
    ensures n >= Confirm(pol) ==>
      StateAt(pol, s0, fs, n).level == way && StateAt(pol, s0, fs, n).announced == way
  {
    hide StateAt, OutcomeAt, Unbroken, Sent;
    UnbrokenRunTurnsOnce(pol, s0, fs, n, way);
    var told := KindOf(s0.level, way, s0.announced, true);
    SentOnce(pol, s0, fs, n, Confirm(pol) - 1, told, ALERTS);
    SentOnce(pol, s0, fs, n, Confirm(pol) - 1, told, {RecoveredKind});
  }

  /** After an announced alert an unbroken return to ok sends exactly one recovery, at the
      reading that confirms it, and nothing is owed any more. */
  lemma ReturnSendsOneRecovery(pol: Policy, s0: BatteryState, fs: seq<Fetch>, n: nat)
    requires s0.level in {Low, Critical, Overcharged} && s0.announced != Blank && s0.candidate != OK
    requires n <= |fs| && Unbroken(pol, s0, fs, n, OK)
    ensures forall i :: 0 <= i < n ==>
      OutcomeAt(pol, s0, fs, i).kind == if i + 1 == Confirm(pol) then RecoveredKind else NoKind
    ensures Sent(pol, s0, fs, n, {RecoveredKind}) == (if n >= Confirm(pol) then 1 else 0)
    ensures Sent(pol, s0, fs, n, ALERTS) == 0
    ensures n >= Confirm(pol) ==> StateAt(pol, s0, fs, n).level == OK && StateAt(pol, s0, fs, n).announced == Blank
  {
    hide StateAt, OutcomeAt, Unbroken, Sent;
    UnbrokenRunTurnsOnce(pol, s0, fs, n, OK);
    SentOnce(pol, s0, fs, n, Confirm(pol) - 1, RecoveredKind, ALERTS);
    SentOnce(pol, s0, fs, n, Confirm(pol) - 1, RecoveredKind, {RecoveredKind});
  }

  /** The stored voltage is only shown, never judged. */
  lemma LastVoltageIsNotJudged(pol: Policy, s: BatteryState, f: Fetch, mv: int)
    ensures var a, b := Step(pol, s, f), Step(pol, s.(lastMV := mv), f);
            && a.changed == b.changed && a.notify == b.notify && a.kind == b.kind && a.from == b.from
            && SameButAnnounced(a.state, b.state.(lastMV := a.state.lastMV)) && a.state.announced == b.state.announced
  {
  }

  /** The levels a rule is judged against: its own, else the site's, else CoreScope's,
      else the defaults (lines 208-229). */
  function FirstPositive(vals: seq<int>): (v: int)
    ensures v >= 0
    ensures v == 0 ==> forall i :: 0 <= i < |vals| ==> vals[i] <= 0
    ensures v > 0 ==> exists i :: 0 <= i < |vals| && vals[i] == v && forall j :: 0 <= j < i ==> vals[j] <= 0
  {
    if vals == [] then 0
    else if vals[0] > 0 then vals[0]
    else
      var v := FirstPositive(vals[1..]);
      assert v == 0 ==> forall i :: 1 <= i < |vals| ==> vals[i] == vals[1..][i - 1];
      assert v > 0 ==> exists i :: 0 <= i < |vals| && vals[i] == v && forall j :: 0 <= j < i ==> vals[j] <= 0 by {
        if v > 0 {
          var i :| 0 <= i < |vals| - 1 && vals[1..][i] == v && forall j :: 0 <= j < i ==> vals[1..][j] <= 0;
          assert vals[i + 1] == v && forall j :: 1 <= j < i + 1 ==> vals[j] == vals[1..][j - 1];
        }
      }
      v
  }

  const DEFAULT_LOW_MV := 3300
  const DEFAULT_CRITICAL_MV := 3000

  function ResolveLevels(ruleLow: int, ruleCrit: int, overOn: bool, ruleOver: int,
                         siteLow: int, siteCrit: int, siteOver: int, scopeLow: int, scopeCrit: int): (lv: Levels)
    ensures lv.lowMV > 0 && lv.criticalMV > 0 && lv.overchargeMV >= 0
    ensures ruleLow > 0 ==> lv.lowMV == ruleLow
    ensures ruleCrit > 0 ==> lv.criticalMV == ruleCrit
    ensures lv.overchargeMV > 0 <==> overOn && (ruleOver > 0 || siteOver > 0)
  {
    var lows := [ruleLow, siteLow, scopeLow, DEFAULT_LOW_MV];
    var crits := [ruleCrit, siteCrit, scopeCrit, DEFAULT_CRITICAL_MV];
    var overs := [ruleOver, siteOver];
    assert lows[3] > 0 && crits[3] > 0;
    assert overs[0] == ruleOver && overs[1] == siteOver;
    Levels(FirstPositive(lows), FirstPositive(crits), if overOn then FirstPositive(overs) else 0)
  }

  function OrElse(a: int, b: int): int {
    if a > 0 then a else b
  }

  /** The rule's own level comes first, then the site's, then CoreScope's, then the default;
      overcharge has no third and no default, and needs its switch. */
  lemma LevelsComeInOrder(
    ruleLow: int, ruleCrit: int, overOn: bool, ruleOver: int, siteLow: int, siteCrit: int, siteOver: int,
    scopeLow: int, scopeCrit: int)
    ensures var lv :=
      ResolveLevels(ruleLow, ruleCrit, overOn, ruleOver, siteLow, siteCrit, siteOver, scopeLow, scopeCrit);
            && lv.lowMV == OrElse(ruleLow, OrElse(siteLow, OrElse(scopeLow, DEFAULT_LOW_MV)))
            && lv.criticalMV == OrElse(ruleCrit, OrElse(siteCrit, OrElse(scopeCrit, DEFAULT_CRITICAL_MV)))
            && lv.overchargeMV == if overOn then OrElse(ruleOver, OrElse(siteOver, 0)) else 0
  {
    FourPositive([ruleLow, siteLow, scopeLow, DEFAULT_LOW_MV]);
    FourPositive([ruleCrit, siteCrit, scopeCrit, DEFAULT_CRITICAL_MV]);
    assert [ruleOver, siteOver][1..] == [siteOver];
  }

  lemma FourPositive(v: seq<int>)
    requires |v| == 4 && v[3] > 0
    ensures FirstPositive(v) == OrElse(v[0], OrElse(v[1], OrElse(v[2], v[3])))
  {
    assert v[1..][1..] == v[2..] && v[2..][1..] == v[3..];
  }
}
