/** The quiet-node alert lifecycle: one watch rule advanced by one poll, and what
    that means over whole runs of polls (internal/alert/alert.go). */
module QuietAlert {

  /** Whole seconds. Zero is the zero time, "never". */
  type Time = nat

  /** `Other` stands for a stored value this version does not know. */
  datatype State = Unknown | OK | Pending | Alerting | Recovering | Other(name: string)

  datatype WatchState = WatchState(
    watchID: int, ruleID: int, state: State, since: Time, consecutive: nat, observedAt: Time,
    alertingSince: Time, lastNotified: Time, notifyCount: nat, seeded: bool)

  datatype Observation = Observation(at: Time, applicable: bool)
  datatype Prefs = Prefs(muted: bool, notifyRecovery: bool)
  datatype Policy = Policy(confirmPolls: int)
  datatype Kind = NoKind | AlertKind | RecoveredKind

  datatype Outcome = Outcome(
    state: WatchState, notify: bool, kind: Kind, changed: bool, entering: bool, observedMoved: bool)

  /** A state change nobody is told about. */
  function Silent(next: WatchState): Outcome {
    Outcome(next, false, NoKind, true, false, false)
  }

  /** No state change; the signal's timestamp may have moved. */
  function Unmoved(next: WatchState, moved: bool): Outcome {
    Outcome(next, false, NoKind, false, false, moved)
  }

  function Confirm(pol: Policy): (c: nat)
    ensures c >= 1
  {
    if pol.confirmPolls < 1 then 1 else pol.confirmPolls
  }

  function Promote(next: WatchState, now: Time, muted: bool): Outcome {
    var s := next.(state := Alerting, since := now, alertingSince := now, consecutive := 0, seeded := false);
    if muted then Outcome(s, false, NoKind, true, true, false)
    else Outcome(s.(notifyCount := s.notifyCount + 1, lastNotified := now), true, AlertKind, true, true, false)
  }

  function Recover(next: WatchState, now: Time, muted: bool, notifyRecovery: bool): Outcome {
    var s := next.(state := OK, since := now, consecutive := 0, alertingSince := 0, notifyCount := 0, seeded := false);
    if muted || next.notifyCount == 0 || !notifyRecovery then Silent(s)
    else Outcome(s.(lastNotified := now), true, RecoveredKind, true, false, false)
  }

  function Evaluate(now: Time, obs: Observation, cur: WatchState, threshold: int, prefs: Prefs, pol: Policy): Outcome {
    var next := cur.(observedAt := obs.at);
    var moved := next.observedAt != cur.observedAt;
    if !obs.applicable || obs.at == 0 then
      if cur.state != Unknown then Silent(next.(state := Unknown, since := now, consecutive := 0))
      else Unmoved(next, moved)
    else
      var over := now - obs.at >= threshold;
      match cur.state
      case Unknown =>
        if over then
          Silent(next.(state := Alerting, since := now, consecutive := 0, alertingSince := now, notifyCount := 0,
                       seeded := true))
        else
          Silent(next.(state := OK, since := now, consecutive := 0))
      case OK =>
        if !over then Unmoved(next.(consecutive := 0), moved)
        else
          var n := next.(state := Pending, since := now, consecutive := 1);
          if n.consecutive >= Confirm(pol) then Promote(n, now, prefs.muted) else Silent(n)
      case Pending =>
        if !over then Silent(next.(state := OK, since := now, consecutive := 0))
        else
          var n := next.(consecutive := cur.consecutive + 1);
          if n.consecutive >= Confirm(pol) then Promote(n, now, prefs.muted) else Silent(n)
      case Alerting =>
        if over then Unmoved(next.(consecutive := 0), moved)
        else
          var n := next.(state := Recovering, since := now, consecutive := 1);
          if n.consecutive >= Confirm(pol) then Recover(n, now, prefs.muted, prefs.notifyRecovery) else Silent(n)
      case Recovering =>
        if over then Silent(next.(state := Alerting, since := now, consecutive := 0))
        else
          var n := next.(consecutive := cur.consecutive + 1);
          if n.consecutive >= Confirm(pol) then Recover(n, now, prefs.muted, prefs.notifyRecovery) else Silent(n)
      case Other(_) => Silent(next.(state := Unknown, since := now))
  }

  // ------------------------------------------------------------------ runs --

  /** Everything one evaluation of one rule depends on, besides its state. The
      threshold and the preferences may differ from poll to poll. */
  datatype Poll = Poll(now: Time, obs: Observation, threshold: int, prefs: Prefs)

  function Step(pol: Policy, s: WatchState, p: Poll): Outcome {
    Evaluate(p.now, p.obs, s, p.threshold, p.prefs, pol)
  }

  /** The rule's state after the first k polls. */
  function StateAt(pol: Policy, s0: WatchState, ps: seq<Poll>, k: nat): WatchState
    requires k <= |ps|
  {
    if k == 0 then s0 else Step(pol, StateAt(pol, s0, ps, k - 1), ps[k - 1]).state
  }

  function OutcomeAt(pol: Policy, s0: WatchState, ps: seq<Poll>, k: nat): Outcome
    requires k < |ps|
  {
    Step(pol, StateAt(pol, s0, ps, k), ps[k])
  }

  predicate Over(p: Poll) {
    p.obs.applicable && p.obs.at != 0 && p.now - p.obs.at >= p.threshold
  }

  predicate Under(p: Poll) {
    p.obs.applicable && p.obs.at != 0 && p.now - p.obs.at < p.threshold
  }

  /** What a rule looks like when it is created (RuleEvidence.SeededState). */
  predicate FreshlySeeded(s: WatchState) {
    s.state in {Unknown, OK, Alerting} && s.consecutive == 0 && s.notifyCount == 0
  }

  /** What the stored times mean, whatever the poll: since when the state has been what
      it is, when the signal was last seen, and when something was last said. */
  lemma TimesFollowTheState(pol: Policy, s: WatchState, p: Poll)
    ensures var out := Step(pol, s, p);
            && out.state.since == (if out.state.state != s.state then p.now else s.since)
            && out.state.observedAt == p.obs.at
            && out.state.lastNotified == (if out.notify then p.now else s.lastNotified)
            && (out.state.state != s.state ==> out.changed)
            && out.state.alertingSince
                 == (if GoesDown(s, out.state) then p.now else if ComesBack(s, out.state) then 0 else s.alertingSince)
            && out.state.seeded
                 == (if GoesDown(s, out.state) then s.state == Unknown else if ComesBack(s, out.state) then false
                   else s.seeded)
  {
  }

  /** What the count of announcements counts: the alerts announced since the rule last came
      back, or was adopted in an outage, however quietly. */
  lemma CountFollowsTheState(pol: Policy, s: WatchState, p: Poll)
    ensures var out := Step(pol, s, p);
            var adopted := s.state == Unknown && out.state.state == Alerting;
            out.state.notifyCount
              == if out.kind == AlertKind then s.notifyCount + 1 else if ComesBack(s, out.state) || adopted then 0
                 else s.notifyCount
    ensures Step(pol, s, p).state.watchID == s.watchID && Step(pol, s, p).state.ruleID == s.ruleID
  {
  }

  /** What an outcome says of itself: changed on every move and every poll of a run still
      being confirmed, entering on a move from up to alert, notifying when it has a message. */
  lemma OutcomeSaysWhatHappened(pol: Policy, s: WatchState, p: Poll)
    requires !s.state.Other?
    ensures var out := Step(pol, s, p);
            && (out.changed <==> out.state.state != s.state || out.state.state in {Pending, Recovering})
            && (out.entering <==> s.state in {OK, Pending} && out.state.state == Alerting)
            && (out.notify <==> out.kind != NoKind)
            && (out.observedMoved <==> !out.changed && p.obs.at != s.observedAt)
  {
  }

  predicate Down(s: WatchState) {
    s.state in {Alerting, Recovering}
  }

  predicate GoesDown(s: WatchState, t: WatchState) {
    !Down(s) && t.state == Alerting
  }

  predicate ComesBack(s: WatchState, t: WatchState) {
    Down(s) && t.state == OK
  }

  // ------------------------------------------------------------ flap guard --

  function OverRun(ps: seq<Poll>, k: nat): nat
    requires k <= |ps|
  {
    if k == 0 || !Over(ps[k - 1]) then 0 else 1 + OverRun(ps, k - 1)
  }

  function UnderRun(ps: seq<Poll>, k: nat): nat
    requires k <= |ps|
  {
    if k == 0 || !Under(ps[k - 1]) then 0 else 1 + UnderRun(ps, k - 1)
  }

  lemma {:induction false} OverRunMeaning(ps: seq<Poll>, k: nat, c: nat)
    requires k <= |ps|
    ensures OverRun(ps, k) >= c <==> c <= k && forall i :: k - c <= i < k ==> Over(ps[i])
  {
    if k > 0 && c > 0 {
      OverRunMeaning(ps, k - 1, c - 1);
      assert c <= k && (forall i :: k - c <= i < k ==> Over(ps[i])) ==> Over(ps[k - 1]);
    }
  }

  lemma {:induction false} UnderRunMeaning(ps: seq<Poll>, k: nat, c: nat)
    requires k <= |ps|
    ensures UnderRun(ps, k) >= c <==> c <= k && forall i :: k - c <= i < k ==> Under(ps[i])
  {
    if k > 0 && c > 0 {
      UnderRunMeaning(ps, k - 1, c - 1);
      assert c <= k && (forall i :: k - c <= i < k ==> Under(ps[i])) ==> Under(ps[k - 1]);
    }
  }

  /** What the counter means at every point of a run: exactly the length of the
      trailing run it confirms, and nothing while nothing is being confirmed. */
  ghost predicate CounterMeans(pol: Policy, s: WatchState, over: nat, under: nat) {
    match s.state
    case Unknown => s.consecutive == 0
    case OK => s.consecutive == 0 && over == 0
    case Pending => 1 <= s.consecutive < Confirm(pol) && s.consecutive == over
    case Alerting => s.consecutive == 0 && under == 0
    case Recovering => 1 <= s.consecutive < Confirm(pol) && s.consecutive == under
    case Other(_) => false
  }

  lemma {:induction false} CounterIsRunLength(pol: Policy, s0: WatchState, ps: seq<Poll>, k: nat)
    requires FreshlySeeded(s0) && k <= |ps|
    ensures CounterMeans(pol, StateAt(pol, s0, ps, k), OverRun(ps, k), UnderRun(ps, k))
  {
    if k > 0 {
      CounterIsRunLength(pol, s0, ps, k - 1);
    }
  }

  // ------------------------------------------- what the polls alone establish --

  /** The poll has no evidence either way. */
  predicate Gap(p: Poll) {
    !Over(p) && !Under(p)
  }

  /** Whatever a rule was, a poll leaves it unknown exactly when it has no evidence; a
      stored value this version does not know is put right first. */
  lemma UnknownExactlyWithoutEvidence(pol: Policy, s: WatchState, p: Poll)
    ensures Step(pol, s, p).state.state == Unknown <==> Gap(p) || s.state.Other?
    ensures Gap(p) ==> var out := Step(pol, s, p); out.kind == NoKind && !out.notify && !out.entering
  {
  }

  /** The first evidence after polls without any is adopted in silence: an outage as an
      alert that was there already, anything else as ok. */
  lemma FirstEvidenceIsAdopted(pol: Policy, s0: WatchState, ps: seq<Poll>, k: nat)
    requires 0 < k < |ps| && Gap(ps[k - 1]) && !Gap(ps[k])
    ensures StateAt(pol, s0, ps, k).state == Unknown
    ensures var out := OutcomeAt(pol, s0, ps, k);
            && out.kind == NoKind && !out.notify && !out.entering
            && (Over(ps[k]) ==> out.state.state == Alerting && out.state.seeded && out.state.notifyCount == 0
                                && out.state.alertingSince == ps[k].now)
            && (Under(ps[k]) ==> out.state.state == OK)
  {
    UnknownExactlyWithoutEvidence(pol, StateAt(pol, s0, ps, k - 1), ps[k - 1]);
  }

  datatype Standing = Blind | Healthy | Quiet

  /** How the signal stands by the polls and the seeding: blind in a gap, found out by
      one poll after it, and turned about only by a confirmed run. */
  function StandingAt(pol: Policy, s0: WatchState, ps: seq<Poll>, k: nat): Standing
    requires k <= |ps|
  {
    if k == 0 then (if s0.state == OK then Healthy else if s0.state == Alerting then Quiet else Blind)
    else Turned(pol, StandingAt(pol, s0, ps, k - 1), ps[k - 1], OverRun(ps, k), UnderRun(ps, k))
  }

  /** over and under are the runs that end with poll p. */
  function Turned(pol: Policy, before: Standing, p: Poll, over: nat, under: nat): Standing {
    var needed := if before.Blind? then 1 else Confirm(pol);
    if Gap(p) then Blind else if over >= needed then Quiet else if under >= needed then Healthy else before
  }

  function StateFor(st: Standing, over: nat, under: nat): State {
    match st
    case Blind => Unknown
    case Healthy => if over == 0 then OK else Pending
    case Quiet => if under == 0 then Alerting else Recovering
  }

  lemma OnePollDecides(pol: Policy, s: WatchState, p: Poll, st: Standing, over: nat, under: nat)
    requires CounterMeans(pol, s, over, under) && s.state == StateFor(st, over, under)
    ensures var over1, under1 := if Over(p) then 1 + over else 0, if Under(p) then 1 + under else 0;
            Step(pol, s, p).state.state == StateFor(Turned(pol, st, p, over1, under1), over1, under1)
  {
  }

  /** The polls and the seeding alone decide a rule's state, at every point of every run. */
  lemma {:induction false} PollsDecideTheState(pol: Policy, s0: WatchState, ps: seq<Poll>, k: nat)
    requires FreshlySeeded(s0) && k <= |ps|
    ensures StateAt(pol, s0, ps, k).state
         == StateFor(StandingAt(pol, s0, ps, k), OverRun(ps, k), UnderRun(ps, k))
  {
    hide Evaluate, Turned, Over, Under, CounterMeans;
    if k > 0 {
      PollsDecideTheState(pol, s0, ps, k - 1);
      CounterIsRunLength(pol, s0, ps, k - 1);
      OnePollDecides(pol, StateAt(pol, s0, ps, k - 1), ps[k - 1], StandingAt(pol, s0, ps, k - 1),
        OverRun(ps, k - 1), UnderRun(ps, k - 1));
    }
  }

  /** Point j is where the signal was found healthy: seeded so, by the first evidence
      there was, or by a confirmed return. */
  predicate FoundHealthy(pol: Policy, s0: WatchState, ps: seq<Poll>, j: nat)
    requires j <= |ps|
  {
    if j == 0 then s0.state == OK
    else Under(ps[j - 1]) && (FirstEvidence(s0, ps, j) || UnderRun(ps, j) >= Confirm(pol))
  }

  predicate FoundQuiet(pol: Policy, s0: WatchState, ps: seq<Poll>, j: nat)
    requires j <= |ps|
  {
    if j == 0 then s0.state == Alerting
    else Over(ps[j - 1]) && (FirstEvidence(s0, ps, j) || OverRun(ps, j) >= Confirm(pol))
  }

  predicate FirstEvidence(s0: WatchState, ps: seq<Poll>, j: nat)
    requires 0 < j <= |ps|
  {
    if j == 1 then s0.state == Unknown else Gap(ps[j - 2])
  }

  /** Since point j there was neither a gap nor a confirmed outage. */
  predicate HealthySince(pol: Policy, ps: seq<Poll>, j: nat, k: nat)
    requires j <= k <= |ps|
  {
    forall i :: j <= i < k ==> StaysHealthy(pol, ps, i)
  }

  /** Poll i is neither a gap nor a confirmed outage. */
  predicate StaysHealthy(pol: Policy, ps: seq<Poll>, i: nat)
    requires i < |ps|
  {
    !Gap(ps[i]) && OverRun(ps, i + 1) < Confirm(pol)
  }

  predicate QuietSince(pol: Policy, ps: seq<Poll>, j: nat, k: nat)
    requires j <= k <= |ps|
  {
    forall i :: j <= i < k ==> StaysQuiet(pol, ps, i)
  }

  /** Poll i is neither a gap nor a confirmed return. */
  predicate StaysQuiet(pol: Policy, ps: seq<Poll>, i: nat)
    requires i < |ps|
  {
    !Gap(ps[i]) && UnderRun(ps, i + 1) < Confirm(pol)
  }

  lemma BlindExactlyInAGap(pol: Policy, s0: WatchState, ps: seq<Poll>, k: nat)
    requires FreshlySeeded(s0) && k <= |ps|
    ensures StandingAt(pol, s0, ps, k) == Blind <==> if k == 0 then s0.state == Unknown else Gap(ps[k - 1])
  {
  }

  lemma HealthyAtPoll(pol: Policy, s0: WatchState, ps: seq<Poll>, k: nat)
    requires FreshlySeeded(s0) && 0 < k <= |ps|
    ensures StandingAt(pol, s0, ps, k) == Healthy
       <==> FoundHealthy(pol, s0, ps, k)
            || (StandingAt(pol, s0, ps, k - 1) == Healthy && StaysHealthy(pol, ps, k - 1))
  {
    BlindExactlyInAGap(pol, s0, ps, k - 1);
  }

  lemma {:induction false} HealthyExactlyWhen(pol: Policy, s0: WatchState, ps: seq<Poll>, k: nat)
    requires FreshlySeeded(s0) && k <= |ps|
    ensures StandingAt(pol, s0, ps, k) == Healthy
       <==> exists j :: 0 <= j <= k && FoundHealthy(pol, s0, ps, j) && HealthySince(pol, ps, j, k)
  {
    hide FreshlySeeded, StandingAt, FoundHealthy, HealthySince, StaysHealthy;
    if k > 0 {
      HealthyExactlyWhen(pol, s0, ps, k - 1);
      HealthyAtPoll(pol, s0, ps, k);
      if StandingAt(pol, s0, ps, k) == Healthy && !FoundHealthy(pol, s0, ps, k) {
        var j :| 0 <= j <= k - 1 && FoundHealthy(pol, s0, ps, j) && HealthySince(pol, ps, j, k - 1);
        HealthyJoins(pol, ps, j, k);
      } else if exists j :: 0 <= j < k && FoundHealthy(pol, s0, ps, j) && HealthySince(pol, ps, j, k) {
        var j :| 0 <= j < k && FoundHealthy(pol, s0, ps, j) && HealthySince(pol, ps, j, k);
        HealthyJoins(pol, ps, j, k);
      }
    } else {
      FoundHealthyAtFirst(pol, s0, ps);
    }
    HealthySinceNow(pol, ps, k);
  }

  lemma HealthySinceNow(pol: Policy, ps: seq<Poll>, k: nat)
    requires k <= |ps|
    ensures HealthySince(pol, ps, k, k)
  {
  }

  lemma HealthyJoins(pol: Policy, ps: seq<Poll>, j: nat, k: nat)
    requires j < k <= |ps|
    ensures HealthySince(pol, ps, j, k) <==> HealthySince(pol, ps, j, k - 1) && StaysHealthy(pol, ps, k - 1)
  {
    hide StaysHealthy;
  }

  lemma FoundHealthyAtFirst(pol: Policy, s0: WatchState, ps: seq<Poll>)
    ensures FoundHealthy(pol, s0, ps, 0) <==> StandingAt(pol, s0, ps, 0) == Healthy
  {
  }

  lemma QuietAtPoll(pol: Policy, s0: WatchState, ps: seq<Poll>, k: nat)
    requires FreshlySeeded(s0) && 0 < k <= |ps|
    ensures StandingAt(pol, s0, ps, k) == Quiet
       <==> FoundQuiet(pol, s0, ps, k)
            || (StandingAt(pol, s0, ps, k - 1) == Quiet && StaysQuiet(pol, ps, k - 1))
  {
    BlindExactlyInAGap(pol, s0, ps, k - 1);
  }

  lemma {:induction false} QuietExactlyWhen(pol: Policy, s0: WatchState, ps: seq<Poll>, k: nat)
    requires FreshlySeeded(s0) && k <= |ps|
    ensures StandingAt(pol, s0, ps, k) == Quiet
       <==> exists j :: 0 <= j <= k && FoundQuiet(pol, s0, ps, j) && QuietSince(pol, ps, j, k)
  {
    hide FreshlySeeded, StandingAt, FoundQuiet, QuietSince, StaysQuiet;
    if k > 0 {
      QuietExactlyWhen(pol, s0, ps, k - 1);
      QuietAtPoll(pol, s0, ps, k);
      if StandingAt(pol, s0, ps, k) == Quiet && !FoundQuiet(pol, s0, ps, k) {
        var j :| 0 <= j <= k - 1 && FoundQuiet(pol, s0, ps, j) && QuietSince(pol, ps, j, k - 1);
        QuietJoins(pol, ps, j, k);
      } else if exists j :: 0 <= j < k && FoundQuiet(pol, s0, ps, j) && QuietSince(pol, ps, j, k) {
        var j :| 0 <= j < k && FoundQuiet(pol, s0, ps, j) && QuietSince(pol, ps, j, k);
        QuietJoins(pol, ps, j, k);
      }
    } else {
      FoundQuietAtFirst(pol, s0, ps);
    }
    QuietSinceNow(pol, ps, k);
  }

  lemma QuietSinceNow(pol: Policy, ps: seq<Poll>, k: nat)
    requires k <= |ps|
    ensures QuietSince(pol, ps, k, k)
  {
  }

  lemma QuietJoins(pol: Policy, ps: seq<Poll>, j: nat, k: nat)
    requires j < k <= |ps|
    ensures QuietSince(pol, ps, j, k) <==> QuietSince(pol, ps, j, k - 1) && StaysQuiet(pol, ps, k - 1)
  {
    hide StaysQuiet;
  }

  lemma FoundQuietAtFirst(pol: Policy, s0: WatchState, ps: seq<Poll>)
    ensures FoundQuiet(pol, s0, ps, 0) <==> StandingAt(pol, s0, ps, 0) == Quiet
  {
  }

  lemma OneTurn(pol: Policy, s: WatchState, p: Poll, st: Standing, over: nat, under: nat)
    requires CounterMeans(pol, s, over, under) && s.state == StateFor(st, over, under)
    ensures var out, back := Step(pol, s, p), ComesBack(s, Step(pol, s, p).state);
            && (out.entering <==> st == Healthy && Over(p) && over + 1 >= Confirm(pol))
            && (out.kind == AlertKind <==> out.entering && !p.prefs.muted)
            && (back <==> st == Quiet && Under(p) && under + 1 >= Confirm(pol))
            && (out.kind == RecoveredKind <==>
                 back && s.notifyCount > 0 && !p.prefs.muted && p.prefs.notifyRecovery)
  {
  }

  /** A rule enters alert at poll k exactly when the last ConfirmPolls polls, k included,
      were all applicable and over, and before them the signal had been found healthy with
      no gap and no confirmed outage since. Nothing here is read from the machine. */
  lemma EntersAfterConfirmedOutage(pol: Policy, s0: WatchState, ps: seq<Poll>, k: nat)
    requires FreshlySeeded(s0) && k < |ps|
    ensures OutcomeAt(pol, s0, ps, k).entering
       <==> && Confirm(pol) <= k + 1 && (forall i :: k + 1 - Confirm(pol) <= i <= k ==> Over(ps[i]))
            && exists j :: 0 <= j <= k && FoundHealthy(pol, s0, ps, j) && HealthySince(pol, ps, j, k)
    ensures OutcomeAt(pol, s0, ps, k).kind == AlertKind
       <==> OutcomeAt(pol, s0, ps, k).entering && !ps[k].prefs.muted
  {
    hide Evaluate, StandingAt, CounterMeans, Over, Under, FoundHealthy, HealthySince, ComesBack;
    PollsDecideTheState(pol, s0, ps, k);
    HealthyExactlyWhen(pol, s0, ps, k);
    CounterIsRunLength(pol, s0, ps, k);
    OneTurn(pol, StateAt(pol, s0, ps, k), ps[k], StandingAt(pol, s0, ps, k), OverRun(ps, k), UnderRun(ps, k));
    OverRunMeaning(ps, k + 1, Confirm(pol));
  }

  /** So an alert needs evidence under the threshold, or a seeding in ok, after the last gap. */
  lemma AlertNeedsHealthyEvidence(pol: Policy, s0: WatchState, ps: seq<Poll>, k: nat) returns (j: nat)
    requires FreshlySeeded(s0) && k < |ps| && OutcomeAt(pol, s0, ps, k).entering
    ensures j <= k && (if j == 0 then s0.state == OK else Under(ps[j - 1]))
    ensures forall i :: j <= i <= k ==> !Gap(ps[i])
  {
    EntersAfterConfirmedOutage(pol, s0, ps, k);
    j :| 0 <= j <= k && FoundHealthy(pol, s0, ps, j) && HealthySince(pol, ps, j, k);
    forall i | j <= i <= k ensures !Gap(ps[i]) {
      assert i < k ==> StaysHealthy(pol, ps, i);
    }
  }

  /** A rule comes back from alert at poll k exactly when the last ConfirmPolls polls, k
      included, were all applicable and under, and before them the signal had been found
      quiet with no gap and no confirmed return since; it is announced exactly when, on top
      of that, something was announced before and nobody asked for silence. */
  lemma RecoversAfterConfirmedReturn(pol: Policy, s0: WatchState, ps: seq<Poll>, k: nat)
    requires FreshlySeeded(s0) && k < |ps|
    ensures var s := StateAt(pol, s0, ps, k);
            var back := ComesBack(s, OutcomeAt(pol, s0, ps, k).state);
            && (back <==>
                 && Confirm(pol) <= k + 1 && (forall i :: k + 1 - Confirm(pol) <= i <= k ==> Under(ps[i]))
                 && exists j :: 0 <= j <= k && FoundQuiet(pol, s0, ps, j) && QuietSince(pol, ps, j, k))
            && (OutcomeAt(pol, s0, ps, k).kind == RecoveredKind <==>
                 back && s.notifyCount > 0 && !ps[k].prefs.muted && ps[k].prefs.notifyRecovery)
  {
    hide Evaluate, StandingAt, CounterMeans, Over, Under, FoundQuiet, QuietSince, ComesBack;
    PollsDecideTheState(pol, s0, ps, k);
    QuietExactlyWhen(pol, s0, ps, k);
    CounterIsRunLength(pol, s0, ps, k);
    OneTurn(pol, StateAt(pol, s0, ps, k), ps[k], StandingAt(pol, s0, ps, k), OverRun(ps, k), UnderRun(ps, k));
    UnderRunMeaning(ps, k + 1, Confirm(pol));
  }

  // --------------------------------------------------------------- balance --

  /** Messages of one kind sent by polls i, ..., j - 1. */
  function Sent(pol: Policy, s0: WatchState, ps: seq<Poll>, i: nat, j: nat, kind: Kind): nat
    requires i <= j <= |ps|
  {
    if i == j then 0
    else Sent(pol, s0, ps, i, j - 1, kind) + if OutcomeAt(pol, s0, ps, j - 1).kind == kind then 1 else 0
  }

  lemma StepBalance(pol: Policy, s: WatchState, p: Poll)
    ensures var out := Step(pol, s, p);
            (if out.kind == RecoveredKind then 1 else 0) + out.state.notifyCount
            <= (if out.kind == AlertKind then 1 else 0) + s.notifyCount
    ensures Step(pol, s, p).kind == RecoveredKind ==> Step(pol, s, p).state.notifyCount == 0
  {
  }

  /** Over any stretch of any run, from any state: what is announced as recovered,
      plus what is still owed a recovery at the end, was announced as an alert in
      the stretch or owed at its start. */
  lemma {:induction false} MessageBalance(pol: Policy, s0: WatchState, ps: seq<Poll>, i: nat, j: nat)
    requires i <= j <= |ps|
    ensures Sent(pol, s0, ps, i, j, RecoveredKind) + StateAt(pol, s0, ps, j).notifyCount
         <= Sent(pol, s0, ps, i, j, AlertKind) + StateAt(pol, s0, ps, i).notifyCount
  {
    hide Evaluate;
    if i < j {
      MessageBalance(pol, s0, ps, i, j - 1);
      StepBalance(pol, StateAt(pol, s0, ps, j - 1), ps[j - 1]);
    }
  }

  lemma RecoveriesNeverOutnumberAlerts(pol: Policy, s0: WatchState, ps: seq<Poll>, k: nat)
    requires FreshlySeeded(s0) && k <= |ps|
    ensures Sent(pol, s0, ps, 0, k, RecoveredKind) <= Sent(pol, s0, ps, 0, k, AlertKind)
  {
    MessageBalance(pol, s0, ps, 0, k);
  }

  lemma {:induction false} SentSomewhere(pol: Policy, s0: WatchState, ps: seq<Poll>, i: nat, j: nat, kind: Kind)
    requires i <= j <= |ps|
    ensures Sent(pol, s0, ps, i, j, kind) > 0 <==> exists m :: i <= m < j && OutcomeAt(pol, s0, ps, m).kind == kind
  {
    hide Evaluate;
    if i < j {
      SentSomewhere(pol, s0, ps, i, j - 1, kind);
    }
  }

  /** Two recoveries always have an alert between them, from any start at all. */
  lemma AlertBetweenRecoveries(pol: Policy, s0: WatchState, ps: seq<Poll>, i: nat, j: nat)
    requires i < j < |ps|
    requires OutcomeAt(pol, s0, ps, i).kind == RecoveredKind && OutcomeAt(pol, s0, ps, j).kind == RecoveredKind
    ensures exists m :: i < m < j && OutcomeAt(pol, s0, ps, m).kind == AlertKind
  {
    hide Evaluate;
    StepBalance(pol, StateAt(pol, s0, ps, i), ps[i]);
    assert StateAt(pol, s0, ps, i + 1).notifyCount == 0;
    MessageBalance(pol, s0, ps, i + 1, j + 1);
    assert Sent(pol, s0, ps, i + 1, j + 1, AlertKind) == Sent(pol, s0, ps, i + 1, j, AlertKind);
    SentSomewhere(pol, s0, ps, i + 1, j, AlertKind);
  }

  // ----------------------------------------------------- one message each ----

  /** An unbroken, unmuted outage from ok is announced exactly once, at the poll
      that confirms it, however long it lasts. */
  lemma {:induction false} OutageSendsOneAlert(pol: Policy, s0: WatchState, ps: seq<Poll>, n: nat)
    requires s0.state == OK && n <= |ps|
    requires forall i :: 0 <= i < n ==> Over(ps[i]) && !ps[i].prefs.muted
    ensures forall i :: 0 <= i < n ==>
      OutcomeAt(pol, s0, ps, i).kind == if i == Confirm(pol) - 1 then AlertKind else NoKind
    ensures Sent(pol, s0, ps, 0, n, AlertKind) == (if n >= Confirm(pol) then 1 else 0)
    ensures Sent(pol, s0, ps, 0, n, RecoveredKind) == 0
    ensures var s := StateAt(pol, s0, ps, n);
            if n == 0 then s == s0
            else if n < Confirm(pol) then s.state == Pending && s.consecutive == n && s.notifyCount == s0.notifyCount
            else s.state == Alerting && s.notifyCount == s0.notifyCount + 1
  {
    hide Evaluate, Over;
    if n > 0 {
      OutageSendsOneAlert(pol, s0, ps, n - 1);
      OverStep(pol, StateAt(pol, s0, ps, n - 1), ps[n - 1]);
    }
  }

  lemma OverStep(pol: Policy, s: WatchState, p: Poll)
    requires Over(p) && !p.prefs.muted && s.state in {OK, Pending, Alerting}
    ensures var out, c := Step(pol, s, p), if s.state == OK then 1 else s.consecutive + 1;
            && (s.state == Alerting ==> out.kind == NoKind && out.state.state == Alerting)
            && (s.state != Alerting && c >= Confirm(pol) ==> out.kind == AlertKind && out.state.state == Alerting)
            && (s.state != Alerting && c < Confirm(pol) ==>
                 out.kind == NoKind && out.state.state == Pending && out.state.consecutive == c)
            && out.state.notifyCount == s.notifyCount + if out.kind == AlertKind then 1 else 0
  {
  }

  /** Likewise for an unbroken return from an announced alert. */
  lemma {:induction false} ReturnSendsOneRecovery(pol: Policy, s0: WatchState, ps: seq<Poll>, n: nat)
    requires s0.state == Alerting && s0.notifyCount > 0 && n <= |ps|
    requires forall i :: 0 <= i < n ==> Under(ps[i]) && !ps[i].prefs.muted && ps[i].prefs.notifyRecovery
    ensures forall i :: 0 <= i < n ==>
      OutcomeAt(pol, s0, ps, i).kind == if i == Confirm(pol) - 1 then RecoveredKind else NoKind
    ensures Sent(pol, s0, ps, 0, n, RecoveredKind) == (if n >= Confirm(pol) then 1 else 0)
    ensures Sent(pol, s0, ps, 0, n, AlertKind) == 0
    ensures var s := StateAt(pol, s0, ps, n);
            if n == 0 then s == s0
            else if n < Confirm(pol) then s.state == Recovering && s.consecutive == n && s.notifyCount == s0.notifyCount
            else s.state == OK && s.notifyCount == 0
  {
    hide Evaluate, Under;
    if n > 0 {
      ReturnSendsOneRecovery(pol, s0, ps, n - 1);
      UnderStep(pol, StateAt(pol, s0, ps, n - 1), ps[n - 1]);
    }
  }

  lemma UnderStep(pol: Policy, s: WatchState, p: Poll)
    requires Under(p) && !p.prefs.muted && p.prefs.notifyRecovery && s.state in {Alerting, Recovering, OK}
    ensures var out, c := Step(pol, s, p), if s.state == Alerting then 1 else s.consecutive + 1;
            && (s.state == OK ==> out.kind == NoKind && out.state.state == OK)
            && (s.state != OK && c >= Confirm(pol) ==>
                 out.kind == (if s.notifyCount > 0 then RecoveredKind else NoKind) && out.state.state == OK)
            && (s.state != OK && c < Confirm(pol) ==>
                 out.kind == NoKind && out.state.state == Recovering && out.state.consecutive == c)
            && out.state.notifyCount == if s.state != OK && c >= Confirm(pol) then 0 else s.notifyCount
  {
  }

  // ------------------------------------------------- whose alert recovered ----

  /** The rule stays down between polls i and j: entered at i, never unknown or ok. */
  ghost predicate Episode(pol: Policy, s0: WatchState, ps: seq<Poll>, i: nat, j: nat)
    requires i < j <= |ps|
  {
    && OutcomeAt(pol, s0, ps, i).entering
    && forall m :: i < m <= j ==> StateAt(pol, s0, ps, m).state in {Alerting, Recovering}
  }

  lemma CountHeldWhileDown(pol: Policy, s: WatchState, p: Poll)
    requires s.state in {Alerting, Recovering} && Step(pol, s, p).state.state in {Alerting, Recovering}
    ensures Step(pol, s, p).state.notifyCount == s.notifyCount
  {
  }

  lemma EnteringCounts(pol: Policy, s: WatchState, p: Poll)
    requires Step(pol, s, p).entering
    ensures Step(pol, s, p).state.notifyCount == s.notifyCount + if p.prefs.muted then 0 else 1
  {
  }

  lemma {:induction false} CountHeldDuringEpisode(pol: Policy, s0: WatchState, ps: seq<Poll>, i: nat, j: nat)
    requires i < j <= |ps| && Episode(pol, s0, ps, i, j)
    ensures StateAt(pol, s0, ps, j).notifyCount
         == StateAt(pol, s0, ps, i).notifyCount + if ps[i].prefs.muted then 0 else 1
  {
    hide Evaluate;
    if i + 1 < j {
      CountHeldDuringEpisode(pol, s0, ps, i, j - 1);
      assert StateAt(pol, s0, ps, j) == OutcomeAt(pol, s0, ps, j - 1).state;
      CountHeldWhileDown(pol, StateAt(pol, s0, ps, j - 1), ps[j - 1]);
    } else {
      assert StateAt(pol, s0, ps, j) == Step(pol, StateAt(pol, s0, ps, i), ps[i]).state;
      EnteringCounts(pol, StateAt(pol, s0, ps, i), ps[i]);
    }
  }

  /** Exactly when the end of an episode is announced. An episode that began while
      muted is still announced as over when the count was already above zero as it
      began, which an announced alert followed by a gap and a healthy re-adoption
      leaves behind. */
  lemma RecoveryToldExactlyWhen(pol: Policy, s0: WatchState, ps: seq<Poll>, i: nat, j: nat)
    requires i < j < |ps| && Episode(pol, s0, ps, i, j)
    requires OutcomeAt(pol, s0, ps, j).state.state == OK
    ensures OutcomeAt(pol, s0, ps, j).kind == RecoveredKind
       <==> !ps[j].prefs.muted && ps[j].prefs.notifyRecovery
            && (!ps[i].prefs.muted || StateAt(pol, s0, ps, i).notifyCount > 0)
  {
    CountHeldDuringEpisode(pol, s0, ps, i, j);
    assert StateAt(pol, s0, ps, j).state in {Alerting, Recovering};
  }

  /** At point i the rule is in alert without having entered it: created so, or adopted
      so from unknown. */
  predicate AdoptedDown(pol: Policy, s0: WatchState, ps: seq<Poll>, i: nat)
    requires i <= |ps|
  {
    StateAt(pol, s0, ps, i).state == Alerting
    && if i == 0 then s0.notifyCount == 0 else StateAt(pol, s0, ps, i - 1).state == Unknown
  }

  lemma DownStepsQuietly(pol: Policy, s: WatchState, p: Poll)
    requires Down(s) && s.notifyCount == 0
    ensures Step(pol, s, p).kind == NoKind && !Step(pol, s, p).notify && Step(pol, s, p).state.notifyCount == 0
  {
  }

  lemma AdoptionForgets(pol: Policy, s: WatchState, p: Poll)
    requires s.state == Unknown && Step(pol, s, p).state.state == Alerting
    ensures Step(pol, s, p).state.notifyCount == 0 && !Step(pol, s, p).entering
  {
  }

  /** Nobody is ever told anything of an alert a rule was created in or adopted in from
      unknown, its end included, however long it lasts and whatever was announced before. */
  lemma {:induction false} AdoptedAlertIsSilent(pol: Policy, s0: WatchState, ps: seq<Poll>, i: nat, j: nat)
    requires i <= j < |ps| && AdoptedDown(pol, s0, ps, i) && forall m :: i <= m <= j ==> Down(StateAt(pol, s0, ps, m))
    ensures StateAt(pol, s0, ps, j).notifyCount == 0
    ensures forall m :: i <= m <= j ==> OutcomeAt(pol, s0, ps, m).kind == NoKind && !OutcomeAt(pol, s0, ps, m).notify
  {
    hide Evaluate, Down;
    if i < j {
      AdoptedAlertIsSilent(pol, s0, ps, i, j - 1);
      DownStepsQuietly(pol, StateAt(pol, s0, ps, j - 1), ps[j - 1]);
    } else if i > 0 {
      AdoptionForgets(pol, StateAt(pol, s0, ps, i - 1), ps[i - 1]);
    }
    DownStepsQuietly(pol, StateAt(pol, s0, ps, j), ps[j]);
  }

  /** The promise "never announce recovery from an alert nobody was told about" is
      false across a gap: announced, lost from the feed, healthy, muted outage,
      unmuted return. */
  lemma RecoveryOfAnUntoldAlert() returns (pol: Policy, s0: WatchState, ps: seq<Poll>)
    ensures FreshlySeeded(s0) && |ps| == 5
    ensures OutcomeAt(pol, s0, ps, 3).entering && !OutcomeAt(pol, s0, ps, 3).notify
    ensures Episode(pol, s0, ps, 3, 4)
    ensures OutcomeAt(pol, s0, ps, 4).kind == RecoveredKind
  {
    pol := Policy(1);
    s0 := WatchState(1, 1, OK, 100, 0, 100, 0, 0, 0, false);
    var loud := Prefs(false, true);
    ps := [
      Poll(200, Observation(100, true), 50, loud),
      Poll(210, Observation(0, false), 50, loud),
      Poll(220, Observation(219, true), 50, loud),
      Poll(300, Observation(219, true), 50, Prefs(true, true)),
      Poll(310, Observation(309, true), 50, loud)];
    assert StateAt(pol, s0, ps, 1) == Step(pol, s0, ps[0]).state;
    assert StateAt(pol, s0, ps, 2) == Step(pol, StateAt(pol, s0, ps, 1), ps[1]).state;
    assert StateAt(pol, s0, ps, 3) == Step(pol, StateAt(pol, s0, ps, 2), ps[2]).state;
    assert StateAt(pol, s0, ps, 3).notifyCount == 1 && StateAt(pol, s0, ps, 3).state == OK;
    assert StateAt(pol, s0, ps, 4) == Step(pol, StateAt(pol, s0, ps, 3), ps[3]).state;
  }

  // ------------------------------------------- preferences never move state --

  /** The part of a state that preferences must not influence. */
  predicate SameCore(a: WatchState, b: WatchState) {
    && a.watchID == b.watchID && a.ruleID == b.ruleID
    && a.state == b.state && a.since == b.since && a.consecutive == b.consecutive
    && a.observedAt == b.observedAt && a.alertingSince == b.alertingSince && a.seeded == b.seeded
  }

  predicate SameEvidence(p: Poll, q: Poll) {
    p.now == q.now && p.obs == q.obs && p.threshold == q.threshold
  }

  predicate SameDecision(a: Outcome, b: Outcome) {
    SameCore(a.state, b.state) && a.changed == b.changed && a.entering == b.entering
      && a.observedMoved == b.observedMoved
  }

  lemma OneStepIgnoresPreferences(pol: Policy, a: WatchState, b: WatchState, p: Poll, q: Poll)
    requires SameCore(a, b) && SameEvidence(p, q)
    ensures SameDecision(Step(pol, a, p), Step(pol, b, q))
  {
  }

  /** Two runs over the same evidence agree on everything but messages, whatever
      either owner asked for at each poll. */
  lemma {:induction false} PreferencesNeverMoveState(
    pol: Policy, s0: WatchState, t0: WatchState, ps: seq<Poll>, qs: seq<Poll>, k: nat)
    requires SameCore(s0, t0) && |ps| == |qs| && k <= |ps|
    requires forall i :: 0 <= i < |ps| ==> SameEvidence(ps[i], qs[i])
    ensures SameCore(StateAt(pol, s0, ps, k), StateAt(pol, t0, qs, k))
    ensures k < |ps| ==> SameDecision(OutcomeAt(pol, s0, ps, k), OutcomeAt(pol, t0, qs, k))
  {
    hide Evaluate;
    if k > 0 {
      PreferencesNeverMoveState(pol, s0, t0, ps, qs, k - 1);
    }
    if k < |ps| {
      OneStepIgnoresPreferences(pol, StateAt(pol, s0, ps, k), StateAt(pol, t0, qs, k), ps[k], qs[k]);
    }
  }

  // -------------------------------------------------- what is worth saving --

  /** Holds of every reachable state; without it a skipped save could lose a count. */
  predicate Settled(s: WatchState) {
    s.state in {OK, Alerting, Unknown} ==> s.consecutive == 0
  }

  predicate WorthSaving(out: Outcome) {
    out.changed || out.observedMoved
  }

  lemma SettledIsKept(pol: Policy, s: WatchState, p: Poll)
    requires Settled(s) && !s.state.Other?
    ensures Settled(Step(pol, s, p).state) && !Step(pol, s, p).state.state.Other?
  {
  }

  /** From a settled state an outcome is saved exactly when it differs from the row
      it would replace, so skipping the rest loses nothing. */
  lemma SavedExactlyWhenDifferent(pol: Policy, s: WatchState, p: Poll)
    requires Settled(s)
    ensures WorthSaving(Step(pol, s, p)) <==> Step(pol, s, p).state != s
  {
  }

  lemma UnsettledStateWouldLoseACount() returns (pol: Policy, s: WatchState, p: Poll)
    ensures !Settled(s) && !WorthSaving(Step(pol, s, p)) && Step(pol, s, p).state != s
  {
    pol := Policy(2);
    s := WatchState(1, 1, OK, 100, 3, 100, 0, 0, 0, false);
    p := Poll(110, Observation(100, true), 50, Prefs(false, true));
  }
}
