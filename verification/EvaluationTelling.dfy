/** Who is told what by one evaluation, read off the watches, the rules, the evidence and
    the stored rows before and after it (internal/poller/poller.go). */
module EvaluationTelling {
  import opened QuietAlert
  import opened RuleEvidence
  import opened Evaluation
  import opened EvaluationRuns
  import Grouping

  /** A rule of a watch of the database. */
  predicate HasRule(db: DB, w: Watch, r: Rule) {
    w in db.watches && w.id in db.rules && r in db.rules[w.id]
  }

  /** The watch's owner is told of the rule, in one message of this kind. */
  ghost predicate TellsOf(ms: seq<Message>, w: Watch, r: Rule, kind: Kind, lastSeen: Time) {
    exists i, j :: 0 <= i < |ms| && 0 <= j < |ms[i].rules|
                   && ms[i].watchID == w.id && ms[i].userID == w.userID && ms[i].kind == kind
                   && ms[i].rules[j] == RuleTrip(r.id, r.thresholdHours, lastSeen)
  }

  // ------------------------------------------------------------------ the plan --

  lemma {:induction false} PlanWatchHas(db: DB, w: Watch, inp: Input, cfg: Config, n: nat, j: nat)
    requires j < n <= |RulesOf(db, w.id)|
    ensures PlanRule(db, w, RulesOf(db, w.id)[j], inp, cfg) in PlanWatch(db, w, inp, cfg, n)
  {
    hide PlanRule;
    if j < n - 1 {
      PlanWatchHas(db, w, inp, cfg, n - 1, j);
    }
  }

  lemma {:induction false} PlanAllHas(db: DB, w: Watch, r: Rule, inp: Input, cfg: Config, n: nat, i: nat)
    requires i < n <= |db.watches| && db.watches[i] == w && r in RulesOf(db, w.id)
    ensures PlanRule(db, w, r, inp, cfg) in PlanAll(db, inp, cfg, n)
  {
    hide PlanRule;
    if i < n - 1 {
      PlanAllHas(db, w, r, inp, cfg, n - 1, i);
    } else {
      var j :| 0 <= j < |RulesOf(db, w.id)| && RulesOf(db, w.id)[j] == r;
      PlanWatchHas(db, w, inp, cfg, |RulesOf(db, w.id)|, j);
    }
  }

  /** Where the rule's outcome stands in the plan; no other outcome is of that rule. */
  lemma PlanHas(db: DB, w: Watch, r: Rule, inp: Input, cfg: Config) returns (i: nat)
    requires WellIndexed(db) && HasRule(db, w, r)
    ensures var ps := Plan(db, inp, cfg);
            && (w.id, r.id) in db.states && KeysDistinct(ps) && (forall p :: p in ps ==> FromRows(db, p, inp, cfg))
            && i < |ps| && ps[i].watch == w && ps[i].rule == r
            && ps[i].out == Step(cfg.pol, db.states[(w.id, r.id)], PollOf(w, r, inp))
  {
    hide Step, PollOf, PlanAll, KeysDistinct, WellIndexed;
    PlanIsFromRows(db, inp, cfg);
    var m :| 0 <= m < |db.watches| && db.watches[m] == w;
    PlanAllHas(db, w, r, inp, cfg, |db.watches|, m);
    var ps := Plan(db, inp, cfg);
    i :| 0 <= i < |ps| && ps[i] == PlanRule(db, w, r, inp, cfg);
    assert FromRows(db, ps[i], inp, cfg);
  }

  lemma {:induction false} SavedEvery(states: map<StateKey, WatchState>, ps: seq<Planned>, n: nat, i: nat)
    requires i < n <= |ps| && KeysDistinct(ps)
    ensures KeyOf(ps[i]) in SaveEvery(states, ps, n) && SaveEvery(states, ps, n)[KeyOf(ps[i])] == ps[i].out.state
  {
    if i < n - 1 {
      SavedEvery(states, ps, n - 1, i);
    }
  }

  /** An untripped evaluation leaves each rule the row its own evidence leads to. */
  lemma RowAfter(db: DB, w: Watch, r: Rule, inp: Input, cfg: Config)
    requires WellIndexed(db) && HasRule(db, w, r) && !Tripped(db, inp, cfg)
    ensures var k, after := (w.id, r.id), Evaluated(db, inp, cfg);
            && k in db.states && k in after.states
            && after.states[k] == Step(cfg.pol, db.states[k], PollOf(w, r, inp)).state
  {
    hide Step, PollOf, Plan, KeysDistinct, WellIndexed, Tripped, EventsOf, NewMessages, FromRows;
    var i := PlanHas(db, w, r, inp, cfg);
    var ps := Plan(db, inp, cfg);
    RowsOfIndex(db);
    SkippedSavesLoseNothing(db, ps, inp, cfg, |ps|);
    SavedEvery(db.states, ps, |ps|, i);
  }

  lemma RowsOfIndex(db: DB)
    requires WellIndexed(db)
    ensures forall k :: k in db.states ==> RowFits(k, db.states[k])
  {
  }

  // -------------------------------------------------------------- what is listed --

  lemma {:induction false} TripsAreOutcomes(ps: seq<Planned>, n: nat, m: nat) returns (i: nat)
    requires n <= |ps| && m < |TripsOf(ps, n)|
    ensures i < n && Notifies(ps[i]) && TripsOf(ps, n)[m] == TripOf(ps[i])
  {
    TripsAppend(ps, n);
    if m < |TripsOf(ps, n - 1)| {
      i := TripsAreOutcomes(ps, n - 1, m);
    } else {
      i := n - 1;
    }
  }

  lemma {:induction false} PickedFrom<K, V>(items: seq<(K, V)>, k: K, j: nat) returns (m: nat)
    requires j < |Grouping.Pick(items, k)|
    ensures m < |items| && items[m] == (k, Grouping.Pick(items, k)[j])
  {
    var init, last := items[..|items| - 1], items[|items| - 1];
    if j < |Grouping.Pick(init, k)| {
      m := PickedFrom(init, k, j);
    } else {
      m := |items| - 1;
    }
  }

  /** The message goes to the watch's user and names its target. */
  predicate IsAbout(m: Message, w: Watch, inp: Input) {
    && m.userID == w.userID && m.targetKind == w.targetKind && m.targetKey == w.targetKey
    && m.name == NameFor(w, inp)
  }

  /** Every line of a message is the outcome of a rule of its own watch, in its own
      direction. */
  lemma LineIsAnOutcome(ps: seq<Planned>, inp: Input, m: nat, j: nat) returns (i: nat)
    requires var items := TripsOf(ps, |ps|);
             var ms := MessagesOf(items, inp, |Grouping.Keys(items)|);
             m < |ms| && j < |ms[m].rules|
    ensures var items := TripsOf(ps, |ps|);
            var ms := MessagesOf(items, inp, |Grouping.Keys(items)|);
            && i < |ps| && Notifies(ps[i]) && ms[m].watchID == ps[i].watch.id && ms[m].kind == ps[i].out.kind
            && ms[m].rules[j] == RuleTrip(ps[i].rule.id, ps[i].rule.thresholdHours, ps[i].out.state.observedAt)
            && (j == 0 ==> IsAbout(ms[m], ps[i].watch, inp))
  {
    var items := TripsOf(ps, |ps|);
    hide TripsOf, Grouping.Keys, Grouping.Pick, NameFor;
    var keys := Grouping.Keys(items);
    MessageAt(items, inp, |keys|, m);
    var at := PickedFrom(items, keys[m], j);
    i := TripsAreOutcomes(ps, |ps|, at);
  }

  lemma EveryMessageHasALine(ps: seq<Planned>, inp: Input, m: nat)
    requires var items := TripsOf(ps, |ps|); m < |Grouping.Keys(items)|
    ensures var items := TripsOf(ps, |ps|);
            MessagesOf(items, inp, |Grouping.Keys(items)|)[m].rules != []
  {
    hide TripsOf, Grouping.Keys, Grouping.Pick, NameFor;
    var items := TripsOf(ps, |ps|);
    MessageAt(items, inp, |Grouping.Keys(items)|, m);
  }

  // --------------------------------------------------------------- who is told what --

  /** What one step tells, by the states around it. */
  lemma StepTellsExactlyWhen(pol: Policy, s: WatchState, p: Poll)
    ensures var out := Step(pol, s, p);
            && (out.kind == AlertKind <==> s.state in {OK, Pending} && out.state.state == Alerting && !p.prefs.muted)
            && (out.kind == RecoveredKind <==>
                 ComesBack(s, out.state) && s.notifyCount > 0 && !p.prefs.muted && p.prefs.notifyRecovery)
            && (out.kind != NoKind <==> out.notify && out.changed)
            && out.state.observedAt == p.obs.at
  {
  }

  predicate MutedNow(w: Watch, now: Time) {
    w.mutedUntil != 0 && now < w.mutedUntil
  }

  /** A message comes only to the watch's own user, unmuted, and is never of a recovery
      that was not asked for. */
  lemma MessagesRespectTheWatch(db: DB, inp: Input, cfg: Config, w: Watch, m: nat)
    requires WellIndexed(db) && w in db.watches && m < |NewMessages(db, inp, cfg)|
    requires NewMessages(db, inp, cfg)[m].watchID == w.id
    ensures var ms := NewMessages(db, inp, cfg);
            && IsAbout(ms[m], w, inp) && !MutedNow(w, inp.now) && ms[m].rules != []
            && ms[m].kind in {AlertKind, RecoveredKind} && (ms[m].kind == RecoveredKind ==> w.notifyRecovery)
  {
    hide Step, Plan, FromRows, MessagesOf, TripsOf, Grouping.Keys, KeysDistinct;
    var ps := Plan(db, inp, cfg);
    EveryMessageHasALine(ps, inp, m);
    var i := LineIsAnOutcome(ps, inp, m, 0);
    var p := ps[i];
    PlannedIsOf(db, inp, cfg, i, w);
    StepTellsExactlyWhen(cfg.pol, Current(db, w, p.rule, inp.now), PollOf(w, p.rule, inp));
  }

  lemma PlannedIsOf(db: DB, inp: Input, cfg: Config, i: nat, w: Watch)
    requires WellIndexed(db) && w in db.watches
    requires i < |Plan(db, inp, cfg)| && Plan(db, inp, cfg)[i].watch.id == w.id
    ensures var p := Plan(db, inp, cfg)[i];
            p.watch == w && p.out == Step(cfg.pol, Current(db, w, p.rule, inp.now), PollOf(w, p.rule, inp))
  {
    hide Step, PollOf, PlanAll, Current;
    PlanAllStepped(db, inp, cfg, |db.watches|);
    var p := Plan(db, inp, cfg)[i];
    assert p in Plan(db, inp, cfg) && Stepped(db, p, inp, cfg);
    var a :| 0 <= a < |db.watches| && db.watches[a] == p.watch;
    var b :| 0 <= b < |db.watches| && db.watches[b] == w;
    SameWatch(db, a, b);
  }

  lemma SameWatch(db: DB, a: nat, b: nat)
    requires WellIndexed(db) && a < |db.watches| && b < |db.watches| && db.watches[a].id == db.watches[b].id
    ensures a == b
  {
  }

  /** Of each rule the messages tell exactly what its stored state went through. */
  lemma ToldExactlyWhen(db: DB, w: Watch, r: Rule, inp: Input, cfg: Config)
    requires WellIndexed(db) && HasRule(db, w, r) && !Tripped(db, inp, cfg)
    ensures var k, after, ms := (w.id, r.id), Evaluated(db, inp, cfg), NewMessages(db, inp, cfg);
            && after.outbox == db.outbox + ms && k in db.states && k in after.states
            && var was, now_ := db.states[k], after.states[k];
               && (TellsOf(ms, w, r, AlertKind, now_.observedAt) <==>
                    !MutedNow(w, inp.now) && was.state in {OK, Pending} && now_.state == Alerting)
               && (TellsOf(ms, w, r, RecoveredKind, now_.observedAt) <==>
                    !MutedNow(w, inp.now) && w.notifyRecovery && ComesBack(was, now_) && was.notifyCount > 0)
  {
    hide Step, Plan, FromRows, MessagesOf, KeysDistinct, WellIndexed, Tripped, TellsOf, ComesBack, EventsOf, SaveWorthy;
    RowAfter(db, w, r, inp, cfg);
    var was := db.states[(w.id, r.id)];
    StepTellsExactlyWhen(cfg.pol, was, PollOf(w, r, inp));
    ToldIffKind(db, w, r, inp, cfg, AlertKind);
    ToldIffKind(db, w, r, inp, cfg, RecoveredKind);
  }

  lemma ToldIffKind(db: DB, w: Watch, r: Rule, inp: Input, cfg: Config, kind: Kind)
    requires WellIndexed(db) && HasRule(db, w, r) && kind != NoKind && (w.id, r.id) in db.states
    ensures var out := Step(cfg.pol, db.states[(w.id, r.id)], PollOf(w, r, inp));
            TellsOf(NewMessages(db, inp, cfg), w, r, kind, out.state.observedAt) <==> out.kind == kind
  {
    hide Step, PollOf, Plan, FromRows, MessagesOf, WellIndexed, TripsOf, Grouping.Keys;
    var i := PlanHas(db, w, r, inp, cfg);
    var ps, ms := Plan(db, inp, cfg), NewMessages(db, inp, cfg);
    var out := ps[i].out;
    StepTellsExactlyWhen(cfg.pol, db.states[(w.id, r.id)], PollOf(w, r, inp));
    if out.kind == kind {
      var m, j := PlaceOf(ps, inp, i);
      EveryMessageHasALine(ps, inp, m);
      var first := LineIsAnOutcome(ps, inp, m, 0);
      PlannedIsOf(db, inp, cfg, first, w);
    }
    if TellsOf(ms, w, r, kind, out.state.observedAt) {
      var m, j :| 0 <= m < |ms| && 0 <= j < |ms[m].rules| && ms[m].watchID == w.id && ms[m].userID == w.userID
                  && ms[m].kind == kind && ms[m].rules[j] == RuleTrip(r.id, r.thresholdHours, out.state.observedAt);
      var i1 := LineIsAnOutcome(ps, inp, m, j);
      assert KeyOf(ps[i1]) == KeyOf(ps[i]);
    }
  }

  // ---------------------------------------------------------- what evidence decides --

  /** A row judged by one poll: blind without evidence, and never moved against it. */
  predicate MovedByEvidence(was: WatchState, now_: WatchState, evidence: bool, over: bool) {
    && (now_.state == Unknown <==> !evidence)
    && (evidence && was.state == Unknown ==> now_.state == if over then Alerting else OK)
    && (evidence && was.state in {OK, Pending} ==> if over then now_.state in {Pending, Alerting} else now_.state == OK)
    && (evidence && Down(was) ==> if over then now_.state == Alerting else now_.state in {Recovering, OK})
  }

  lemma StepFollows(pol: Policy, s: WatchState, p: Poll)
    requires !s.state.Other?
    ensures MovedByEvidence(s, Step(pol, s, p).state, !Gap(p), Over(p))
    ensures Step(pol, s, p).state.observedAt == p.obs.at
  {
  }

  /** Each rule is judged by its own evidence and its own hours: those in the snapshot's
      last entry for the watch's target, or in the activity of its key. */
  lemma EvidenceDecides(db: DB, w: Watch, r: Rule, inp: Input, cfg: Config)
    requires WellIndexed(db) && HasRule(db, w, r) && !Tripped(db, inp, cfg)
    ensures var k, after := (w.id, r.id), Evaluated(db, inp, cfg);
            var o := RuleObservation(r, KnownOf(w, inp), ActsOf(w, inp));
            var evidence := o.applicable && o.at != 0;
            && k in db.states && k in after.states && after.states[k].observedAt == o.at
            && MovedByEvidence(db.states[k], after.states[k], evidence,
                 evidence && inp.now - o.at >= r.thresholdHours * 3600)
  {
    hide Step, Plan, WellIndexed, Tripped, Evaluated, RuleObservation, KnownOf, ActsOf, MovedByEvidence;
    RowAfter(db, w, r, inp, cfg);
    RowsOfIndex(db);
    var k := (w.id, r.id);
    assert RowFits(k, db.states[k]);
    StepFollows(cfg.pol, db.states[k], PollOf(w, r, inp));
  }

  /** What the snapshot says of a watch's target is its last entry for that kind and key. */
  lemma {:induction false} KnownIsTheLastEntry(snap: seq<NodeObs>, n: nat, kind: string, key: string)
    requires n <= |snap|
    ensures (kind, key) in ByKey(snap, n) <==> exists i :: 0 <= i < n && snap[i].kind == kind && snap[i].key == key
    ensures (kind, key) in ByKey(snap, n) ==>
      exists i :: 0 <= i < n && snap[i].kind == kind && snap[i].key == key && ByKey(snap, n)[(kind, key)] == snap[i]
                  && forall j :: i < j < n ==> (snap[j].kind, snap[j].key) != (kind, key)
  {
    if n > 0 {
      KnownIsTheLastEntry(snap, n - 1, kind, key);
    }
  }

  // ------------------------------------------------------------------ what is logged --

  /** The events of one rule. */
  function Logged(es: seq<Event>, k: StateKey): seq<Event> {
    if es == [] then []
    else
      var e := es[|es| - 1];
      Logged(es[..|es| - 1], k) + if (e.watchID, e.ruleID) == k then [e] else []
  }

  lemma LoggedAppend(es: seq<Event>, e: Event, k: StateKey)
    ensures Logged(es + [e], k) == Logged(es, k) + if (e.watchID, e.ruleID) == k then [e] else []
  {
    assert (es + [e])[..|es|] == es;
  }

  lemma {:induction false} LoggedOnce(db: DB, ps: seq<Planned>, n: nat, runID: int, i: nat)
    requires i < |ps| && n <= |ps| && KeysDistinct(ps)
    ensures Logged(EventsOf(db, ps, n, runID), KeyOf(ps[i]))
         == if i < n && ps[i].out.changed then [EventOf(db, ps[i], runID)] else []
  {
    hide EventOf, KeysDistinct, Logged, KeyOf;
    if n > 0 {
      LoggedOnce(db, ps, n - 1, runID, i);
      LoggedAppend(EventsOf(db, ps, n - 1, runID), EventOf(db, ps[n - 1], runID), KeyOf(ps[i]));
      EventNamesItsRule(db, ps[n - 1], runID);
      KeysDiffer(ps, i, n - 1);
      EventsGrow(db, ps, n, runID);
    } else {
      NothingLogged(KeyOf(ps[i]));
    }
  }

  lemma EventsGrow(db: DB, ps: seq<Planned>, n: nat, runID: int)
    requires 0 < n <= |ps|
    ensures EventsOf(db, ps, n, runID)
         == if ps[n - 1].out.changed then EventsOf(db, ps, n - 1, runID) + [EventOf(db, ps[n - 1], runID)]
            else EventsOf(db, ps, n - 1, runID)
  {
  }

  lemma KeysDiffer(ps: seq<Planned>, i: nat, j: nat)
    requires KeysDistinct(ps) && i < |ps| && j < |ps|
    ensures KeyOf(ps[i]) == KeyOf(ps[j]) ==> i == j
  {
  }

  lemma NothingLogged(k: StateKey)
    ensures Logged([], k) == []
  {
  }

  lemma EventNamesItsRule(db: DB, p: Planned, runID: int)
    ensures (EventOf(db, p, runID).watchID, EventOf(db, p, runID).ruleID) == KeyOf(p)
  {
  }

  /** An untripped evaluation logs of each rule one event exactly when its state moved or is
      still being confirmed: from what it was to what it is, with the poll it was in, and
      whether its owner was told. */
  lemma LoggedExactlyWhen(db: DB, w: Watch, r: Rule, inp: Input, cfg: Config)
    requires WellIndexed(db) && HasRule(db, w, r) && !Tripped(db, inp, cfg)
    ensures var k, after := (w.id, r.id), Evaluated(db, inp, cfg);
            && k in db.states && k in after.states && db.events <= after.events
            && Logged(after.events[|db.events|..], k)
                 == LogOf(db, inp, cfg, w, r, db.states[k].state, after.states[k].state, after.states[k].observedAt)
  {
    hide Step, PollOf, Plan, KeysDistinct, WellIndexed, Tripped, NewMessages, FromRows, EventsOf, Logged, TellsOf;
    var k := (w.id, r.id);
    RowAfter(db, w, r, inp, cfg);
    RowsOfIndex(db);
    assert RowFits(k, db.states[k]);
    var i := PlanHas(db, w, r, inp, cfg);
    var ps := Plan(db, inp, cfg);
    LoggedOnce(db, ps, |ps|, inp.runID, i);
    OutcomeSaysWhatHappened(cfg.pol, db.states[k], PollOf(w, r, inp));
    ToldIffKind(db, w, r, inp, cfg, AlertKind);
    ToldIffKind(db, w, r, inp, cfg, RecoveredKind);
    var new_ := EventsOf(db, ps, |ps|, inp.runID);
    assert (db.events + new_)[|db.events|..] == new_;
  }

  ghost function LogOf(
    db: DB, inp: Input, cfg: Config, w: Watch, r: Rule, was: State, now_: State, lastSeen: Time): seq<Event> {
    var told := exists kind :: kind != NoKind && TellsOf(NewMessages(db, inp, cfg), w, r, kind, lastSeen);
    if was != now_ || now_ in {Pending, Recovering} then [Event(w.id, r.id, was, now_, inp.runID, told)] else []
  }

  // -------------------------------------------------------------- whose evidence it is --

  /** Entry i is the snapshot's last for the watch's target. */
  predicate IsLastEntry(w: Watch, inp: Input, i: nat) {
    && i < |inp.snap| && (inp.snap[i].kind, inp.snap[i].key) == (w.targetKind, w.targetKey)
    && forall j :: i < j < |inp.snap| ==> (inp.snap[j].kind, inp.snap[j].key) != (w.targetKind, w.targetKey)
  }

  predicate InSnapshot(w: Watch, inp: Input) {
    exists i :: 0 <= i < |inp.snap| && (inp.snap[i].kind, inp.snap[i].key) == (w.targetKind, w.targetKey)
  }

  /** What a rule on what the feed says sees of its target, and the name a message gives it:
      the last entry's, or what the owner called it. */
  lemma SnapshotIsRead(w: Watch, r: Rule, inp: Input, i: nat)
    ensures !InSnapshot(w, inp) ==>
      && NameFor(w, inp) == w.name
      && (r.source != Types ==> !RuleObservation(r, KnownOf(w, inp), ActsOf(w, inp)).applicable)
    ensures IsLastEntry(w, inp, i) ==>
      && NameFor(w, inp) == (if inp.snap[i].name != "" then inp.snap[i].name else w.name)
      && var o, seen := RuleObservation(r, KnownOf(w, inp), ActsOf(w, inp)), inp.snap[i].obs;
         && (r.source == Seen ==> o == Observation(seen.lastSeen, true))
         && (r.source == Relayed ==> o == Observation(seen.lastRelayed, seen.lastRelayed != 0))
         && (r.source == Packets ==> o == Observation(seen.lastPacket, seen.lastPacket != 0))
  {
    KnownIsTheLastEntry(inp.snap, |inp.snap|, w.targetKind, w.targetKey);
  }

  lemma {:induction false} LatestIsLatest(r: Rule, acts: seq<Activity>, n: nat)
    requires n <= |acts|
    ensures var o := Latest(r, acts, n);
            && (o.applicable <==> exists i :: 0 <= i < n && Wanted(r, acts[i]))
            && (forall i :: 0 <= i < n && Wanted(r, acts[i]) ==> acts[i].lastAt <= o.at)
            && (o.at == 0 || exists i :: 0 <= i < n && Wanted(r, acts[i]) && acts[i].lastAt == o.at)
  {
    if n > 0 {
      LatestIsLatest(r, acts, n - 1);
    }
  }

  /** What a rule on a node's packets sees: the latest activity of its key that is of one of
      its types and its way, whatever the snapshot says. */
  lemma ActivityIsRead(w: Watch, r: Rule, inp: Input)
    requires r.source == Types
    ensures var o := RuleObservation(r, KnownOf(w, inp), ActsOf(w, inp));
            if w.targetKey !in inp.activity then !o.applicable
            else
              var acts := inp.activity[w.targetKey];
              && (o.applicable <==> exists i :: 0 <= i < |acts| && IsOfRule(r, acts[i]))
              && (forall i :: 0 <= i < |acts| && IsOfRule(r, acts[i]) ==> acts[i].lastAt <= o.at)
              && (o.at == 0 || exists i :: 0 <= i < |acts| && IsOfRule(r, acts[i]) && acts[i].lastAt == o.at)
  {
    LatestIsLatest(r, ActsOf(w, inp), |ActsOf(w, inp)|);
    assert forall a :: IsOfRule(r, a) <==> Wanted(r, a);
  }

  predicate IsOfRule(r: Rule, a: Activity) {
    a.typ in r.types && (r.direction == Either || r.direction == Only(a.dir))
  }

  /** A rule found without a row is judged as one created at this poll: in silence, and
      standing since now, whatever it turns out to be. */
  lemma RowlessRuleIsNew(db: DB, w: Watch, r: Rule, inp: Input, cfg: Config)
    requires (w.id, r.id) !in db.states
    ensures var out := PlanRule(db, w, r, inp, cfg).out;
            && out.kind == NoKind && !out.entering && out.state.since == inp.now
            && (out.state.watchID, out.state.ruleID) == (w.id, r.id)
  {
    hide RuleObservation, KnownOf, ActsOf;
  }
}
