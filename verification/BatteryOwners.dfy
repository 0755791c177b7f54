/** What becomes of a change an owner makes while a check is running
    (internal/poller/battery.go). The save is refused only when the rule's alert state
    has changed, so a change of settings, mute or preference can lose to it. */
module BatteryOwners {
  import B = BatteryMachine
  import opened BatteryStore
  import opened BatteryCheck
  import opened BatteryRace
  import Grouping

  // ---------------------------------------------- when an owner's change wins --

  /** The level a rule is judged from. */
  function Held(rule: Rule): B.Level {
    if rule.st.level == B.Blank then B.Unknown else rule.st.level
  }

  /** The level a reading points to under some settings. */
  function Target(rule: Rule, s: Settings, rd: Readings, cfg: Config): B.Level {
    B.Classify(rd.latestMV, Held(rule), LevelsFor(s, cfg, rd), cfg.pol.recoverMarginMV)
  }

  /** Whether a change to the level is worth telling this watch's owner. */
  predicate Told(w: Watch, now: Instant, rule: Rule, level: B.Level) {
    B.KindOf(Held(rule), level, rule.st.announced, w.notifyRecovery) != B.NoKind && !Muted(w, now)
  }

  /** The decision moves the rule from one known level to another. */
  predicate Moves(out: B.Outcome) {
    out.from != B.Unknown && out.state.level != out.from
  }

  predicate SameVerdict(a: B.Outcome, b: B.Outcome) {
    SameAlertState(a.state, b.state) && a.notify == b.notify && a.kind == b.kind
  }

  /** "A change its owner made during the check wins", for a save that lands: it decides
      what judging the rule and the watch as they now stand would decide, if and only if
      the battery is gone, or the reading points to the same level under the settings
      read and the settings now and, where the level moves, is told or not told alike. */
  lemma OwnersChangeWinsExactlyWhen(db: DB, v: View, id: int, w: Watch, cfg: Config)
    requires Decide(v, id, w, cfg).Save? && CanSave(db, id, v.rules[id]) && id in db.watches
    ensures var out, rd, rule := Decide(v, id, w, cfg).plan.out, v.reports[w.targetKey], db.rules[id];
            SameVerdict(Judged(v.now, db.watches[id], rule, rd, cfg), out)
            <==> (rd.status.HasBattery() ==>
                    && Target(rule, v.rules[id].settings, rd, cfg) == Target(rule, rule.settings, rd, cfg)
                    && (Moves(out) ==>
                         Told(w, v.now, rule, out.state.level) == Told(db.watches[id], v.now, rule, out.state.level)))
  {
    hide B.Classify, LevelsFor, Muted;
  }

  // ------------------------------------------------------ three changes that lose --

  function OneWatch(w: Watch, rule: Rule): DB {
    DB(map[1 := w], map[7 := User(false, 0)], map[1 := rule], [], [])
  }

  function OneView(w: Watch, rule: Rule, rd: Readings): View {
    View(100, [(1, w)], map[1 := rule], map[7 := false], map["k" := rd])
  }

  /** One check of one watch; its owner acts after the fetch and before the write. */
  function Race(op: OwnerOp, rd: Readings): seq<Action> {
    [Begin(0, 100, [1]), ReadRules(0), ReadUsers(0), FetchAll(0, [("k", Report(rd))]), Owner(op), Write(0, true)]
  }

  lemma OneStep(sys: Sys, acts: seq<Action>, cfg: Config, k: nat, at: Sys, next: Sys)
    requires k < |acts| && SysAt(sys, acts, cfg, k) == at && Do(at, acts[k], cfg) == next
    ensures SysAt(sys, acts, cfg, k + 1) == next
  {
  }

  /** One after another, the reads and the fetch fill in the view. */
  lemma ReadSteps(w: Watch, rule: Rule, rd: Readings, cfg: Config)
    ensures var db, v := OneWatch(w, rule), OneView(w, rule, rd);
            && Do(Sys(db, map[]), Begin(0, 100, [1]), cfg)
                 == Sys(db, map[0 := ReadingRules(v.(rules := map[], auto := map[], reports := map[]))])
            && Do(Sys(db, map[0 := ReadingRules(v.(rules := map[], auto := map[], reports := map[]))]), ReadRules(0),
                 cfg)
               == Sys(db, map[0 := ReadingUsers(v.(auto := map[], reports := map[]))])
            && Do(Sys(db, map[0 := ReadingUsers(v.(auto := map[], reports := map[]))]), ReadUsers(0), cfg)
               == Sys(db, map[0 := Fetching(v.(reports := map[]))])
            && Do(Sys(db, map[0 := Fetching(v.(reports := map[]))]), FetchAll(0, [("k", Report(rd))]), cfg)
                 == Sys(db, map[0 := Ready(v)])
  {
    hide Committed;
    assert Listed(map[1 := w], [1]) == [(1, w)];
    assert AutoOf(map[7 := User(false, 0)]) == map[7 := false];
    assert ReportsOf([("k", Report(rd))], 1) == map["k" := rd];
  }

  lemma FetchedView(w: Watch, rule: Rule, rd: Readings, op: OwnerOp, cfg: Config)
    ensures SysAt(Sys(OneWatch(w, rule), map[]), Race(op, rd), cfg, 4)
      == Sys(OneWatch(w, rule), map[0 := Ready(OneView(w, rule, rd))])
  {
    hide Do, OneWatch, OneView;
    var db, v, sys, acts := OneWatch(w, rule), OneView(w, rule, rd), Sys(OneWatch(w, rule), map[]), Race(op, rd);
    ReadSteps(w, rule, rd, cfg);
    OneStep(sys, acts, cfg, 0, sys,
      Sys(db, map[0 := ReadingRules(v.(rules := map[], auto := map[], reports := map[]))]));
    OneStep(sys, acts, cfg, 1, SysAt(sys, acts, cfg, 1),
      Sys(db, map[0 := ReadingUsers(v.(auto := map[], reports := map[]))]));
    OneStep(sys, acts, cfg, 2, SysAt(sys, acts, cfg, 2), Sys(db, map[0 := Fetching(v.(reports := map[]))]));
    OneStep(sys, acts, cfg, 3, SysAt(sys, acts, cfg, 3), Sys(db, map[0 := Ready(v)]));
  }

  lemma OnePlan(v: View, cfg: Config, w: Watch, p: Plan)
    requires v.watches == [(1, w)] && Decide(v, 1, w, cfg) == Save(p) && cfg.maxNewAlertsPerPoll >= 1
    ensures Additions(v, cfg, 1) == [] && FinalPlans(v, cfg) == [p]
  {
    hide Decide;
    assert Plans(v, cfg, 0) == [] && Plans(v, cfg, 1) == [p];
    assert Additions(v, cfg, 0) == [];
    assert Entering([p][..0]) == 0;
  }

  lemma OnePlanCommitted(db: DB, v: View, cfg: Config, p: Plan)
    requires |v.watches| == 1 && Additions(v, cfg, 1) == [] && FinalPlans(v, cfg) == [p]
    ensures Committed(db, v, cfg) == SaveOne(db, p)
  {
    hide SaveOne, Additions, FinalPlans;
    assert Mentioned(db, [], 0, v.now) == [];
    assert SaveAll(db, [p], 1) == SaveOne(SaveAll(db, [p], 0), p);
  }

  /** The whole race comes to saving the one plan after the owner's change. */
  lemma RaceEnds(w: Watch, rule: Rule, rd: Readings, op: OwnerOp, cfg: Config, p: Plan)
    requires w.userID == 7 && Decide(OneView(w, rule, rd), 1, w, cfg) == Save(p) && cfg.maxNewAlertsPerPoll >= 1
    ensures SysAt(Sys(OneWatch(w, rule), map[]), Race(op, rd), cfg, 6).db == SaveOne(ByOwner(OneWatch(w, rule), op), p)
  {
    hide SaveOne, Committed, ByOwner, Decide, FinalPlans, Additions;
    var sys, acts, v := Sys(OneWatch(w, rule), map[]), Race(op, rd), OneView(w, rule, rd);
    FetchedView(w, rule, rd, op, cfg);
    assert SysAt(sys, acts, cfg, 5) == Do(SysAt(sys, acts, cfg, 4), acts[4], cfg);
    assert SysAt(sys, acts, cfg, 6) == Do(SysAt(sys, acts, cfg, 5), acts[5], cfg);
    OnePlan(v, cfg, w, p);
    OnePlanCommitted(ByOwner(sys.db, op), v, cfg, p);
  }

  const NO_WISH := Watch(7, "k", true, 0, true, 5)

  function OKRule(s: Settings): Rule {
    Rule(s, 5, B.BatteryState(B.OK, 5, B.Blank, 0, 10, 3900, B.Blank))
  }

  function Cfg(): Config {
    Config(B.Policy(1, 50), 3300, 3000, 0, 5)
  }

  /** What a race does when its owner's change loses: the message goes out although
      judging at that moment would send none. */
  ghost predicate Loses(w: Watch, rule: Rule, rd: Readings, op: OwnerOp, kind: B.Kind) {
    var sys, acts := Sys(OneWatch(w, rule), map[]), Race(op, rd);
    var before, after := SysAt(sys, acts, Cfg(), 5).db, SysAt(sys, acts, Cfg(), 6).db;
    && Found(OneWatch(w, rule), op) && 1 in before.watches && 1 in before.rules
    && !Judged(100, before.watches[1], before.rules[1], rd, Cfg()).notify
    && after.outbox == [BatteryMsg(7, 1, kind)]
  }

  lemma LosesBy(w: Watch, rule: Rule, rd: Readings, op: OwnerOp, kind: B.Kind, p: Plan)
    requires w.userID == 7 && Decide(OneView(w, rule, rd), 1, w, Cfg()) == Save(p)
    requires var db := ByOwner(OneWatch(w, rule), op);
             && Found(OneWatch(w, rule), op) && 1 in db.watches && 1 in db.rules && db.outbox == []
             && CanSave(db, p.watchID, p.old_)
             && !Judged(100, db.watches[1], db.rules[1], rd, Cfg()).notify
    requires p.watchID == 1 && p.watch.userID == 7 && p.out.notify && p.out.kind == kind
    ensures Loses(w, rule, rd, op, kind)
    ensures SysAt(Sys(OneWatch(w, rule), map[]), Race(op, rd), Cfg(), 6).db
      == SaveOne(ByOwner(OneWatch(w, rule), op), p)
  {
    hide Committed, ByOwner, Decide, Judged, Found, CanSave, SaveOne;
    var sys, acts, db := Sys(OneWatch(w, rule), map[]), Race(op, rd), ByOwner(OneWatch(w, rule), op);
    FetchedView(w, rule, rd, op, Cfg());
    assert SysAt(sys, acts, Cfg(), 5) == Do(SysAt(sys, acts, Cfg(), 4), acts[4], Cfg());
    RaceEnds(w, rule, rd, op, Cfg(), p);
    SaveOneParts(db, p);
    assert [] + [BatteryMsg(7, 1, kind)] == [BatteryMsg(7, 1, kind)];
  }

  const HOT := Readings(StatusOK, 4300, 90, false, 3300, 3000)
  const WEAK := Readings(StatusOK, 3200, 90, false, 3300, 3000)
  const WATCHED := Settings(0, 0, true, 4250)
  const SWITCH_OFF := UpdateLevels(7, 1, FOLLOW_SITE, 101)
  const LOWER_LEVELS := UpdateLevels(7, 1, Settings(3000, 2900, false, 0), 101)
  const MUTE := SetMute(7, 1, 1000)

  /** What the check decides of each example, before its owner acts. */
  lemma DecidesTo(s: Settings, rd: Readings, kind: B.Kind, level: B.Level) returns (p: Plan)
    requires (s, rd, kind, level) in {(WATCHED, HOT, B.OverchargedKind, B.Overcharged),
      (FOLLOW_SITE, WEAK, B.LowKind, B.Low)}
    ensures Decide(OneView(NO_WISH, OKRule(s), rd), 1, NO_WISH, Cfg()) == Save(p)
    ensures p.watchID == 1 && p.watch == NO_WISH && p.old_ == OKRule(s) && p.out.notify && p.out.kind == kind
    ensures p.st.level == level
  {
    p := Decide(OneView(NO_WISH, OKRule(s), rd), 1, NO_WISH, Cfg()).plan;
  }

  /** And what its owner leaves: the same alert state, for which nothing would be sent. */
  lemma OwnerLeaves(op: OwnerOp, s: Settings, rd: Readings)
    requires (op, s, rd) in {(SWITCH_OFF, WATCHED, HOT), (LOWER_LEVELS, FOLLOW_SITE, WEAK), (MUTE, FOLLOW_SITE, WEAK)}
    ensures var db := ByOwner(OneWatch(NO_WISH, OKRule(s)), op);
            && Found(OneWatch(NO_WISH, OKRule(s)), op) && 1 in db.watches && 1 in db.rules && db.outbox == []
            && CanSave(db, 1, OKRule(s)) && !Judged(100, db.watches[1], db.rules[1], rd, Cfg()).notify
  {
  }

  /** Switched off mid-check, the overcharge alert still goes out, and the rule is left
      overcharged with its switch off. */
  lemma SwitchedOffStillAnnounced()
    ensures Loses(NO_WISH, OKRule(WATCHED), HOT, SWITCH_OFF, B.OverchargedKind)
    ensures NoStrayOvercharge(OneWatch(NO_WISH, OKRule(WATCHED)))
         && !NoStrayOvercharge(
              SysAt(Sys(OneWatch(NO_WISH, OKRule(WATCHED)), map[]), Race(SWITCH_OFF, HOT), Cfg(), 6).db)
  {
    hide SysAt, Decide, Judged, Loses, SaveOne, Cfg;
    var p := DecidesTo(WATCHED, HOT, B.OverchargedKind, B.Overcharged);
    OwnerLeaves(SWITCH_OFF, WATCHED, HOT);
    LosesBy(NO_WISH, OKRule(WATCHED), HOT, SWITCH_OFF, B.OverchargedKind, p);
    StrayExactlyWhen(ByOwner(OneWatch(NO_WISH, OKRule(WATCHED)), SWITCH_OFF), p);
  }

  /** Lowered mid-check to where the battery is fine, the old low level still calls it
      low. No overcharge alert is involved. */
  lemma LoweredLevelStillAnnounced()
    ensures Loses(NO_WISH, OKRule(FOLLOW_SITE), WEAK, LOWER_LEVELS, B.LowKind)
  {
    hide Decide, Judged, Loses, ByOwner, Found, Cfg;
    var p := DecidesTo(FOLLOW_SITE, WEAK, B.LowKind, B.Low);
    OwnerLeaves(LOWER_LEVELS, FOLLOW_SITE, WEAK);
    LosesBy(NO_WISH, OKRule(FOLLOW_SITE), WEAK, LOWER_LEVELS, B.LowKind, p);
  }

  /** Muted mid-check, the watch is still heard from. */
  lemma MutedStillAnnounced()
    ensures Loses(NO_WISH, OKRule(FOLLOW_SITE), WEAK, MUTE, B.LowKind)
  {
    hide Decide, Judged, Loses, ByOwner, Found, Cfg;
    var p := DecidesTo(FOLLOW_SITE, WEAK, B.LowKind, B.Low);
    OwnerLeaves(MUTE, FOLLOW_SITE, WEAK);
    LosesBy(NO_WISH, OKRule(FOLLOW_SITE), WEAK, MUTE, B.LowKind, p);
  }

  // --------------------------------------------------------- a stray overcharge --

  /** Switching overcharge off takes a rule that stands overcharged back to knowing nothing,
      so that any reading, the one that called it so included, is judged afresh and in
      silence; and no other edit of levels touches what a rule stands at. */
  lemma EditedRuleIsJudgedAfresh(db: DB, userID: int, id: int, s: Settings, now: Instant, rd: B.Reading, lv: B.Levels,
                                 pol: B.Policy, prefs: B.Prefs)
    requires Owned(db, userID, id) && id in db.rules && rd.hasBattery && rd.at != 0
    ensures var was, after := db.rules[id], ByOwner(db, UpdateLevels(userID, id, s, now));
            && id in after.rules && after.rules[id].settings == s && after.rules[id].createdAt == was.createdAt
            && after.watches == db.watches && after.outbox == db.outbox
            && (was.st.level != B.Overcharged || s.overchargeOn ==> after.rules[id].st == was.st)
            && (was.st.level == B.Overcharged && !s.overchargeOn ==>
                 JudgedAfresh(B.EvaluateBattery(rd, after.rules[id].st, lv, pol, prefs), rd, lv, pol)
                 && after.rules[id].st.level == B.Unknown && after.rules[id].st.since == now
                 && after.rules[id].st.announced == B.Blank)
  {
    hide B.Classify;
  }

  predicate JudgedAfresh(out: B.Outcome, rd: B.Reading, lv: B.Levels, pol: B.Policy) {
    && out.state.level == B.Classify(rd.mv, B.Unknown, lv, pol.recoverMarginMV)
    && !out.notify && out.state.announced == B.Blank
  }

  /** No rule stands at overcharged with its overcharge alert switched off. */
  predicate NoStrayOvercharge(db: DB) {
    forall id :: id in db.rules ==> NotStray(db.rules[id])
  }

  predicate NotStray(rule: Rule) {
    rule.st.level == B.Overcharged ==> rule.settings.overchargeOn
  }

  lemma OwnerLeavesNoStray(db: DB, op: OwnerOp)
    requires NoStrayOvercharge(db)
    ensures NoStrayOvercharge(ByOwner(db, op))
  {
  }

  /** Exactly when a save leaves one: it lands, says overcharged, and the owner's
      switch is off by then. */
  lemma StrayExactlyWhen(db: DB, p: Plan)
    requires NoStrayOvercharge(db)
    ensures NoStrayOvercharge(SaveOne(db, p))
       <==> !(&& CanSave(db, p.watchID, p.old_) && p.st.level == B.Overcharged
              && !db.rules[p.watchID].settings.overchargeOn)
  {
    if CanSave(db, p.watchID, p.old_) {
      assert p.watchID in SaveOne(db, p).rules && SaveOne(db, p).rules[p.watchID] == db.rules[p.watchID].(st := p.st);
    }
  }

  /** The switch must have been on when the check read it, so only a race does this. */
  lemma StrayNeedsSwitchReadOn(v: View, id: int, w: Watch, cfg: Config)
    requires Decide(v, id, w, cfg).Save? && Decide(v, id, w, cfg).plan.st.level == B.Overcharged
    requires NotStray(v.rules[id])
    ensures v.rules[id].settings.overchargeOn
  {
  }

  // --------------------------------------------------- no stray over whole runs --

  /** A check in flight that has read rules has read these. */
  predicate HasRead(sys: Sys, c: int) {
    c in sys.checks && !sys.checks[c].ReadingRules?
  }

  /** What a check read is still good for: nothing it read was stray, none of it can be
      added by itself, and a switch it read as on is on wherever the rule still is. */
  ghost predicate StillGood(db: DB, rules: map<int, Rule>) {
    forall id :: id in rules ==>
      NotStray(rules[id]) && ChoiceMade(db, id) && (ReadOn(rules, id) && id in db.rules ==> ReadOn(db.rules, id))
  }

  predicate ReadOn(rules: map<int, Rule>, id: int) {
    id in rules && rules[id].settings.overchargeOn
  }

  ghost predicate RulesChosen(db: DB) {
    forall id :: id in db.rules ==> ChoiceMade(db, id)
  }

  /** Nobody switches a rule's overcharge alert off, or makes the rule anew without it,
      while a check that read it as on is in flight. */
  ghost predicate KeepsSwitches(sys: Sys, op: OwnerOp) {
    forall c, id :: HasRead(sys, c) && ReadOn(sys.checks[c].v.rules, id) && id in ByOwner(sys.db, op).rules ==>
      ReadOn(ByOwner(sys.db, op).rules, id)
  }

  ghost predicate Sane(sys: Sys) {
    && NoStrayOvercharge(sys.db) && RulesChosen(sys.db)
    && forall c :: HasRead(sys, c) ==> StillGood(sys.db, sys.checks[c].v.rules)
  }

  lemma {:induction false} AdditionsAreNotOvercharged(v: View, cfg: Config, n: nat)
    requires n <= |v.watches|
    ensures forall i :: 0 <= i < |Additions(v, cfg, n)| ==> Additions(v, cfg, n)[i].st.level != B.Overcharged
  {
    if n > 0 {
      AdditionsAreNotOvercharged(v, cfg, n - 1);
      AdditionIsNotOvercharged(v, v.watches[n - 1].0, v.watches[n - 1].1, cfg);
    }
    hide Decide;
  }

  lemma AdditionIsNotOvercharged(v: View, id: int, w: Watch, cfg: Config)
    ensures Decide(v, id, w, cfg).Add? ==> Decide(v, id, w, cfg).addition.st.level != B.Overcharged
  {
    hide B.EvaluateBattery;
  }

  lemma {:induction false} AddAllLeavesNoStray(db: DB, adds: seq<Addition>, n: nat, now: Instant)
    requires n <= |adds| && NoStrayOvercharge(db) && forall i :: 0 <= i < |adds| ==> adds[i].st.level != B.Overcharged
    ensures NoStrayOvercharge(AddAll(db, adds, n, now))
  {
    if n > 0 {
      AddAllLeavesNoStray(db, adds, n - 1, now);
    }
  }

  /** The plan is for a rule that was read, and says overcharged only of one that was
      read with its switch on. */
  predicate ReadSo(v: View, p: Plan) {
    p.watchID in v.rules && (p.st.level == B.Overcharged ==> v.rules[p.watchID].settings.overchargeOn)
  }

  lemma DecidedSo(v: View, id: int, w: Watch, cfg: Config)
    requires Decide(v, id, w, cfg).Save? && NotStray(v.rules[id])
    ensures ReadSo(v, Decide(v, id, w, cfg).plan)
  {
    if Decide(v, id, w, cfg).plan.st.level == B.Overcharged {
      StrayNeedsSwitchReadOn(v, id, w, cfg);
    }
  }

  lemma {:induction false} PlansReadSo(v: View, cfg: Config, n: nat)
    requires n <= |v.watches| && forall id :: id in v.rules ==> NotStray(v.rules[id])
    ensures forall i :: 0 <= i < |Plans(v, cfg, n)| ==> ReadSo(v, Plans(v, cfg, n)[i])
  {
    hide ReadSo;
    if n > 0 {
      PlansReadSo(v, cfg, n - 1);
      var w := v.watches[n - 1];
      if Decide(v, w.0, w.1, cfg).Save? {
        SaveIsOfARule(v, w.0, w.1, cfg);
        DecidedSo(v, w.0, w.1, cfg);
      }
      hide Decide;
    }
  }

  lemma SaveIsOfARule(v: View, id: int, w: Watch, cfg: Config)
    requires Decide(v, id, w, cfg).Save?
    ensures id in v.rules
  {
  }

  lemma FinalPlansReadSo(v: View, cfg: Config)
    requires forall id :: id in v.rules ==> NotStray(v.rules[id])
    ensures forall i :: 0 <= i < |FinalPlans(v, cfg)| ==> ReadSo(v, FinalPlans(v, cfg)[i])
  {
    hide Plans, Entering;
    PlansReadSo(v, cfg, |v.watches|);
  }

  lemma WriteLeavesNoStray(db: DB, v: View, cfg: Config)
    requires NoStrayOvercharge(db) && StillGood(db, v.rules)
    ensures NoStrayOvercharge(Committed(db, v, cfg))
  {
    forall id | id in Committed(db, v, cfg).rules ensures NotStray(Committed(db, v, cfg).rules[id]) {
      WriteLeavesRuleSo(db, v, cfg, id);
    }
  }

  lemma WriteLeavesRuleSo(db: DB, v: View, cfg: Config, id: int)
    requires NoStrayOvercharge(db) && StillGood(db, v.rules) && id in Committed(db, v, cfg).rules
    ensures NotStray(Committed(db, v, cfg).rules[id])
  {
    hide Plans, Additions, AfterBreaker, AddAll, SaveAll, TellAll, Mentioned, Grouping.Keys, SameAlertState, ChoiceMade;
    var adds, plans := Additions(v, cfg, |v.watches|), FinalPlans(v, cfg);
    AdditionsAreNotOvercharged(v, cfg, |v.watches|);
    AddAllLeavesNoStray(db, adds, |adds|, v.now);
    AddAllNeedsChoice(db, adds, |adds|, v.now, id);
    AddAllKeepsExisting(db, adds, |adds|, v.now, id);
    FinalPlansReadSo(v, cfg);
    var db1 := AddAll(db, adds, |adds|, v.now);
    SaveAllOnlyLands(db1, plans, |plans|, id);
    var items := Mentioned(db, adds, |adds|, v.now);
    TellAllKeepsRules(SaveAll(db1, plans, |plans|), items, |Grouping.Keys(items)|, id);
    if Committed(db, v, cfg).rules[id].st != db1.rules[id].st {
      var j :| 0 <= j < |plans| && plans[j].watchID == id && Committed(db, v, cfg).rules[id].st == plans[j].st;
      assert ReadSo(v, plans[j]);
    }
  }

  lemma WriteKeepsRead(db: DB, v: View, cfg: Config, rules: map<int, Rule>)
    requires StillGood(db, rules) && RulesChosen(db)
    ensures StillGood(Committed(db, v, cfg), rules) && RulesChosen(Committed(db, v, cfg))
  {
    hide Committed, NotStray, ChoiceMade;
    var after := Committed(db, v, cfg);
    forall id
      ensures ChoiceMade(db, id) ==> ChoiceMade(after, id) && (id in after.rules ==> id in db.rules)
      ensures id in after.rules && id !in db.rules ==> ChoiceMade(after, id)
      ensures id in db.rules && id in after.rules ==> after.rules[id].settings == db.rules[id].settings
    {
      WriteAddsOnlyWithoutChoice(db, v, cfg, id);
      WriteOnlyLandsOnWhatItRead(db, v, cfg, id);
    }
  }

  lemma OwnerKeepsRead(db: DB, op: OwnerOp, rules: map<int, Rule>)
    requires StillGood(db, rules) && RulesChosen(db)
    requires forall id :: ReadOn(rules, id) && id in ByOwner(db, op).rules ==> ReadOn(ByOwner(db, op).rules, id)
    ensures StillGood(ByOwner(db, op), rules)
  {
    hide NotStray;
  }

  lemma OwnerKeepsChosen(db: DB, op: OwnerOp)
    requires RulesChosen(db)
    ensures RulesChosen(ByOwner(db, op))
  {
  }

  lemma StepStaysSane(sys: Sys, a: Action, cfg: Config)
    requires Sane(sys) && (a.Owner? ==> KeepsSwitches(sys, a.op))
    ensures Sane(Do(sys, a, cfg))
  {
    hide Committed, ByOwner, NoStrayOvercharge, StillGood, RulesChosen;
    match a
    case Owner(op) =>
      OwnerLeavesNoStray(sys.db, op);
      OwnerKeepsChosen(sys.db, op);
      forall c | HasRead(sys, c) ensures StillGood(ByOwner(sys.db, op), sys.checks[c].v.rules) {
        OwnerKeepsRead(sys.db, op, sys.checks[c].v.rules);
      }
    case ReadRules(id) => RulesAreGood(sys.db);
    case Write(id, commits) =>
      if id in sys.checks && sys.checks[id].Ready? {
        assert HasRead(sys, id);
        var v := sys.checks[id].v;
        WriteLeavesNoStray(sys.db, v, cfg);
        WriteKeepsRead(sys.db, v, cfg, v.rules);
        forall c | HasRead(sys, c) ensures StillGood(Committed(sys.db, v, cfg), sys.checks[c].v.rules) {
          WriteKeepsRead(sys.db, v, cfg, sys.checks[c].v.rules);
        }
      }
    case _ =>
  }

  lemma RulesAreGood(db: DB)
    requires NoStrayOvercharge(db) && RulesChosen(db)
    ensures StillGood(db, db.rules)
  {
  }

  /** In every interleaving, no rule is left overcharged with its switch off unless an
      owner switches it off between some check's read of it and that check's write. */
  lemma {:induction false} OnlyARaceLeavesStray(sys: Sys, acts: seq<Action>, cfg: Config, k: nat)
    requires k <= |acts| && Sane(sys)
    requires forall i :: 0 <= i < k && acts[i].Owner? ==> KeepsSwitches(SysAt(sys, acts, cfg, i), acts[i].op)
    ensures Sane(SysAt(sys, acts, cfg, k)) && NoStrayOvercharge(SysAt(sys, acts, cfg, k).db)
  {
    hide Do, NoStrayOvercharge, StillGood, RulesChosen, KeepsSwitches;
    if k > 0 {
      OnlyARaceLeavesStray(sys, acts, cfg, k - 1);
      StepStaysSane(SysAt(sys, acts, cfg, k - 1), acts[k - 1], cfg);
    }
  }
}
