/** What a whole battery check does to each watch, read off the watch, its rule and what
    was fetched for it (internal/poller/battery.go). */
module BatteryEffects {
  import B = BatteryMachine
  import opened BatteryStore
  import opened BatteryCheck
  import opened BatteryRace
  import Grouping

  /** Watches come once each, in any order. */
  ghost predicate Reads(db: DB, order: seq<int>) {
    && (forall i :: 0 <= i < |order| ==> order[i] in db.watches)
    && forall i, j :: 0 <= i < j < |order| ==> order[i] != order[j]
  }

  /** The alerts and recoveries of one watch. */
  function About(ms: seq<Message>, watchID: int): seq<Message> {
    if ms == [] then []
    else
      var m := ms[|ms| - 1];
      About(ms[..|ms| - 1], watchID) + if m.BatteryMsg? && m.watchID == watchID then [m] else []
  }

  lemma AboutAppend(ms: seq<Message>, m: Message, watchID: int)
    ensures About(ms + [m], watchID) == About(ms, watchID) + if m.BatteryMsg? && m.watchID == watchID then [m] else []
  {
    assert (ms + [m])[..|ms|] == ms;
  }

  /** The level changes recorded of one watch. */
  function Recorded(es: seq<Event>, watchID: int): seq<Event> {
    if es == [] then []
    else
      var e := es[|es| - 1];
      Recorded(es[..|es| - 1], watchID) + if e.watchID == watchID then [e] else []
  }

  lemma RecordedAppend(es: seq<Event>, e: Event, watchID: int)
    ensures Recorded(es + [e], watchID) == Recorded(es, watchID) + if e.watchID == watchID then [e] else []
  {
    assert (es + [e])[..|es|] == es;
  }

  /** What was fetched says something of the battery. */
  predicate HasNews(w: Watch, f: Fetched) {
    w.isNode && f.Report? && f.rd.status != StatusUnknown
  }

  /** The rule would alert, breaker aside. */
  predicate WouldAlert(db: DB, fetch: string -> Fetched, now: Instant, cfg: Config, id: int) {
    && id in db.watches && id in db.rules && HasNews(db.watches[id], fetch(db.watches[id].targetKey))
    && var out := Judged(now, db.watches[id], db.rules[id], fetch(db.watches[id].targetKey).rd, cfg);
       out.notify && out.kind != B.RecoveredKind
  }

  /** More of the watches read would alert than one check may. */
  predicate TooMany(db: DB, order: seq<int>, fetch: string -> Fetched, now: Instant, cfg: Config) {
    |Alerting(db, order, fetch, now, cfg, |order|)| > cfg.maxNewAlertsPerPoll
  }

  /** Those of the first n watches read that would alert. */
  function Alerting(db: DB, order: seq<int>, fetch: string -> Fetched, now: Instant, cfg: Config, n: nat): set<nat>
    requires n <= |order|
  {
    set i | 0 <= i < n && WouldAlert(db, fetch, now, cfg, order[i])
  }

  // --------------------------------------------------------------- the decisions --

  lemma DecisionAt(db: DB, order: seq<int>, fetch: string -> Fetched, now: Instant, cfg: Config, i: nat)
    requires Reads(db, order) && i < |order|
    ensures var v := ViewAt(db, order, fetch, now);
            var id, w, f := order[i], db.watches[order[i]], fetch(db.watches[order[i]].targetKey);
            && |v.watches| == |order| && v.watches[i] == (id, w) && v.rules == db.rules
            && Decide(v, id, w, cfg)
                 == if id in db.rules then
                      (if !HasNews(w, f) || !Judged(now, w, db.rules[id], f.rd, cfg).changed then Skip
                       else
                         var out := Judged(now, w, db.rules[id], f.rd, cfg);
                         Save(Plan(id, w, db.rules[id], out.state, out)))
                    else if MayBeAdded(db, w, f) then
                      Add(Addition(id, w.userID, StartingState(f.rd, cfg), Muted(w, now)))
                    else Skip
  {
    hide Judged, StartingState;
    var v := ViewAt(db, order, fetch, now);
    var w := db.watches[order[i]];
    ReportsAre(v.watches, v.rules, v.auto, fetch, w.targetKey);
    assert v.watches[i] == (order[i], w);
    if w.isNode && (order[i] in db.rules || WantsAuto(w, v.auto)) {
      assert Needed(v.watches, v.rules, v.auto, w.targetKey);
    }
  }

  /** Nobody has chosen, the owner wants rules added, and there is a battery read lately. */
  predicate MayBeAdded(db: DB, w: Watch, f: Fetched) {
    && w.isNode && w.batteryAddedAt == 0 && w.userID in db.users && db.users[w.userID].autoBattery
    && f.Report? && f.rd.status in {StatusOK, StatusLow, StatusCritical} && !f.rd.stale
  }

  ghost predicate OncePer(v: View) {
    forall i, j :: 0 <= i < j < |v.watches| ==> v.watches[i].0 != v.watches[j].0
  }

  function DecisionOf(v: View, cfg: Config, i: nat): Decision
    requires i < |v.watches|
  {
    Decide(v, v.watches[i].0, v.watches[i].1, cfg)
  }

  lemma DecisionNamesWatch(v: View, cfg: Config, i: nat)
    requires i < |v.watches|
    ensures var d := DecisionOf(v, cfg, i);
            && (d.Save? ==> d.plan.watchID == v.watches[i].0)
            && (d.Add? ==> d.addition.watchID == v.watches[i].0)
  {
    hide Judged, StartingState;
  }

  predicate HasPlan(ps: seq<Plan>, id: int) {
    exists k :: 0 <= k < |ps| && ps[k].watchID == id
  }

  lemma HasPlanAppend(ps: seq<Plan>, p: Plan, id: int)
    ensures HasPlan(ps + [p], id) <==> HasPlan(ps, id) || p.watchID == id
  {
    var all := ps + [p];
    assert all[|ps|] == p;
    if HasPlan(ps, id) {
      var k :| 0 <= k < |ps| && ps[k].watchID == id;
      assert all[k].watchID == id;
    }
  }

  /** It has a plan exactly when that was decided, and then the one decided on. */
  lemma {:induction false} PlansHold(v: View, cfg: Config, n: nat, i: nat)
    requires i < n <= |v.watches| && DecisionOf(v, cfg, i).Save?
    ensures |Plans(v, cfg, i)| < |Plans(v, cfg, n)|
    ensures Plans(v, cfg, n)[|Plans(v, cfg, i)|] == DecisionOf(v, cfg, i).plan
  {
    hide Decide;
    if i < n - 1 {
      PlansHold(v, cfg, n - 1, i);
    }
  }

  lemma {:induction false} PlansLack(v: View, cfg: Config, n: nat, id: int)
    requires n <= |v.watches|
    requires forall j :: 0 <= j < n && v.watches[j].0 == id ==> !DecisionOf(v, cfg, j).Save?
    ensures !HasPlan(Plans(v, cfg, n), id)
  {
    hide Decide, HasPlan;
    if n > 0 {
      PlansLack(v, cfg, n - 1, id);
      PlanOne(v, cfg, n - 1);
      DecisionNamesWatch(v, cfg, n - 1);
      if DecisionOf(v, cfg, n - 1).Save? {
        HasPlanAppend(Plans(v, cfg, n - 1), DecisionOf(v, cfg, n - 1).plan, id);
      }
    } else {
      NoPlan(id);
    }
  }

  lemma NoPlan(id: int)
    ensures !HasPlan([], id)
  {
  }

  predicate HasAddition(ps: seq<Addition>, id: int) {
    exists k :: 0 <= k < |ps| && ps[k].watchID == id
  }

  lemma HasAdditionAppend(ps: seq<Addition>, p: Addition, id: int)
    ensures HasAddition(ps + [p], id) <==> HasAddition(ps, id) || p.watchID == id
  {
    var all := ps + [p];
    assert all[|ps|] == p;
    if HasAddition(ps, id) {
      var k :| 0 <= k < |ps| && ps[k].watchID == id;
      assert all[k].watchID == id;
    }
  }

  /** It has an addition exactly when that was decided, and then the one decided on. */
  lemma {:induction false} AdditionsHold(v: View, cfg: Config, n: nat, i: nat)
    requires i < n <= |v.watches| && DecisionOf(v, cfg, i).Add?
    ensures |Additions(v, cfg, i)| < |Additions(v, cfg, n)|
    ensures Additions(v, cfg, n)[|Additions(v, cfg, i)|] == DecisionOf(v, cfg, i).addition
  {
    hide Decide;
    if i < n - 1 {
      AdditionsHold(v, cfg, n - 1, i);
    }
  }

  lemma {:induction false} AdditionsLack(v: View, cfg: Config, n: nat, id: int)
    requires n <= |v.watches|
    requires forall j :: 0 <= j < n && v.watches[j].0 == id ==> !DecisionOf(v, cfg, j).Add?
    ensures !HasAddition(Additions(v, cfg, n), id)
  {
    hide Decide, HasAddition;
    if n > 0 {
      AdditionsLack(v, cfg, n - 1, id);
      PlanOne(v, cfg, n - 1);
      DecisionNamesWatch(v, cfg, n - 1);
      if DecisionOf(v, cfg, n - 1).Add? {
        HasAdditionAppend(Additions(v, cfg, n - 1), DecisionOf(v, cfg, n - 1).addition, id);
      }
    } else {
      NoAddition(id);
    }
  }

  lemma NoAddition(id: int)
    ensures !HasAddition([], id)
  {
  }

  ghost predicate OneEach(plans: seq<Plan>) {
    forall i, j :: 0 <= i < j < |plans| ==> plans[i].watchID != plans[j].watchID
  }

  lemma {:induction false} PlansAreOneEach(v: View, cfg: Config, n: nat)
    requires OncePer(v) && n <= |v.watches|
    ensures OneEach(Plans(v, cfg, n))
  {
    hide Decide;
    if n > 0 {
      PlansAreOneEach(v, cfg, n - 1);
      forall j | 0 <= j < n - 1 ensures v.watches[j].0 != v.watches[n - 1].0 {
      }
      PlansLack(v, cfg, n - 1, v.watches[n - 1].0);
      DecisionNamesWatch(v, cfg, n - 1);
    }
  }

  ghost predicate OneEachAdded(adds: seq<Addition>) {
    forall i, j :: 0 <= i < j < |adds| ==> adds[i].watchID != adds[j].watchID
  }

  lemma {:induction false} AdditionsAreOneEach(v: View, cfg: Config, n: nat)
    requires OncePer(v) && n <= |v.watches|
    ensures OneEachAdded(Additions(v, cfg, n))
  {
    hide Decide;
    if n > 0 {
      AdditionsAreOneEach(v, cfg, n - 1);
      forall j | 0 <= j < n - 1 ensures v.watches[j].0 != v.watches[n - 1].0 {
      }
      AdditionsLack(v, cfg, n - 1, v.watches[n - 1].0);
      DecisionNamesWatch(v, cfg, n - 1);
    }
  }

  // ------------------------------------------------------------- the transaction --

  predicate SameAbout(a: DB, b: DB, id: int) {
    && (id in a.rules <==> id in b.rules) && (id in a.rules ==> a.rules[id] == b.rules[id])
    && About(a.outbox, id) == About(b.outbox, id) && Recorded(a.events, id) == Recorded(b.events, id)
  }

  /** What is recorded of a judgement that is saved. */
  function EventsFor(out: B.Outcome, id: int): seq<Event> {
    if out.state.level != out.from then [Event(id, out.from, out.state.level, out.notify)] else []
  }

  lemma SaveOneAbout(db: DB, p: Plan, id: int)
    ensures p.watchID != id ==> SameAbout(db, SaveOne(db, p), id)
    ensures p.watchID == id && id in db.rules && db.rules[id] == p.old_ ==>
      var after := SaveOne(db, p);
      && id in after.rules && after.rules[id] == p.old_.(st := p.st)
      && About(after.outbox, id)
           == About(db.outbox, id) + (if p.out.notify then [BatteryMsg(p.watch.userID, id, p.out.kind)] else [])
      && Recorded(after.events, id) == Recorded(db.events, id) + EventsFor(p.out, id)
  {
    hide SaveOne, About, Recorded;
    SaveOneParts(db, p);
    AboutAppend(db.outbox, BatteryMsg(p.watch.userID, p.watchID, p.out.kind), id);
    RecordedAppend(db.events, Event(p.watchID, p.out.from, p.out.state.level, p.out.notify), id);
    assert Recorded(db.events, id) + [] == Recorded(db.events, id);
  }

  lemma {:induction false} SaveAllSkips(db: DB, plans: seq<Plan>, n: nat, id: int)
    requires n <= |plans| && !HasPlan(plans[..n], id)
    ensures SameAbout(db, SaveAll(db, plans, n), id)
  {
    hide SaveOne, About, Recorded, HasPlan;
    if n > 0 {
      assert plans[..n] == plans[..n - 1] + [plans[n - 1]];
      HasPlanAppend(plans[..n - 1], plans[n - 1], id);
      SaveAllSkips(db, plans, n - 1, id);
      SaveOneAbout(SaveAll(db, plans, n - 1), plans[n - 1], id);
    }
  }

  lemma {:induction false} SaveAllLands(db: DB, plans: seq<Plan>, n: nat, k: nat)
    requires k < n <= |plans| && OneEach(plans)
    requires plans[k].watchID in db.rules && db.rules[plans[k].watchID] == plans[k].old_
    ensures var p, after := plans[k], SaveAll(db, plans, n);
            && p.watchID in after.rules && after.rules[p.watchID] == p.old_.(st := p.st)
            && About(after.outbox, p.watchID)
                 == About(db.outbox, p.watchID)
                    + (if p.out.notify then [BatteryMsg(p.watch.userID, p.watchID, p.out.kind)] else [])
            && Recorded(after.events, p.watchID) == Recorded(db.events, p.watchID) + EventsFor(p.out, p.watchID)
  {
    hide SaveOne, About, Recorded;
    var id := plans[k].watchID;
    if k < n - 1 {
      SaveAllLands(db, plans, n - 1, k);
    } else {
      SaveAllSkips(db, plans, n - 1, id);
    }
    SaveOneAbout(SaveAll(db, plans, n - 1), plans[n - 1], id);
  }

  lemma {:induction false} AddAllSkips(db: DB, adds: seq<Addition>, n: nat, now: Instant, id: int)
    requires n <= |adds| && !HasAddition(adds[..n], id)
    ensures var after := AddAll(db, adds, n, now);
            && SameAbout(db, after, id) && after.outbox == db.outbox && after.users == db.users
            && (id in after.watches <==> id in db.watches)
            && (id in db.watches ==> after.watches[id] == db.watches[id])
  {
    hide HasAddition;
    if n > 0 {
      assert adds[..n] == adds[..n - 1] + [adds[n - 1]];
      HasAdditionAppend(adds[..n - 1], adds[n - 1], id);
      AddAllSkips(db, adds, n - 1, now, id);
    }
  }

  /** A rule as it is inserted: the time stands in for a reading without one. */
  function Inserted(st: B.BatteryState, now: Instant): Rule {
    Rule(FOLLOW_SITE, now, if st.since == 0 then st.(since := now) else st)
  }

  lemma {:induction false} AddAllLands(db: DB, adds: seq<Addition>, n: nat, now: Instant, k: nat)
    requires k < n <= |adds| && OneEachAdded(adds) && adds[k].st.level != B.Blank && CanAutoAdd(db, adds[k].watchID)
    ensures var id, after := adds[k].watchID, AddAll(db, adds, n, now);
            && id in after.rules && after.rules[id] == Inserted(adds[k].st, now)
            && id in after.watches && after.watches[id] == db.watches[id].(batteryAddedAt := now)
            && after.outbox == db.outbox
  {
    if k < n - 1 {
      AddAllLands(db, adds, n - 1, now, k);
    } else {
      AddAllSkips(db, adds, n - 1, now, adds[k].watchID);
    }
    AddAllQueuesNothing(db, adds, n, now);
  }

  lemma {:induction false} TellAllSkips(db: DB, items: seq<(int, int)>, n: nat, id: int)
    requires n <= |Grouping.Keys(items)|
    ensures SameAbout(db, TellAll(db, items, n), id)
  {
    hide TellOne, Grouping.Keys, Grouping.Pick, About, Recorded;
    if n > 0 {
      TellAllSkips(db, items, n - 1, id);
      var u := Grouping.Keys(items)[n - 1];
      TellOneSkips(TellAll(db, items, n - 1), u, Grouping.Pick(items, u), id);
    }
  }

  lemma TellOneSkips(db: DB, userID: int, watchIDs: seq<int>, id: int)
    ensures SameAbout(db, TellOne(db, userID, watchIDs), id)
  {
    hide About;
    AboutAppend(db.outbox, EnabledMsg(userID, watchIDs), id);
  }

  // ----------------------------------------------------------------- the breaker --

  lemma AlertingStep(db: DB, order: seq<int>, fetch: string -> Fetched, now: Instant, cfg: Config, n: nat)
    requires 0 < n <= |order|
    ensures |Alerting(db, order, fetch, now, cfg, n)|
         == |Alerting(db, order, fetch, now, cfg, n - 1)|
            + if WouldAlert(db, fetch, now, cfg, order[n - 1]) then 1 else 0
  {
    hide WouldAlert;
    var before := Alerting(db, order, fetch, now, cfg, n - 1);
    assert n - 1 !in before;
    assert Alerting(db, order, fetch, now, cfg, n)
        == before + if WouldAlert(db, fetch, now, cfg, order[n - 1]) then {n - 1} else {};
  }

  lemma TellingIsAChange(now: Instant, w: Watch, rule: Rule, rd: Readings, cfg: Config)
    ensures Judged(now, w, rule, rd, cfg).notify ==> Judged(now, w, rule, rd, cfg).changed
  {
    hide B.ResolveLevels, B.Classify;
  }

  lemma PlanAlertsExactlyWhen(db: DB, order: seq<int>, fetch: string -> Fetched, now: Instant, cfg: Config, i: nat)
    requires Reads(db, order) && i < |order|
    ensures var v := ViewAt(db, order, fetch, now);
            && i < |v.watches|
            && var d := DecisionOf(v, cfg, i);
               WouldAlert(db, fetch, now, cfg, order[i]) <==> d.Save? && Alerts(d.plan)
  {
    DecisionAt(db, order, fetch, now, cfg, i);
    hide Judged, StartingState, Decide, ViewAt;
    var w := db.watches[order[i]];
    if order[i] in db.rules && HasNews(w, fetch(w.targetKey)) {
      TellingIsAChange(now, w, db.rules[order[i]], fetch(w.targetKey).rd, cfg);
    }
  }

  lemma {:induction false} EnteringIsAlerting(
    db: DB, order: seq<int>, fetch: string -> Fetched, now: Instant, cfg: Config, n: nat)
    requires Reads(db, order) && n <= |order| == |ViewAt(db, order, fetch, now).watches|
    ensures Entering(Plans(ViewAt(db, order, fetch, now), cfg, n)) == |Alerting(db, order, fetch, now, cfg, n)|
  {
    hide Decide, ViewAt, WouldAlert, Alerting, Entering, Alerts;
    var v := ViewAt(db, order, fetch, now);
    if n > 0 {
      EnteringIsAlerting(db, order, fetch, now, cfg, n - 1);
      PlanAlertsExactlyWhen(db, order, fetch, now, cfg, n - 1);
      AlertingStep(db, order, fetch, now, cfg, n);
      PlanOne(v, cfg, n - 1);
      if DecisionOf(v, cfg, n - 1).Save? {
        EnteringAppend(Plans(v, cfg, n - 1), DecisionOf(v, cfg, n - 1).plan);
      }
    } else {
      NothingPlanned(v);
      NobodyAlerts(db, order, fetch, now, cfg);
    }
  }

  lemma NobodyAlerts(db: DB, order: seq<int>, fetch: string -> Fetched, now: Instant, cfg: Config)
    ensures Alerting(db, order, fetch, now, cfg, 0) == {}
  {
    hide WouldAlert;
  }

  /** The plans a check writes: those decided on, announcements withheld when too many. */
  lemma FinalPlansFollow(v: View, cfg: Config, id: int)
    requires OncePer(v)
    ensures var ps, final := Plans(v, cfg, |v.watches|), FinalPlans(v, cfg);
            && |final| == |ps| && OneEach(final)
            && (HasPlan(final, id) ==> HasPlan(ps, id))
            && forall k :: 0 <= k < |ps| ==>
                 final[k] == if Entering(ps) > cfg.maxNewAlertsPerPoll then Withheld(ps[k]) else ps[k]
  {
    PlansAreOneEach(v, cfg, |v.watches|);
    hide Plans, OncePer, Entering;
  }

  /** Messages of switched-on rules and inserted rules leave a ruled watch alone. */
  lemma AroundTheSaves(db: DB, v: View, cfg: Config, id: int)
    requires !HasAddition(Additions(v, cfg, |v.watches|), id)
    ensures var adds, plans := Additions(v, cfg, |v.watches|), FinalPlans(v, cfg);
            var db1 := AddAll(db, adds, |adds|, v.now);
            SameAbout(db, db1, id) && SameAbout(SaveAll(db1, plans, |plans|), Committed(db, v, cfg), id)
  {
    hide Additions, FinalPlans, AddAll, SaveAll, TellAll, Mentioned, Grouping.Keys, HasAddition, SameAbout;
    var adds, plans := Additions(v, cfg, |v.watches|), FinalPlans(v, cfg);
    assert adds[..|adds|] == adds;
    AddAllSkips(db, adds, |adds|, v.now, id);
    var items := Mentioned(db, adds, |adds|, v.now);
    TellAllSkips(SaveAll(AddAll(db, adds, |adds|, v.now), plans, |plans|), items, |Grouping.Keys(items)|, id);
  }

  lemma ViewIsOncePer(db: DB, order: seq<int>, fetch: string -> Fetched, now: Instant)
    requires Reads(db, order)
    ensures var v := ViewAt(db, order, fetch, now); OncePer(v) && |v.watches| == |order| && v.now == now
    ensures forall i :: 0 <= i < |order| ==>
      ViewAt(db, order, fetch, now).watches[i] == (order[i], db.watches[order[i]])
  {
    hide Reports;
  }

  /** What a check does with one rule: nothing without news; else it is judged, saved when
      that changed anything, and told of unless the breaker withholds it. */
  lemma CheckJudgesEachRule(db: DB, order: seq<int>, fetch: string -> Fetched, now: Instant, cfg: Config, i: nat)
    requires Reads(db, order) && i < |order| && order[i] in db.rules
    ensures var id, w, f := order[i], db.watches[order[i]], fetch(db.watches[order[i]].targetKey);
            var after := Checked(db, order, fetch, now, cfg);
            if !HasNews(w, f) then SameAbout(db, after, id)
            else
              var rule := db.rules[id];
              var out := Judged(now, w, rule, f.rd, cfg);
              var withheld := WouldAlert(db, fetch, now, cfg, id) && TooMany(db, order, fetch, now, cfg);
              && id in after.rules
              && after.rules[id]
                   == (if !out.changed then rule
                     else if withheld then rule.(st := out.state.(announced := rule.st.announced))
                     else rule.(st := out.state))
              && About(after.outbox, id)
                   == About(db.outbox, id)
                      + (if out.notify && !withheld then [BatteryMsg(w.userID, id, out.kind)] else [])
              && Recorded(after.events, id)
                   == Recorded(db.events, id)
                      + (if out.state.level != out.from && out.changed
                         then [Event(id, out.from, out.state.level, out.notify && !withheld)] else [])
  {
    hide Judged, StartingState, Decide, ViewAt, About, Recorded, Plans, Additions, FinalPlans, SaveAll, AddAll;
    hide Committed, Alerting, Entering, OneEach, HasPlan, HasAddition, OncePer;
    var v, id, w := ViewAt(db, order, fetch, now), order[i], db.watches[order[i]];
    var n := |v.watches|;
    ViewIsOncePer(db, order, fetch, now);
    DecisionAt(db, order, fetch, now, cfg, i);
    PlanAlertsExactlyWhen(db, order, fetch, now, cfg, i);
    EnteringIsAlerting(db, order, fetch, now, cfg, n);
    FinalPlansFollow(v, cfg, id);
    OnlyDecision(v, cfg, i);
    AroundTheSaves(db, v, cfg, id);
    var plans, db1 := FinalPlans(v, cfg), AddAll(db, Additions(v, cfg, n), |Additions(v, cfg, n)|, v.now);
    var d := DecisionOf(v, cfg, i);
    if d.Save? {
      PlansHold(v, cfg, n, i);
      SaveAllLands(db1, plans, |plans|, |Plans(v, cfg, i)|);
    } else {
      assert plans[..|plans|] == plans;
      SaveAllSkips(db1, plans, |plans|, id);
      if HasNews(w, fetch(w.targetKey)) {
        TellingIsAChange(now, w, db.rules[id], fetch(w.targetKey).rd, cfg);
      }
    }
  }

  lemma OnlyDecision(v: View, cfg: Config, i: nat)
    requires OncePer(v) && i < |v.watches|
    ensures var d, n := DecisionOf(v, cfg, i), |v.watches|;
            && (!d.Save? ==> !HasPlan(Plans(v, cfg, n), v.watches[i].0))
            && (!d.Add? ==> !HasAddition(Additions(v, cfg, n), v.watches[i].0))
  {
    hide Decide;
    var d, n := DecisionOf(v, cfg, i), |v.watches|;
    forall j | 0 <= j < n && v.watches[j].0 == v.watches[i].0 ensures j == i {
    }
    if !d.Save? {
      PlansLack(v, cfg, n, v.watches[i].0);
    }
    if !d.Add? {
      AdditionsLack(v, cfg, n, v.watches[i].0);
    }
  }

  // ------------------------------------------------------------- what that comes to --

  /** A failed fetch, no report, a report of nothing lately, or a target that is no node:
      the rule stays exactly as it is, and nothing is said. */
  lemma NoNewsKeepsTheRule(db: DB, order: seq<int>, fetch: string -> Fetched, now: Instant, cfg: Config, i: nat)
    requires Reads(db, order) && i < |order| && order[i] in db.rules
    requires var w := db.watches[order[i]];
             !w.isNode || !fetch(w.targetKey).Report? || fetch(w.targetKey).rd.status == StatusUnknown
    ensures SameAbout(db, Checked(db, order, fetch, now, cfg), order[i])
  {
    hide Judged, Checked, SameAbout;
    CheckJudgesEachRule(db, order, fetch, now, cfg, i);
  }

  /** A battery reported as not fitted: its level, its candidate and its announcement are
      all forgotten, and nothing is said. */
  lemma GoneBatteryIsForgotten(db: DB, order: seq<int>, fetch: string -> Fetched, now: Instant, cfg: Config, i: nat)
    requires Reads(db, order) && i < |order| && order[i] in db.rules && B.WellFormed(db.rules[order[i]].st)
    requires var w := db.watches[order[i]];
             w.isNode && fetch(w.targetKey).Report? && fetch(w.targetKey).rd.status == StatusNone
    ensures var id, after := order[i], Checked(db, order, fetch, now, cfg);
            && id in after.rules
            && after.rules[id].st.level == B.Unknown && after.rules[id].st.announced == B.Blank
            && after.rules[id].st.candidate == B.Blank && after.rules[id].st.candidateCount == 0
            && after.rules[id].settings == db.rules[id].settings
            && About(after.outbox, id) == About(db.outbox, id)
  {
    hide Checked, About, Recorded, TooMany;
    CheckJudgesEachRule(db, order, fetch, now, cfg, i);
    assert About(db.outbox, order[i]) + [] == About(db.outbox, order[i]);
  }

  /** A muted watch hears nothing, and one that wants no recoveries hears of none. */
  lemma PreferencesAreKept(db: DB, order: seq<int>, fetch: string -> Fetched, now: Instant, cfg: Config, i: nat)
    requires Reads(db, order) && i < |order| && order[i] in db.rules
    ensures var id, w, after := order[i], db.watches[order[i]], Checked(db, order, fetch, now, cfg);
            && (w.mutedUntil != 0 && now < w.mutedUntil ==> About(after.outbox, id) == About(db.outbox, id))
            && (!w.notifyRecovery ==> Recoveries(after.outbox, id) == Recoveries(db.outbox, id))
  {
    hide Checked, About, Recorded, TooMany, B.EvaluateBattery, B.ResolveLevels, WouldAlert;
    CheckJudgesEachRule(db, order, fetch, now, cfg, i);
    var id, w := order[i], db.watches[order[i]];
    assert About(db.outbox, id) + [] == About(db.outbox, id);
    if HasNews(w, fetch(w.targetKey)) {
      var rd, rule := fetch(w.targetKey).rd, db.rules[id];
      B.MessageExactlyWhen(B.Reading(rd.latestMV, rd.latestAt, rd.status.HasBattery()), rule.st,
        LevelsFor(rule.settings, cfg, rd), cfg.pol, B.Prefs(Muted(w, now), w.notifyRecovery));
    }
    RecoveriesAreAbout(db.outbox, id);
    RecoveriesAreAbout(Checked(db, order, fetch, now, cfg).outbox, id);
    forall k: B.Kind | k != B.RecoveredKind
      ensures Recoveries(About(db.outbox, id) + [BatteryMsg(w.userID, id, k)], id)
           == Recoveries(About(db.outbox, id), id)
    {
      CountsAppend(About(db.outbox, id), BatteryMsg(w.userID, id, k), id);
    }
  }

  lemma {:induction false} RecoveriesAreAbout(ms: seq<Message>, id: int)
    ensures Recoveries(ms, id) == Recoveries(About(ms, id), id)
  {
    if ms != [] {
      var init, m := ms[..|ms| - 1], ms[|ms| - 1];
      RecoveriesAreAbout(init, id);
      assert ms == init + [m];
      hide Recoveries, About;
      AboutAppend(init, m, id);
      CountsAppend(init, m, id);
      CountsAppend(About(init, id), m, id);
      assert About(init, id) + [] == About(init, id);
    }
  }

  /** The levels a rule is judged by: its own, the site's, CoreScope's, the defaults. */
  lemma LevelsOfARule(s: Settings, cfg: Config, rd: Readings)
    ensures var lv := LevelsFor(s, cfg, rd);
            && lv.lowMV == B.OrElse(s.lowMV, B.OrElse(cfg.lowMV, B.OrElse(rd.csLowMV, 3300)))
            && lv.criticalMV == B.OrElse(s.criticalMV, B.OrElse(cfg.criticalMV, B.OrElse(rd.csCriticalMV, 3000)))
            && lv.overchargeMV == if s.overchargeOn then B.OrElse(s.overchargeMV, B.OrElse(cfg.overchargeMV, 0)) else 0
  {
    B.LevelsComeInOrder(s.lowMV, s.criticalMV, s.overchargeOn, s.overchargeMV, cfg.lowMV, cfg.criticalMV,
      cfg.overchargeMV, rd.csLowMV, rd.csCriticalMV);
  }

  /** The level a reading means to a rule that knew none. */
  predicate IsLevelOf(st: B.BatteryState, rd: Readings, lv: B.Levels) {
    && (st.level == B.Overcharged <==> lv.overchargeMV > 0 && rd.latestMV >= lv.overchargeMV)
    && (st.level == B.Critical <==> st.level != B.Overcharged && rd.latestMV < lv.criticalMV)
    && (st.level == B.OK <==> st.level != B.Overcharged && rd.latestMV >= lv.criticalMV && rd.latestMV >= lv.lowMV)
    && B.Known(st.level)
  }

  predicate JustRead(st: B.BatteryState, rd: Readings) {
    st.since == rd.latestAt && st.lastReadingAt == rd.latestAt && st.lastMV == rd.latestMV
  }

  /** The first newer reading of a rule that knows no level sets it at once, in silence. */
  lemma FirstReadingSetsTheLevel(db: DB, order: seq<int>, fetch: string -> Fetched, now: Instant, cfg: Config, i: nat)
    requires Reads(db, order) && i < |order| && order[i] in db.rules && db.rules[order[i]].st.level == B.Unknown
    requires var w := db.watches[order[i]];
             && HasNews(w, fetch(w.targetKey)) && fetch(w.targetKey).rd.status != StatusNone
             && fetch(w.targetKey).rd.latestAt > db.rules[order[i]].st.lastReadingAt
    ensures var id, rd := order[i], fetch(db.watches[order[i]].targetKey).rd;
            var after := Checked(db, order, fetch, now, cfg);
            && id in after.rules && IsLevelOf(after.rules[id].st, rd, LevelsFor(db.rules[id].settings, cfg, rd))
            && JustRead(after.rules[id].st, rd) && About(after.outbox, id) == About(db.outbox, id)
  {
    hide Checked, About, Recorded, TooMany, B.ResolveLevels;
    CheckJudgesEachRule(db, order, fetch, now, cfg, i);
    assert About(db.outbox, order[i]) + [] == About(db.outbox, order[i]);
  }

  // ------------------------------------------------------------- rules added by it --

  /** Who was told that a rule was switched on for the watch. */
  function ToldOfAdding(ms: seq<Message>, id: int): seq<int> {
    if ms == [] then []
    else
      var m := ms[|ms| - 1];
      ToldOfAdding(ms[..|ms| - 1], id) + if m.EnabledMsg? && id in m.watchIDs then [m.userID] else []
  }

  lemma ToldAppend(ms: seq<Message>, m: Message, id: int)
    ensures ToldOfAdding(ms + [m], id)
         == ToldOfAdding(ms, id) + if m.EnabledMsg? && id in m.watchIDs then [m.userID] else []
  {
    assert (ms + [m])[..|ms|] == ms;
  }

  lemma {:induction false} SavesTellOfNoAdding(db: DB, plans: seq<Plan>, n: nat, id: int)
    requires n <= |plans|
    ensures ToldOfAdding(SaveAll(db, plans, n).outbox, id) == ToldOfAdding(db.outbox, id)
  {
    hide SaveOne, ToldOfAdding;
    if n > 0 {
      SavesTellOfNoAdding(db, plans, n - 1, id);
      var mid, p := SaveAll(db, plans, n - 1), plans[n - 1];
      SaveOneParts(mid, p);
      ToldAppend(mid.outbox, BatteryMsg(p.watch.userID, p.watchID, p.out.kind), id);
      assert ToldOfAdding(mid.outbox, id) + [] == ToldOfAdding(mid.outbox, id);
    }
  }

  /** Only u's switched-on message can name the watch, and does exactly when some item says so. */
  lemma {:induction false} TellsOneUser(db: DB, items: seq<(int, int)>, n: nat, id: int, u: int)
    requires n <= |Grouping.Keys(items)| && forall it :: it in items && it.1 == id ==> it.0 == u
    ensures ToldOfAdding(TellAll(db, items, n).outbox, id)
         == ToldOfAdding(db.outbox, id) + if (u, id) in items && u in Grouping.Keys(items)[..n] then [u] else []
  {
    hide ToldOfAdding, Grouping.Keys, Grouping.Pick;
    if n > 0 {
      TellsOneUser(db, items, n - 1, id, u);
      var keys := Grouping.Keys(items);
      var k := keys[n - 1];
      Grouping.KeysAreDistinct(items);
      assert keys[..n] == keys[..n - 1] + [k] && k !in keys[..n - 1];
      Grouping.PickHolds(items, k, id);
      ToldAppend(TellAll(db, items, n - 1).outbox, EnabledMsg(k, Grouping.Pick(items, k)), id);
    }
  }

  /** The watch is mentioned by its own addition alone, if that landed and may be mentioned. */
  lemma {:induction false} MentionedOnce(db: DB, adds: seq<Addition>, n: nat, now: Instant, k: nat)
    requires k < n <= |adds| && OneEachAdded(adds)
    ensures var a, items := adds[k], Mentioned(db, adds, n, now);
            && (forall it :: it in items && it.1 == a.watchID ==> it.0 == a.userID)
            && ((a.userID, a.watchID) in items <==> CanAutoAdd(db, a.watchID) && !a.muted)
  {
    hide AutoAdded, CanAutoAdd, AddAll, SameAbout;
    if k < n - 1 {
      MentionedOnce(db, adds, n - 1, now, k);
    } else {
      NotMentioned(db, adds, k, now, adds[k].watchID);
      AddAllSkips(db, adds, k, now, adds[k].watchID);
      StillAddable(db, AddAll(db, adds, k, now), adds[k].watchID);
    }
  }

  lemma StillAddable(a: DB, b: DB, id: int)
    requires SameAbout(a, b, id) && a.users == b.users && (id in a.watches <==> id in b.watches)
    requires id in a.watches ==> a.watches[id] == b.watches[id]
    ensures CanAutoAdd(a, id) <==> CanAutoAdd(b, id)
  {
  }

  lemma {:induction false} NotMentioned(db: DB, adds: seq<Addition>, n: nat, now: Instant, id: int)
    requires n <= |adds| && forall k :: 0 <= k < n ==> adds[k].watchID != id
    ensures forall it :: it in Mentioned(db, adds, n, now) ==> it.1 != id
  {
    hide CanAutoAdd, AddAll;
    if n > 0 {
      NotMentioned(db, adds, n - 1, now, id);
    }
  }

  /** A rule as a check adds it: it follows the site, at the level the battery is at now,
      and nobody counts as told of that level. */
  predicate AddedNow(r: Rule, rd: Readings, now: Instant, cfg: Config) {
    && r.settings == FOLLOW_SITE && r.createdAt == now
    && IsLevelOf(r.st, rd, LevelsFor(FOLLOW_SITE, cfg, rd))
    && r.st.candidate == B.Blank && r.st.candidateCount == 0 && r.st.announced == B.Blank
    && r.st.lastReadingAt == rd.latestAt && r.st.lastMV == rd.latestMV
    && r.st.since == if rd.latestAt != 0 then rd.latestAt else now
  }

  lemma StartIsAddedNow(rd: Readings, now: Instant, cfg: Config)
    ensures AddedNow(Inserted(StartingState(rd, cfg), now), rd, now, cfg)
    ensures StartingState(rd, cfg).level != B.Blank
  {
    hide B.ResolveLevels;
  }

  /** What the additions of a check come to for one watch without a rule. */
  lemma AdditionLands(db: DB, v: View, cfg: Config, i: nat)
    requires OncePer(v) && i < |v.watches| && v.watches[i].0 !in db.rules && !DecisionOf(v, cfg, i).Save?
    requires var d := DecisionOf(v, cfg, i);
             d.Add? ==> CanAutoAdd(db, v.watches[i].0) && d.addition.st.level != B.Blank
    ensures var id, d, after := v.watches[i].0, DecisionOf(v, cfg, i), Committed(db, v, cfg);
            && (id in after.rules <==> d.Add?)
            && (d.Add? ==> after.rules[id] == Inserted(d.addition.st, v.now) && id in after.watches
                           && after.watches[id] == db.watches[id].(batteryAddedAt := v.now))
            && ToldOfAdding(after.outbox, id)
                 == ToldOfAdding(db.outbox, id) + (if d.Add? && !d.addition.muted then [d.addition.userID] else [])
            && About(after.outbox, id) == About(db.outbox, id)
  {
    hide Decide, Additions, Plans, AfterBreaker, AddAll, SaveAll, TellAll, Mentioned, Grouping.Keys, CanAutoAdd;
    hide About, Recorded, ToldOfAdding, OncePer, HasPlan, HasAddition, OneEachAdded;
    var n, id, d := |v.watches|, v.watches[i].0, DecisionOf(v, cfg, i);
    var adds, plans := Additions(v, cfg, n), FinalPlans(v, cfg);
    var items := Mentioned(db, adds, |adds|, v.now);
    var db1 := AddAll(db, adds, |adds|, v.now);
    var db2 := SaveAll(db1, plans, |plans|);
    OnlyDecision(v, cfg, i);
    FinalPlansFollow(v, cfg, id);
    AdditionsAreOneEach(v, cfg, n);
    DecisionNamesWatch(v, cfg, i);
    assert plans[..|plans|] == plans && adds[..|adds|] == adds;
    SaveAllSkips(db1, plans, |plans|, id);
    SaveAllOnlyLands(db1, plans, |plans|, id);
    SavesTellOfNoAdding(db1, plans, |plans|, id);
    TellAllSkips(db2, items, |Grouping.Keys(items)|, id);
    TellAllKeepsRules(db2, items, |Grouping.Keys(items)|, id);
    if d.Add? {
      AdditionsHold(v, cfg, n, i);
      var k := |Additions(v, cfg, i)|;
      AddAllLands(db, adds, |adds|, v.now, k);
      MentionedOnce(db, adds, |adds|, v.now, k);
      TellsOneUser(db2, items, |Grouping.Keys(items)|, id, d.addition.userID);
      KeyOfItem(items, d.addition.userID, id);
    } else {
      AddAllSkips(db, adds, |adds|, v.now, id);
      NoneMentioned(db, adds, v.now, id);
      TellsOneUser(db2, items, |Grouping.Keys(items)|, id, 0);
    }
  }

  lemma NoneMentioned(db: DB, adds: seq<Addition>, now: Instant, id: int)
    requires !HasAddition(adds, id)
    ensures forall it :: it in Mentioned(db, adds, |adds|, now) ==> it.1 != id
  {
    NotMentioned(db, adds, |adds|, now, id);
  }

  lemma KeyOfItem(items: seq<(int, int)>, u: int, id: int)
    ensures (u, id) in items ==> u in Grouping.Keys(items)[..|Grouping.Keys(items)|]
  {
    Grouping.PickHolds(items, u, id);
    Grouping.KeysAreTheItemsKeys(items, u);
    assert Grouping.Keys(items)[..|Grouping.Keys(items)|] == Grouping.Keys(items);
  }

  /** A check adds a rule exactly when nobody has chosen, the owner wants rules added and a
      battery was read lately; then at its level, and mentioned once unless muted. */
  lemma CheckAddsExactlyWhen(db: DB, order: seq<int>, fetch: string -> Fetched, now: Instant, cfg: Config, i: nat)
    requires Reads(db, order) && i < |order| && order[i] !in db.rules
    ensures var id, w, f := order[i], db.watches[order[i]], fetch(db.watches[order[i]].targetKey);
            var after := Checked(db, order, fetch, now, cfg);
            && (id in after.rules <==> MayBeAdded(db, w, f))
            && (MayBeAdded(db, w, f) ==> AddedNow(after.rules[id], f.rd, now, cfg) && ChoiceMade(after, id))
            && ToldOfAdding(after.outbox, id)
                 == ToldOfAdding(db.outbox, id)
                    + (if MayBeAdded(db, w, f) && !(w.mutedUntil != 0 && now < w.mutedUntil) then [w.userID] else [])
            && About(after.outbox, id) == About(db.outbox, id)
  {
    hide Judged, StartingState, Decide, ViewAt, About, Recorded, ToldOfAdding, Committed, OncePer, Inserted, AddedNow;
    var v := ViewAt(db, order, fetch, now);
    ViewIsOncePer(db, order, fetch, now);
    DecisionAt(db, order, fetch, now, cfg, i);
    var f := fetch(db.watches[order[i]].targetKey);
    if MayBeAdded(db, db.watches[order[i]], f) {
      StartIsAddedNow(f.rd, now, cfg);
    }
    AdditionLands(db, v, cfg, i);
  }

  // ------------------------------------------------------------------- the banner --

  lemma {:induction false} TellsBanner(db: DB, items: seq<(int, int)>, n: nat, u: int)
    requires n <= |Grouping.Keys(items)|
    ensures var after := TellAll(db, items, n);
            && (u in after.users <==> u in db.users)
            && (u in db.users ==> after.users[u].autoBattery == db.users[u].autoBattery)
            && (u in db.users ==>
                 after.users[u].banner
                   == db.users[u].banner + if u in Grouping.Keys(items)[..n] then |Grouping.Pick(items, u)| else 0)
  {
    hide Grouping.Keys, Grouping.Pick;
    if n > 0 {
      TellsBanner(db, items, n - 1, u);
      var keys := Grouping.Keys(items);
      Grouping.KeysAreDistinct(items);
      assert keys[..n] == keys[..n - 1] + [keys[n - 1]] && keys[n - 1] !in keys[..n - 1];
    }
  }

  lemma {:induction false} AddAllKeepsUsers(db: DB, adds: seq<Addition>, n: nat, now: Instant)
    requires n <= |adds|
    ensures AddAll(db, adds, n, now).users == db.users
  {
    if n > 0 {
      AddAllKeepsUsers(db, adds, n - 1, now);
    }
  }

  lemma {:induction false} MentionedPrefix(db: DB, adds: seq<Addition>, a: Addition, n: nat, now: Instant)
    requires n <= |adds|
    ensures AddAll(db, adds + [a], n, now) == AddAll(db, adds, n, now)
    ensures Mentioned(db, adds + [a], n, now) == Mentioned(db, adds, n, now)
  {
    hide AutoAdded, CanAutoAdd;
    if n > 0 {
      MentionedPrefix(db, adds, a, n - 1, now);
    }
  }

  lemma OneMoreMentioned(db: DB, adds: seq<Addition>, a: Addition, now: Instant, u: int)
    requires !HasAddition(adds, a.watchID)
    ensures |Grouping.Pick(Mentioned(db, adds + [a], |adds| + 1, now), u)|
         == |Grouping.Pick(Mentioned(db, adds, |adds|, now), u)|
            + if CanAutoAdd(db, a.watchID) && !a.muted && a.userID == u then 1 else 0
  {
    hide CanAutoAdd, Grouping.Pick, HasAddition, AddAll;
    var before := Mentioned(db, adds, |adds|, now);
    MentionedPrefix(db, adds, a, |adds|, now);
    assert adds[..|adds|] == adds && (adds + [a])[|adds|] == a;
    AddAllSkips(db, adds, |adds|, now, a.watchID);
    StillAddable(db, AddAll(db, adds, |adds|, now), a.watchID);
    Grouping.Append(before, (a.userID, a.watchID));
    assert before + [] == before;
  }

  /** The watch is given a rule that its owner u may be told of. */
  predicate IsNewFor(db: DB, fetch: string -> Fetched, now: Instant, id: int, u: int) {
    && id in db.watches && id !in db.rules && db.watches[id].userID == u
    && MayBeAdded(db, db.watches[id], fetch(db.watches[id].targetKey)) && !Muted(db.watches[id], now)
  }

  function NewFor(db: DB, order: seq<int>, fetch: string -> Fetched, now: Instant, u: int, n: nat): set<nat>
    requires n <= |order|
  {
    set i | 0 <= i < n && IsNewFor(db, fetch, now, order[i], u)
  }

  lemma NewForGrows(db: DB, order: seq<int>, fetch: string -> Fetched, now: Instant, u: int, n: nat)
    requires 0 < n <= |order|
    ensures |NewFor(db, order, fetch, now, u, n)|
         == |NewFor(db, order, fetch, now, u, n - 1)| + if IsNewFor(db, fetch, now, order[n - 1], u) then 1 else 0
  {
    hide IsNewFor;
    var before := NewFor(db, order, fetch, now, u, n - 1);
    assert n - 1 !in before;
    assert NewFor(db, order, fetch, now, u, n)
        == before + if IsNewFor(db, fetch, now, order[n - 1], u) then {n - 1} else {};
  }

  lemma NewWhenAdded(db: DB, order: seq<int>, fetch: string -> Fetched, now: Instant, cfg: Config, u: int, i: nat)
    requires Reads(db, order) && i < |order| && |order| == |ViewAt(db, order, fetch, now).watches|
    ensures var d := DecisionOf(ViewAt(db, order, fetch, now), cfg, i);
            IsNewFor(db, fetch, now, order[i], u) <==>
              d.Add? && CanAutoAdd(db, d.addition.watchID) && !d.addition.muted && d.addition.userID == u
  {
    DecisionAt(db, order, fetch, now, cfg, i);
    hide Judged, StartingState, Decide, ViewAt;
  }

  lemma {:induction false} MentionedAreNew(
    db: DB, order: seq<int>, fetch: string -> Fetched, now: Instant, cfg: Config, u: int, n: nat)
    requires Reads(db, order) && n <= |order| == |ViewAt(db, order, fetch, now).watches|
    requires OncePer(ViewAt(db, order, fetch, now))
    ensures var adds := Additions(ViewAt(db, order, fetch, now), cfg, n);
            |Grouping.Pick(Mentioned(db, adds, |adds|, now), u)| == |NewFor(db, order, fetch, now, u, n)|
  {
    hide Decide, ViewAt, IsNewFor, NewFor, Mentioned, Grouping.Pick, CanAutoAdd, OncePer, HasAddition;
    var v := ViewAt(db, order, fetch, now);
    if n > 0 {
      MentionedAreNew(db, order, fetch, now, cfg, u, n - 1);
      NewWhenAdded(db, order, fetch, now, cfg, u, n - 1);
      NewForGrows(db, order, fetch, now, u, n);
      PlanOne(v, cfg, n - 1);
      NotAddedYet(v, cfg, n - 1);
      DecisionNamesWatch(v, cfg, n - 1);
      if DecisionOf(v, cfg, n - 1).Add? {
        OneMoreMentioned(db, Additions(v, cfg, n - 1), DecisionOf(v, cfg, n - 1).addition, now, u);
      }
    } else {
      NobodyNew(db, order, fetch, now, u);
    }
  }

  lemma NotAddedYet(v: View, cfg: Config, i: nat)
    requires OncePer(v) && i < |v.watches|
    ensures !HasAddition(Additions(v, cfg, i), v.watches[i].0)
  {
    hide Decide;
    forall j | 0 <= j < i ensures v.watches[j].0 != v.watches[i].0 {
    }
    AdditionsLack(v, cfg, i, v.watches[i].0);
  }

  lemma NobodyNew(db: DB, order: seq<int>, fetch: string -> Fetched, now: Instant, u: int)
    ensures NewFor(db, order, fetch, now, u, 0) == {}
    ensures Grouping.Pick(Mentioned(db, [], 0, now), u) == []
  {
  }

  /** A user's banner counts the rules a check switched on for them and may tell them of. */
  lemma BannerCountsTheNew(db: DB, order: seq<int>, fetch: string -> Fetched, now: Instant, cfg: Config, u: int)
    requires Reads(db, order) && u in db.users
    ensures var after := Checked(db, order, fetch, now, cfg);
            && u in after.users && after.users[u].autoBattery == db.users[u].autoBattery
            && after.users[u].banner == db.users[u].banner + |NewFor(db, order, fetch, now, u, |order|)|
  {
    hide ViewAt, Additions, Plans, AfterBreaker, AddAll, SaveAll, TellAll, Mentioned, Grouping.Keys, Grouping.Pick;
    hide NewFor, OncePer;
    var v := ViewAt(db, order, fetch, now);
    ViewIsOncePer(db, order, fetch, now);
    MentionedAreNew(db, order, fetch, now, cfg, u, |order|);
    var adds, plans := Additions(v, cfg, |v.watches|), FinalPlans(v, cfg);
    var items := Mentioned(db, adds, |adds|, now);
    AddAllKeepsUsers(db, adds, |adds|, now);
    var db1 := AddAll(db, adds, |adds|, now);
    SaveAllOnlyLands(db1, plans, |plans|, 0);
    TellsBanner(SaveAll(db1, plans, |plans|), items, |Grouping.Keys(items)|, u);
    Grouping.KeysAreTheItemsKeys(items, u);
    assert Grouping.Keys(items)[..|Grouping.Keys(items)|] == Grouping.Keys(items);
  }

  /** A watch that was not read is left alone. */
  lemma OthersAreLeftAlone(db: DB, order: seq<int>, fetch: string -> Fetched, now: Instant, cfg: Config, id: int)
    requires Reads(db, order) && id !in order
    ensures SameAbout(db, Checked(db, order, fetch, now, cfg), id)
  {
    hide Decide, ViewAt, Additions, Plans, AfterBreaker, AddAll, SaveAll, TellAll, Mentioned, Grouping.Keys;
    hide SameAbout, OncePer, HasPlan, HasAddition, Committed;
    var v := ViewAt(db, order, fetch, now);
    ViewIsOncePer(db, order, fetch, now);
    forall j | 0 <= j < |v.watches| ensures v.watches[j].0 != id {
      assert v.watches[j].0 == order[j];
    }
    PlansLack(v, cfg, |v.watches|, id);
    AdditionsLack(v, cfg, |v.watches|, id);
    FinalPlansFollow(v, cfg, id);
    AroundTheSaves(db, v, cfg, id);
    var adds, plans := Additions(v, cfg, |v.watches|), FinalPlans(v, cfg);
    assert plans[..|plans|] == plans;
    SaveAllSkips(AddAll(db, adds, |adds|, now), plans, |plans|, id);
    SameAsSame(db, AddAll(db, adds, |adds|, now), SaveAll(AddAll(db, adds, |adds|, now), plans, |plans|),
      Checked(db, order, fetch, now, cfg), id);
  }

  lemma SameAsSame(a: DB, b: DB, c: DB, d: DB, id: int)
    requires SameAbout(a, b, id) && SameAbout(b, c, id) && SameAbout(c, d, id)
    ensures SameAbout(a, d, id)
  {
  }

  // ------------------------------------------------------------ rules stay well-formed --

  ghost predicate WellFormedRules(rules: map<int, Rule>) {
    forall id :: id in rules ==> B.WellFormed(rules[id].st)
  }

  ghost predicate WellFormedSys(sys: Sys) {
    WellFormedRules(sys.db.rules) && forall c :: c in sys.checks ==> WellFormedRules(sys.checks[c].v.rules)
  }

  ghost predicate WellFormedPlans(plans: seq<Plan>) {
    forall k :: 0 <= k < |plans| ==> B.WellFormed(plans[k].st)
  }

  ghost predicate WellFormedAdds(adds: seq<Addition>) {
    forall k :: 0 <= k < |adds| ==> B.WellFormed(adds[k].st)
  }

  lemma DecidedIsWellFormed(v: View, cfg: Config, i: nat)
    requires i < |v.watches| && WellFormedRules(v.rules)
    ensures var d := DecisionOf(v, cfg, i);
            && (d.Save? ==> B.WellFormed(d.plan.st) && B.WellFormed(Withheld(d.plan).st))
            && (d.Add? ==> B.WellFormed(d.addition.st))
  {
    hide B.ResolveLevels, B.Classify;
    var d := DecisionOf(v, cfg, i);
    if d.Save? {
      var id, w := v.watches[i].0, v.watches[i].1;
      var rd := v.reports[w.targetKey];
      assert B.WellFormed(v.rules[id].st);
      WithheldStaysWellFormed(B.Reading(rd.latestMV, rd.latestAt, rd.status.HasBattery()), v.rules[id].st,
        LevelsFor(v.rules[id].settings, cfg, rd), cfg.pol, B.Prefs(Muted(w, v.now), w.notifyRecovery));
    } else if d.Add? {
      StartIsWellFormed(v.reports[v.watches[i].1.targetKey], cfg);
    }
  }

  lemma StartIsWellFormed(rd: Readings, cfg: Config)
    ensures B.WellFormed(StartingState(rd, cfg))
  {
    hide B.ResolveLevels;
  }

  lemma WithheldStaysWellFormed(r: B.Reading, s: B.BatteryState, lv: B.Levels, pol: B.Policy, prefs: B.Prefs)
    requires B.WellFormed(s)
    ensures var out := B.EvaluateBattery(r, s, lv, pol, prefs);
            && B.WellFormed(out.state)
            && (out.notify && out.kind != B.RecoveredKind ==> B.WellFormed(out.state.(announced := s.announced)))
  {
  }

  lemma {:induction false} PlansAreWellFormed(v: View, cfg: Config, n: nat)
    requires n <= |v.watches| && WellFormedRules(v.rules)
    ensures WellFormedPlans(Plans(v, cfg, n)) && WellFormedAdds(Additions(v, cfg, n))
    ensures forall k :: 0 <= k < |Plans(v, cfg, n)| ==> B.WellFormed(Withheld(Plans(v, cfg, n)[k]).st)
  {
    hide Decide, B.WellFormed, Withheld, WellFormedRules;
    if n > 0 {
      PlansAreWellFormed(v, cfg, n - 1);
      DecidedIsWellFormed(v, cfg, n - 1);
    }
  }

  lemma {:induction false} SavesKeepRulesWellFormed(db: DB, plans: seq<Plan>, n: nat)
    requires n <= |plans| && WellFormedRules(db.rules) && WellFormedPlans(plans)
    ensures WellFormedRules(SaveAll(db, plans, n).rules)
  {
    hide SaveOne, B.WellFormed;
    if n > 0 {
      SavesKeepRulesWellFormed(db, plans, n - 1);
      SaveOneParts(SaveAll(db, plans, n - 1), plans[n - 1]);
    }
  }

  lemma {:induction false} AddsKeepRulesWellFormed(db: DB, adds: seq<Addition>, n: nat, now: Instant)
    requires n <= |adds| && WellFormedRules(db.rules) && WellFormedAdds(adds)
    ensures WellFormedRules(AddAll(db, adds, n, now).rules)
  {
    if n > 0 {
      AddsKeepRulesWellFormed(db, adds, n - 1, now);
    }
  }

  lemma WriteKeepsRulesWellFormed(db: DB, v: View, cfg: Config)
    requires WellFormedRules(db.rules) && WellFormedRules(v.rules)
    ensures WellFormedRules(Committed(db, v, cfg).rules)
  {
    hide Plans, Additions, AddAll, SaveAll, TellAll, Mentioned, Grouping.Keys, B.WellFormed, WellFormedRules, Entering;
    hide Withheld;
    PlansAreWellFormed(v, cfg, |v.watches|);
    var adds, plans := Additions(v, cfg, |v.watches|), FinalPlans(v, cfg);
    AddsKeepRulesWellFormed(db, adds, |adds|, v.now);
    var db1 := AddAll(db, adds, |adds|, v.now);
    SavesKeepRulesWellFormed(db1, plans, |plans|);
    var items := Mentioned(db, adds, |adds|, v.now);
    TellAllKeepsRules(SaveAll(db1, plans, |plans|), items, |Grouping.Keys(items)|, 0);
  }

  lemma OwnerKeepsRulesWellFormed(db: DB, op: OwnerOp)
    requires WellFormedRules(db.rules)
    ensures WellFormedRules(ByOwner(db, op).rules)
  {
  }

  /** In every interleaving every rule stands well-formed: what the laws above ask of one. */
  lemma {:induction false} EveryRuleIsWellFormed(sys: Sys, acts: seq<Action>, cfg: Config, k: nat)
    requires k <= |acts| && WellFormedSys(sys)
    ensures WellFormedSys(SysAt(sys, acts, cfg, k))
  {
    hide WellFormedRules, Committed, ByOwner, ReportsOf, Listed, AutoOf;
    if k > 0 {
      EveryRuleIsWellFormed(sys, acts, cfg, k - 1);
      var before := SysAt(sys, acts, cfg, k - 1);
      NoRulesAreWellFormed();
      match acts[k - 1]
      case Owner(op) => OwnerKeepsRulesWellFormed(before.db, op);
      case Write(id, commits) =>
        if id in before.checks && before.checks[id].Ready? {
          WriteKeepsRulesWellFormed(before.db, before.checks[id].v, cfg);
        }
      case _ =>
    }
  }

  lemma NoRulesAreWellFormed()
    ensures WellFormedRules(map[])
  {
  }
}
