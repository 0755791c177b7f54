/** Every interleaving of battery checks with owners, and the promises that survive it.
    Several checks may be in flight at once. */
module BatteryRace {
  import B = BatteryMachine
  import opened BatteryStore
  import opened BatteryCheck
  import Grouping

  /** How far a check has got. The view fills up read by read. */
  datatype Phase = ReadingRules(v: View) | ReadingUsers(v: View) | Fetching(v: View) | Ready(v: View)

  datatype Sys = Sys(db: DB, checks: map<int, Phase>)

  datatype Action =
    | Owner(op: OwnerOp)
    | Begin(id: int, now: Instant, order: seq<int>)
    | ReadRules(id: int)
    | ReadUsers(id: int)
    | FetchAll(id: int, results: seq<(string, Fetched)>)
    | Write(id: int, commits: bool)
    | GiveUp(id: int)

  /** One atomic step. An action that does not fit the state does nothing. */
  function Do(sys: Sys, a: Action, cfg: Config): Sys {
    match a
    case Owner(op) => sys.(db := ByOwner(sys.db, op))
    case Begin(id, now, order) =>
      if id !in sys.checks && forall i :: 0 <= i < |order| ==> order[i] in sys.db.watches then
        sys.(checks := sys.checks[id := ReadingRules(View(now, Listed(sys.db.watches, order), map[], map[], map[]))])
      else sys
    case ReadRules(id) =>
      if id in sys.checks && sys.checks[id].ReadingRules? then
        sys.(checks := sys.checks[id := ReadingUsers(sys.checks[id].v.(rules := sys.db.rules))])
      else sys
    case ReadUsers(id) =>
      if id in sys.checks && sys.checks[id].ReadingUsers? then
        sys.(checks := sys.checks[id := Fetching(sys.checks[id].v.(auto := AutoOf(sys.db.users)))])
      else sys
    case FetchAll(id, results) =>
      if id in sys.checks && sys.checks[id].Fetching? then
        sys.(checks := sys.checks[id := Ready(sys.checks[id].v.(reports := ReportsOf(results, |results|)))])
      else sys
    case Write(id, commits) =>
      if id in sys.checks && sys.checks[id].Ready? then
        Sys(if commits then Committed(sys.db, sys.checks[id].v, cfg) else sys.db, sys.checks - {id})
      else sys
    case GiveUp(id) => sys.(checks := sys.checks - {id})
  }

  function SysAt(sys: Sys, acts: seq<Action>, cfg: Config, k: nat): Sys
    requires k <= |acts|
  {
    if k == 0 then sys else Do(SysAt(sys, acts, cfg, k - 1), acts[k - 1], cfg)
  }

  // ---------------------------------------------------------- what plans say --

  /** All a plan can do to what a watch is owed. */
  predicate PlanSound(p: Plan) {
    && (p.out.notify ==> p.out.kind != B.NoKind)
    && (p.out.notify && p.out.kind == B.RecoveredKind ==> p.old_.st.announced != B.Blank && p.st.announced == B.Blank)
    && (p.st.announced != B.Blank && p.old_.st.announced == B.Blank ==> Alerts(p))
  }

  lemma JudgedPlanIsSound(v: View, id: int, w: Watch, cfg: Config)
    ensures var d := Decide(v, id, w, cfg);
            && (d.Save? ==> PlanSound(d.plan) && d.plan.watchID == id)
            && (d.Add? ==> d.addition.st.announced == B.Blank && d.addition.st.level != B.Blank)
  {
    hide B.EvaluateBattery, B.ResolveLevels;
    if w.targetKey in v.reports && id in v.rules {
      var rd := v.reports[w.targetKey];
      B.RecoveryPaysADebt(cfg.pol, v.rules[id].st,
        B.Fetch(B.Reading(rd.latestMV, rd.latestAt, rd.status.HasBattery()), LevelsFor(v.rules[id].settings, cfg, rd),
                B.Prefs(Muted(w, v.now), w.notifyRecovery)));
    }
  }

  lemma {:induction false} AllPlansSound(v: View, cfg: Config, n: nat)
    requires n <= |v.watches|
    ensures forall i :: 0 <= i < |Plans(v, cfg, n)| ==> PlanSound(Plans(v, cfg, n)[i])
    ensures forall i :: 0 <= i < |Additions(v, cfg, n)| ==> Additions(v, cfg, n)[i].st.announced == B.Blank
  {
    hide Decide, PlanSound;
    if n > 0 {
      AllPlansSound(v, cfg, n - 1);
      JudgedPlanIsSound(v, v.watches[n - 1].0, v.watches[n - 1].1, cfg);
    }
  }

  lemma FinalPlansSound(v: View, cfg: Config)
    ensures forall i :: 0 <= i < |FinalPlans(v, cfg)| ==> PlanSound(FinalPlans(v, cfg)[i])
  {
    AllPlansSound(v, cfg, |v.watches|);
  }

  // ----------------------------------------------------------------- balance --

  predicate IsRecovery(m: Message, watchID: int) {
    m.BatteryMsg? && m.watchID == watchID && m.kind == B.RecoveredKind
  }

  predicate IsAlert(m: Message, watchID: int) {
    m.BatteryMsg? && m.watchID == watchID && m.kind in {B.LowKind, B.CriticalKind, B.OverchargedKind}
  }

  function Recoveries(ms: seq<Message>, watchID: int): nat {
    if ms == [] then 0 else Recoveries(ms[..|ms| - 1], watchID) + if IsRecovery(ms[|ms| - 1], watchID) then 1 else 0
  }

  function AlertsQueued(ms: seq<Message>, watchID: int): nat {
    if ms == [] then 0 else AlertsQueued(ms[..|ms| - 1], watchID) + if IsAlert(ms[|ms| - 1], watchID) then 1 else 0
  }

  lemma CountsAppend(ms: seq<Message>, m: Message, watchID: int)
    ensures Recoveries(ms + [m], watchID) == Recoveries(ms, watchID) + if IsRecovery(m, watchID) then 1 else 0
    ensures AlertsQueued(ms + [m], watchID) == AlertsQueued(ms, watchID) + if IsAlert(m, watchID) then 1 else 0
  {
    assert (ms + [m])[..|ms|] == ms;
  }

  /** One recovery is owed while a rule stands announced. */
  function Owed(db: DB, watchID: int): nat {
    if watchID in db.rules && db.rules[watchID].st.announced != B.Blank then 1 else 0
  }

  predicate Balanced(db: DB, watchID: int) {
    Recoveries(db.outbox, watchID) + Owed(db, watchID) <= AlertsQueued(db.outbox, watchID)
  }

  lemma SaveOneParts(db: DB, p: Plan)
    ensures var after := SaveOne(db, p);
            && after.rules
                 == (if CanSave(db, p.watchID, p.old_) then db.rules[p.watchID := db.rules[p.watchID].(st := p.st)]
                   else db.rules)
            && after.outbox == (if CanSave(db, p.watchID, p.old_) && p.out.notify
                                then db.outbox + [BatteryMsg(p.watch.userID, p.watchID, p.out.kind)] else db.outbox)
            && after.events == (if CanSave(db, p.watchID, p.old_) && p.out.state.level != p.out.from
                                then db.events + [Event(p.watchID, p.out.from, p.out.state.level, p.out.notify)]
                                else db.events)
            && after.watches == db.watches && after.users == db.users
  {
  }

  lemma SaveKeepsBalance(db: DB, p: Plan, watchID: int)
    requires PlanSound(p) && Balanced(db, watchID)
    ensures Balanced(SaveOne(db, p), watchID)
  {
    hide SaveOne, Recoveries, AlertsQueued;
    SaveOneParts(db, p);
    CountsAppend(db.outbox, BatteryMsg(p.watch.userID, p.watchID, p.out.kind), watchID);
  }

  lemma {:induction false} SaveAllKeepsBalance(db: DB, plans: seq<Plan>, n: nat, watchID: int)
    requires n <= |plans| && Balanced(db, watchID)
    requires forall i :: 0 <= i < |plans| ==> PlanSound(plans[i])
    ensures Balanced(SaveAll(db, plans, n), watchID)
  {
    hide SaveOne, Balanced, PlanSound;
    if n > 0 {
      SaveAllKeepsBalance(db, plans, n - 1, watchID);
      SaveKeepsBalance(SaveAll(db, plans, n - 1), plans[n - 1], watchID);
    }
  }

  lemma {:induction false} AddAllKeepsBalance(db: DB, adds: seq<Addition>, n: nat, now: Instant, watchID: int)
    requires n <= |adds| && Balanced(db, watchID)
    requires forall i :: 0 <= i < |adds| ==> adds[i].st.announced == B.Blank
    ensures Balanced(AddAll(db, adds, n, now), watchID)
  {
    if n > 0 {
      AddAllKeepsBalance(db, adds, n - 1, now, watchID);
    }
  }

  lemma {:induction false} TellAllKeepsRules(db: DB, items: seq<(int, int)>, n: nat, watchID: int)
    requires n <= |Grouping.Keys(items)|
    ensures TellAll(db, items, n).rules == db.rules && TellAll(db, items, n).watches == db.watches
    ensures Recoveries(TellAll(db, items, n).outbox, watchID) == Recoveries(db.outbox, watchID)
    ensures AlertsQueued(TellAll(db, items, n).outbox, watchID) == AlertsQueued(db.outbox, watchID)
  {
    hide TellOne, Grouping.Keys, Grouping.Pick, Recoveries, AlertsQueued;
    if n > 0 {
      TellAllKeepsRules(db, items, n - 1, watchID);
      var u := Grouping.Keys(items)[n - 1];
      TellOneKeepsRules(TellAll(db, items, n - 1), u, Grouping.Pick(items, u), watchID);
    }
  }

  lemma TellOneKeepsRules(db: DB, userID: int, watchIDs: seq<int>, watchID: int)
    ensures var after := TellOne(db, userID, watchIDs);
            && after.rules == db.rules && after.watches == db.watches
            && Recoveries(after.outbox, watchID) == Recoveries(db.outbox, watchID)
            && AlertsQueued(after.outbox, watchID) == AlertsQueued(db.outbox, watchID)
  {
    hide Recoveries, AlertsQueued;
    CountsAppend(db.outbox, EnabledMsg(userID, watchIDs), watchID);
  }

  lemma WriteKeepsBalance(db: DB, v: View, cfg: Config, watchID: int)
    requires Balanced(db, watchID)
    ensures Balanced(Committed(db, v, cfg), watchID)
  {
    hide Plans, Additions, AfterBreaker, AddAll, SaveAll, TellAll, Mentioned, Grouping.Keys;
    var adds, plans := Additions(v, cfg, |v.watches|), FinalPlans(v, cfg);
    AllPlansSound(v, cfg, |v.watches|);
    FinalPlansSound(v, cfg);
    AddAllKeepsBalance(db, adds, |adds|, v.now, watchID);
    var db1 := AddAll(db, adds, |adds|, v.now);
    SaveAllKeepsBalance(db1, plans, |plans|, watchID);
    var items := Mentioned(db, adds, |adds|, v.now);
    TellAllKeepsRules(SaveAll(db1, plans, |plans|), items, |Grouping.Keys(items)|, watchID);
  }

  lemma OwnerKeepsBalance(db: DB, op: OwnerOp, watchID: int)
    requires Balanced(db, watchID)
    ensures Balanced(ByOwner(db, op), watchID)
  {
  }

  /** In every run, every watch has been told of at least as many alerts as
      recoveries, with one to spare while a recovery is still owed. */
  lemma {:induction false} RecoveriesNeverOutnumberAlerts(
    sys: Sys, acts: seq<Action>, cfg: Config, k: nat, watchID: int)
    requires k <= |acts| && Balanced(sys.db, watchID)
    ensures Balanced(SysAt(sys, acts, cfg, k).db, watchID)
  {
    hide Balanced, Committed, ByOwner;
    if k > 0 {
      RecoveriesNeverOutnumberAlerts(sys, acts, cfg, k - 1, watchID);
      var before := SysAt(sys, acts, cfg, k - 1);
      match acts[k - 1]
      case Owner(op) => OwnerKeepsBalance(before.db, op, watchID);
      case Write(id, commits) =>
        if id in before.checks && before.checks[id].Ready? {
          WriteKeepsBalance(before.db, before.checks[id].v, cfg, watchID);
        }
      case _ =>
    }
  }

  // ------------------------------------------------- settings and exact state --

  /** What a stretch of one write transaction may do to a rule that was already there. */
  ghost predicate OnlyLanded(before: DB, after: DB, plans: seq<Plan>, n: nat, watchID: int)
    requires n <= |plans|
  {
    watchID in before.rules ==>
      && watchID in after.rules
      && after.rules[watchID].settings == before.rules[watchID].settings
      && after.rules[watchID].createdAt == before.rules[watchID].createdAt
      && (after.rules[watchID].st != before.rules[watchID].st ==>
            && (exists i :: 0 <= i < n && plans[i].watchID == watchID
                 && SameAlertState(before.rules[watchID].st, plans[i].old_.st))
            && (exists j :: 0 <= j < n && plans[j].watchID == watchID && after.rules[watchID].st == plans[j].st))
  }

  lemma {:induction false} SaveAllOnlyLands(db: DB, plans: seq<Plan>, n: nat, watchID: int)
    requires n <= |plans|
    ensures OnlyLanded(db, SaveAll(db, plans, n), plans, n, watchID)
    ensures SaveAll(db, plans, n).rules.Keys == db.rules.Keys && SaveAll(db, plans, n).watches == db.watches
    ensures SaveAll(db, plans, n).users == db.users
  {
    if n > 0 {
      SaveAllOnlyLands(db, plans, n - 1, watchID);
      var mid, p := SaveAll(db, plans, n - 1), plans[n - 1];
      hide SaveOne;
      SaveOneParts(mid, p);
    }
  }

  lemma {:induction false} AddAllKeepsExisting(db: DB, adds: seq<Addition>, n: nat, now: Instant, watchID: int)
    requires n <= |adds|
    ensures watchID in db.rules ==> watchID in AddAll(db, adds, n, now).rules
                                    && AddAll(db, adds, n, now).rules[watchID] == db.rules[watchID]
  {
    if n > 0 {
      AddAllKeepsExisting(db, adds, n - 1, now, watchID);
    }
  }

  /** A check never touches an owner's settings, and changes the alert state of a rule
      only if the rule still stood exactly as the check had read it. */
  lemma WriteOnlyLandsOnWhatItRead(db: DB, v: View, cfg: Config, watchID: int)
    ensures OnlyLanded(db, Committed(db, v, cfg), FinalPlans(v, cfg), |FinalPlans(v, cfg)|, watchID)
  {
    hide Plans, Additions, AfterBreaker, AddAll, SaveAll, TellAll, Mentioned, Grouping.Keys, SameAlertState;
    var adds, plans := Additions(v, cfg, |v.watches|), FinalPlans(v, cfg);
    AddAllKeepsExisting(db, adds, |adds|, v.now, watchID);
    var db1 := AddAll(db, adds, |adds|, v.now);
    SaveAllOnlyLands(db1, plans, |plans|, watchID);
    var items := Mentioned(db, adds, |adds|, v.now);
    TellAllKeepsRules(SaveAll(db1, plans, |plans|), items, |Grouping.Keys(items)|, watchID);
  }

  /** A save that lands while the rule's settings are as they were read decides what
      judging the stored rule at that very moment, for the watch as it was read, would
      decide. BatteryOwners.OwnersChangeWinsExactlyWhen takes both as they now stand. */
  lemma LandedIsAsIfAtomic(db: DB, v: View, id: int, w: Watch, cfg: Config)
    requires Decide(v, id, w, cfg).Save?
    requires CanSave(db, id, Decide(v, id, w, cfg).plan.old_)
    requires db.rules[id].settings == v.rules[id].settings
    ensures var out := Decide(v, id, w, cfg).plan.out;
            var now_ := Judged(v.now, w, db.rules[id], v.reports[w.targetKey], cfg);
            && now_.changed && now_.notify == out.notify && now_.kind == out.kind && now_.from == out.from
            && SameAlertState(now_.state, out.state)
  {
    hide B.EvaluateBattery, B.ResolveLevels;
    var rd := v.reports[w.targetKey];
    B.LastVoltageIsNotJudged(cfg.pol, db.rules[id].st,
      B.Fetch(B.Reading(rd.latestMV, rd.latestAt, rd.status.HasBattery()), LevelsFor(v.rules[id].settings, cfg, rd),
              B.Prefs(Muted(w, v.now), w.notifyRecovery)), v.rules[id].st.lastMV);
    assert db.rules[id].st.(lastMV := v.rules[id].st.lastMV) == v.rules[id].st;
  }

  // ---------------------------------------------------------- added by itself --

  /** No rule can be added by itself any more. */
  predicate ChoiceMade(db: DB, watchID: int) {
    watchID !in db.watches || db.watches[watchID].batteryAddedAt != 0
  }

  predicate AddedByItself(before: DB, after: DB, watchID: int) {
    watchID !in before.rules && watchID in after.rules
  }

  lemma {:induction false} AddAllNeedsChoice(db: DB, adds: seq<Addition>, n: nat, now: Instant, watchID: int)
    requires n <= |adds|
    ensures var after := AddAll(db, adds, n, now);
            && (ChoiceMade(db, watchID) ==> ChoiceMade(after, watchID) && !AddedByItself(db, after, watchID))
            && (AddedByItself(db, after, watchID) ==> ChoiceMade(after, watchID))
  {
    if n > 0 {
      AddAllNeedsChoice(db, adds, n - 1, now, watchID);
    }
  }

  lemma WriteAddsOnlyWithoutChoice(db: DB, v: View, cfg: Config, watchID: int)
    ensures var after := Committed(db, v, cfg);
            && (ChoiceMade(db, watchID) ==> ChoiceMade(after, watchID) && !AddedByItself(db, after, watchID))
            && (AddedByItself(db, after, watchID) ==> ChoiceMade(after, watchID))
  {
    hide Plans, Additions, AfterBreaker, AddAll, SaveAll, TellAll, Mentioned, Grouping.Keys;
    var adds, plans := Additions(v, cfg, |v.watches|), FinalPlans(v, cfg);
    AddAllNeedsChoice(db, adds, |adds|, v.now, watchID);
    var db1 := AddAll(db, adds, |adds|, v.now);
    SaveAllOnlyLands(db1, plans, |plans|, watchID);
    var items := Mentioned(db, adds, |adds|, v.now);
    TellAllKeepsRules(SaveAll(db1, plans, |plans|), items, |Grouping.Keys(items)|, watchID);
  }

  lemma ChoiceIsForGood(sys: Sys, a: Action, cfg: Config, watchID: int)
    requires ChoiceMade(sys.db, watchID)
    ensures ChoiceMade(Do(sys, a, cfg).db, watchID)
    ensures a.Write? ==> !AddedByItself(sys.db, Do(sys, a, cfg).db, watchID)
  {
    hide Committed;
    match a
    case Write(id, _) =>
      if id in sys.checks && sys.checks[id].Ready? {
        WriteAddsOnlyWithoutChoice(sys.db, sys.checks[id].v, cfg, watchID);
      }
    case _ =>
  }

  lemma {:induction false} ChoiceStands(sys: Sys, acts: seq<Action>, cfg: Config, i: nat, k: nat, watchID: int)
    requires i <= k <= |acts| && ChoiceMade(SysAt(sys, acts, cfg, i).db, watchID)
    ensures ChoiceMade(SysAt(sys, acts, cfg, k).db, watchID)
  {
    hide Do, ChoiceMade;
    if i < k {
      ChoiceStands(sys, acts, cfg, i, k - 1, watchID);
      ChoiceIsForGood(SysAt(sys, acts, cfg, k - 1), acts[k - 1], cfg, watchID);
    }
  }

  /** Step k of the run is a check giving the watch a rule. */
  predicate AutoAddAt(sys: Sys, acts: seq<Action>, cfg: Config, k: nat, watchID: int)
    requires k < |acts|
  {
    acts[k].Write? && AddedByItself(SysAt(sys, acts, cfg, k).db, SysAt(sys, acts, cfg, k + 1).db, watchID)
  }

  predicate OwnerChoseAt(sys: Sys, acts: seq<Action>, cfg: Config, k: nat, watchID: int)
    requires k < |acts|
  {
    acts[k].Owner? && Found(SysAt(sys, acts, cfg, k).db, acts[k].op)
    && match acts[k].op
       case AddRule(_, w, _) => w == watchID
       case DeleteRule(_, w, _) => w == watchID
       case _ => false
  }

  /** A watch is given a rule by itself at most once, and never after its owner has
      switched battery alerts on or off. */
  lemma AddedByItselfAtMostOnce(sys: Sys, acts: seq<Action>, cfg: Config, i: nat, j: nat, watchID: int)
    requires i < j < |acts| && (AutoAddAt(sys, acts, cfg, i, watchID) || OwnerChoseAt(sys, acts, cfg, i, watchID))
    ensures !AutoAddAt(sys, acts, cfg, j, watchID)
  {
    hide Committed;
    var before := SysAt(sys, acts, cfg, i);
    if AutoAddAt(sys, acts, cfg, i, watchID) {
      var id := acts[i].id;
      assert id in before.checks && before.checks[id].Ready?;
      WriteAddsOnlyWithoutChoice(before.db, before.checks[id].v, cfg, watchID);
    }
    assert ChoiceMade(SysAt(sys, acts, cfg, i + 1).db, watchID);
    ChoiceStands(sys, acts, cfg, i + 1, j, watchID);
    ChoiceIsForGood(SysAt(sys, acts, cfg, j), acts[j], cfg, watchID);
  }

  // ------------------------------------------------------------------ breaker --

  function AllAlerts(ms: seq<Message>): nat {
    if ms == [] then 0
    else AllAlerts(ms[..|ms| - 1])
         + if ms[|ms| - 1].BatteryMsg? && ms[|ms| - 1].kind != B.RecoveredKind then 1 else 0
  }

  lemma AllAlertsAppend(ms: seq<Message>, m: Message)
    ensures AllAlerts(ms + [m]) == AllAlerts(ms) + if m.BatteryMsg? && m.kind != B.RecoveredKind then 1 else 0
  {
    assert (ms + [m])[..|ms|] == ms;
  }

  lemma {:induction false} SaveAllAlertsBounded(db: DB, plans: seq<Plan>, n: nat)
    requires n <= |plans|
    ensures AllAlerts(SaveAll(db, plans, n).outbox) <= AllAlerts(db.outbox) + Entering(plans[..n])
  {
    if n > 0 {
      SaveAllAlertsBounded(db, plans, n - 1);
      var mid, p := SaveAll(db, plans, n - 1), plans[n - 1];
      assert plans[..n] == plans[..n - 1] + [p];
      hide SaveOne, AllAlerts, Entering;
      EnteringAppend(plans[..n - 1], p);
      SaveOneParts(mid, p);
      AllAlertsAppend(mid.outbox, BatteryMsg(p.watch.userID, p.watchID, p.out.kind));
    }
  }

  lemma {:induction false} WithheldNeverEnter(plans: seq<Plan>)
    requires forall i :: 0 <= i < |plans| ==> !Alerts(plans[i])
    ensures Entering(plans) == 0
  {
    if plans != [] {
      WithheldNeverEnter(plans[..|plans| - 1]);
    }
  }

  lemma {:induction false} TellAllAddsNoAlerts(db: DB, items: seq<(int, int)>, n: nat)
    requires n <= |Grouping.Keys(items)|
    ensures AllAlerts(TellAll(db, items, n).outbox) == AllAlerts(db.outbox)
  {
    if n > 0 {
      hide Grouping.Keys, Grouping.Pick;
      TellAllAddsNoAlerts(db, items, n - 1);
      var u := Grouping.Keys(items)[n - 1];
      AllAlertsAppend(TellAll(db, items, n - 1).outbox, EnabledMsg(u, Grouping.Pick(items, u)));
    }
  }

  lemma {:induction false} AddAllQueuesNothing(db: DB, adds: seq<Addition>, n: nat, now: Instant)
    requires n <= |adds|
    ensures AddAll(db, adds, n, now).outbox == db.outbox
  {
    if n > 0 {
      AddAllQueuesNothing(db, adds, n - 1, now);
    }
  }

  /** One check queues no more alerts than the limit, and none at all once more than
      that would go out. */
  lemma AlertsPerCheckAreLimited(db: DB, v: View, cfg: Config)
    ensures var queued := AllAlerts(Committed(db, v, cfg).outbox) - AllAlerts(db.outbox);
            var wanted := Entering(Plans(v, cfg, |v.watches|));
            queued <= if wanted > cfg.maxNewAlertsPerPoll then 0 else wanted
  {
    hide Plans, Additions, AddAll, SaveAll, TellAll, Mentioned, Grouping.Keys;
    var adds, plans := Additions(v, cfg, |v.watches|), FinalPlans(v, cfg);
    AddAllQueuesNothing(db, adds, |adds|, v.now);
    var db1 := AddAll(db, adds, |adds|, v.now);
    SaveAllAlertsBounded(db1, plans, |plans|);
    assert plans[..|plans|] == plans;
    if Entering(Plans(v, cfg, |v.watches|)) > cfg.maxNewAlertsPerPoll {
      WithheldNeverEnter(plans);
    }
    var items := Mentioned(db, adds, |adds|, v.now);
    TellAllAddsNoAlerts(SaveAll(db1, plans, |plans|), items, |Grouping.Keys(items)|);
  }
}
