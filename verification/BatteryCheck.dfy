/** One battery check: three reads, a while spent fetching, and a single write
    transaction, with owners free to act in between (internal/poller/battery.go). */
module BatteryCheck {
  import B = BatteryMachine
  import opened BatteryStore
  import Grouping
  import Sets

  datatype Status = StatusOK | StatusLow | StatusCritical | StatusNone | StatusUnknown {
    predicate HasBattery() { StatusOK? || StatusLow? || StatusCritical? }
  }

  datatype Readings = Readings(status: Status, latestMV: int, latestAt: Time, stale: bool, csLowMV: int,
    csCriticalMV: int)

  /** What a fetch for one repeater came back with. */
  datatype Fetched = NoBattery | FetchError | Report(rd: Readings)

  datatype Config = Config(pol: B.Policy, lowMV: int, criticalMV: int, overchargeMV: int, maxNewAlertsPerPoll: int)

  datatype Plan = Plan(watchID: int, watch: Watch, old_: Rule, st: B.BatteryState, out: B.Outcome)
  datatype Addition = Addition(watchID: int, userID: int, st: B.BatteryState, muted: bool)
  datatype Decision = Skip | Add(addition: Addition) | Save(plan: Plan)

  /** Everything a check has read before it decides. */
  datatype View = View(now: Instant, watches: seq<(int, Watch)>, rules: map<int, Rule>, auto: map<int, bool>,
    reports: map<string, Readings>)

  function LevelsFor(s: Settings, cfg: Config, rd: Readings): B.Levels {
    B.ResolveLevels(s.lowMV, s.criticalMV, s.overchargeOn, s.overchargeMV,
                    cfg.lowMV, cfg.criticalMV, cfg.overchargeMV, rd.csLowMV, rd.csCriticalMV)
  }

  predicate Muted(w: Watch, now: Instant) {
    w.mutedUntil != 0 && now < w.mutedUntil
  }

  predicate WantsAuto(w: Watch, auto: map<int, bool>) {
    w.batteryAddedAt == 0 && w.userID in auto && auto[w.userID]
  }

  /** The evaluation a check makes of one rule. */
  function Judged(now: Instant, w: Watch, rule: Rule, rd: Readings, cfg: Config): B.Outcome {
    B.EvaluateBattery(B.Reading(rd.latestMV, rd.latestAt, rd.status.HasBattery()), rule.st,
                      LevelsFor(rule.settings, cfg, rd), cfg.pol, B.Prefs(Muted(w, now), w.notifyRecovery))
  }

  function StartingState(rd: Readings, cfg: Config): B.BatteryState {
    var level := B.Classify(rd.latestMV, B.Unknown, LevelsFor(FOLLOW_SITE, cfg, rd), cfg.pol.recoverMarginMV);
    B.BatteryState(level, rd.latestAt, B.Blank, 0, rd.latestAt, rd.latestMV, B.Blank)
  }

  function Decide(v: View, id: int, w: Watch, cfg: Config): Decision {
    if w.targetKey !in v.reports || !w.isNode then Skip
    else
      var rd := v.reports[w.targetKey];
      if id !in v.rules then
        if !WantsAuto(w, v.auto) || !rd.status.HasBattery() || rd.stale then Skip
        else Add(Addition(id, w.userID, StartingState(rd, cfg), Muted(w, v.now)))
      else if !rd.status.HasBattery() && rd.status != StatusNone then Skip
      else
        var out := Judged(v.now, w, v.rules[id], rd, cfg);
        if !out.changed then Skip else Save(Plan(id, w, v.rules[id], out.state, out))
  }

  function Plans(v: View, cfg: Config, n: nat): seq<Plan>
    requires n <= |v.watches|
  {
    if n == 0 then []
    else
      var d := Decide(v, v.watches[n - 1].0, v.watches[n - 1].1, cfg);
      Plans(v, cfg, n - 1) + if d.Save? then [d.plan] else []
  }

  function Additions(v: View, cfg: Config, n: nat): seq<Addition>
    requires n <= |v.watches|
  {
    if n == 0 then []
    else
      var d := Decide(v, v.watches[n - 1].0, v.watches[n - 1].1, cfg);
      Additions(v, cfg, n - 1) + if d.Add? then [d.addition] else []
  }

  predicate Alerts(p: Plan) {
    p.out.notify && p.out.kind != B.RecoveredKind
  }

  function Entering(plans: seq<Plan>): nat {
    if plans == [] then 0 else Entering(plans[..|plans| - 1]) + if Alerts(plans[|plans| - 1]) then 1 else 0
  }

  /** Saved as judged, but never announced, so its recovery stays quiet too. */
  function Withheld(p: Plan): Plan {
    if Alerts(p) then p.(out := p.out.(notify := false), st := p.st.(announced := p.old_.st.announced)) else p
  }

  function AfterBreaker(plans: seq<Plan>, cfg: Config): seq<Plan> {
    if Entering(plans) > cfg.maxNewAlertsPerPoll then seq(|plans|, i requires 0 <= i < |plans| => Withheld(plans[i]))
    else plans
  }

  // ------------------------------------------------------- the transaction --

  function AddAll(db: DB, adds: seq<Addition>, n: nat, now: Instant): DB
    requires n <= |adds|
  {
    if n == 0 then db else AutoAdded(AddAll(db, adds, n - 1, now), adds[n - 1].watchID, adds[n - 1].st, now)
  }

  /** The additions that landed and may be mentioned, by user. */
  function Mentioned(db: DB, adds: seq<Addition>, n: nat, now: Instant): seq<(int, int)>
    requires n <= |adds|
  {
    if n == 0 then []
    else
      var a := adds[n - 1];
      Mentioned(db, adds, n - 1, now)
      + if CanAutoAdd(AddAll(db, adds, n - 1, now), a.watchID) && !a.muted then [(a.userID, a.watchID)] else []
  }

  function SaveOne(db: DB, p: Plan): DB {
    if !CanSave(db, p.watchID, p.old_) then db
    else
      var db1 := Saved(db, p.watchID, p.old_, p.st);
      var db2 := if p.out.state.level != p.out.from
                 then db1.(events := db1.events + [Event(p.watchID, p.out.from, p.out.state.level, p.out.notify)])
                 else db1;
      if p.out.notify then db2.(outbox := db2.outbox + [BatteryMsg(p.watch.userID, p.watchID, p.out.kind)]) else db2
  }

  function SaveAll(db: DB, plans: seq<Plan>, n: nat): DB
    requires n <= |plans|
  {
    if n == 0 then db else SaveOne(SaveAll(db, plans, n - 1), plans[n - 1])
  }

  function TellOne(db: DB, userID: int, watchIDs: seq<int>): DB {
    Bannered(db.(outbox := db.outbox + [EnabledMsg(userID, watchIDs)]), userID, |watchIDs|)
  }

  function TellAll(db: DB, items: seq<(int, int)>, n: nat): DB
    requires n <= |Grouping.Keys(items)|
  {
    if n == 0 then db
    else
      var u := Grouping.Keys(items)[n - 1];
      TellOne(TellAll(db, items, n - 1), u, Grouping.Pick(items, u))
  }

  function Written(db: DB, adds: seq<Addition>, plans: seq<Plan>, now: Instant): DB {
    var items := Mentioned(db, adds, |adds|, now);
    TellAll(SaveAll(AddAll(db, adds, |adds|, now), plans, |plans|), items, |Grouping.Keys(items)|)
  }

  function FinalPlans(v: View, cfg: Config): seq<Plan> {
    AfterBreaker(Plans(v, cfg, |v.watches|), cfg)
  }

  /** The effect of the write transaction of a check that read v. */
  function Committed(db: DB, v: View, cfg: Config): DB {
    Written(db, Additions(v, cfg, |v.watches|), FinalPlans(v, cfg), v.now)
  }

  // ------------------------------------------------------------- the check --

  /** The watches a read returns, in whatever order the rows come. */
  function Listed(watches: map<int, Watch>, order: seq<int>): seq<(int, Watch)>
    requires forall i :: 0 <= i < |order| ==> order[i] in watches
  {
    seq(|order|, i requires 0 <= i < |order| => (order[i], watches[order[i]]))
  }

  /** The users a read of the users table says want rules added. */
  function AutoOf(users: map<int, User>): map<int, bool> {
    map u | u in users :: users[u].autoBattery
  }

  /** Repeaters worth fetching: someone has a rule, or might be given one. */
  predicate Needed(watches: seq<(int, Watch)>, rules: map<int, Rule>, auto: map<int, bool>, key: string) {
    exists i :: 0 <= i < |watches| && watches[i].1.targetKey == key && watches[i].1.isNode
                && (watches[i].0 in rules || WantsAuto(watches[i].1, auto))
  }

  function ReportsOf(results: seq<(string, Fetched)>, n: nat): map<string, Readings>
    requires n <= |results|
  {
    if n == 0 then map[]
    else
      var before := ReportsOf(results, n - 1);
      if results[n - 1].1.Report? then before[results[n - 1].0 := results[n - 1].1.rd] else before
  }

  /** What fetching the needed keys brings back. */
  function Reports(
    watches: seq<(int, Watch)>, rules: map<int, Rule>, auto: map<int, bool>,
    fetch: string -> Fetched): map<string, Readings> {
    map i | 0 <= i < |watches| && Needed(watches, rules, auto, watches[i].1.targetKey)
      && fetch(watches[i].1.targetKey).Report?
      :: watches[i].1.targetKey := fetch(watches[i].1.targetKey).rd
  }

  /** All a check comes to know when nobody acts while it runs. */
  function ViewAt(db: DB, order: seq<int>, fetch: string -> Fetched, now: Instant): View
    requires forall i :: 0 <= i < |order| ==> order[i] in db.watches
  {
    var watches, auto := Listed(db.watches, order), AutoOf(db.users);
    View(now, watches, db.rules, auto, Reports(watches, db.rules, auto, fetch))
  }

  /** What a whole check that nobody interrupts leaves. */
  function Checked(db: DB, order: seq<int>, fetch: string -> Fetched, now: Instant, cfg: Config): DB
    requires forall i :: 0 <= i < |order| ==> order[i] in db.watches
  {
    Committed(db, ViewAt(db, order, fetch, now), cfg)
  }

  lemma ReportsAre(
    watches: seq<(int, Watch)>, rules: map<int, Rule>, auto: map<int, bool>, fetch: string -> Fetched, key: string)
    ensures key in Reports(watches, rules, auto, fetch) <==> Needed(watches, rules, auto, key) && fetch(key).Report?
    ensures key in Reports(watches, rules, auto, fetch) ==> Reports(watches, rules, auto, fetch)[key] == fetch(key).rd
  {
    if Needed(watches, rules, auto, key) {
      var i :| 0 <= i < |watches| && watches[i].1.targetKey == key && watches[i].1.isNode
               && (watches[i].0 in rules || WantsAuto(watches[i].1, auto));
    }
  }

  class Check {
    const cfg: Config
    const store: Store
    var now: Instant
    var watches: seq<(int, Watch)>
    var rules: map<int, Rule>
    var auto: map<int, bool>
    var reports: map<string, Readings>
    var plans: seq<Plan>
    var adds: seq<Addition>

    function Read(): View
      reads this
    {
      View(now, watches, rules, auto, reports)
    }

    constructor (cfg: Config, store: Store, now: Instant)
      ensures this.cfg == cfg && this.store == store && this.now == now
    {
      this.cfg, this.store, this.now := cfg, store, now;
      watches, rules, auto, reports, plans, adds := [], map[], map[], map[], [], [];
    }

    /** A whole check that nobody interrupts: from the three reads to the transaction it
        is the write of one moment's view. BatteryRace lets owners in between the steps. */
    method CheckBatteries(order: seq<int>, fetch: string -> Fetched)
      requires forall i :: 0 <= i < |order| ==> order[i] in store.watches
      modifies this, store
      ensures now == old(now)
      ensures store.Contents() == Checked(old(store.Contents()), order, fetch, now, cfg)
    {
      hide Plans, Additions, AfterBreaker, Written, Needed, Reports, ReportsOf;
      ReadWatches(order);
      ReadRules();
      ReadUsers();
      var need := KeysToFetch();
      var results := FetchAll(need, fetch);
      TakeReports(results);
      assert reports == Reports(watches, rules, auto, fetch) by {
        forall key
          ensures key in Reports(watches, rules, auto, fetch)
            <==> Needed(watches, rules, auto, key) && fetch(key).Report?
                   ensures key in Reports(watches, rules, auto, fetch) ==>
                     Reports(watches, rules, auto, fetch)[key] == fetch(key).rd
        {
          ReportsAre(watches, rules, auto, fetch, key);
        }
      }
      DecideAll();
      Write();
    }

    method FetchAll(need: set<string>, fetch: string -> Fetched) returns (results: seq<(string, Fetched)>)
      ensures ReportsOf(results, |results|) == map key | key in need && fetch(key).Report? :: fetch(key).rd
    {
      results := [];
      var left := need;
      while left != {}
        invariant left <= need
        invariant ReportsOf(results, |results|) == map key | key in need && key !in left
          && fetch(key).Report? :: fetch(key).rd
      {
        var key := Sets.Choose(left);
        ReportsAppend(results, (key, fetch(key)));
        results := results + [(key, fetch(key))];
        left := left - {key};
      }
    }

    /** The three reads are separate statements; owners may act between them. */
    method ReadWatches(order: seq<int>)
      requires forall i :: 0 <= i < |order| ==> order[i] in store.watches
      modifies this`watches
      ensures watches == Listed(store.watches, order)
    {
      watches := Listed(store.watches, order);
    }

    method ReadRules()
      modifies this`rules
      ensures rules == store.rules
    {
      rules := store.rules;
    }

    method ReadUsers()
      modifies this`auto
      ensures auto == AutoOf(store.users)
    {
      auto := map u | u in store.users :: store.users[u].autoBattery;
    }

    method KeysToFetch() returns (need: set<string>)
      ensures forall key :: key in need <==> Needed(watches, rules, auto, key)
    {
      need := {};
      for i := 0 to |watches|
        invariant forall key :: key in need <==> Needed(watches[..i], rules, auto, key)
      {
        var w := watches[i].1;
        assert watches[..i + 1] == watches[..i] + [watches[i]];
        NeededAppend(watches[..i], watches[i], rules, auto);
        if !w.isNode {
          continue;
        }
        if watches[i].0 in rules || WantsAuto(w, auto) {
          need := need + {w.targetKey};
        }
      }
      assert watches[..|watches|] == watches;
    }

    method TakeReports(results: seq<(string, Fetched)>)
      modifies this`reports
      ensures reports == ReportsOf(results, |results|)
    {
      reports := map[];
      for i := 0 to |results|
        invariant reports == ReportsOf(results, i)
      {
        match results[i].1
        case NoBattery => // nothing to judge, and nothing to show
        case FetchError => // unknown, never low
        case Report(rd) => reports := reports[results[i].0 := rd];
      }
    }

    method DecideAll()
      modifies this`plans, this`adds
      ensures plans == AfterBreaker(Plans(Read(), cfg, |watches|), cfg)
      ensures adds == Additions(Read(), cfg, |watches|)
    {
      hide Plans, Additions, Entering;
      var entering;
      plans, adds, entering := PlanAll();
      if entering > cfg.maxNewAlertsPerPoll {
        Withhold();
      }
    }

    /** Plans and additions before the breaker, and how many would alert. */
    method PlanAll() returns (planned: seq<Plan>, added: seq<Addition>, entering: nat)
      ensures planned == Plans(Read(), cfg, |watches|) && added == Additions(Read(), cfg, |watches|)
      ensures entering == Entering(planned)
    {
      hide Decide, Entering, Plans, Additions;
      var v := Read();
      planned, added, entering := [], [], 0;
      NothingPlanned(v);
      for i := 0 to |v.watches|
        invariant planned == Plans(v, cfg, i) && added == Additions(v, cfg, i)
        invariant entering == Entering(planned)
      {
        PlanOne(v, cfg, i);
        match Decide(v, v.watches[i].0, v.watches[i].1, cfg)
        case Skip =>
        case Add(a) => added := added + [a];
        case Save(p) =>
          EnteringAppend(planned, p);
          if p.out.notify && p.out.kind != B.RecoveredKind {
            entering := entering + 1;
          }
          planned := planned + [p];
      }
    }

    /** Strips the announcement from every alert, in place. */
    method Withhold()
      modifies this`plans
      ensures |plans| == |old(plans)| && forall i :: 0 <= i < |plans| ==> plans[i] == Withheld(old(plans)[i])
    {
      for i := 0 to |plans|
        invariant |plans| == |old(plans)|
        invariant forall j :: 0 <= j < i ==> plans[j] == Withheld(old(plans)[j])
        invariant forall j :: i <= j < |plans| ==> plans[j] == old(plans)[j]
      {
        var p := plans[i];
        if p.out.notify && p.out.kind != B.RecoveredKind {
          plans := plans[i := p.(out := p.out.(notify := false), st := p.st.(announced := p.old_.st.announced))];
        }
      }
    }

    /** Everything is re-checked inside the one transaction that writes it. */
    method Write()
      modifies store
      ensures store.Contents() == Written(old(store.Contents()), adds, plans, now)
    {
      ghost var db := store.Contents();
      var enabled, order := InsertAdditions();
      SavePlans();
      TellUsers(enabled, order, Mentioned(db, adds, |adds|, now));
    }

    method InsertAdditions() returns (enabled: map<int, seq<int>>, order: seq<int>)
      modifies store
      ensures store.Contents() == AddAll(old(store.Contents()), adds, |adds|, now)
      ensures var items := Mentioned(old(store.Contents()), adds, |adds|, now);
              order == Grouping.Keys(items) && enabled == Grouping.Groups(items)
    {
      ghost var db := store.Contents();
      ghost var items: seq<(int, int)> := [];
      enabled, order := map[], [];
      var todo, at := adds, now;
      for i := 0 to |todo|
        invariant store.Contents() == AddAll(db, todo, i, at)
        invariant items == Mentioned(db, todo, i, at)
        invariant order == Grouping.Keys(items) && enabled == Grouping.Groups(items)
      {
        hide AutoAdded, CanAutoAdd, Grouping.Keys, Grouping.Groups, Store.Contents;
        var a := todo[i];
        var inserted := store.InsertAutoBatteryRuleTx(a.watchID, a.st, at);
        if !inserted || a.muted {
          continue;
        }
        enabled, order := Grouping.Put(enabled, order, a.userID, a.watchID, items);
        items := items + [(a.userID, a.watchID)];
      }
    }

    method SavePlans()
      modifies store
      ensures store.Contents() == SaveAll(old(store.Contents()), plans, |plans|)
    {
      ghost var db := store.Contents();
      var todo := plans;
      for i := 0 to |todo|
        invariant store.Contents() == SaveAll(db, todo, i)
      {
        SavePlan(todo[i]);
      }
    }

    method SavePlan(p: Plan)
      modifies store
      ensures store.Contents() == SaveOne(old(store.Contents()), p)
    {
      var saved := store.SaveBatteryStateTx(p.watchID, p.old_, p.st);
      if !saved {
        return; // the rule is no longer as it was read
      }
      if p.out.state.level != p.out.from {
        store.RecordAlertEvent(Event(p.watchID, p.out.from, p.out.state.level, p.out.notify));
      }
      if p.out.notify {
        store.QueueNotification(BatteryMsg(p.watch.userID, p.watchID, p.out.kind));
      }
    }

    method TellUsers(enabled: map<int, seq<int>>, order: seq<int>, ghost items: seq<(int, int)>)
      requires order == Grouping.Keys(items) && enabled == Grouping.Groups(items)
      modifies store
      ensures store.Contents() == TellAll(old(store.Contents()), items, |order|)
    {
      ghost var db := store.Contents();
      for i := 0 to |order|
        invariant store.Contents() == TellAll(db, items, i)
      {
        store.QueueNotification(EnabledMsg(order[i], enabled[order[i]]));
        store.SetBatteryBannerTx(order[i], |enabled[order[i]]|);
      }
    }
  }

  lemma {:induction false} ReportsOfPrefix(a: seq<(string, Fetched)>, b: seq<(string, Fetched)>, n: nat)
    requires n <= |a| && a <= b
    ensures ReportsOf(b, n) == ReportsOf(a, n)
  {
    if n > 0 {
      ReportsOfPrefix(a, b, n - 1);
    }
  }

  lemma ReportsAppend(results: seq<(string, Fetched)>, r: (string, Fetched))
    ensures ReportsOf(results + [r], |results| + 1)
         == if r.1.Report? then ReportsOf(results, |results|)[r.0 := r.1.rd] else ReportsOf(results, |results|)
  {
    ReportsOfPrefix(results, results + [r], |results|);
  }

  lemma NothingPlanned(v: View)
    ensures forall cfg :: Plans(v, cfg, 0) == [] && Additions(v, cfg, 0) == []
    ensures Entering([]) == 0
  {
  }

  lemma PlanOne(v: View, cfg: Config, i: nat)
    requires i < |v.watches|
    ensures var d := Decide(v, v.watches[i].0, v.watches[i].1, cfg);
            && Plans(v, cfg, i + 1) == (if d.Save? then Plans(v, cfg, i) + [d.plan] else Plans(v, cfg, i))
            && Additions(v, cfg, i + 1)
                 == (if d.Add? then Additions(v, cfg, i) + [d.addition] else Additions(v, cfg, i))
  {
    hide Decide;
  }

  lemma EnteringAppend(plans: seq<Plan>, p: Plan)
    ensures Entering(plans + [p]) == Entering(plans) + if Alerts(p) then 1 else 0
  {
    assert (plans + [p])[..|plans|] == plans;
  }

  lemma NeededAppend(watches: seq<(int, Watch)>, w: (int, Watch), rules: map<int, Rule>, auto: map<int, bool>)
    ensures forall key ::
      (Needed(watches + [w], rules, auto, key) <==>
        Needed(watches, rules, auto, key)
        || (w.1.targetKey == key && w.1.isNode && (w.0 in rules || WantsAuto(w.1, auto))))
  {
    var all := watches + [w];
    assert all[|watches|] == w && forall i :: 0 <= i < |watches| ==> all[i] == watches[i];
    forall key
      ensures Needed(all, rules, auto, key) <==>
        Needed(watches, rules, auto, key)
        || (w.1.targetKey == key && w.1.isNode && (w.0 in rules || WantsAuto(w.1, auto)))
    {
      if Needed(watches, rules, auto, key) {
        var i :| 0 <= i < |watches| && watches[i].1.targetKey == key && watches[i].1.isNode
                 && (watches[i].0 in rules || WantsAuto(watches[i].1, auto));
        assert all[i] == watches[i];
      }
      if w.1.targetKey == key && w.1.isNode && (w.0 in rules || WantsAuto(w.1, auto)) {
        assert all[|watches|].1.targetKey == key;
      }
    }
  }
}
