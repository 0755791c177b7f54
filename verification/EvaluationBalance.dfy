/** What watchers are told of each rule over whole histories of evaluations, breaker trips
    and owners' edits included, and what a trip does to the next poll. */
module EvaluationBalance {
  import opened QuietAlert
  import opened RuleEvidence
  import opened Evaluation
  import opened EvaluationRuns
  import FeedGuard
  import Grouping

  // -------------------------------------------------------- trips told of a rule --

  function TripsIn(rules: seq<RuleTrip>, ruleID: int): nat {
    if rules == [] then 0
    else TripsIn(rules[..|rules| - 1], ruleID) + if rules[|rules| - 1].rule == ruleID then 1 else 0
  }

  /** How often messages of one kind have listed the rule. */
  function Told(ms: seq<Message>, k: StateKey, kind: Kind): nat {
    if ms == [] then 0
    else
      var m := ms[|ms| - 1];
      Told(ms[..|ms| - 1], k, kind) + if (m.watchID, m.kind) == (k.0, kind) then TripsIn(m.rules, k.1) else 0
  }

  type Item = (MsgKey, (Planned, RuleTrip))

  /** The same of the outcomes the messages are made from. */
  function Counted(items: seq<Item>, k: StateKey, kind: Kind): nat {
    if items == [] then 0
    else
      var it := items[|items| - 1];
      Counted(items[..|items| - 1], k, kind) + if it.0 == (k.0, kind) && it.1.1.rule == k.1 then 1 else 0
  }

  lemma {:induction false} ToldConcat(ms: seq<Message>, ns: seq<Message>, k: StateKey, kind: Kind)
    ensures Told(ms + ns, k, kind) == Told(ms, k, kind) + Told(ns, k, kind)
  {
    hide TripsIn;
    if ns == [] {
      assert ms + ns == ms;
    } else {
      ToldConcat(ms, ns[..|ns| - 1], k, kind);
      assert (ms + ns)[..|ms + ns| - 1] == ms + ns[..|ns| - 1];
    }
  }

  lemma TripsOfAppend(g: seq<(Planned, RuleTrip)>, it: (Planned, RuleTrip), ruleID: int)
    ensures TripsIn(RuleTrips(g + [it]), ruleID) == TripsIn(RuleTrips(g), ruleID) + if it.1.rule == ruleID then 1 else 0
  {
    assert RuleTrips(g + [it])[..|g|] == RuleTrips(g);
  }

  /** A group lists the rule as often as its items do. */
  lemma {:induction false} GroupCounts(items: seq<Item>, k: StateKey, kind: Kind)
    ensures TripsIn(RuleTrips(Grouping.Pick(items, (k.0, kind))), k.1) == Counted(items, k, kind)
  {
    hide TripsIn;
    if items == [] {
      NoTrips(k.1);
    } else {
      var init, last := items[..|items| - 1], items[|items| - 1];
      GroupCounts(init, k, kind);
      TripsOfAppend(Grouping.Pick(init, (k.0, kind)), last.1, k.1);
    }
  }

  lemma NoTrips(ruleID: int)
    ensures TripsIn(RuleTrips([]), ruleID) == 0
  {
  }

  /** The first n messages list the rule through the one group that is its own. */
  lemma {:induction false} MessagesCount(items: seq<Item>, inp: Input, n: nat, k: StateKey, kind: Kind)
    requires n <= |Grouping.Keys(items)|
    ensures Told(MessagesOf(items, inp, n), k, kind)
         == if (k.0, kind) in Grouping.Keys(items)[..n] then Counted(items, k, kind) else 0
  {
    hide TripsIn, Counted, Grouping.Keys, Grouping.Pick;
    if n > 0 {
      MessagesCount(items, inp, n - 1, k, kind);
      GroupIsNotEmpty(items, n - 1);
      Grouping.KeysAreDistinct(items);
      GroupCounts(items, k, kind);
      var key, before := Grouping.Keys(items)[n - 1], MessagesOf(items, inp, n - 1);
      assert (before + [MessageOf(key, Grouping.Pick(items, key), inp)])[..n - 1] == before;
      assert Grouping.Keys(items)[..n] == Grouping.Keys(items)[..n - 1] + [key];
      assert key !in Grouping.Keys(items)[..n - 1];
    }
  }

  /** All of them list it as often as there are outcomes of it to tell. */
  lemma AllMessagesCount(items: seq<Item>, inp: Input, k: StateKey, kind: Kind)
    ensures Told(MessagesOf(items, inp, |Grouping.Keys(items)|), k, kind) == Counted(items, k, kind)
  {
    hide Grouping.Keys, Counted, MessagesOf, TripsIn, Grouping.Pick;
    var keys := Grouping.Keys(items);
    assert keys[..|keys|] == keys;
    MessagesCount(items, inp, |keys|, k, kind);
    if (k.0, kind) !in keys {
      Grouping.KeysAreTheItemsKeys(items, (k.0, kind));
      GroupCounts(items, k, kind);
      NoTrips(k.1);
    }
  }

  // ------------------------------------------------------------------- balance --

  /** What is still owed a recovery: the count in the rule's row. */
  function Owed(states: map<StateKey, WatchState>, k: StateKey): nat {
    if k in states then states[k].notifyCount else 0
  }

  /** The rule has been listed as recovered no more often than as gone quiet, with the
      recoveries still owed counted in. */
  ghost predicate Balanced(db: DB, k: StateKey) {
    Told(db.outbox, k, RecoveredKind) + Owed(db.states, k) <= Told(db.outbox, k, AlertKind)
  }

  lemma KindIsNotified(pol: Policy, s: WatchState, p: Poll)
    ensures Step(pol, s, p).kind != NoKind <==> Step(pol, s, p).notify
    ensures Step(pol, s, p).notify ==> Step(pol, s, p).changed
  {
  }

  /** One planned outcome, told and saved. */
  lemma OneOutcomeBalances(s: WatchState, p: Planned, inp: Input, cfg: Config)
    requires RowFits(KeyOf(p), s) && p.out == Step(cfg.pol, s, PollOf(p.watch, p.rule, inp))
    ensures Notifies(p) <==> p.out.kind != NoKind
    ensures (if p.out.kind == RecoveredKind then 1 else 0) + p.out.state.notifyCount
         <= (if p.out.kind == AlertKind then 1 else 0) + s.notifyCount
    ensures !WorthSaving(p.out) ==> p.out.state == s
  {
    hide PollOf, Step;
    OneRow(s, p, inp, cfg);
    KindIsNotified(cfg.pol, s, PollOf(p.watch, p.rule, inp));
    StepBalance(cfg.pol, s, PollOf(p.watch, p.rule, inp));
  }

  lemma CountedAppend(items: seq<Item>, it: Item, k: StateKey, kind: Kind)
    ensures Counted(items + [it], k, kind)
         == Counted(items, k, kind) + if it.0 == (k.0, kind) && it.1.1.rule == k.1 then 1 else 0
  {
    assert (items + [it])[..|items|] == items;
  }

  /** What the first n outcomes tell of the rule and leave it owed. */
  lemma {:induction false} PlanBalances(db: DB, ps: seq<Planned>, inp: Input, cfg: Config, n: nat, k: StateKey)
    requires n <= |ps| && KeysDistinct(ps)
    requires forall p :: p in ps ==> FromRows(db, p, inp, cfg)
    requires RowsFit(db.states)
    ensures Counted(TripsOf(ps, n), k, RecoveredKind) + Owed(SaveWorthy(db.states, ps, n), k)
         <= Counted(TripsOf(ps, n), k, AlertKind) + Owed(db.states, k)
  {
    hide Step, PollOf, RowFits, Counted, WorthSaving;
    if n == 0 {
      NothingCounted(k);
    } else {
      PlanBalances(db, ps, inp, cfg, n - 1, k);
      var p := ps[n - 1];
      assert p in ps;
      TripsAppend(ps, n);
      OneOutcomeBalances(db.states[KeyOf(p)], p, inp, cfg);
      UnplannedKept(db.states, ps, n - 1, KeyOf(p));
      CountedAppend(TripsOf(ps, n - 1), TripOf(p), k, RecoveredKind);
      CountedAppend(TripsOf(ps, n - 1), TripOf(p), k, AlertKind);
    }
  }

  lemma NothingCounted(k: StateKey)
    ensures Counted([], k, RecoveredKind) == 0 && Counted([], k, AlertKind) == 0
  {
  }

  lemma EvaluationBalances(db: DB, inp: Input, cfg: Config, k: StateKey)
    requires WellIndexed(db) && Balanced(db, k)
    ensures Balanced(Evaluated(db, inp, cfg), k)
  {
    hide Plan, KeysDistinct, FromRows, Tripped, EventsOf, Told, Counted, MessagesOf, SaveWorthy, Grouping.Keys;
    var ps := Plan(db, inp, cfg);
    var items := TripsOf(ps, |ps|);
    PlanIsFromRows(db, inp, cfg);
    PlanBalances(db, ps, inp, cfg, |ps|, k);
    AllMessagesCount(items, inp, k, RecoveredKind);
    AllMessagesCount(items, inp, k, AlertKind);
    ToldConcat(db.outbox, NewMessages(db, inp, cfg), k, RecoveredKind);
    ToldConcat(db.outbox, NewMessages(db, inp, cfg), k, AlertKind);
  }

  lemma EditBalances(db: DB, t: Turn, k: StateKey)
    requires Balanced(db, k)
    ensures Balanced(Edited(db, t), k)
  {
  }

  /** In every history, whatever trips the breaker and whatever owners edit, each rule is
      listed in recovered messages no more often than in alert messages, with one to spare
      for each recovery still owed. */
  lemma {:induction false} RecoveredNeverOutnumberAlerts(db: DB, ts: seq<Turn>, cfg: Config, n: nat, k: StateKey)
    requires n <= |ts| && RowsFit(db.states) && EditsAreSound(db, ts) && Balanced(db, k)
    ensures Balanced(DBAt(db, ts, cfg, n), k)
  {
    hide Evaluated, Edited, Balanced, WellIndexed, RowsFit, EditsAreSound;
    if n > 0 {
      RecoveredNeverOutnumberAlerts(db, ts, cfg, n - 1, k);
      EveryRowFits(db, ts, cfg, n - 1);
      EditBalances(DBAt(db, ts, cfg, n - 1), ts[n - 1], k);
      EvaluationBalances(Edited(DBAt(db, ts, cfg, n - 1), ts[n - 1]), ts[n - 1].inp, cfg, k);
    }
  }

  // ------------------------------------------------------------- after a trip --

  lemma EntersAgain(pol: Policy, s: WatchState, t: WatchState, p: Poll, q: Poll)
    requires Step(pol, s, p).entering && t.state == s.state && t.consecutive == s.consecutive && Over(q)
    ensures Step(pol, t, q).entering
  {
  }

  lemma UnknownNeverEnters(pol: Policy, s: WatchState, p: Poll)
    requires s.state == Unknown
    ensures !Step(pol, s, p).entering
  {
  }

  /** Every rule about to enter alert at the one poll is over threshold at the other. */
  ghost predicate StillOver(db: DB, inp: Input, next: Input, cfg: Config) {
    forall w, r :: w in db.watches && r in RulesOf(db, w.id) && PlanRule(db, w, r, inp, cfg).out.entering ==>
      Over(PollOf(w, r, next))
  }

  lemma RuleEntersAgain(db: DB, w: Watch, r: Rule, inp: Input, next: Input, cfg: Config)
    requires w in db.watches && r in RulesOf(db, w.id)
    requires StillOver(db, inp, next, cfg) && PlanRule(db, w, r, inp, cfg).out.entering
    ensures PlanRule(db, w, r, next, cfg).out.entering
  {
    hide Step, PollOf;
    var s, t := Current(db, w, r, inp.now), Current(db, w, r, next.now);
    if (w.id, r.id) !in db.states {
      UnknownNeverEnters(cfg.pol, s, PollOf(w, r, inp));
    }
    EntersAgain(cfg.pol, s, t, PollOf(w, r, inp), PollOf(w, r, next));
  }

  lemma {:induction false} WatchEntersAgain(db: DB, w: Watch, inp: Input, next: Input, cfg: Config, n: nat)
    requires w in db.watches && n <= |RulesOf(db, w.id)| && StillOver(db, inp, next, cfg)
    ensures Entering(PlanWatch(db, w, inp, cfg, n)) <= Entering(PlanWatch(db, w, next, cfg, n))
    ensures |PlanWatch(db, w, inp, cfg, n)| == |PlanWatch(db, w, next, cfg, n)|
  {
    hide PlanRule, StillOver, Entering, RulesOf;
    if n > 0 {
      WatchEntersAgain(db, w, inp, next, cfg, n - 1);
      var r := RulesOf(db, w.id)[n - 1];
      if PlanRule(db, w, r, inp, cfg).out.entering {
        RuleEntersAgain(db, w, r, inp, next, cfg);
      }
      EnteringAppend(PlanWatch(db, w, inp, cfg, n - 1), PlanRule(db, w, r, inp, cfg));
      EnteringAppend(PlanWatch(db, w, next, cfg, n - 1), PlanRule(db, w, r, next, cfg));
    }
  }

  lemma {:induction false} PlanEntersAgain(db: DB, inp: Input, next: Input, cfg: Config, n: nat)
    requires n <= |db.watches| && StillOver(db, inp, next, cfg)
    ensures Entering(PlanAll(db, inp, cfg, n)) <= Entering(PlanAll(db, next, cfg, n))
    ensures |PlanAll(db, inp, cfg, n)| == |PlanAll(db, next, cfg, n)|
  {
    hide PlanWatch, StillOver, Entering, RulesOf;
    if n > 0 {
      var w := db.watches[n - 1];
      assert w in db.watches;
      PlanEntersAgain(db, inp, next, cfg, n - 1);
      WatchEntersAgain(db, w, inp, next, cfg, |RulesOf(db, w.id)|);
      EnteringConcat(PlanAll(db, inp, cfg, n - 1), PlanWatch(db, w, inp, cfg, |RulesOf(db, w.id)|));
      EnteringConcat(PlanAll(db, next, cfg, n - 1), PlanWatch(db, w, next, cfg, |RulesOf(db, w.id)|));
    }
  }

  lemma MoreTripsToo(entering: nat, more: nat, signals: nat, cfg: FeedGuard.BreakerConfig)
    requires FeedGuard.TripBreaker(entering, signals, cfg) && entering <= more
    ensures FeedGuard.TripBreaker(more, signals, cfg)
  {
    hide FeedGuard.TripBreaker;
    FeedGuard.UntrippedExactlyWhenWithinLimits(entering, signals, cfg);
    FeedGuard.UntrippedExactlyWhenWithinLimits(more, signals, cfg);
  }

  /** Saving nothing, a tripped evaluation judges the same rules again at the next poll
      and trips again, for as long as those about to enter alert stay over. */
  lemma {:induction false} TripsAgain(db: DB, inps: seq<Input>, cfg: Config, n: nat)
    requires n < |inps| && Tripped(db, inps[0], cfg)
    requires forall i :: 0 <= i < |inps| ==> StillOver(db, inps[0], inps[i], cfg)
    ensures Tripped(db, inps[n], cfg) && EvaluatedFor(db, inps, cfg, n + 1) == db
  {
    hide StillOver, PlanAll, FeedGuard.TripBreaker, Entering;
    if n > 0 {
      TripsAgain(db, inps, cfg, n - 1);
    } else {
      assert EvaluatedFor(db, inps, cfg, 0) == db;
    }
    PlanEntersAgain(db, inps[0], inps[n], cfg, |db.watches|);
    MoreTripsToo(Entering(Plan(db, inps[0], cfg)), Entering(Plan(db, inps[n], cfg)), |Plan(db, inps[n], cfg)|,
      cfg.breaker);
  }

  /** The database after the first n of these evaluations, with no edits between. */
  function EvaluatedFor(db: DB, inps: seq<Input>, cfg: Config, n: nat): DB
    requires n <= |inps|
  {
    if n == 0 then db else Evaluated(EvaluatedFor(db, inps, cfg, n - 1), inps[n - 1], cfg)
  }
}
