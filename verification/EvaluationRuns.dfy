/** What holds of every evaluation and of every history of evaluations, with owners
    free to edit watches and rules in between. */
module EvaluationRuns {
  import opened QuietAlert
  import opened RuleEvidence
  import opened Evaluation
  import FeedGuard
  import Grouping

  // --------------------------------------------------------- messages of one --

  predicate Notifies(p: Planned) {
    p.out.changed && p.out.notify
  }

  function Notifying(ps: seq<Planned>, n: nat): nat
    requires n <= |ps|
  {
    if n == 0 then 0 else Notifying(ps, n - 1) + if Notifies(ps[n - 1]) then 1 else 0
  }

  lemma {:induction false} TripsCount(ps: seq<Planned>, n: nat)
    requires n <= |ps|
    ensures |TripsOf(ps, n)| == Notifying(ps, n)
  {
    if n > 0 {
      TripsCount(ps, n - 1);
    }
  }

  lemma {:induction false} TripAt(ps: seq<Planned>, i: nat, n: nat)
    requires i < n <= |ps| && Notifies(ps[i])
    ensures Notifying(ps, i) < |TripsOf(ps, n)| && TripsOf(ps, n)[Notifying(ps, i)] == TripOf(ps[i])
  {
    TripsCount(ps, n - 1);
    if i < n - 1 {
      TripAt(ps, i, n - 1);
    }
  }

  lemma {:induction false} MessageAt(items: seq<(MsgKey, (Planned, RuleTrip))>, inp: Input, n: nat, i: nat)
    requires i < n <= |Grouping.Keys(items)|
    ensures var k := Grouping.Keys(items)[i];
            && Grouping.Pick(items, k) != []
            && MessagesOf(items, inp, n)[i] == MessageOf(k, Grouping.Pick(items, k), inp)
  {
    GroupIsNotEmpty(items, i);
    if i < n - 1 {
      MessageAt(items, inp, n - 1, i);
    }
  }

  function RulesIn(ms: seq<Message>): nat {
    if ms == [] then 0 else RulesIn(ms[..|ms| - 1]) + |ms[|ms| - 1].rules|
  }

  lemma {:induction false} RulesInMessages(items: seq<(MsgKey, (Planned, RuleTrip))>, inp: Input, n: nat)
    requires n <= |Grouping.Keys(items)|
    ensures RulesIn(MessagesOf(items, inp, n)) == Grouping.Total(items, Grouping.Keys(items)[..n])
  {
    if n > 0 {
      RulesInMessages(items, inp, n - 1);
      var k := Grouping.Keys(items)[n - 1];
      GroupIsNotEmpty(items, n - 1);
      var before := MessagesOf(items, inp, n - 1);
      assert (before + [MessageOf(k, Grouping.Pick(items, k), inp)])[..n - 1] == before;
      assert Grouping.Keys(items)[..n][..n - 1] == Grouping.Keys(items)[..n - 1];
    }
  }

  /** Where outcome i ends up: its message, and its place in it. */
  ghost predicate Listed(ms: seq<Message>, p: Planned, m: nat, r: nat) {
    && m < |ms| && ms[m].watchID == p.watch.id && ms[m].kind == p.out.kind
    && r < |ms[m].rules| && ms[m].rules[r] == TripOf(p).1.1
  }

  /** The messages of one evaluation partition its notifying outcomes: at most one
      message per watch and direction, as many listed rules as notifying outcomes,
      each outcome listed, and in the order they were planned. */
  lemma MessagesPartitionOutcomes(db: DB, inp: Input, cfg: Config)
    ensures var ps, ms := Plan(db, inp, cfg), NewMessages(db, inp, cfg);
            && (forall i, j :: 0 <= i < j < |ms| ==> (ms[i].watchID, ms[i].kind) != (ms[j].watchID, ms[j].kind))
            && RulesIn(ms) == Notifying(ps, |ps|)
            && |ms| <= Notifying(ps, |ps|)
            && forall i :: 0 <= i < |ps| && Notifies(ps[i]) ==> exists m, r :: Listed(ms, ps[i], m, r)
  {
    hide Plan;
    var ps, ms := Plan(db, inp, cfg), NewMessages(db, inp, cfg);
    var items := TripsOf(ps, |ps|);
    var keys := Grouping.Keys(items);
    TripsCount(ps, |ps|);
    Grouping.KeysAreDistinct(items);
    Grouping.GroupsPartition(items);
    RulesInMessages(items, inp, |keys|);
    assert keys[..|keys|] == keys;
    forall i, j | 0 <= i < j < |ms|
      ensures (ms[i].watchID, ms[i].kind) != (ms[j].watchID, ms[j].kind)
    {
      MessageAt(items, inp, |keys|, i);
      MessageAt(items, inp, |keys|, j);
      assert keys[i] != keys[j];
    }
    forall i | 0 <= i < |ps| && Notifies(ps[i])
      ensures exists m, r :: Listed(ms, ps[i], m, r)
    {
      var m, r := PlaceOf(ps, inp, i);
    }
  }

  lemma PlaceOf(ps: seq<Planned>, inp: Input, i: nat) returns (m: nat, r: nat)
    requires i < |ps| && Notifies(ps[i])
    ensures var items := TripsOf(ps, |ps|);
            && Listed(MessagesOf(items, inp, |Grouping.Keys(items)|), ps[i], m, r)
            && m < |Grouping.Keys(items)| && Grouping.Keys(items)[m] == TripOf(ps[i]).0
            && Notifying(ps, i) < |items| && items[Notifying(ps, i)] == TripOf(ps[i])
            && r == Grouping.Rank(items, Notifying(ps, i))
  {
    var items := TripsOf(ps, |ps|);
    var at := Notifying(ps, i);
    TripAt(ps, i, |ps|);
    Grouping.ItemHasItsOwnPlace(items, at, at);
    var k := items[at].0;
    Grouping.KeysAreTheItemsKeys(items, k);
    m :| 0 <= m < |Grouping.Keys(items)| && Grouping.Keys(items)[m] == k;
    r := Grouping.Rank(items, at);
    MessageAt(items, inp, |Grouping.Keys(items)|, m);
  }

  /** Two outcomes for one message are listed in it in the order they were planned. */
  lemma ListedInPlanOrder(ps: seq<Planned>, inp: Input, i: nat, j: nat) returns (m: nat, r: nat, q: nat)
    requires i < j < |ps| && Notifies(ps[i]) && Notifies(ps[j])
    requires ps[i].watch.id == ps[j].watch.id && ps[i].out.kind == ps[j].out.kind
    ensures var items := TripsOf(ps, |ps|);
            var ms := MessagesOf(items, inp, |Grouping.Keys(items)|);
            Listed(ms, ps[i], m, r) && Listed(ms, ps[j], m, q) && r < q
  {
    hide Listed, Grouping.Keys, Grouping.Rank, TripsOf;
    var items := TripsOf(ps, |ps|);
    m, r := PlaceOf(ps, inp, i);
    var m1, q1 := PlaceOf(ps, inp, j);
    q := q1;
    Grouping.KeysAreDistinct(items);
    EarlierTrip(ps, i, j);
    Grouping.ItemHasItsOwnPlace(items, Notifying(ps, i), Notifying(ps, j));
  }

  lemma EarlierTrip(ps: seq<Planned>, i: nat, j: nat)
    requires i < j < |ps| && Notifies(ps[i])
    ensures Notifying(ps, i) < Notifying(ps, j)
  {
    TripAt(ps, i, j);
    TripsCount(ps, j);
  }

  // ------------------------------------------------------------------ limits --

  function AlertMessages(ms: seq<Message>): nat {
    if ms == [] then 0 else AlertMessages(ms[..|ms| - 1]) + if ms[|ms| - 1].kind == AlertKind then 1 else 0
  }

  function AlertKeys(keys: seq<MsgKey>): nat {
    if keys == [] then 0 else AlertKeys(keys[..|keys| - 1]) + if keys[|keys| - 1].1 == AlertKind then 1 else 0
  }

  lemma {:induction false} AlertMessagesAreAlertKeys(items: seq<(MsgKey, (Planned, RuleTrip))>, inp: Input, n: nat)
    requires n <= |Grouping.Keys(items)|
    ensures AlertMessages(MessagesOf(items, inp, n)) == AlertKeys(Grouping.Keys(items)[..n])
  {
    if n > 0 {
      AlertMessagesAreAlertKeys(items, inp, n - 1);
      GroupIsNotEmpty(items, n - 1);
      var k, before := Grouping.Keys(items)[n - 1], MessagesOf(items, inp, n - 1);
      assert (before + [MessageOf(k, Grouping.Pick(items, k), inp)])[..n - 1] == before;
      assert Grouping.Keys(items)[..n][..n - 1] == Grouping.Keys(items)[..n - 1];
    }
  }

  lemma AlertKindEnters(pol: Policy, s: WatchState, p: Poll)
    ensures Step(pol, s, p).kind == AlertKind ==> Step(pol, s, p).entering
  {
  }

  /** Every planned outcome comes from the state machine. */
  ghost predicate Stepped(db: DB, p: Planned, inp: Input, cfg: Config) {
    p.out == Step(cfg.pol, Current(db, p.watch, p.rule, inp.now), PollOf(p.watch, p.rule, inp))
  }

  lemma {:induction false} PlanWatchStepped(db: DB, w: Watch, inp: Input, cfg: Config, n: nat)
    requires n <= |RulesOf(db, w.id)|
    ensures var ps := PlanWatch(db, w, inp, cfg, n);
            |ps| == n && forall i :: 0 <= i < n ==>
              ps[i].watch == w && ps[i].rule == RulesOf(db, w.id)[i] && Stepped(db, ps[i], inp, cfg)
  {
    hide Step;
    if n > 0 {
      PlanWatchStepped(db, w, inp, cfg, n - 1);
    }
  }

  lemma {:induction false} PlanAllStepped(db: DB, inp: Input, cfg: Config, n: nat)
    requires n <= |db.watches|
    ensures forall p :: p in PlanAll(db, inp, cfg, n) ==>
              && Stepped(db, p, inp, cfg) && p.rule in RulesOf(db, p.watch.id)
              && exists i :: 0 <= i < n && db.watches[i] == p.watch
  {
    hide Stepped, Step;
    if n > 0 {
      var w := db.watches[n - 1];
      PlanAllStepped(db, inp, cfg, n - 1);
      PlanWatchStepped(db, w, inp, cfg, |RulesOf(db, w.id)|);
      var before, own := PlanAll(db, inp, cfg, n - 1), PlanWatch(db, w, inp, cfg, |RulesOf(db, w.id)|);
      forall p | p in before + own
        ensures Stepped(db, p, inp, cfg) && p.rule in RulesOf(db, p.watch.id)
        ensures exists i :: 0 <= i < n && db.watches[i] == p.watch
      {
        if p in own {
          assert db.watches[n - 1] == p.watch;
        }
      }
    }
  }

  lemma AlertKeysAppend(keys: seq<MsgKey>, k: MsgKey)
    ensures AlertKeys(keys + [k]) == AlertKeys(keys) + if k.1 == AlertKind then 1 else 0
  {
    assert (keys + [k])[..|keys|] == keys;
  }

  lemma TripsAppend(ps: seq<Planned>, n: nat)
    requires 0 < n <= |ps|
    ensures TripsOf(ps, n) == if Notifies(ps[n - 1]) then TripsOf(ps, n - 1) + [TripOf(ps[n - 1])]
      else TripsOf(ps, n - 1)
  {
  }

  lemma {:induction false} AlertKeysBounded(ps: seq<Planned>, n: nat)
    requires n <= |ps| && forall p :: p in ps && p.out.kind == AlertKind ==> p.out.entering
    ensures AlertKeys(Grouping.Keys(TripsOf(ps, n))) <= Entering(ps[..n])
  {
    if n > 0 {
      hide TripsOf, Entering, AlertKeys, Grouping.Keys;
      AlertKeysBounded(ps, n - 1);
      assert ps[..n] == ps[..n - 1] + [ps[n - 1]];
      EnteringAppend(ps[..n - 1], ps[n - 1]);
      assert ps[n - 1] in ps;
      TripsAppend(ps, n);
      Grouping.Append(TripsOf(ps, n - 1), TripOf(ps[n - 1]));
      AlertKeysAppend(Grouping.Keys(TripsOf(ps, n - 1)), TripOf(ps[n - 1]).0);
    }
  }

  lemma AlertMessagesNeedEntering(db: DB, inp: Input, cfg: Config)
    ensures AlertMessages(NewMessages(db, inp, cfg)) <= Entering(Plan(db, inp, cfg))
  {
    hide PlanAll, Step;
    var ps := Plan(db, inp, cfg);
    var items := TripsOf(ps, |ps|);
    PlanAllStepped(db, inp, cfg, |db.watches|);
    forall p | p in ps && p.out.kind == AlertKind
      ensures p.out.entering
    {
      AlertKindEnters(cfg.pol, Current(db, p.watch, p.rule, inp.now), PollOf(p.watch, p.rule, inp));
    }
    hide Stepped, Grouping.Keys, TripsOf, AlertMessages, AlertKeys, Entering;
    AlertKeysBounded(ps, |ps|);
    assert ps[..|ps|] == ps;
    AlertMessagesAreAlertKeys(items, inp, |Grouping.Keys(items)|);
    assert Grouping.Keys(items)[..|Grouping.Keys(items)|] == Grouping.Keys(items);
  }

  /** A tripped evaluation changes nothing. One that is let through sends no more alert
      messages than rules entered alert, which is within both limits. */
  lemma EvaluationIsLimited(db: DB, inp: Input, cfg: Config)
    ensures Tripped(db, inp, cfg) ==> Evaluated(db, inp, cfg) == db
    ensures !Tripped(db, inp, cfg) ==>
      var ps := Plan(db, inp, cfg);
      var alerts := AlertMessages(NewMessages(db, inp, cfg));
      && Evaluated(db, inp, cfg).outbox == db.outbox + NewMessages(db, inp, cfg)
      && alerts <= Entering(ps)
      && (cfg.breaker.maxPerPoll > 0 ==> Entering(ps) <= cfg.breaker.maxPerPoll)
      && (cfg.breaker.maxFraction > 0.0 && |ps| >= FeedGuard.MIN_SIGNALS_FOR_FRACTION ==>
            Entering(ps) as real <= cfg.breaker.maxFraction * |ps| as real || Entering(ps) == 0)
  {
    hide Plan, NewMessages, AlertMessages, Entering, FeedGuard.TripBreaker;
    AlertMessagesNeedEntering(db, inp, cfg);
    FeedGuard.UntrippedExactlyWhenWithinLimits(Entering(Plan(db, inp, cfg)), |Plan(db, inp, cfg)|, cfg.breaker);
  }

  // ----------------------------------------------------------- well indexed --

  /** Primary keys are unique and every rule has its state row: a rule and its row are
      inserted together and deleted together. */
  ghost predicate WellIndexed(db: DB) {
    RowForEachRule(db.watches, db.rules, db.states.Keys) && RowsFit(db.states)
  }

  ghost predicate RowForEachRule(watches: seq<Watch>, rules: map<int, seq<Rule>>, rows: set<StateKey>) {
    && (forall i, j :: 0 <= i < j < |watches| ==> watches[i].id != watches[j].id)
    && (forall id :: id in rules ==> forall i, j :: 0 <= i < j < |rules[id]| ==> rules[id][i].id != rules[id][j].id)
    && (forall i, r :: 0 <= i < |watches| && watches[i].id in rules && r in rules[watches[i].id] ==>
         (watches[i].id, r.id) in rows)
  }

  ghost predicate RowsFit(states: map<StateKey, WatchState>) {
    forall k :: k in states ==> RowFits(k, states[k])
  }

  predicate RowFits(k: StateKey, s: WatchState) {
    s.watchID == k.0 && s.ruleID == k.1 && Settled(s) && !s.state.Other?
  }

  ghost predicate KeysDistinct(ps: seq<Planned>) {
    forall i, j :: 0 <= i < j < |ps| ==> KeyOf(ps[i]) != KeyOf(ps[j])
  }

  lemma DistinctConcat(ps: seq<Planned>, qs: seq<Planned>)
    requires KeysDistinct(ps) && KeysDistinct(qs)
    requires forall p, q :: p in ps && q in qs ==> KeyOf(p) != KeyOf(q)
    ensures KeysDistinct(ps + qs)
  {
    var all := ps + qs;
    forall i, j | 0 <= i < j < |all|
      ensures KeyOf(all[i]) != KeyOf(all[j])
    {
      if j < |ps| {
        assert all[i] == ps[i] && all[j] == ps[j];
      } else if |ps| <= i {
        assert all[i] == qs[i - |ps|] && all[j] == qs[j - |ps|];
      } else {
        assert all[i] in ps && all[j] in qs;
      }
    }
  }

  lemma OwnKeysDistinct(db: DB, w: Watch, inp: Input, cfg: Config)
    requires WellIndexed(db)
    ensures KeysDistinct(PlanWatch(db, w, inp, cfg, |RulesOf(db, w.id)|))
    ensures forall p :: p in PlanWatch(db, w, inp, cfg, |RulesOf(db, w.id)|) ==> p.watch == w
  {
    PlanWatchStepped(db, w, inp, cfg, |RulesOf(db, w.id)|);
    var own := PlanWatch(db, w, inp, cfg, |RulesOf(db, w.id)|);
    hide PlanWatch, Stepped, RulesOf, WellIndexed;
    forall i, j | 0 <= i < j < |own|
      ensures KeyOf(own[i]) != KeyOf(own[j])
    {
      RulesAreDistinct(db, w.id, i, j);
    }
  }

  lemma {:induction false} PlanKeysDistinct(db: DB, inp: Input, cfg: Config, n: nat)
    requires WellIndexed(db) && n <= |db.watches|
    ensures KeysDistinct(PlanAll(db, inp, cfg, n))
  {
    hide KeysDistinct, PlanWatch, Stepped, RulesOf;
    if n > 0 {
      var w := db.watches[n - 1];
      var before, own := PlanAll(db, inp, cfg, n - 1), PlanWatch(db, w, inp, cfg, |RulesOf(db, w.id)|);
      PlanKeysDistinct(db, inp, cfg, n - 1);
      PlanAllStepped(db, inp, cfg, n - 1);
      OwnKeysDistinct(db, w, inp, cfg);
      forall p, q | p in before && q in own
        ensures KeyOf(p) != KeyOf(q)
      {
        var m :| 0 <= m < n - 1 && db.watches[m] == p.watch;
      }
      DistinctConcat(before, own);
    } else {
      NoneDistinct();
    }
  }

  lemma NoneDistinct()
    ensures KeysDistinct([])
  {
  }

  lemma RulesAreDistinct(db: DB, id: int, i: nat, j: nat)
    requires WellIndexed(db) && i < j < |RulesOf(db, id)|
    ensures RulesOf(db, id)[i].id != RulesOf(db, id)[j].id
  {
  }

  /** All the run lemmas need to know about a plan. */
  ghost predicate FromRows(db: DB, p: Planned, inp: Input, cfg: Config) {
    && KeyOf(p) in db.states
    && p.out == Step(cfg.pol, db.states[KeyOf(p)], PollOf(p.watch, p.rule, inp))
  }

  lemma PlanIsFromRows(db: DB, inp: Input, cfg: Config)
    requires WellIndexed(db)
    ensures forall p :: p in Plan(db, inp, cfg) ==> FromRows(db, p, inp, cfg)
    ensures KeysDistinct(Plan(db, inp, cfg))
  {
    hide Step, PollOf, PlanAll, KeysDistinct;
    PlanAllStepped(db, inp, cfg, |db.watches|);
    PlanKeysDistinct(db, inp, cfg, |db.watches|);
    forall p | p in Plan(db, inp, cfg)
      ensures FromRows(db, p, inp, cfg)
    {
      var i :| 0 <= i < |db.watches| && db.watches[i] == p.watch;
      assert KeyOf(p) in db.states;
      assert RowFits(KeyOf(p), db.states[KeyOf(p)]);
      assert Current(db, p.watch, p.rule, inp.now) == db.states[KeyOf(p)];
    }
  }

  // ---------------------------------------------------- saving only what moved --

  /** Rows after saving every outcome. */
  function SaveEvery(states: map<StateKey, WatchState>, ps: seq<Planned>, n: nat): map<StateKey, WatchState>
    requires n <= |ps|
  {
    if n == 0 then states else SaveEvery(states, ps, n - 1)[KeyOf(ps[n - 1]) := ps[n - 1].out.state]
  }

  lemma {:induction false} UnplannedKept(states: map<StateKey, WatchState>, ps: seq<Planned>, n: nat, k: StateKey)
    requires n <= |ps| && forall i :: 0 <= i < n ==> KeyOf(ps[i]) != k
    ensures k in SaveWorthy(states, ps, n) <==> k in states
    ensures k in states ==> SaveWorthy(states, ps, n)[k] == states[k]
  {
    if n > 0 {
      UnplannedKept(states, ps, n - 1, k);
    }
  }

  lemma {:induction false} SkippedSavesLoseNothing(db: DB, ps: seq<Planned>, inp: Input, cfg: Config, n: nat)
    requires n <= |ps| && KeysDistinct(ps)
    requires forall p :: p in ps ==> FromRows(db, p, inp, cfg)
    requires forall k :: k in db.states ==> RowFits(k, db.states[k])
    ensures SaveWorthy(db.states, ps, n) == SaveEvery(db.states, ps, n)
    ensures SaveWorthy(db.states, ps, n).Keys == db.states.Keys
    ensures forall k :: k in db.states ==> RowFits(k, SaveWorthy(db.states, ps, n)[k])
  {
    hide Step, PollOf, RowFits;
    if n > 0 {
      SkippedSavesLoseNothing(db, ps, inp, cfg, n - 1);
      var p := ps[n - 1];
      assert p in ps;
      OneRow(db.states[KeyOf(p)], p, inp, cfg);
      UnplannedKept(db.states, ps, n - 1, KeyOf(p));
    }
  }

  lemma OneRow(s: WatchState, p: Planned, inp: Input, cfg: Config)
    requires RowFits(KeyOf(p), s) && p.out == Step(cfg.pol, s, PollOf(p.watch, p.rule, inp))
    ensures RowFits(KeyOf(p), p.out.state)
    ensures !WorthSaving(p.out) ==> p.out.state == s
    ensures !p.out.changed ==> p.out.state.state == s.state
  {
    hide PollOf;
    SavedExactlyWhenDifferent(cfg.pol, s, PollOf(p.watch, p.rule, inp));
  }

  // -------------------------------------------------------------- event chain --

  /** Where the log takes a rule from a given state; Broken once an event does not
      start where the last one ended. */
  datatype Replayed = At(state: State) | Broken

  function Replay(start: State, es: seq<Event>, k: StateKey): Replayed {
    if es == [] then At(start)
    else
      var before, e := Replay(start, es[..|es| - 1], k), es[|es| - 1];
      if (e.watchID, e.ruleID) != k then before
      else if before == At(e.from) then At(e.to)
      else Broken
  }

  lemma ReplayAppend(start: State, es: seq<Event>, e: Event, k: StateKey)
    ensures Replay(start, es + [e], k)
         == if (e.watchID, e.ruleID) != k then Replay(start, es, k)
            else if Replay(start, es, k) == At(e.from) then At(e.to) else Broken
  {
    assert (es + [e])[..|es|] == es;
  }

  lemma {:induction false} ReplayConcat(start: State, es: seq<Event>, fs: seq<Event>, k: StateKey)
    requires Replay(start, es, k).At?
    ensures Replay(start, es + fs, k) == Replay(Replay(start, es, k).state, fs, k)
  {
    if fs == [] {
      assert es + fs == es;
    } else {
      ReplayConcat(start, es, fs[..|fs| - 1], k);
      assert (es + fs)[..|es + fs| - 1] == es + fs[..|fs| - 1];
    }
  }

  lemma {:induction false} EventsLinkOneEvaluation(
    db: DB, ps: seq<Planned>, inp: Input, cfg: Config, n: nat, k: StateKey)
    requires n <= |ps| && KeysDistinct(ps) && k in db.states
    requires forall p :: p in ps ==> FromRows(db, p, inp, cfg)
    requires forall q :: q in db.states ==> RowFits(q, db.states[q])
    ensures k in SaveWorthy(db.states, ps, n)
    ensures Replay(db.states[k].state, EventsOf(db, ps, n, inp.runID), k) == At(SaveWorthy(db.states, ps, n)[k].state)
    ensures (forall i :: 0 <= i < n ==> KeyOf(ps[i]) != k) ==>
              Replay(db.states[k].state, EventsOf(db, ps, n, inp.runID), k) == At(db.states[k].state)
  {
    hide Step, PollOf, RowFits;
    if n > 0 {
      var p := ps[n - 1];
      assert p in ps;
      EventsLinkOneEvaluation(db, ps, inp, cfg, n - 1, k);
      OneRow(db.states[KeyOf(p)], p, inp, cfg);
      ReplayAppend(db.states[k].state, EventsOf(db, ps, n - 1, inp.runID), EventOf(db, p, inp.runID), k);
      if !p.out.changed {
        assert EventsOf(db, ps, n, inp.runID) == EventsOf(db, ps, n - 1, inp.runID);
      }
      if KeyOf(p) == k {
        UnplannedKept(db.states, ps, n - 1, k);
      }
    }
  }

  // --------------------------------------------------------- whole histories --

  /** What a rule is created from; its row is the one insertRuleTx writes. */
  datatype Seed = Seed(rule: Rule, now: Time, obs: Observation)

  /** One believed poll and what owners did since the last: the watches and rules as
      they now are, the rules added, and the keys of rules removed. */
  datatype Turn = Turn(watches: seq<Watch>, rules: map<int, seq<Rule>>, added: map<StateKey, Seed>,
    removed: set<StateKey>, inp: Input)

  function SeededRows(added: map<StateKey, Seed>): map<StateKey, WatchState> {
    map k | k in added :: SeededState(added[k].rule, added[k].now, added[k].obs)
  }

  function Edited(db: DB, t: Turn): DB {
    db.(watches := t.watches, rules := t.rules, states := (db.states - t.removed) + SeededRows(t.added))
  }

  function DBAt(db: DB, ts: seq<Turn>, cfg: Config, k: nat): DB
    requires k <= |ts|
  {
    if k == 0 then db else Evaluated(Edited(DBAt(db, ts, cfg, k - 1), ts[k - 1]), ts[k - 1].inp, cfg)
  }

  /** The same history with every outcome saved. */
  function EvaluatedSavingAll(db: DB, inp: Input, cfg: Config): DB {
    if Tripped(db, inp, cfg) then db
    else Evaluated(db, inp, cfg).(states := SaveEvery(db.states, Plan(db, inp, cfg), |Plan(db, inp, cfg)|))
  }

  function DBSavingAllAt(db: DB, ts: seq<Turn>, cfg: Config, k: nat): DB
    requires k <= |ts|
  {
    if k == 0 then db else EvaluatedSavingAll(Edited(DBSavingAllAt(db, ts, cfg, k - 1), ts[k - 1]), ts[k - 1].inp, cfg)
  }

  /** Which rows there are after k turns: only edits change that. */
  function KeysAfter(rows: set<StateKey>, t: Turn): set<StateKey> {
    (rows - t.removed) + t.added.Keys
  }

  function KeysAt(db: DB, ts: seq<Turn>, k: nat): set<StateKey>
    requires k <= |ts|
  {
    if k == 0 then db.states.Keys else KeysAfter(KeysAt(db, ts, k - 1), ts[k - 1])
  }

  /** One edit: ids stay unique, rules come and go with their rows, and a rule is seeded
      under its own key. */
  ghost predicate EditIsSound(rows: set<StateKey>, t: Turn) {
    && RowForEachRule(t.watches, t.rules, KeysAfter(rows, t))
    && forall k :: k in t.added ==> (t.added[k].rule.watchID, t.added[k].rule.id) == k
  }

  /** Nothing here speaks of what evaluations wrote. */
  ghost predicate EditsAreSound(db: DB, ts: seq<Turn>) {
    forall i :: 0 <= i < |ts| ==> EditIsSound(KeysAt(db, ts, i), ts[i])
  }

  lemma SeededRowFits(seed: Seed)
    ensures RowFits((seed.rule.watchID, seed.rule.id), SeededState(seed.rule, seed.now, seed.obs))
  {
  }

  lemma EditKeepsRows(db: DB, t: Turn)
    requires RowsFit(db.states) && EditIsSound(db.states.Keys, t)
    ensures Edited(db, t).states.Keys == KeysAfter(db.states.Keys, t) && WellIndexed(Edited(db, t))
  {
    hide RowFits, RowForEachRule;
    var states := Edited(db, t).states;
    forall k | k in states ensures RowFits(k, states[k]) {
      if k in t.added {
        SeededRowFits(t.added[k]);
      }
    }
    assert states.Keys == KeysAfter(db.states.Keys, t);
  }

  lemma EvaluationKeepsRows(db: DB, inp: Input, cfg: Config)
    requires WellIndexed(db)
    ensures RowsFit(Evaluated(db, inp, cfg).states) && Evaluated(db, inp, cfg).states.Keys == db.states.Keys
  {
    hide Plan, KeysDistinct, FromRows, Tripped, EventsOf, NewMessages, RowFits, RowForEachRule;
    PlanIsFromRows(db, inp, cfg);
    SkippedSavesLoseNothing(db, Plan(db, inp, cfg), inp, cfg, |Plan(db, inp, cfg)|);
  }

  /** The invariant that saving less rests on, on every reachable database: each row is
      its key's own, in a known state, and settled. It is assumed of the first database
      alone. */
  lemma {:induction false} EveryRowFits(db: DB, ts: seq<Turn>, cfg: Config, k: nat)
    requires k <= |ts| && RowsFit(db.states) && EditsAreSound(db, ts)
    ensures RowsFit(DBAt(db, ts, cfg, k).states) && DBAt(db, ts, cfg, k).states.Keys == KeysAt(db, ts, k)
    ensures k < |ts| ==> WellIndexed(Edited(DBAt(db, ts, cfg, k), ts[k]))
  {
    hide Evaluated, WellIndexed, Edited, RowsFit, EditIsSound, KeysAfter;
    if k > 0 {
      EveryRowFits(db, ts, cfg, k - 1);
      EditKeepsRowsOf(DBAt(db, ts, cfg, k - 1), ts[k - 1], KeysAt(db, ts, k - 1));
      EvaluationKeepsRows(Edited(DBAt(db, ts, cfg, k - 1), ts[k - 1]), ts[k - 1].inp, cfg);
    }
    if k < |ts| {
      EditKeepsRowsOf(DBAt(db, ts, cfg, k), ts[k], KeysAt(db, ts, k));
    }
  }

  lemma EditKeepsRowsOf(db: DB, t: Turn, rows: set<StateKey>)
    requires RowsFit(db.states) && db.states.Keys == rows && EditIsSound(rows, t)
    ensures Edited(db, t).states.Keys == KeysAfter(rows, t) && WellIndexed(Edited(db, t))
  {
    EditKeepsRows(db, t);
  }

  /** Keeping only outcomes that changed something or moved a timestamp leaves exactly
      the database that saving every outcome would, in every history. */
  lemma {:induction false} SavingLessLosesNothing(db: DB, ts: seq<Turn>, cfg: Config, k: nat)
    requires k <= |ts| && RowsFit(db.states) && EditsAreSound(db, ts)
    ensures DBAt(db, ts, cfg, k) == DBSavingAllAt(db, ts, cfg, k)
  {
    hide Evaluated, EvaluatedSavingAll, WellIndexed, Edited, RowsFit, EditsAreSound;
    if k > 0 {
      SavingLessLosesNothing(db, ts, cfg, k - 1);
      EveryRowFits(db, ts, cfg, k - 1);
      OneEvaluationLosesNothing(Edited(DBAt(db, ts, cfg, k - 1), ts[k - 1]), ts[k - 1].inp, cfg);
    }
  }

  lemma OneEvaluationLosesNothing(db: DB, inp: Input, cfg: Config)
    requires WellIndexed(db)
    ensures EvaluatedSavingAll(db, inp, cfg) == Evaluated(db, inp, cfg)
  {
    hide Plan, KeysDistinct, FromRows, Tripped, EventsOf, NewMessages;
    PlanIsFromRows(db, inp, cfg);
    SkippedSavesLoseNothing(db, Plan(db, inp, cfg), inp, cfg, |Plan(db, inp, cfg)|);
  }

  /** From one moment to a later one, the events logged in between lead the rule from
      its state then to its state now. */
  ghost predicate Linked(db: DB, later: DB, k: StateKey) {
    && db.events <= later.events && k in db.states && k in later.states
    && Replay(db.states[k].state, later.events[|db.events|..], k) == At(later.states[k].state)
  }

  lemma LinksJoin(a: DB, b: DB, c: DB, k: StateKey)
    requires Linked(a, b, k) && Linked(b, c, k)
    ensures Linked(a, c, k)
  {
    hide Replay;
    assert c.events[|a.events|..] == b.events[|a.events|..] + c.events[|b.events|..];
    ReplayConcat(a.states[k].state, b.events[|a.events|..], c.events[|b.events|..], k);
  }

  lemma UntouchedLinks(a: DB, b: DB, k: StateKey)
    requires a.events == b.events && k in a.states && k in b.states && a.states[k] == b.states[k]
    ensures Linked(a, b, k)
  {
    assert b.events[|a.events|..] == [];
  }

  lemma OneEvaluationLinks(db: DB, inp: Input, cfg: Config, k: StateKey)
    requires WellIndexed(db) && k in db.states
    ensures Linked(db, Evaluated(db, inp, cfg), k)
  {
    hide Plan, KeysDistinct, FromRows, Tripped, NewMessages;
    var ps := Plan(db, inp, cfg);
    PlanIsFromRows(db, inp, cfg);
    EventsLinkOneEvaluation(db, ps, inp, cfg, |ps|, k);
    var new_ := EventsOf(db, ps, |ps|, inp.runID);
    assert (db.events + new_)[|db.events|..] == new_;
    assert db.events[|db.events|..] == [];
  }

  /** Replaying the event log from any moment, for a rule that existed then and was not
      removed since, is an unbroken chain that ends in the rule's stored state. */
  lemma {:induction false} LogReplaysToStoredState(db: DB, ts: seq<Turn>, cfg: Config, i: nat, n: nat, k: StateKey)
    requires i <= n <= |ts| && RowsFit(db.states) && EditsAreSound(db, ts) && k in DBAt(db, ts, cfg, i).states
    requires forall j :: i <= j < n ==> k !in ts[j].removed && k !in ts[j].added
    ensures Linked(DBAt(db, ts, cfg, i), DBAt(db, ts, cfg, n), k)
  {
    hide WellIndexed, Evaluated, Linked, Edited, RowsFit, EditsAreSound;
    var start := DBAt(db, ts, cfg, i);
    if i == n {
      UntouchedLinks(start, start, k);
    } else {
      LogReplaysToStoredState(db, ts, cfg, i, n - 1, k);
      var mid := DBAt(db, ts, cfg, n - 1);
      var edited := Edited(mid, ts[n - 1]);
      LinkedHas(start, mid, k);
      EditKeeps(mid, ts[n - 1], k);
      EveryRowFits(db, ts, cfg, n - 1);
      OneEvaluationLinks(edited, ts[n - 1].inp, cfg, k);
      LinksJoin(start, mid, edited, k);
      LinksJoin(start, edited, DBAt(db, ts, cfg, n), k);
    }
  }

  /** So from its creation on: a rule's log starts at the state it was seeded in. */
  lemma LogReplaysFromSeed(db: DB, ts: seq<Turn>, cfg: Config, i: nat, n: nat, k: StateKey)
    requires i < n <= |ts| && RowsFit(db.states) && EditsAreSound(db, ts) && k in ts[i].added
    requires forall j :: i < j < n ==> k !in ts[j].removed && k !in ts[j].added
    ensures var created := Edited(DBAt(db, ts, cfg, i), ts[i]);
            && Linked(created, DBAt(db, ts, cfg, n), k)
            && created.states[k] == SeededState(ts[i].added[k].rule, ts[i].added[k].now, ts[i].added[k].obs)
  {
    hide WellIndexed, Evaluated, Linked, RowsFit, EditsAreSound;
    var created := Edited(DBAt(db, ts, cfg, i), ts[i]);
    EveryRowFits(db, ts, cfg, i);
    OneEvaluationLinks(created, ts[i].inp, cfg, k);
    LinkedHas(created, DBAt(db, ts, cfg, i + 1), k);
    LogReplaysToStoredState(db, ts, cfg, i + 1, n, k);
    LinksJoin(created, DBAt(db, ts, cfg, i + 1), DBAt(db, ts, cfg, n), k);
  }

  lemma LinkedHas(a: DB, b: DB, k: StateKey)
    requires Linked(a, b, k)
    ensures k in a.states && k in b.states
  {
  }

  lemma EditKeeps(db: DB, t: Turn, k: StateKey)
    requires k in db.states && k !in t.removed && k !in t.added
    ensures k in Edited(db, t).states && Linked(db, Edited(db, t), k)
  {
    UntouchedLinks(db, Edited(db, t), k);
  }

  // ------------------------------------------------ preferences never move it --

  predicate SameButPreferences(a: Watch, b: Watch) {
    a == b.(mutedUntil := a.mutedUntil, notifyRecovery := a.notifyRecovery)
  }

  ghost predicate SameSystem(a: DB, b: DB) {
    && |a.watches| == |b.watches|
    && (forall i :: 0 <= i < |a.watches| ==> SameButPreferences(a.watches[i], b.watches[i]))
    && a.rules == b.rules && SameRows(a.states, b.states)
  }

  ghost predicate SameRows(a: map<StateKey, WatchState>, b: map<StateKey, WatchState>) {
    a.Keys == b.Keys && forall k :: k in a ==> SameCore(a[k], b[k])
  }

  predicate SamePlan(p: Planned, q: Planned) {
    p.watch.id == q.watch.id && p.rule == q.rule && SameDecision(p.out, q.out)
  }

  ghost predicate SamePlans(ps: seq<Planned>, qs: seq<Planned>) {
    |ps| == |qs| && forall i :: 0 <= i < |ps| ==> SamePlan(ps[i], qs[i])
  }

  lemma SameRulePlan(a: DB, b: DB, v: Watch, w: Watch, r: Rule, inp: Input, cfg: Config)
    requires SameRows(a.states, b.states) && SameButPreferences(v, w)
    ensures SamePlan(PlanRule(a, v, r, inp, cfg), PlanRule(b, w, r, inp, cfg))
  {
    hide Evaluate, RuleObservation, Threshold;
    OneStepIgnoresPreferences(cfg.pol, Current(a, v, r, inp.now), Current(b, w, r, inp.now), PollOf(v, r, inp),
      PollOf(w, r, inp));
  }

  lemma {:induction false} SameWatchPlan(a: DB, b: DB, v: Watch, w: Watch, inp: Input, cfg: Config, n: nat)
    requires SameRows(a.states, b.states) && a.rules == b.rules && SameButPreferences(v, w) && n <= |RulesOf(a, v.id)|
    ensures SamePlans(PlanWatch(a, v, inp, cfg, n), PlanWatch(b, w, inp, cfg, n))
  {
    hide PlanRule, SamePlan;
    if n > 0 {
      SameWatchPlan(a, b, v, w, inp, cfg, n - 1);
      SameRulePlan(a, b, v, w, RulesOf(a, v.id)[n - 1], inp, cfg);
    }
  }

  lemma {:induction false} SameWholePlan(a: DB, b: DB, inp: Input, cfg: Config, n: nat)
    requires SameSystem(a, b) && n <= |a.watches|
    ensures SamePlans(PlanAll(a, inp, cfg, n), PlanAll(b, inp, cfg, n))
  {
    hide SamePlan, PlanWatch;
    if n > 0 {
      SameWholePlan(a, b, inp, cfg, n - 1);
      SameWatchPlan(a, b, a.watches[n - 1], b.watches[n - 1], inp, cfg, |RulesOf(a, a.watches[n - 1].id)|);
    }
  }

  lemma {:induction false} SameEntering(ps: seq<Planned>, qs: seq<Planned>)
    requires SamePlans(ps, qs)
    ensures Entering(ps) == Entering(qs)
  {
    if ps != [] {
      SameEntering(ps[..|ps| - 1], qs[..|qs| - 1]);
      assert SamePlan(ps[|ps| - 1], qs[|qs| - 1]);
    }
  }

  lemma {:induction false} SameSaves(
    s: map<StateKey, WatchState>, t: map<StateKey, WatchState>, ps: seq<Planned>, qs: seq<Planned>, n: nat)
    requires SameRows(s, t) && SamePlans(ps, qs) && n <= |ps|
    ensures SameRows(SaveWorthy(s, ps, n), SaveWorthy(t, qs, n))
  {
    hide SameCore;
    if n > 0 {
      SameSaves(s, t, ps, qs, n - 1);
      assert SamePlan(ps[n - 1], qs[n - 1]);
    }
  }

  /** One evaluation: the breaker decides the same, and states stay the same but for
      what is counted as announced. */
  lemma EvaluationIgnoresPreferences(a: DB, b: DB, inp: Input, cfg: Config)
    requires SameSystem(a, b)
    ensures Tripped(a, inp, cfg) == Tripped(b, inp, cfg)
    ensures SameSystem(Evaluated(a, inp, cfg), Evaluated(b, inp, cfg))
  {
    hide PlanAll, SamePlans, SameRows, SaveWorthy;
    var ps, qs := Plan(a, inp, cfg), Plan(b, inp, cfg);
    SameWholePlan(a, b, inp, cfg, |a.watches|);
    SameEntering(ps, qs);
    SameLength(ps, qs);
    SameSaves(a.states, b.states, ps, qs, |ps|);
  }

  lemma SameLength(ps: seq<Planned>, qs: seq<Planned>)
    requires SamePlans(ps, qs)
    ensures |ps| == |qs|
  {
  }

  predicate SameTurn(t: Turn, u: Turn) {
    && |t.watches| == |u.watches|
    && (forall i :: 0 <= i < |t.watches| ==> SameButPreferences(t.watches[i], u.watches[i]))
    && t.rules == u.rules && t.added == u.added && t.removed == u.removed && t.inp == u.inp
  }

  /** Two whole histories that differ only in what owners wanted to hear agree on every
      breaker decision and every state. */
  lemma {:induction false} PreferencesNeverMoveTheSystem(
    a: DB, b: DB, ts: seq<Turn>, us: seq<Turn>, cfg: Config, k: nat)
    requires SameSystem(a, b) && |ts| == |us| && k <= |ts| && forall i :: 0 <= i < |ts| ==> SameTurn(ts[i], us[i])
    ensures SameSystem(DBAt(a, ts, cfg, k), DBAt(b, us, cfg, k))
    ensures k < |ts| ==>
      Tripped(Edited(DBAt(a, ts, cfg, k), ts[k]), ts[k].inp, cfg)
        == Tripped(Edited(DBAt(b, us, cfg, k), us[k]), us[k].inp, cfg)
  {
    hide Evaluated, Tripped;
    if k > 0 {
      PreferencesNeverMoveTheSystem(a, b, ts, us, cfg, k - 1);
      SameEdits(DBAt(a, ts, cfg, k - 1), DBAt(b, us, cfg, k - 1), ts[k - 1], us[k - 1]);
      EvaluationIgnoresPreferences(Edited(DBAt(a, ts, cfg, k - 1), ts[k - 1]),
        Edited(DBAt(b, us, cfg, k - 1), us[k - 1]), ts[k - 1].inp, cfg);
    }
    if k < |ts| {
      SameEdits(DBAt(a, ts, cfg, k), DBAt(b, us, cfg, k), ts[k], us[k]);
      EvaluationIgnoresPreferences(Edited(DBAt(a, ts, cfg, k), ts[k]), Edited(DBAt(b, us, cfg, k), us[k]), ts[k].inp,
        cfg);
    }
  }

  lemma SameEdits(a: DB, b: DB, t: Turn, u: Turn)
    requires SameSystem(a, b) && SameTurn(t, u)
    ensures SameSystem(Edited(a, t), Edited(b, u))
  {
  }
}
