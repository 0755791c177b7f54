/** One evaluation of every watch: plan everything, ask the breaker, then commit states,
    events and grouped messages together (internal/poller/poller.go). */
module Evaluation {
  import opened QuietAlert
  import opened RuleEvidence
  import FeedGuard
  import Grouping

  datatype Watch = Watch(id: int, userID: int, targetKind: string, targetKey: string, name: string, mutedUntil: Time,
    notifyRecovery: bool)

  /** One target in the feed's snapshot. */
  datatype NodeObs = NodeObs(kind: string, key: string, name: string, obs: TargetObs)

  datatype RuleTrip = RuleTrip(rule: int, thresholdHours: int, lastSeen: Time)

  /** One queued message: one watch, one direction of change, every rule that tripped. */
  datatype Message = Message(userID: int, watchID: int, kind: Kind, targetKind: string, targetKey: string, name: string,
    rules: seq<RuleTrip>)

  datatype Event = Event(watchID: int, ruleID: int, from: State, to: State, runID: int, notified: bool)

  datatype Config = Config(pol: Policy, breaker: FeedGuard.BreakerConfig)

  /** What one evaluation is given: the clock, the snapshot, the grouped activity. */
  datatype Input = Input(now: Time, snap: seq<NodeObs>, activity: map<string, seq<Activity>>, runID: int)

  type StateKey = (int, int)
  type MsgKey = (int, Kind)

  datatype DB = DB(watches: seq<Watch>, rules: map<int, seq<Rule>>, states: map<StateKey, WatchState>,
    events: seq<Event>, outbox: seq<Message>)

  datatype Planned = Planned(watch: Watch, rule: Rule, out: Outcome)

  // ------------------------------------------------------------------- plan --

  /** The snapshot by kind and key; a later entry replaces an earlier one. */
  function ByKey(snap: seq<NodeObs>, n: nat): map<(string, string), NodeObs>
    requires n <= |snap|
  {
    if n == 0 then map[] else ByKey(snap, n - 1)[(snap[n - 1].kind, snap[n - 1].key) := snap[n - 1]]
  }

  function KnownOf(w: Watch, inp: Input): Known {
    var m := ByKey(inp.snap, |inp.snap|);
    if (w.targetKind, w.targetKey) in m then Present(m[(w.targetKind, w.targetKey)].obs) else Absent
  }

  function RulesOf(db: DB, id: int): seq<Rule> {
    if id in db.rules then db.rules[id] else []
  }

  function ActsOf(w: Watch, inp: Input): seq<Activity> {
    if w.targetKey in inp.activity then inp.activity[w.targetKey] else []
  }

  /** The state a rule is judged from, with the ids the loop stamps on it. */
  function Current(db: DB, w: Watch, r: Rule, now: Time): WatchState {
    var s := if (w.id, r.id) in db.states then db.states[(w.id, r.id)] else NoRow(r, now);
    s.(watchID := w.id, ruleID := r.id)
  }

  function PollOf(w: Watch, r: Rule, inp: Input): Poll {
    Poll(inp.now, RuleObservation(r, KnownOf(w, inp), ActsOf(w, inp)), Threshold(r),
         Prefs(w.mutedUntil != 0 && inp.now < w.mutedUntil, w.notifyRecovery))
  }

  function PlanRule(db: DB, w: Watch, r: Rule, inp: Input, cfg: Config): Planned {
    Planned(w, r, Step(cfg.pol, Current(db, w, r, inp.now), PollOf(w, r, inp)))
  }

  /** The first n rules of a watch. */
  function PlanWatch(db: DB, w: Watch, inp: Input, cfg: Config, n: nat): seq<Planned>
    requires n <= |RulesOf(db, w.id)|
  {
    if n == 0 then [] else PlanWatch(db, w, inp, cfg, n - 1) + [PlanRule(db, w, RulesOf(db, w.id)[n - 1], inp, cfg)]
  }

  /** The first n watches. */
  function PlanAll(db: DB, inp: Input, cfg: Config, n: nat): seq<Planned>
    requires n <= |db.watches|
  {
    if n == 0 then []
    else
      var w := db.watches[n - 1];
      PlanAll(db, inp, cfg, n - 1) + PlanWatch(db, w, inp, cfg, |RulesOf(db, w.id)|)
  }

  function Entering(ps: seq<Planned>): nat {
    if ps == [] then 0 else Entering(ps[..|ps| - 1]) + if ps[|ps| - 1].out.entering then 1 else 0
  }

  function Plan(db: DB, inp: Input, cfg: Config): seq<Planned> {
    PlanAll(db, inp, cfg, |db.watches|)
  }

  predicate Tripped(db: DB, inp: Input, cfg: Config) {
    FeedGuard.TripBreaker(Entering(Plan(db, inp, cfg)), |Plan(db, inp, cfg)|, cfg.breaker)
  }

  // ----------------------------------------------------------------- commit --

  function KeyOf(p: Planned): StateKey { (p.watch.id, p.rule.id) }

  /** Rows after saving what is worth saving among the first n. */
  function SaveWorthy(states: map<StateKey, WatchState>, ps: seq<Planned>, n: nat): map<StateKey, WatchState>
    requires n <= |ps|
  {
    if n == 0 then states
    else
      var before := SaveWorthy(states, ps, n - 1);
      if WorthSaving(ps[n - 1].out) then before[KeyOf(ps[n - 1]) := ps[n - 1].out.state] else before
  }

  /** The state an event says the rule came from: what was read, blank if there was no row. */
  function ReadState(db: DB, k: StateKey): State {
    if k in db.states then db.states[k].state else Other("")
  }

  function EventOf(db: DB, p: Planned, runID: int): Event {
    Event(p.watch.id, p.rule.id, ReadState(db, KeyOf(p)), p.out.state.state, runID, p.out.notify)
  }

  function EventsOf(db: DB, ps: seq<Planned>, n: nat, runID: int): seq<Event>
    requires n <= |ps|
  {
    if n == 0 then []
    else EventsOf(db, ps, n - 1, runID) + if ps[n - 1].out.changed then [EventOf(db, ps[n - 1], runID)] else []
  }

  function TripOf(p: Planned): (MsgKey, (Planned, RuleTrip)) {
    ((p.watch.id, p.out.kind), (p, RuleTrip(p.rule.id, p.rule.thresholdHours, p.out.state.observedAt)))
  }

  /** The notifying outcomes among the first n, keyed by watch and direction. */
  function TripsOf(ps: seq<Planned>, n: nat): seq<(MsgKey, (Planned, RuleTrip))>
    requires n <= |ps|
  {
    if n == 0 then []
      else TripsOf(ps, n - 1) + if ps[n - 1].out.changed && ps[n - 1].out.notify then [TripOf(ps[n - 1])] else []
  }

  function NameFor(w: Watch, inp: Input): string {
    var m := ByKey(inp.snap, |inp.snap|);
    var k := (w.targetKind, w.targetKey);
    if k in m && m[k].name != "" then m[k].name else w.name
  }

  function RuleTrips(g: seq<(Planned, RuleTrip)>): seq<RuleTrip> {
    seq(|g|, i requires 0 <= i < |g| => g[i].1)
  }

  /** The message one group becomes; its first outcome names the target. */
  function MessageOf(k: MsgKey, g: seq<(Planned, RuleTrip)>, inp: Input): Message
    requires g != []
  {
    var w := g[0].0.watch;
    Message(w.userID, k.0, k.1, w.targetKind, w.targetKey, NameFor(w, inp), RuleTrips(g))
  }

  lemma GroupIsNotEmpty(items: seq<(MsgKey, (Planned, RuleTrip))>, i: nat)
    requires i < |Grouping.Keys(items)|
    ensures Grouping.Pick(items, Grouping.Keys(items)[i]) != []
  {
    Grouping.KeysAreTheItemsKeys(items, Grouping.Keys(items)[i]);
  }

  function MessagesOf(items: seq<(MsgKey, (Planned, RuleTrip))>, inp: Input, n: nat): (ms: seq<Message>)
    requires n <= |Grouping.Keys(items)|
    ensures |ms| == n
  {
    if n == 0 then []
    else
      var k := Grouping.Keys(items)[n - 1];
      GroupIsNotEmpty(items, n - 1);
      MessagesOf(items, inp, n - 1) + [MessageOf(k, Grouping.Pick(items, k), inp)]
  }

  function NewMessages(db: DB, inp: Input, cfg: Config): seq<Message> {
    var ps := Plan(db, inp, cfg);
    var items := TripsOf(ps, |ps|);
    MessagesOf(items, inp, |Grouping.Keys(items)|)
  }

  /** The whole effect of one evaluation. */
  function Evaluated(db: DB, inp: Input, cfg: Config): DB {
    if Tripped(db, inp, cfg) then db
    else
      var ps := Plan(db, inp, cfg);
      db.(states := SaveWorthy(db.states, ps, |ps|),
          events := db.events + EventsOf(db, ps, |ps|, inp.runID),
          outbox := db.outbox + NewMessages(db, inp, cfg))
  }

  class Store {
    var watches: seq<Watch>
    var rules: map<int, seq<Rule>>
    var states: map<StateKey, WatchState>
    var events: seq<Event>
    var outbox: seq<Message>

    function Contents(): DB
      reads this
    {
      DB(watches, rules, states, events, outbox)
    }

    constructor (db: DB)
      ensures Contents() == db
    {
      watches, rules, states, events, outbox := db.watches, db.rules, db.states, db.events, db.outbox;
    }

    method SaveWatchState(k: StateKey, st: WatchState)
      modifies this`states
      ensures states == old(states)[k := st]
    {
      states := states[k := st];
    }

    method RecordAlertEvent(e: Event)
      modifies this`events
      ensures events == old(events) + [e]
    {
      events := events + [e];
    }

    method QueueNotification(m: Message)
      modifies this`outbox
      ensures outbox == old(outbox) + [m]
    {
      outbox := outbox + [m];
    }
  }

  lemma EnteringAppend(ps: seq<Planned>, p: Planned)
    ensures Entering(ps + [p]) == Entering(ps) + if p.out.entering then 1 else 0
  {
    assert (ps + [p])[..|ps|] == ps;
  }

  lemma EnteringOfNone()
    ensures Entering([]) == 0
  {
  }

  lemma {:induction false} EnteringConcat(ps: seq<Planned>, qs: seq<Planned>)
    ensures Entering(ps + qs) == Entering(ps) + Entering(qs)
  {
    if qs == [] {
      assert ps + qs == ps;
    } else {
      assert (ps + qs)[..|ps + qs| - 1] == ps + qs[..|qs| - 1];
      EnteringConcat(ps, qs[..|qs| - 1]);
    }
  }

  class Poller {
    const store: Store
    const cfg: Config

    constructor (store: Store, cfg: Config)
      ensures this.store == store && this.cfg == cfg
    {
      this.store, this.cfg := store, cfg;
    }

    method PlanRules(db: DB, w: Watch, inp: Input) returns (planned: seq<Planned>, entering: nat)
      ensures planned == PlanWatch(db, w, inp, cfg, |RulesOf(db, w.id)|) && entering == Entering(planned)
    {
      hide PlanRule, Entering;
      var rules := RulesOf(db, w.id);
      planned, entering := [], 0;
      EnteringOfNone();
      for j := 0 to |rules|
        invariant planned == PlanWatch(db, w, inp, cfg, j) && entering == Entering(planned)
      {
        var p := PlanRule(db, w, rules[j], inp, cfg);
        EnteringAppend(planned, p);
        if p.out.entering {
          entering := entering + 1;
        }
        planned := planned + [p];
      }
    }

    method Planning(inp: Input) returns (planned: seq<Planned>, entering: nat)
      ensures planned == Plan(store.Contents(), inp, cfg) && entering == Entering(planned)
    {
      hide PlanWatch, Entering;
      var db := store.Contents();
      planned, entering := [], 0;
      EnteringOfNone();
      for i := 0 to |db.watches|
        invariant planned == PlanAll(db, inp, cfg, i) && entering == Entering(planned)
      {
        var ps, n := PlanRules(db, db.watches[i], inp);
        EnteringConcat(planned, ps);
        planned, entering := planned + ps, entering + n;
      }
    }

    /** Transitions are computed in full before anything is written, so a trip of the
        breaker refuses the lot. */
    method EvaluateAll(inp: Input) returns (committed: bool, notified: nat)
      modifies store
      ensures store.Contents() == Evaluated(old(store.Contents()), inp, cfg)
      ensures committed <==> !Tripped(old(store.Contents()), inp, cfg)
      ensures notified == if committed then |NewMessages(old(store.Contents()), inp, cfg)| else 0
    {
      var planned, entering := Planning(inp);
      if FeedGuard.TripBreaker(entering, |planned|, cfg.breaker) {
        return false, 0;
      }
      committed := true;
      notified := Commit(planned, inp);
    }

    method Commit(planned: seq<Planned>, inp: Input) returns (notified: nat)
      modifies store
      ensures var db := old(store.Contents());
              var items := TripsOf(planned, |planned|);
              && store.Contents() == db.(states := SaveWorthy(db.states, planned, |planned|),
                                         events := db.events + EventsOf(db, planned, |planned|, inp.runID),
                                         outbox := db.outbox + MessagesOf(items, inp, |Grouping.Keys(items)|))
              && notified == |Grouping.Keys(items)|
    {
      ghost var db := store.Contents();
      var read := store.Contents();
      var order: seq<MsgKey>, msgs: map<MsgKey, seq<(Planned, RuleTrip)>> := [], map[];
      for i := 0 to |planned|
        invariant store.Contents() == db.(states := SaveWorthy(db.states, planned, i),
                                          events := db.events + EventsOf(db, planned, i, inp.runID))
        invariant order == Grouping.Keys(TripsOf(planned, i)) && msgs == Grouping.Groups(TripsOf(planned, i))
      {
        msgs, order := CommitOne(read, planned[i], inp.runID, msgs, order, TripsOf(planned, i));
      }
      notified := QueueAll(msgs, order, TripsOf(planned, |planned|), inp);
    }

    method CommitOne(read: DB, p: Planned, runID: int, msgs: map<MsgKey, seq<(Planned, RuleTrip)>>, order: seq<MsgKey>,
                     ghost items: seq<(MsgKey, (Planned, RuleTrip))>)
      returns (msgs1: map<MsgKey, seq<(Planned, RuleTrip)>>, order1: seq<MsgKey>)
      requires order == Grouping.Keys(items) && msgs == Grouping.Groups(items)
      modifies store`states, store`events
      ensures store.states == if WorthSaving(p.out) then old(store.states)[KeyOf(p) := p.out.state]
        else old(store.states)
      ensures store.events == old(store.events) + if p.out.changed then [EventOf(read, p, runID)] else []
      ensures var items1 := items + if p.out.changed && p.out.notify then [TripOf(p)] else [];
              order1 == Grouping.Keys(items1) && msgs1 == Grouping.Groups(items1)
    {
      hide Grouping.Keys, Grouping.Groups;
      msgs1, order1 := msgs, order;
      assert items + [] == items;
      if !p.out.changed {
        // Not a transition, but the timestamp shown as "last seen" may have moved.
        if p.out.observedMoved {
          store.SaveWatchState(KeyOf(p), p.out.state);
        }
        return;
      }
      store.SaveWatchState(KeyOf(p), p.out.state);
      store.RecordAlertEvent(EventOf(read, p, runID));
      if !p.out.notify {
        return;
      }
      var (k, trip) := TripOf(p);
      msgs1, order1 := Grouping.Put(msgs, order, k, trip, items);
      assert (k, trip) == TripOf(p);
    }

    method QueueAll(msgs: map<MsgKey, seq<(Planned, RuleTrip)>>, order: seq<MsgKey>,
                    ghost items: seq<(MsgKey, (Planned, RuleTrip))>, inp: Input)
      returns (notified: nat)
      requires order == Grouping.Keys(items) && msgs == Grouping.Groups(items)
      modifies store`outbox
      ensures store.outbox == old(store.outbox) + MessagesOf(items, inp, |order|)
      ensures notified == |order|
    {
      notified := 0;
      for i := 0 to |order|
        invariant store.outbox == old(store.outbox) + MessagesOf(items, inp, i)
        invariant notified == i
      {
        hide Grouping.Keys;
        GroupIsNotEmpty(items, i);
        store.QueueNotification(MessageOf(order[i], msgs[order[i]], inp));
        notified := notified + 1;
      }
    }
  }
}
