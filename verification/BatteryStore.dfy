/** The tables the battery check and the owners share, and the transactions on them
    (internal/store/battery.go). Each transaction is one method; `DB` is the tables'
    contents as a value, and every method is the function of that value beside it. */
module BatteryStore {
  import B = BatteryMachine

  type Time = B.Time

  /** The wall clock, which is never the zero time. */
  type Instant = t: Time | t > 0 witness 1

  /** What the owner chose; zero follows the site. */
  datatype Settings = Settings(lowMV: int, criticalMV: int, overchargeOn: bool, overchargeMV: int)

  datatype Rule = Rule(settings: Settings, createdAt: Time, st: B.BatteryState)

  /** batteryAddedAt is zero while the watch may still be given a rule by itself. */
  datatype Watch = Watch(userID: int, targetKey: string, isNode: bool, mutedUntil: Time, notifyRecovery: bool,
    batteryAddedAt: Time)

  datatype User = User(autoBattery: bool, banner: nat)

  datatype Message = BatteryMsg(userID: int, watchID: int, kind: B.Kind) | EnabledMsg(userID: int, watchIDs: seq<int>)

  datatype Event = Event(watchID: int, from: B.Level, to: B.Level, notified: bool)

  datatype DB = DB(watches: map<int, Watch>, users: map<int, User>, rules: map<int, Rule>, outbox: seq<Message>,
    events: seq<Event>)

  predicate Owned(db: DB, userID: int, watchID: int) {
    watchID in db.watches && db.watches[watchID].userID == userID
  }

  const BLANK_STATE := B.BatteryState(B.Blank, 0, B.Blank, 0, 0, 0, B.Blank)
  const FOLLOW_SITE := Settings(0, 0, false, 0)

  function Chosen(db: DB, watchID: int, now: Instant): map<int, Watch>
    requires watchID in db.watches
  {
    var w := db.watches[watchID];
    if w.batteryAddedAt == 0 then db.watches[watchID := w.(batteryAddedAt := now)] else db.watches
  }

  /** Adds a rule unless the watch has one, and marks the watch's choice as made. */
  function WithRule(db: DB, watchID: int, settings: Settings, st: B.BatteryState, now: Instant): DB
    requires watchID in db.watches
  {
    var st1 := st.(level := if st.level == B.Blank then B.Unknown else st.level,
                   since := if st.since == 0 then now else st.since);
    db.(rules := if watchID in db.rules then db.rules else db.rules[watchID := Rule(settings, now, st1)],
        watches := Chosen(db, watchID, now))
  }

  /** Everything the compare-and-set compares. */
  predicate SameAlertState(a: B.BatteryState, b: B.BatteryState) {
    && a.level == b.level && a.since == b.since && a.candidate == b.candidate && a.candidateCount == b.candidateCount
    && a.lastReadingAt == b.lastReadingAt && a.announced == b.announced
  }

  predicate CanSave(db: DB, watchID: int, old_: Rule) {
    watchID in db.rules && SameAlertState(db.rules[watchID].st, old_.st)
  }

  function Saved(db: DB, watchID: int, old_: Rule, st: B.BatteryState): DB {
    if CanSave(db, watchID, old_) then db.(rules := db.rules[watchID := db.rules[watchID].(st := st)]) else db
  }

  predicate CanAutoAdd(db: DB, watchID: int) {
    && watchID in db.watches && db.watches[watchID].batteryAddedAt == 0 && watchID !in db.rules
    && db.watches[watchID].userID in db.users && db.users[db.watches[watchID].userID].autoBattery
  }

  function AutoAdded(db: DB, watchID: int, st: B.BatteryState, now: Instant): DB {
    if CanAutoAdd(db, watchID) then WithRule(db, watchID, FOLLOW_SITE, st, now) else db
  }

  function LevelsUpdated(db: DB, watchID: int, settings: Settings, now: Instant): DB
    requires watchID in db.rules
  {
    var r := db.rules[watchID].(settings := settings);
    var st := if !settings.overchargeOn && r.st.level == B.Overcharged
              then r.st.(level := B.Unknown, since := now, candidate := B.Blank, candidateCount := 0,
                         announced := B.Blank, lastReadingAt := 0)
              else r.st;
    db.(rules := db.rules[watchID := r.(st := st)])
  }

  /** What an owner can do while a check is running. */
  datatype OwnerOp =
    | AddRule(userID: int, watchID: int, now: Instant)
    | DeleteRule(userID: int, watchID: int, now: Instant)
    | UpdateLevels(userID: int, watchID: int, settings: Settings, now: Instant)
    | SetAuto(userID: int, on: bool)
    | SetMute(userID: int, watchID: int, until: Time)
    | SetRecovery(userID: int, watchID: int, on: bool)
    | DeleteWatch(userID: int, watchID: int)

  /** Whether the operation finds what it names. */
  predicate Found(db: DB, op: OwnerOp) {
    match op
    case SetAuto(u, _) => true
    case UpdateLevels(u, w, _, _) => Owned(db, u, w) && w in db.rules
    case _ => Owned(db, op.userID, op.watchID)
  }

  function ByOwner(db: DB, op: OwnerOp): DB {
    if !Found(db, op) then db
    else
      match op
      case AddRule(_, w, now) => WithRule(db, w, FOLLOW_SITE, BLANK_STATE, now)
      case DeleteRule(_, w, now) => db.(rules := db.rules - {w}, watches := Chosen(db, w, now))
      case UpdateLevels(_, w, s, now) => LevelsUpdated(db, w, s, now)
      case SetAuto(u, on) => if u in db.users then db.(users := db.users[u := db.users[u].(autoBattery := on)]) else db
      case SetMute(_, w, until) => db.(watches := db.watches[w := db.watches[w].(mutedUntil := until)])
      case SetRecovery(_, w, on) => db.(watches := db.watches[w := db.watches[w].(notifyRecovery := on)])
      case DeleteWatch(_, w) => db.(watches := db.watches - {w}, rules := db.rules - {w})
  }

  lemma AlwaysFound(userID: int, on: bool)
    ensures forall db :: Found(db, SetAuto(userID, on))
  {
  }

  class Store {
    var watches: map<int, Watch>
    var users: map<int, User>
    var rules: map<int, Rule>
    var outbox: seq<Message>
    var events: seq<Event>

    function Contents(): DB
      reads this
    {
      DB(watches, users, rules, outbox, events)
    }

    constructor (db: DB)
      ensures Contents() == db
    {
      watches, users, rules, outbox, events := db.watches, db.users, db.rules, db.outbox, db.events;
    }

    method MarkChosen(watchID: int, now: Instant)
      requires watchID in watches
      modifies this
      ensures Contents() == old(Contents()).(watches := Chosen(old(Contents()), watchID, now))
    {
      if watches[watchID].batteryAddedAt == 0 {
        watches := watches[watchID := watches[watchID].(batteryAddedAt := now)];
      }
    }

    method InsertBatteryRuleTx(watchID: int, settings: Settings, st: B.BatteryState, now: Instant)
      requires watchID in watches
      modifies this
      ensures Contents() == WithRule(old(Contents()), watchID, settings, st, now)
    {
      var st1 := st;
      if st1.level == B.Blank {
        st1 := st1.(level := B.Unknown);
      }
      if st1.since == 0 {
        st1 := st1.(since := now);
      }
      if watchID !in rules {
        rules := rules[watchID := Rule(settings, now, st1)];
      }
      MarkChosen(watchID, now);
    }

    method SaveBatteryStateTx(watchID: int, old_: Rule, st: B.BatteryState) returns (saved: bool)
      modifies this
      ensures saved == CanSave(old(Contents()), watchID, old_)
      ensures Contents() == Saved(old(Contents()), watchID, old_, st)
    {
      saved := watchID in rules && SameAlertState(rules[watchID].st, old_.st);
      if saved {
        rules := rules[watchID := rules[watchID].(st := st)];
      }
    }

    method InsertAutoBatteryRuleTx(watchID: int, st: B.BatteryState, now: Instant) returns (inserted: bool)
      modifies this
      ensures inserted == CanAutoAdd(old(Contents()), watchID)
      ensures Contents() == AutoAdded(old(Contents()), watchID, st, now)
    {
      if watchID !in watches || watches[watchID].batteryAddedAt != 0 || watchID in rules {
        return false;
      }
      var owner := watches[watchID].userID;
      if owner !in users || !users[owner].autoBattery {
        return false;
      }
      InsertBatteryRuleTx(watchID, FOLLOW_SITE, st, now);
      inserted := true;
    }

    method AddBatteryRule(userID: int, watchID: int, now: Instant) returns (found: bool)
      modifies this
      ensures found == Found(old(Contents()), AddRule(userID, watchID, now))
      ensures Contents() == ByOwner(old(Contents()), AddRule(userID, watchID, now))
    {
      found := watchID in watches && watches[watchID].userID == userID;
      if found {
        InsertBatteryRuleTx(watchID, FOLLOW_SITE, BLANK_STATE, now);
      }
    }

    method DeleteBatteryRule(userID: int, watchID: int, now: Instant) returns (found: bool)
      modifies this
      ensures found == Found(old(Contents()), DeleteRule(userID, watchID, now))
      ensures Contents() == ByOwner(old(Contents()), DeleteRule(userID, watchID, now))
    {
      found := watchID in watches && watches[watchID].userID == userID;
      if found {
        rules := rules - {watchID};
        MarkChosen(watchID, now);
      }
    }

    method UpdateBatteryLevels(userID: int, watchID: int, settings: Settings, now: Instant) returns (found: bool)
      modifies this
      ensures found == Found(old(Contents()), UpdateLevels(userID, watchID, settings, now))
      ensures Contents() == ByOwner(old(Contents()), UpdateLevels(userID, watchID, settings, now))
    {
      found := watchID in watches && watches[watchID].userID == userID && watchID in rules;
      if found {
        rules := rules[watchID := rules[watchID].(settings := settings)];
        if !settings.overchargeOn && rules[watchID].st.level == B.Overcharged {
          rules := rules[watchID := rules[watchID].(
            st := rules[watchID].st.(level := B.Unknown, since := now, candidate := B.Blank, candidateCount := 0,
                                     announced := B.Blank, lastReadingAt := 0))];
        }
      }
    }

    method SetAutoBattery(userID: int, on: bool)
      modifies this
      ensures Contents() == ByOwner(old(Contents()), SetAuto(userID, on))
    {
      if userID in users {
        users := users[userID := users[userID].(autoBattery := on)];
      }
    }

    method SetWatchMute(userID: int, watchID: int, until: Time) returns (found: bool)
      modifies this
      ensures found == Found(old(Contents()), SetMute(userID, watchID, until))
      ensures Contents() == ByOwner(old(Contents()), SetMute(userID, watchID, until))
    {
      found := watchID in watches && watches[watchID].userID == userID;
      if found {
        watches := watches[watchID := watches[watchID].(mutedUntil := until)];
      }
    }

    method SetWatchRecovery(userID: int, watchID: int, on: bool) returns (found: bool)
      modifies this
      ensures found == Found(old(Contents()), SetRecovery(userID, watchID, on))
      ensures Contents() == ByOwner(old(Contents()), SetRecovery(userID, watchID, on))
    {
      found := watchID in watches && watches[watchID].userID == userID;
      if found {
        watches := watches[watchID := watches[watchID].(notifyRecovery := on)];
      }
    }

    /** The rule goes with its watch. */
    method RemoveWatch(userID: int, watchID: int) returns (found: bool)
      modifies this
      ensures found == Found(old(Contents()), DeleteWatch(userID, watchID))
      ensures Contents() == ByOwner(old(Contents()), DeleteWatch(userID, watchID))
    {
      found := watchID in watches && watches[watchID].userID == userID;
      if found {
        watches := watches - {watchID};
        rules := rules - {watchID};
      }
    }

    /** Any one operation of an owner, as the site dispatches it. */
    method Apply(op: OwnerOp) returns (found: bool)
      modifies this
      ensures found == Found(old(Contents()), op)
      ensures Contents() == ByOwner(old(Contents()), op)
    {
      hide Contents, ByOwner, Found;
      match op
      case AddRule(userID, watchID, now) => found := AddBatteryRule(userID, watchID, now);
      case DeleteRule(userID, watchID, now) => found := DeleteBatteryRule(userID, watchID, now);
      case UpdateLevels(userID, watchID, settings, now) => found := UpdateBatteryLevels(userID, watchID, settings, now);
      case SetAuto(userID, on) =>
        AlwaysFound(userID, on);
        SetAutoBattery(userID, on);
        found := true;
      case SetMute(userID, watchID, until) => found := SetWatchMute(userID, watchID, until);
      case SetRecovery(userID, watchID, on) => found := SetWatchRecovery(userID, watchID, on);
      case DeleteWatch(userID, watchID) => found := RemoveWatch(userID, watchID);
    }

    method QueueNotification(m: Message)
      modifies this
      ensures Contents() == old(Contents()).(outbox := old(outbox) + [m])
    {
      outbox := outbox + [m];
    }

    method RecordAlertEvent(e: Event)
      modifies this
      ensures Contents() == old(Contents()).(events := old(events) + [e])
    {
      events := events + [e];
    }

    method SetBatteryBannerTx(userID: int, n: nat)
      modifies this
      ensures Contents() == Bannered(old(Contents()), userID, n)
    {
      if userID in users {
        users := users[userID := users[userID].(banner := users[userID].banner + n)];
      }
    }
  }

  function Bannered(db: DB, userID: int, n: nat): DB {
    if userID in db.users
      then db.(users := db.users[userID := db.users[userID].(banner := db.users[userID].banner + n)]) else db
  }
}
